/** The model providers of the playground: the cases of the exhaustive `switch` statements over `ModelProvider`. */
module ModelProviders {
  datatype ModelProvider = OpenAI | AzureOpenAI | Anthropic
}
