/** The package's named error values (error.go). */
module Errors {

  /**
   * Go compares these sentinel errors by identity, so each one is a
   * constructor of its own; `Message` gives the text it carries.
   */
  datatype Error =
    | ApiKeyIsRequired
    | PromptIsRequired
    | ParameterOnlyForOpenAIModels
    | MaxTokenOutOfRange
    | TemperatureOutOfRange
    | TopPOutOfRange
    | TopKOutOfRange
    | FrequencyPenaltyOutOfRange
    | PresencePenaltyOutOfRange
    | RepetitionPenaltyOutOfRange

  function Message(e: Error): string
  {
    match e
    case ApiKeyIsRequired => "api key is required"
    case PromptIsRequired => "prompt is required"
    case ParameterOnlyForOpenAIModels => "response format or seed parameter is only available for OpenAI models"
    case MaxTokenOutOfRange => "max token should be between 1 and context length"
    case TemperatureOutOfRange => "temperature should be between 0.0 and 2.0"
    case TopPOutOfRange => "top p should be between 0.0 and 1.0"
    case TopKOutOfRange => "top k should be between 0 and infinity"
    case FrequencyPenaltyOutOfRange => "frequency penalty should be between -2 and 2"
    case PresencePenaltyOutOfRange => "presence penalty should be between -2 and 2"
    case RepetitionPenaltyOutOfRange => "repetition penalty should be between 0.0 and 2.0"
  }
}
