/**
 The completion endpoint as the listener sees it: the request it posts and the
 possible outcomes of the call (`ChatResponse` and its `Choice`s).
 */
module Completion {
  import opened Wrappers

  /** The request body: model name and prompt text. */
  datatype ChatRequest = ChatRequest(model: string, prompt: string)

  /** The message inside a choice; only its content is read. */
  datatype ChoiceMessage = ChoiceMessage(content: string)

  /** One candidate reply; its message may be null. */
  datatype Choice = Choice(index: int, message: Option<ChoiceMessage>)

  /** The response body; its choices list may be null. */
  datatype ChatResponse = ChatResponse(choices: Option<seq<Choice>>)

  /** What `postForObject` does: throws a `RestClientException` (whose message may be null)
      or returns a possibly-null response. */
  datatype CallOutcome = Threw(errMsg: Option<string>) | Returned(response: Option<ChatResponse>)

  /** The response is null, or its choices are null or empty: the listener's "no response" test. */
  predicate NoChoices(response: Option<ChatResponse>) {
    response.None? || response.value.choices.None? || |response.value.choices.value| == 0
  }
}
