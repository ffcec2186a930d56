/** Values shared by the dashboard, its control panel and the chat proxy. */
module Common {

  /** A JSON field that may be absent: `None` stands for `undefined` or `null`. */
  datatype Option<+T> = None | Some(value: T)

  /** Token accounting that the completion service attaches to an answer.
      The dashboard stores it and passes it on without looking inside. */
  datatype Usage = Usage(promptTokens: nat, completionTokens: nat, totalTokens: nat)

  /** JavaScript truthiness of an optional string: absent and "" are falsy. */
  predicate Truthy(s: Option<string>)
  {
    s.Some? && s.value != ""
  }
}
