/** The `/api/chat` proxy: it checks the incoming request, then asks the
    completion service with a fixed chain of candidate models and answers
    with the first one the service accepts. */
module ChatApi {
  import opened Common

  const DefaultModel := "gpt-3.5-turbo"
  /** The candidates tried after the caller's own model, in this order. */
  const FallbackModels := ["gpt-3.5-turbo", "gpt-4o-mini", "text-davinci-003"]
  const MaxTokens := 500
  const NoModelsMessage := "No accessible models found. Please check your OpenAI account setup."
  const SuggestedActions := [
    "Add a payment method to your OpenAI account",
    "Verify your account email",
    "Check your API usage limits",
    "Generate a new API key"
  ]

  /** The incoming request: its HTTP method and the two body fields read. */
  datatype ApiRequest = ApiRequest(httpMethod: string, question: Option<string>, model: Option<string>)

  /** One message of the upstream conversation. */
  datatype ChatMessage = ChatMessage(role: string, content: string)

  /** What is posted to the completion service for one candidate. */
  datatype UpstreamRequest = UpstreamRequest(model: string, messages: seq<ChatMessage>, maxTokens: int)

  /** `choices[i].message.content`; `None` when the message or its content is missing. */
  datatype Choice = Choice(content: Option<string>)

  /** What one upstream attempt yields: an HTTP reply with its parsed body
      (`choices` is `None` when the body has no `choices` array), or
      `Rejected` when the request or the parsing of its body throws. */
  datatype UpstreamReply =
    | Reply(status: int, choices: Option<seq<Choice>>, usage: Option<Usage>)
    | Rejected

  datatype Body =
    | Error(message: string)
    | Answer(answer: Option<string>, modelUsed: string, usage: Option<Usage>)
    | NoModel(message: string, suggestedActions: seq<string>)

  datatype ApiResponse = ApiResponse(status: int, body: Body)

  /** The handler's reply together with the number of upstream requests it made. */
  datatype Outcome = Outcome(response: ApiResponse, attempts: nat)

  /** `model` falls back to the default only when the field is absent. */
  function RequestedModel(req: ApiRequest): (m: string)
    ensures req.model.None? ==> m == "gpt-3.5-turbo"
    ensures req.model.Some? ==> m == req.model.value
  {
    if req.model.Some? then req.model.value else DefaultModel
  }

  /** The candidate chain: the caller's model first, then the fallbacks. */
  function ModelsToTry(model: string): (ms: seq<string>)
    ensures |ms| == 4 && ms[0] == model
    ensures ms[1..] == FallbackModels
  {
    [model] + FallbackModels
  }

  /** The request body sent for one candidate: one user message holding the question. */
  function UpstreamFor(model: string, question: string): (u: UpstreamRequest)
    ensures u.model == model && u.maxTokens == 500
    ensures |u.messages| == 1 && u.messages[0].role == "user" && u.messages[0].content == question
  {
    UpstreamRequest(model, [ChatMessage("user", question)], MaxTokens)
  }

  /** `response.ok`: a 2xx status. */
  predicate IsOk(status: int)
  {
    200 <= status <= 299
  }

  /** A reply the handler answers with. Every other reply moves on to the next
      candidate: a rejected request, a 403, any other non-OK status (its
      `throw` is caught by the loop's own `catch`), and an OK reply without a
      `choices` array (reading `choices[0]` throws, and is caught the same way). */
  predicate Accepted(r: UpstreamReply)
    ensures r.Rejected? ==> !Accepted(r)
    ensures r.Reply? && r.status == 403 ==> !Accepted(r)
    ensures r.Reply? && !IsOk(r.status) ==> !Accepted(r)
    ensures r.Reply? && r.choices.None? ==> !Accepted(r)
    ensures r.Reply? && IsOk(r.status) && r.choices.Some? ==> Accepted(r)
  {
    r.Reply? && IsOk(r.status) && r.choices.Some?
  }

  /** `choices[0]?.message?.content`: absent when there is no first choice. */
  function FirstContent(choices: seq<Choice>): (answer: Option<string>)
    ensures |choices| == 0 ==> answer == None
    ensures |choices| > 0 ==> answer == choices[0].content
  {
    if |choices| == 0 then None else choices[0].content
  }

  /** The index of the first accepted reply at or after `from`. */
  function FirstAccepted(replies: seq<UpstreamReply>, from: nat): (k: Option<nat>)
    requires from <= |replies|
    ensures k.Some? ==> from <= k.value < |replies| && Accepted(replies[k.value])
    ensures k.Some? ==> forall j :: from <= j < k.value ==> !Accepted(replies[j])
    ensures k.None? <==> forall j :: from <= j < |replies| ==> !Accepted(replies[j])
    decreases |replies| - from
  {
    if from == |replies| then None
    else if Accepted(replies[from]) then Some(from)
    else FirstAccepted(replies, from + 1)
  }

  predicate GuardsPass(req: ApiRequest, apiKey: Option<string>)
  {
    req.httpMethod == "POST" && Truthy(req.question) && Truthy(apiKey)
  }

  /** What the handler answers and how many upstream requests it makes, given
      the configured key and the reply each candidate would get, in order. */
  function Respond(req: ApiRequest, apiKey: Option<string>, replies: seq<UpstreamReply>): (o: Outcome)
    requires |replies| == |ModelsToTry(RequestedModel(req))|
    ensures o.attempts <= 4
    ensures o.attempts > 0 ==> GuardsPass(req, apiKey)
    ensures o.response.status == 405 <==> req.httpMethod != "POST"
    ensures req.httpMethod != "POST" ==> o == Outcome(ApiResponse(405, Error("Method not allowed")), 0)
    ensures req.httpMethod == "POST" && !Truthy(req.question) ==>
              o == Outcome(ApiResponse(400, Error("Question is required")), 0)
    ensures o.response.status == 400 <==> req.httpMethod == "POST" && !Truthy(req.question)
    ensures o.response.status == 200 <==>
              GuardsPass(req, apiKey) && exists k :: 0 <= k < |replies| && Accepted(replies[k])
    ensures o.response.status == 200 ==>
              && 1 <= o.attempts
              && Accepted(replies[o.attempts - 1])
              && (forall j :: 0 <= j < o.attempts - 1 ==> !Accepted(replies[j]))
              && o.response.body.Answer?
              && o.response.body.modelUsed == ModelsToTry(RequestedModel(req))[o.attempts - 1]
    ensures o.response.status == 200 ==>
              && o.response.body.answer == FirstContent(replies[o.attempts - 1].choices.value)
              && o.response.body.usage == replies[o.attempts - 1].usage
    ensures req.httpMethod == "POST" && Truthy(req.question) && !Truthy(apiKey) ==>
              o == Outcome(ApiResponse(500, Error("OpenAI API key not configured")), 0)
    ensures GuardsPass(req, apiKey) && (forall k :: 0 <= k < |replies| ==> !Accepted(replies[k])) ==>
              o == Outcome(ApiResponse(500, NoModel(NoModelsMessage, SuggestedActions)), 4)
    ensures o.response.status == 500 && o.attempts > 0 ==>
              && o.attempts == 4
              && o.response.body == NoModel(NoModelsMessage, SuggestedActions)
              && |o.response.body.suggestedActions| == 4
  {
    if req.httpMethod != "POST" then
      Outcome(ApiResponse(405, Error("Method not allowed")), 0)
    else if !Truthy(req.question) then
      Outcome(ApiResponse(400, Error("Question is required")), 0)
    else if !Truthy(apiKey) then
      Outcome(ApiResponse(500, Error("OpenAI API key not configured")), 0)
    else
      var models := ModelsToTry(RequestedModel(req));
      match FirstAccepted(replies, 0)
      case Some(k) =>
        Outcome(ApiResponse(200, Answer(FirstContent(replies[k].choices.value), models[k], replies[k].usage)), k + 1)
      case None =>
        Outcome(ApiResponse(500, NoModel(NoModelsMessage, SuggestedActions)), |models|)
  }

  /** The handler itself: the guards, then the loop over the candidates.
      `replies[i]` is what the completion service answers to the i-th request;
      `sent` lists the requests actually made. */
  method Handle(req: ApiRequest, apiKey: Option<string>, replies: seq<UpstreamReply>)
      returns (resp: ApiResponse, sent: seq<UpstreamRequest>)
    requires |replies| == |ModelsToTry(RequestedModel(req))|
    ensures resp == Respond(req, apiKey, replies).response
    ensures |sent| == Respond(req, apiKey, replies).attempts
    ensures forall i :: 0 <= i < |sent| ==>
              sent[i] == UpstreamFor(ModelsToTry(RequestedModel(req))[i], req.question.value)
  {
    sent := [];
    if req.httpMethod != "POST" {
      resp := ApiResponse(405, Error("Method not allowed"));
      return;
    }
    var model := RequestedModel(req);
    if !Truthy(req.question) {
      resp := ApiResponse(400, Error("Question is required"));
      return;
    }
    var question := req.question.value;
    if !Truthy(apiKey) {
      resp := ApiResponse(500, Error("OpenAI API key not configured"));
      return;
    }
    var models := ModelsToTry(model);
    var i := 0;
    while i < |models|
      invariant 0 <= i <= |models|
      invariant |sent| == i
      invariant forall j :: 0 <= j < i ==> sent[j] == UpstreamFor(models[j], question)
      invariant forall j :: 0 <= j < i ==> !Accepted(replies[j])
    {
      sent := sent + [UpstreamFor(models[i], question)];
      var reply := replies[i];
      if reply.Reply? && IsOk(reply.status) {
        if reply.choices.Some? {
          resp := ApiResponse(200, Answer(FirstContent(reply.choices.value), models[i], reply.usage));
          return;
        }
        // Without a `choices` array, `data.choices[0]` throws; the catch moves on.
      } else if reply.Reply? && reply.status == 403 {
        // Model not accessible: continue with the next candidate.
      } else {
        // Any other failure throws, and the catch moves on as well.
      }
      i := i + 1;
    }
    resp := ApiResponse(500, NoModel(NoModelsMessage, SuggestedActions));
  }

  /** The candidate chain always has four entries, the caller's model first. */
  lemma ModelsToTryShape(model: string)
    ensures ModelsToTry(model) == [model, "gpt-3.5-turbo", "gpt-4o-mini", "text-davinci-003"]
  {
  }

  /** A reply that is not accepted never ends the chain early: when the first
      `k + 1` candidates all fail, at least `k + 2` requests are made, unless
      the chain is exhausted. */
  lemma FailureAdvances(req: ApiRequest, apiKey: Option<string>, replies: seq<UpstreamReply>, k: nat)
    requires |replies| == |ModelsToTry(RequestedModel(req))|
    requires GuardsPass(req, apiKey)
    requires k < |replies|
    requires forall j :: 0 <= j <= k ==> !Accepted(replies[j])
    ensures Respond(req, apiKey, replies).attempts >= k + 2 || Respond(req, apiKey, replies).attempts == 4
    ensures Respond(req, apiKey, replies).response.status != 200 ==>
              Respond(req, apiKey, replies).attempts == 4
  {
    var found := FirstAccepted(replies, 0);
    if found.Some? {
      assert found.value > k;
    }
  }

  /** An OK reply whose `choices` array is empty is still answered with 200:
      the answer is absent and no error is reported. */
  lemma EmptyChoicesStillAnswer(req: ApiRequest, apiKey: Option<string>, replies: seq<UpstreamReply>)
    requires |replies| == |ModelsToTry(RequestedModel(req))|
    requires GuardsPass(req, apiKey)
    requires replies[0].Reply? && IsOk(replies[0].status) && replies[0].choices == Some([])
    ensures Respond(req, apiKey, replies).response
              == ApiResponse(200, Answer(None, RequestedModel(req), replies[0].usage))
  {
  }
}
