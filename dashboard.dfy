/** The dashboard's question collection: an ordered list of records that
    user actions, timer sweeps and fetch completions update one step at a
    time. Every update rewrites the records with one id and leaves the
    others as they are. */
module Dashboard {
  import opened Common
  import ChatApi

  /** Records are told apart by an opaque id; only equality is used. */
  type Id = int

  datatype Record = Record(
    id: Id,
    question: string,
    model: string,
    answer: Option<string>,
    error: Option<string>,
    loading: bool,
    usage: Option<Usage>,
    timestamp: int)

  /** A request to `/api/chat` the controller has started. */
  datatype Dispatch = Dispatch(id: Id, question: string, model: string)

  /** How a fetch ends, as the controller sees it. */
  datatype Settlement = Answered(answer: Option<string>, usage: Option<Usage>) | Failed(message: string)

  /** The result of one call to `/api/chat`: a reply with the fields of its
      JSON body that are read, or `Threw` when the request or the parsing
      of its body throws. */
  datatype FetchOutcome =
    | Received(ok: bool, message: Option<string>, answer: Option<string>, usage: Option<Usage>)
    | Threw(reason: string)

  /** The steps a record goes through: a fetch starts, or a fetch ends. */
  datatype Transition = Start | Finish(settlement: Settlement)

  /** What the question card shows for a record, in its order of priority. */
  datatype Display = Spinner | ErrorShown(message: string) | AnswerShown(answer: string) | NoAnswerYet

  const FallbackError := "Failed to get response"

  /** The record `addQuestion` creates, before its fetch is started. */
  function NewRecord(id: Id, text: string, model: string, now: int): (rec: Record)
    ensures rec.id == id && rec.question == text && rec.model == model && rec.timestamp == now
    ensures rec.answer == None && rec.error == None && rec.usage == None && !rec.loading
    ensures Shown(rec) == NoAnswerYet
  {
    Record(id, text, model, None, None, false, None, now)
  }

  /** Reading a reply: a non-OK reply or a thrown error becomes a failure,
      whose message is the body's `message` when truthy. */
  function Settle(o: FetchOutcome): (s: Settlement)
    ensures s.Failed? <==> o.Threw? || !o.ok
    ensures o.Threw? ==> s == Failed(o.reason)
    ensures o.Received? && !o.ok && !Truthy(o.message) ==> s == Failed(FallbackError)
    ensures o.Received? && !o.ok && Truthy(o.message) ==> s == Failed(o.message.value)
    ensures o.Received? && o.ok ==> s == Answered(o.answer, o.usage)
  {
    match o
    case Threw(reason) => Failed(reason)
    case Received(ok, message, answer, usage) =>
      if !ok then Failed(if Truthy(message) then message.value else FallbackError)
      else Answered(answer, usage)
  }

  /** How the browser sees a reply of the proxy: `ok` for a 2xx status and
      the `message`, `answer` and `usage` fields of its body. */
  function Receive(resp: ChatApi.ApiResponse): (o: FetchOutcome)
    ensures o.Received?
    ensures o.ok <==> 200 <= resp.status <= 299
    ensures resp.body.Error? ==> o.message == Some(resp.body.message) && o.answer == None && o.usage == None
    ensures resp.body.NoModel? ==> o.message == Some(resp.body.message) && o.answer == None && o.usage == None
    ensures resp.body.Answer? ==> o.message == None && o.answer == resp.body.answer && o.usage == resp.body.usage
  {
    var body := resp.body;
    Received(
      ChatApi.IsOk(resp.status),
      if body.Error? || body.NoModel? then Some(body.message) else None,
      if body.Answer? then body.answer else None,
      if body.Answer? then body.usage else None)
  }

  /** One record's update for a transition. The id, question, model and
      timestamp never change; a start keeps the answer and clears the error;
      a success replaces answer and usage and clears the error; a failure
      records its message and keeps the previous answer. */
  function Step(r: Record, t: Transition): (r': Record)
    ensures r'.id == r.id && r'.question == r.question && r'.model == r.model
    ensures r'.timestamp == r.timestamp
    ensures r'.loading <==> t.Start?
    ensures t.Start? ==> r'.error == None && r'.answer == r.answer && r'.usage == r.usage
    ensures t.Finish? && t.settlement.Answered? ==>
              r'.answer == t.settlement.answer && r'.usage == t.settlement.usage && r'.error == None
    ensures t.Finish? && t.settlement.Failed? ==>
              r'.error == Some(t.settlement.message) && r'.answer == r.answer && r'.usage == r.usage
  {
    match t
    case Start => r.(loading := true, error := None)
    case Finish(Answered(answer, usage)) => r.(loading := false, answer := answer, error := None, usage := usage)
    case Finish(Failed(message)) => r.(loading := false, error := Some(message))
  }

  /** The `prev.map(q => q.id === id ? ... : q)` updater: exactly the records
      with that id take the step, in place; all others are unchanged. */
  function UpdateWhere(qs: seq<Record>, id: Id, t: Transition): (r: seq<Record>)
    ensures |r| == |qs|
    ensures forall i :: 0 <= i < |qs| && qs[i].id == id ==> r[i] == Step(qs[i], t)
    ensures forall i :: 0 <= i < |qs| && qs[i].id != id ==> r[i] == qs[i]
  {
    if qs == [] then []
    else [if qs[0].id == id then Step(qs[0], t) else qs[0]] + UpdateWhere(qs[1..], id, t)
  }

  predicate HasId(qs: seq<Record>, id: Id)
  {
    exists i :: 0 <= i < |qs| && qs[i].id == id
  }

  /** `removeQuestion`'s filter: drops every record with that id. */
  function Without(qs: seq<Record>, id: Id): (r: seq<Record>)
    ensures forall x :: x in r <==> x in qs && x.id != id
    ensures |r| <= |qs|
    ensures !HasId(qs, id) ==> r == qs
  {
    if qs == [] then []
    else if qs[0].id == id then Without(qs[1..], id)
    else [qs[0]] + Without(qs[1..], id)
  }

  /** `questions.find(q => q.id === id)`, as the index of the first match. */
  function FindIndex(qs: seq<Record>, id: Id): (k: Option<nat>)
    ensures k.Some? ==> k.value < |qs| && qs[k.value].id == id
    ensures k.Some? ==> forall j :: 0 <= j < k.value ==> qs[j].id != id
    ensures k.None? <==> !HasId(qs, id)
  {
    if qs == [] then None
    else if qs[0].id == id then Some(0)
    else
      match FindIndex(qs[1..], id)
      case None => None
      case Some(k) => Some(k + 1)
  }

  /** `questions.filter(q => q.loading).length`. */
  function LoadingCount(qs: seq<Record>): (c: nat)
    ensures c <= |qs|
    ensures c == 0 <==> forall i :: 0 <= i < |qs| ==> !qs[i].loading
    ensures c == |qs| <==> forall i :: 0 <= i < |qs| ==> qs[i].loading
  {
    if qs == [] then 0
    else (if qs[0].loading then 1 else 0) + LoadingCount(qs[1..])
  }

  /** The fetches one auto-refresh sweep starts: one per record that is not
      loading, in list order, with the record's own question and model. */
  function SweepTargets(qs: seq<Record>): (ds: seq<Dispatch>)
    ensures |ds| <= |qs|
    ensures forall i :: 0 <= i < |qs| && !qs[i].loading ==>
              Dispatch(qs[i].id, qs[i].question, qs[i].model) in ds
    ensures forall d :: d in ds ==>
              exists i :: 0 <= i < |qs| && !qs[i].loading && d == Dispatch(qs[i].id, qs[i].question, qs[i].model)
  {
    if qs == [] then []
    else
      var rest := SweepTargets(qs[1..]);
      assert forall i :: 1 <= i < |qs| ==> qs[i] == qs[1..][i - 1];
      if qs[0].loading then rest
      else [Dispatch(qs[0].id, qs[0].question, qs[0].model)] + rest
  }

  /** The ids that a sweep over `qs[..n]` dispatches. */
  function IdleIds(qs: seq<Record>, n: nat): set<Id>
    requires n <= |qs|
  {
    set j | 0 <= j < n && !qs[j].loading :: qs[j].id
  }

  /** The load-time normalisation: no record is loading after a reload. */
  function ClearLoading(qs: seq<Record>): (r: seq<Record>)
    ensures |r| == |qs|
    ensures forall i :: 0 <= i < |qs| ==> r[i] == qs[i].(loading := false)
  {
    if qs == [] then [] else [qs[0].(loading := false)] + ClearLoading(qs[1..])
  }

  /** The question card's priority: spinner, then a truthy error, then a
      truthy answer, then "No answer yet". */
  function Shown(r: Record): (d: Display)
    ensures d == Spinner <==> r.loading
    ensures d.ErrorShown? <==> !r.loading && Truthy(r.error)
    ensures d.ErrorShown? ==> d.message == r.error.value
    ensures d.AnswerShown? <==> !r.loading && !Truthy(r.error) && Truthy(r.answer)
    ensures d.AnswerShown? ==> d.answer == r.answer.value
    ensures d == NoAnswerYet <==> !r.loading && !Truthy(r.error) && !Truthy(r.answer)
  {
    if r.loading then Spinner
    else if Truthy(r.error) then ErrorShown(r.error.value)
    else if Truthy(r.answer) then AnswerShown(r.answer.value)
    else NoAnswerYet
  }

  // ---------------------------------------------------------------------
  // Properties of the updaters

  /** A result for an id that is not in the list changes nothing. This is a
      corollary of `UpdateWhere`'s pointwise contract. */
  lemma UpdateAbsentIsIdentity(qs: seq<Record>, id: Id, t: Transition)
    requires !HasId(qs, id)
    ensures UpdateWhere(qs, id, t) == qs
  {
  }

  /** A removed record is never resurrected: once its id is removed, any
      later fetch result for it leaves the list as it is. */
  lemma RemoveThenResolve(qs: seq<Record>, id: Id, s: Settlement)
    ensures !HasId(Without(qs, id), id)
    ensures UpdateWhere(Without(qs, id), id, Finish(s)) == Without(qs, id)
  {
    UpdateAbsentIsIdentity(Without(qs, id), id, Finish(s));
  }

  /** Removal keeps the relative order of the records it keeps: it maps
      a concatenation to the concatenation of the parts. */
  lemma {:induction false} WithoutConcat(a: seq<Record>, b: seq<Record>, id: Id)
    ensures Without(a + b, id) == Without(a, id) + Without(b, id)
  {
    if a == [] {
      assert a + b == b;
    } else {
      assert (a + b)[1..] == a[1..] + b;
      WithoutConcat(a[1..], b, id);
    }
  }

  /** Every record is either counted as loading or picked by a sweep. */
  lemma {:induction false} SweepPartition(qs: seq<Record>)
    ensures LoadingCount(qs) + |SweepTargets(qs)| == |qs|
  {
    if qs != [] {
      SweepPartition(qs[1..]);
    }
  }

  /** A sweep picks the idle records in list order: over a concatenation it
      dispatches the first part's targets, then the second's. */
  lemma {:induction false} SweepConcat(a: seq<Record>, b: seq<Record>)
    ensures SweepTargets(a + b) == SweepTargets(a) + SweepTargets(b)
  {
    if a == [] {
      assert a + b == b;
    } else {
      assert (a + b)[1..] == a[1..] + b;
      SweepConcat(a[1..], b);
    }
  }

  /** After a reload no record is loading, so the next sweep refreshes every
      record; all other fields are kept. */
  lemma ReloadRefreshesAll(qs: seq<Record>)
    ensures LoadingCount(ClearLoading(qs)) == 0
    ensures |SweepTargets(ClearLoading(qs))| == |qs|
  {
    SweepPartition(ClearLoading(qs));
  }

  /** Normalising twice is normalising once. */
  lemma ClearLoadingIdempotent(qs: seq<Record>)
    ensures ClearLoading(ClearLoading(qs)) == ClearLoading(qs)
  {
  }

  /** A settled fetch leaves the record out of the loading state; a
      non-empty answer is shown, and so is a non-empty error. */
  lemma SettledIsShown(r: Record, s: Settlement)
    ensures Shown(Step(r, Finish(s))) != Spinner
    ensures s.Answered? && Truthy(s.answer) ==> Shown(Step(r, Finish(s))) == AnswerShown(s.answer.value)
    ensures s.Failed? && s.message != "" ==> Shown(Step(r, Finish(s))) == ErrorShown(s.message)
  {
  }

  /** A started fetch shows the spinner whatever the record held before. */
  lemma StartedShowsSpinner(r: Record)
    ensures Shown(Step(r, Start)) == Spinner
  {
  }

  /** The list after a sweep has walked `snapshot[..n]`: every record whose
      id was dispatched has been started, every other record is untouched. */
  predicate SweptUpTo(snapshot: seq<Record>, n: nat, qs: seq<Record>)
    requires n <= |snapshot|
  {
    && |qs| == |snapshot|
    && forall k :: 0 <= k < |snapshot| ==>
         qs[k] == if snapshot[k].id in IdleIds(snapshot, n) then Step(snapshot[k], Start) else snapshot[k]
  }

  /** One step of the sweep: starting the next idle record (or skipping a
      loading one) extends the walked prefix by one. */
  lemma SweepStep(snapshot: seq<Record>, i: nat, qs: seq<Record>)
    requires i < |snapshot|
    requires SweptUpTo(snapshot, i, qs)
    ensures !snapshot[i].loading ==> SweptUpTo(snapshot, i + 1, UpdateWhere(qs, snapshot[i].id, Start))
    ensures snapshot[i].loading ==> SweptUpTo(snapshot, i + 1, qs)
  {
    var id := snapshot[i].id;
    if !snapshot[i].loading {
      assert IdleIds(snapshot, i + 1) == IdleIds(snapshot, i) + {id};
      var qs' := UpdateWhere(qs, id, Start);
      forall k | 0 <= k < |snapshot|
        ensures qs'[k] == if snapshot[k].id in IdleIds(snapshot, i + 1) then Step(snapshot[k], Start) else snapshot[k]
      {
        assert qs[k].id == snapshot[k].id;
      }
    } else {
      assert IdleIds(snapshot, i + 1) == IdleIds(snapshot, i);
    }
  }

  /** After a complete sweep every record is loading. */
  lemma SweptAllLoading(snapshot: seq<Record>, qs: seq<Record>)
    requires SweptUpTo(snapshot, |snapshot|, qs)
    ensures LoadingCount(qs) == |qs|
  {
    forall k | 0 <= k < |qs| ensures qs[k].loading {
      if snapshot[k].id !in IdleIds(snapshot, |snapshot|) {
        assert snapshot[k].loading;
      }
    }
  }

  // ---------------------------------------------------------------------
  // The controller

  class Controller {
    var questions: seq<Record>
    var currentLayout: string
    var refreshInterval: int

    constructor ()
      ensures questions == [] && currentLayout == "grid-2" && refreshInterval == 0
    {
      questions := [];
      currentLayout := "grid-2";
      refreshInterval := 0;
    }

    /** The saved collection is read back with every `loading` flag cleared;
        `None` stands for nothing saved or a value that does not parse. */
    method Restore(saved: Option<seq<Record>>)
      modifies this`questions
      ensures saved.Some? ==> questions == ClearLoading(saved.value)
      ensures saved.None? ==> questions == old(questions)
    {
      if saved.Some? {
        questions := ClearLoading(saved.value);
      }
    }

    /** The synchronous part of `askChatGPT`: mark the record as fetching and
        send its request. The result comes back later through `Resolve`. */
    method Ask(id: Id, text: string, model: string) returns (d: Dispatch)
      modifies this`questions
      ensures questions == UpdateWhere(old(questions), id, Start)
      ensures d == Dispatch(id, text, model)
    {
      questions := UpdateWhere(questions, id, Start);
      d := Dispatch(id, text, model);
    }

    /** The completion of a fetch for `id`, applied whenever it arrives. */
    method Resolve(id: Id, outcome: FetchOutcome)
      modifies this`questions
      ensures questions == UpdateWhere(old(questions), id, Finish(Settle(outcome)))
      ensures !HasId(old(questions), id) ==> questions == old(questions)
    {
      questions := UpdateWhere(questions, id, Finish(Settle(outcome)));
      if !HasId(old(questions), id) {
        UpdateAbsentIsIdentity(old(questions), id, Finish(Settle(outcome)));
      }
    }

    /** `addQuestion`: append a fresh record at the end and start its fetch.
        `id` and `now` stand for `generateId()` and `Date.now()`. */
    method AddQuestion(id: Id, text: string, model: string, now: int) returns (d: Dispatch)
      requires !HasId(questions, id)
      modifies this`questions
      ensures questions == old(questions) + [Step(NewRecord(id, text, model, now), Start)]
      ensures d == Dispatch(id, text, model)
    {
      questions := questions + [NewRecord(id, text, model, now)];
      d := Ask(id, text, model);
    }

    /** `refreshQuestion`: restart the fetch of the first record with that id,
        unless there is none or it is loading already. */
    method Refresh(id: Id) returns (d: Option<Dispatch>)
      modifies this`questions
      ensures FindIndex(old(questions), id).None? ==> d == None && questions == old(questions)
      ensures FindIndex(old(questions), id).Some? && old(questions)[FindIndex(old(questions), id).value].loading ==>
                d == None && questions == old(questions)
      ensures FindIndex(old(questions), id).Some? && !old(questions)[FindIndex(old(questions), id).value].loading ==>
                var q := old(questions)[FindIndex(old(questions), id).value];
                d == Some(Dispatch(id, q.question, q.model)) && questions == UpdateWhere(old(questions), id, Start)
    {
      var k := FindIndex(questions, id);
      d := None;
      if k.Some? && !questions[k.value].loading {
        var q := questions[k.value];
        var sent := Ask(id, q.question, q.model);
        d := Some(sent);
      }
    }

    /** `removeQuestion`. */
    method Remove(id: Id)
      modifies this`questions
      ensures questions == Without(old(questions), id)
      ensures !HasId(questions, id)
    {
      questions := Without(questions, id);
      RemoveThenResolve(old(questions), id, Failed(""));
    }

    /** One firing of the auto-refresh timer: walk the current list and start
        a fetch for every record that is not loading. */
    method Sweep() returns (ds: seq<Dispatch>)
      modifies this`questions
      ensures ds == SweepTargets(old(questions))
      ensures SweptUpTo(old(questions), |old(questions)|, questions)
      ensures LoadingCount(questions) == |questions|
    {
      var snapshot := questions;
      ds := [];
      var i := 0;
      while i < |snapshot|
        invariant 0 <= i <= |snapshot|
        invariant ds == SweepTargets(snapshot[..i])
        invariant SweptUpTo(snapshot, i, questions)
      {
        var q := snapshot[i];
        SweepConcat(snapshot[..i], [q]);
        assert snapshot[..i + 1] == snapshot[..i] + [q];
        SweepStep(snapshot, i, questions);
        if !q.loading {
          var d := Ask(q.id, q.question, q.model);
          ds := ds + [d];
        }
        i := i + 1;
      }
      assert snapshot[..i] == snapshot;
      SweptAllLoading(snapshot, questions);
    }

    /** The auto-refresh selector; 0 stands for manual refresh only. */
    method SetRefreshInterval(ms: int)
      modifies this`refreshInterval
      ensures refreshInterval == ms
    {
      refreshInterval := ms;
    }

    method SetLayout(layout: string)
      modifies this`currentLayout
      ensures currentLayout == layout
    {
      currentLayout := layout;
    }

    /** The header's counters: loading records never exceed the total. */
    method Counts() returns (loadingCount: nat, totalQuestions: nat)
      ensures loadingCount == LoadingCount(questions) && totalQuestions == |questions|
      ensures loadingCount <= totalQuestions
    {
      loadingCount := LoadingCount(questions);
      totalQuestions := |questions|;
    }
  }

  // ---------------------------------------------------------------------
  // End to end

  /** Asking "What is 2+2?" with model "m1": the first candidate is refused
      with 403, the second answers "4". The proxy reports the second
      candidate, and the record the dashboard appended ends answered. */
  lemma FallbackScenario(qs: seq<Record>, id: Id, now: int, usage: Option<Usage>)
    requires !HasId(qs, id)
    ensures
      var req := ChatApi.ApiRequest("POST", Some("What is 2+2?"), Some("m1"));
      var replies := [ChatApi.Reply(403, None, None),
                      ChatApi.Reply(200, Some([ChatApi.Choice(Some("4"))]), usage),
                      ChatApi.Rejected, ChatApi.Rejected];
      var resp := ChatApi.Respond(req, Some("key"), replies).response;
      var started := UpdateWhere(qs + [NewRecord(id, "What is 2+2?", "m1", now)], id, Start);
      var settled := UpdateWhere(started, id, Finish(Settle(Receive(resp))));
      && resp == ChatApi.ApiResponse(200, ChatApi.Answer(Some("4"), "gpt-3.5-turbo", usage))
      && |settled| == |qs| + 1
      && settled[..|qs|] == qs
      && Shown(settled[|qs|]) == AnswerShown("4")
      && settled[|qs|].answer == Some("4")
  {
    var req := ChatApi.ApiRequest("POST", Some("What is 2+2?"), Some("m1"));
    var replies := [ChatApi.Reply(403, None, None),
                    ChatApi.Reply(200, Some([ChatApi.Choice(Some("4"))]), usage),
                    ChatApi.Rejected, ChatApi.Rejected];
    assert !ChatApi.Accepted(replies[0]) && ChatApi.Accepted(replies[1]);
    assert ChatApi.FirstAccepted(replies, 0) == Some(1);
    var resp := ChatApi.Respond(req, Some("key"), replies).response;
    var added := qs + [NewRecord(id, "What is 2+2?", "m1", now)];
    var started := UpdateWhere(added, id, Start);
    var settled := UpdateWhere(started, id, Finish(Settle(Receive(resp))));
    forall i | 0 <= i < |qs| ensures settled[i] == qs[i] {
      assert added[i] == qs[i];
    }
    assert settled[..|qs|] == qs;
  }

  /** When every candidate fails, the record ends failed and shows the
      proxy's aggregate message, keeping whatever answer it had before. */
  lemma AllCandidatesFailScenario(r: Record, req: ChatApi.ApiRequest, key: Option<string>,
                                  replies: seq<ChatApi.UpstreamReply>)
    requires |replies| == |ChatApi.ModelsToTry(ChatApi.RequestedModel(req))|
    requires ChatApi.GuardsPass(req, key)
    requires forall j :: 0 <= j < |replies| ==> !ChatApi.Accepted(replies[j])
    ensures
      var settled := Step(r, Finish(Settle(Receive(ChatApi.Respond(req, key, replies).response))));
      && settled.error == Some(ChatApi.NoModelsMessage)
      && settled.answer == r.answer
      && Shown(settled) == ErrorShown(ChatApi.NoModelsMessage)
  {
    assert ChatApi.FirstAccepted(replies, 0).None?;
  }
}
