/**
  The think records of the black box and a value-level description of its
  state: what one `ask` does to it (`AskStep`), what `trace_think` answers
  (`TraceResult`), and the properties these keep.
*/
module Trace {
  import opened Text
  import opened Wrappers
  import opened Gate
  import opened Answers

  /** What `_core_think` hands to `_record_think`. */
  datatype ThinkResult = ThinkResult(answer: string, cogDimension: nat, thinkBasis: string)

  /** One entry of `think_records`. */
  datatype ThinkRecord = ThinkRecord(
    thinkId: string,
    thinkTime: string,
    question: string,
    answer: string,
    cogDepth: nat,
    thinkBasis: string,
    cogEvolution: string)

  /** The mutable part of `ZhesiBlackBoxConfig`. */
  datatype State = State(isRecording: bool, cogDepth: nat, records: seq<ThinkRecord>)

  /** Why `ask` fails: the gate refused the question, or recording is paused. */
  datatype AskError = Rejected(reason: GateError) | RecordingPaused

  /** What a successful `ask` reports. */
  datatype AskReply = AskReply(
    question: string,
    answer: string,
    cogDimension: nat,
    thinkBasis: string,
    thinkId: string)

  datatype AskOutcome = AskOutcome(state: State, reply: Result<AskReply, AskError>)

  /** Why `trace_think` finds nothing. */
  datatype TraceError = MalformedId | NotFound(thinkId: string)

  const IdPrefix: string := "think_"

  /** A record id: the prefix and the millisecond clock reading in decimal. */
  function ThinkId(millis: nat): (id: string)
    ensures StartsWith(id, IdPrefix) && |id| > |IdPrefix| && IsDigits(id[|IdPrefix|..])
  {
    var id := IdPrefix + NatToString(millis);
    assert id[|IdPrefix|..] == NatToString(millis);
    id
  }

  /** Two records get the same id only from the same clock reading. */
  lemma {:induction false} ThinkIdInjective(m: nat, n: nat)
    ensures ThinkId(m) == ThinkId(n) ==> m == n
  {
    if ThinkId(m) == ThinkId(n) {
      assert NatToString(m) == ThinkId(m)[|IdPrefix|..];
      assert NatToString(n) == ThinkId(n)[|IdPrefix|..];
      NatToStringInjective(m, n);
    }
  }

  /** The basis text `_core_think` states for a depth. */
  function Basis(depth: nat): string {
    "本体论思考+认知深度" + NatToString(depth) + "维+0×∞=1公理推导"
  }

  /** The transition text `_record_think` stores: from depth - 1 to depth. */
  function Evolution(depth: nat): string {
    "认知深度从" + IntToString(depth - 1) + "提升至" + NatToString(depth)
  }

  /** What `_core_think` computes once the counter has become `depth`. */
  function Think(question: string, depth: nat): ThinkResult {
    ThinkResult(Answer(question, depth, depth), depth, Basis(depth))
  }

  /** The record `_record_think` builds; `configDepth` is the counter it reads. */
  function NewRecord(question: string, result: ThinkResult, configDepth: nat,
                     millis: nat, thinkTime: string): ThinkRecord
  {
    ThinkRecord(ThinkId(millis), thinkTime, Strip(question), result.answer,
                result.cogDimension, result.thinkBasis, Evolution(configDepth))
  }

  function Last(records: seq<ThinkRecord>): ThinkRecord
    requires |records| > 0
  {
    records[|records| - 1]
  }

  /** One call of `ask`: the gate first, then the pause check; on success the
      counter goes up by one and one record is appended. */
  function AskStep(s: State, question: string, millis: nat, thinkTime: string): AskOutcome
  {
    match CheckLegal(question)
    case Illegal(e) => AskOutcome(s, Failure(Rejected(e)))
    case Legal =>
      if !s.isRecording then AskOutcome(s, Failure(RecordingPaused))
      else
        var depth := s.cogDepth + 1;
        var result := Think(question, depth);
        var records := s.records + [NewRecord(question, result, depth, millis, thinkTime)];
        AskOutcome(State(s.isRecording, depth, records),
                   Success(AskReply(Strip(question), result.answer, result.cogDimension,
                                    result.thinkBasis, Last(records).thinkId)))
  }

  /** What one `ask` promises: a refusal or a pause changes nothing; a
      success raises the counter by one, keeps the earlier records, and
      appends a record of the stripped question at the new depth, whose id
      is the one reported. */
  lemma AskStepOutcomes(s: State, question: string, millis: nat, thinkTime: string)
    ensures var o := AskStep(s, question, millis, thinkTime);
      CheckLegal(question).Illegal? ==> o == AskOutcome(s, Failure(Rejected(CheckLegal(question).error)))
    ensures var o := AskStep(s, question, millis, thinkTime);
      CheckLegal(question).Legal? && !s.isRecording ==> o == AskOutcome(s, Failure(RecordingPaused))
    ensures var o := AskStep(s, question, millis, thinkTime);
      o.reply.Success? <==> CheckLegal(question).Legal? && s.isRecording
    ensures var o := AskStep(s, question, millis, thinkTime);
      o.reply.Success? ==>
        && o.state.cogDepth == s.cogDepth + 1
        && o.state.isRecording == s.isRecording
        && |o.state.records| == |s.records| + 1
        && o.state.records[..|s.records|] == s.records
        && Last(o.state.records).question == Strip(question)
        && Last(o.state.records).cogDepth == o.state.cogDepth
        && Last(o.state.records).cogEvolution == Evolution(o.state.cogDepth)
        && Last(o.state.records).thinkId == ThinkId(millis)
        && o.reply.value.thinkId == Last(o.state.records).thinkId
        && o.reply.value.question == Strip(question)
        && o.reply.value.answer == Last(o.state.records).answer
        && o.reply.value.cogDimension == o.state.cogDepth
  {
  }

  /** A record as `ask` writes it: legal stripped question, the answer and
      texts for its depth, and an id `trace_think` accepts. */
  predicate WellFormedRecord(r: ThinkRecord) {
    && r.cogDepth >= 1
    && StartsWith(r.thinkId, IdPrefix)
    && Strip(r.question) == r.question
    && CheckLegal(r.question) == Legal
    && r.answer == Answer(r.question, r.cogDepth, r.cogDepth)
    && r.thinkBasis == Basis(r.cogDepth)
    && r.cogEvolution == Evolution(r.cogDepth)
  }

  predicate WellFormedTrace(records: seq<ThinkRecord>) {
    forall i :: 0 <= i < |records| ==> WellFormedRecord(records[i])
  }

  /** A successful `ask` passed the gate while recording, and its new
      state is the old one with the counter raised and one record appended. */
  lemma AskSucceeded(s: State, question: string, millis: nat, thinkTime: string)
    requires AskStep(s, question, millis, thinkTime).reply.Success?
    ensures CheckLegal(question) == Legal && s.isRecording
    ensures AskStep(s, question, millis, thinkTime).state
              == State(s.isRecording, s.cogDepth + 1,
                       s.records + [NewRecord(question, Think(question, s.cogDepth + 1), s.cogDepth + 1, millis, thinkTime)])
  {
  }

  /** A refused question changes nothing and reports the gate's reason. */
  lemma AskStepWhenRefused(s: State, question: string, millis: nat, thinkTime: string)
    requires CheckLegal(question).Illegal?
    ensures AskStep(s, question, millis, thinkTime) == AskOutcome(s, Failure(Rejected(CheckLegal(question).error)))
  {
  }

  /** A legal question while recording is paused changes nothing either. */
  lemma AskStepWhenPaused(s: State, question: string, millis: nat, thinkTime: string)
    requires CheckLegal(question) == Legal && !s.isRecording
    ensures AskStep(s, question, millis, thinkTime) == AskOutcome(s, Failure(RecordingPaused))
  {
  }

  /** The whole outcome of an `ask` that passes the gate while recording. */
  lemma AskStepWhenLegal(s: State, question: string, millis: nat, thinkTime: string)
    requires CheckLegal(question) == Legal && s.isRecording
    ensures var depth := s.cogDepth + 1;
      var record := NewRecord(question, Think(question, depth), depth, millis, thinkTime);
      AskStep(s, question, millis, thinkTime)
        == AskOutcome(State(s.isRecording, depth, s.records + [record]),
                      Success(AskReply(Strip(question), record.answer, depth, record.thinkBasis, record.thinkId)))
  {
  }

  /** The record a successful `ask` appends is well formed. */
  lemma {:induction false} AskedRecordWellFormed(s: State, question: string, millis: nat, thinkTime: string)
    requires AskStep(s, question, millis, thinkTime).reply.Success?
    ensures WellFormedRecord(Last(AskStep(s, question, millis, thinkTime).state.records))
  {
    AskSucceeded(s, question, millis, thinkTime);
    NewRecordWellFormed(question, s.cogDepth + 1, millis, thinkTime);
  }

  /** The record of a legal question thought at a positive depth is well
      formed. */
  lemma {:induction false} NewRecordWellFormed(question: string, depth: nat, millis: nat, thinkTime: string)
    requires CheckLegal(question) == Legal && depth >= 1
    ensures WellFormedRecord(NewRecord(question, Think(question, depth), depth, millis, thinkTime))
  {
    StripIdempotent(question);
    CheckLegalOfStripped(question);
  }

  /** Every record `ask` appends is well formed, so the trace stays so. */
  lemma {:induction false} AskKeepsTraceWellFormed(s: State, question: string, millis: nat, thinkTime: string)
    requires WellFormedTrace(s.records)
    ensures WellFormedTrace(AskStep(s, question, millis, thinkTime).state.records)
  {
    if AskStep(s, question, millis, thinkTime).reply.Success? {
      AskSucceeded(s, question, millis, thinkTime);
      var depth := s.cogDepth + 1;
      NewRecordWellFormed(question, depth, millis, thinkTime);
      AppendKeepsWellFormed(s.records, NewRecord(question, Think(question, depth), depth, millis, thinkTime));
    } else {
      AskFailed(s, question, millis, thinkTime);
    }
  }

  /** A failed `ask` leaves the state as it was. */
  lemma AskFailed(s: State, question: string, millis: nat, thinkTime: string)
    requires AskStep(s, question, millis, thinkTime).reply.Failure?
    ensures AskStep(s, question, millis, thinkTime).state == s
  {
  }

  lemma {:induction false} AppendKeepsWellFormed(records: seq<ThinkRecord>, x: ThinkRecord)
    requires WellFormedTrace(records) && WellFormedRecord(x)
    ensures WellFormedTrace(records + [x])
  {
    forall i | 0 <= i < |records + [x]|
      ensures WellFormedRecord((records + [x])[i])
    {
      if i < |records| {
        assert (records + [x])[i] == records[i];
      }
    }
  }

  /** Without a reset the trace records a strictly rising depth, and the
      counter is at least the depth of every record. */
  predicate DepthsRise(s: State) {
    && (forall i :: 0 <= i < |s.records| ==> s.records[i].cogDepth <= s.cogDepth)
    && (forall i, j :: 0 <= i < j < |s.records| ==> s.records[i].cogDepth < s.records[j].cogDepth)
  }

  /** `ask` keeps the depths rising: the new record's depth exceeds every
      earlier one. */
  lemma {:induction false} AskKeepsDepthsRising(s: State, question: string, millis: nat, thinkTime: string)
    requires DepthsRise(s)
    ensures DepthsRise(AskStep(s, question, millis, thinkTime).state)
  {
    var o := AskStep(s, question, millis, thinkTime);
    if o.reply.Success? {
      var depth := s.cogDepth + 1;
      var record := NewRecord(question, Think(question, depth), depth, millis, thinkTime);
      assert o.state == State(s.isRecording, depth, s.records + [record]);
      RisingAfterAppend(s, record);
    } else {
      assert o.state == s;
    }
  }

  /** Appending a record one deeper than the counter keeps the depths rising. */
  lemma {:induction false} RisingAfterAppend(s: State, record: ThinkRecord)
    requires DepthsRise(s) && record.cogDepth == s.cogDepth + 1
    ensures DepthsRise(State(s.isRecording, s.cogDepth + 1, s.records + [record]))
  {
    var records := s.records + [record];
    forall i | 0 <= i < |records|
      ensures records[i].cogDepth <= s.cogDepth + 1
    {
      if i < |s.records| { assert records[i] == s.records[i]; }
    }
    forall i, j | 0 <= i < j < |records|
      ensures records[i].cogDepth < records[j].cogDepth
    {
      assert records[i] == s.records[i];
      if j < |s.records| { assert records[j] == s.records[j]; }
    }
  }

  /** `reset_cog_depth` can break the rise: once the counter is back at 0
      while the trace holds a record, the next record is no deeper than the
      first one. */
  lemma {:induction false} ResetBreaksRise(s: State, question: string, millis: nat, thinkTime: string)
    requires s.cogDepth == 0 && |s.records| > 0 && s.records[0].cogDepth >= 1
    requires AskStep(s, question, millis, thinkTime).reply.Success?
    ensures !DepthsRise(AskStep(s, question, millis, thinkTime).state)
  {
    var record := NewRecord(question, Think(question, 1), 1, millis, thinkTime);
    assert AskStep(s, question, millis, thinkTime).state == State(s.isRecording, 1, s.records + [record]);
    NotRisingAfter(State(s.isRecording, 1, s.records + [record]), |s.records|);
  }

  /** A record no deeper than the first one breaks the rise. */
  lemma NotRisingAfter(s: State, j: nat)
    requires 0 < j < |s.records| && s.records[j].cogDepth <= s.records[0].cogDepth
    ensures !DepthsRise(s)
  {
  }

  /** A successful `ask` answers at the raised depth, and the general
      answer shows that same depth. */
  lemma {:induction false} AskedAnswer(s: State, question: string, millis: nat, thinkTime: string)
    requires AskStep(s, question, millis, thinkTime).reply.Success?
    ensures var o := AskStep(s, question, millis, thinkTime);
      o.reply.value.answer == Answer(question, s.cogDepth + 1, s.cogDepth + 1)
  {
    AskSucceeded(s, question, millis, thinkTime);
    AskStepWhenLegal(s, question, millis, thinkTime);
  }

  /** The same question about 存在, asked twice in a fresh session, is
      answered first with the depth-1 text and then with the depth-2 text. */
  lemma {:induction false} ExistenceAskedTwice(s: State, question: string, m1: nat, t1: string, m2: nat, t2: string)
    requires s.isRecording && s.cogDepth == 0
    requires CheckLegal(question) == Legal && Contains(Strip(question), "存在")
    ensures var o1 := AskStep(s, question, m1, t1);
      var o2 := AskStep(o1.state, question, m2, t2);
      && o1.reply.Success? && o1.reply.value.answer == Words(ExistenceDepth1)
      && o2.reply.Success? && o2.reply.value.answer == Words(ExistenceDepth2)
      && o2.reply.value.cogDimension == 2
  {
    var o1 := AskStep(s, question, m1, t1);
    AskStepWhenLegal(s, question, m1, t1);
    AskStepWhenLegal(o1.state, question, m2, t2);
    ExistenceHasThreeTiers(Strip(question));
  }

  /** One `ask` with its clock readings. */
  datatype Request = Request(question: string, millis: nat, thinkTime: string)

  /** The state after asking each request in turn. */
  function AskAll(s: State, requests: seq<Request>): State
    decreases |requests|
  {
    if requests == [] then s
    else AskAll(AskStep(s, requests[0].question, requests[0].millis, requests[0].thinkTime).state,
                requests[1..])
  }

  /** Every question of `requests` passes the gate. */
  predicate AllLegal(requests: seq<Request>)
    decreases |requests|
  {
    requests == [] || (CheckLegal(requests[0].question) == Legal && AllLegal(requests[1..]))
  }

  /** n legal questions asked while recording raise the depth by n and
      append n records. */
  lemma {:induction false} LegalAsksCount(s: State, requests: seq<Request>)
    requires s.isRecording && AllLegal(requests)
    decreases |requests|
    ensures AskAll(s, requests).isRecording
    ensures AskAll(s, requests).cogDepth == s.cogDepth + |requests|
    ensures |AskAll(s, requests).records| == |s.records| + |requests|
  {
    if requests != [] {
      var r := requests[0];
      LegalAskGrows(s, r);
      LegalAsksCount(AskStep(s, r.question, r.millis, r.thinkTime).state, requests[1..]);
    }
  }

  /** Asking never removes or rewrites a record: the earlier trace is a
      prefix of the later one, whatever was asked. */
  lemma {:induction false} AsksKeepEarlierRecords(s: State, requests: seq<Request>)
    decreases |requests|
    ensures |s.records| <= |AskAll(s, requests).records|
    ensures AskAll(s, requests).records[..|s.records|] == s.records
  {
    if requests != [] {
      var r := requests[0];
      var next := AskStep(s, r.question, r.millis, r.thinkTime).state;
      AskKeepsRecords(s, r);
      AsksKeepEarlierRecords(next, requests[1..]);
      var final := AskAll(next, requests[1..]);
      assert final.records[..|s.records|] == final.records[..|next.records|][..|s.records|];
    }
  }

  /** One ask keeps the earlier records as a prefix. */
  lemma {:induction false} AskKeepsRecords(s: State, r: Request)
    ensures var next := AskStep(s, r.question, r.millis, r.thinkTime).state;
      |s.records| <= |next.records| && next.records[..|s.records|] == s.records
  {
  }

  /** One legal ask while recording: the counter and the trace grow by one. */
  lemma {:induction false} LegalAskGrows(s: State, r: Request)
    requires s.isRecording && CheckLegal(r.question) == Legal
    ensures var next := AskStep(s, r.question, r.millis, r.thinkTime).state;
      && next.isRecording
      && next.cogDepth == s.cogDepth + 1
      && |next.records| == |s.records| + 1
  {
  }

  /** Failing asks, however many, change nothing: every question is refused
      by the gate, or recording is paused. */
  lemma {:induction false} FailedAsksChangeNothing(s: State, requests: seq<Request>)
    requires !s.isRecording || forall i :: 0 <= i < |requests| ==> CheckLegal(requests[i].question).Illegal?
    decreases |requests|
    ensures AskAll(s, requests) == s
  {
    if requests != [] {
      if s.isRecording {
        assert CheckLegal(requests[0].question).Illegal?;
        forall i | 0 <= i < |requests[1..]|
          ensures CheckLegal(requests[1..][i].question).Illegal?
        {
          assert requests[1..][i] == requests[i + 1];
        }
      }
      FailedAsksChangeNothing(s, requests[1..]);
    }
  }

  /** The position of the first record with id `id`, if any. */
  function Lookup(records: seq<ThinkRecord>, id: string): (r: Option<nat>)
    ensures r.Some? ==> r.value < |records| && records[r.value].thinkId == id
    ensures r.Some? ==> forall j :: 0 <= j < r.value ==> records[j].thinkId != id
    ensures r.None? <==> forall j :: 0 <= j < |records| ==> records[j].thinkId != id
  {
    if |records| == 0 then None
    else match Lookup(records[..|records| - 1], id)
      case Some(i) => Some(i)
      case None => if Last(records).thinkId == id then Some(|records| - 1) else None
  }

  /** `trace_think(id)`: a malformed id is refused, otherwise the first
      record with that id is returned or the id is reported missing. */
  function TraceResult(records: seq<ThinkRecord>, id: string): (r: Result<ThinkRecord, TraceError>)
    ensures !StartsWith(id, IdPrefix) ==> r == Failure(MalformedId)
    ensures StartsWith(id, IdPrefix) ==>
              (r.Success? <==> exists i :: 0 <= i < |records| && records[i].thinkId == id)
    ensures r.Success? ==> exists i :: 0 <= i < |records| && records[i] == r.value && r.value.thinkId == id
                             && forall j :: 0 <= j < i ==> records[j].thinkId != id
    ensures r.Failure? && StartsWith(id, IdPrefix) ==> r == Failure(NotFound(id))
  {
    if |id| == 0 || !StartsWith(id, IdPrefix) then Failure(MalformedId)
    else match Lookup(records, id)
      case Some(i) => Success(records[i])
      case None => Failure(NotFound(id))
  }

  /** Appending a record never changes which earlier record an id finds. */
  lemma {:induction false} LookupAfterAppend(records: seq<ThinkRecord>, x: ThinkRecord, id: string)
    ensures Lookup(records + [x], id) ==
      if Lookup(records, id).Some? then Lookup(records, id)
      else if x.thinkId == id then Some(|records|)
      else None
  {
    assert (records + [x])[..|records|] == records;
  }

  /** An id that `trace_think` resolves keeps resolving to the same record
      after any `ask`. */
  lemma {:induction false} AskKeepsEarlierTraces(s: State, question: string, millis: nat, thinkTime: string, id: string)
    requires TraceResult(s.records, id).Success?
    ensures TraceResult(AskStep(s, question, millis, thinkTime).state.records, id) == TraceResult(s.records, id)
  {
    var o := AskStep(s, question, millis, thinkTime);
    if o.reply.Success? {
      assert o.state.records == s.records + [Last(o.state.records)];
      LookupAfterAppend(s.records, Last(o.state.records), id);
    }
  }

  /** When no earlier record carries the clock reading's id, the id that a
      successful `ask` returns leads `trace_think` to the new record. */
  lemma {:induction false} AskedRecordIsTraceable(s: State, question: string, millis: nat, thinkTime: string)
    requires AskStep(s, question, millis, thinkTime).reply.Success?
    requires forall i :: 0 <= i < |s.records| ==> s.records[i].thinkId != ThinkId(millis)
    ensures var o := AskStep(s, question, millis, thinkTime);
      TraceResult(o.state.records, o.reply.value.thinkId) == Success(Last(o.state.records))
  {
    var o := AskStep(s, question, millis, thinkTime);
    assert o.state.records == s.records + [Last(o.state.records)];
    LookupAfterAppend(s.records, Last(o.state.records), ThinkId(millis));
  }

  /** Ids come from the millisecond clock alone, so they need not be
      unique: when an earlier record carries the same clock reading's id,
      the id a successful `ask` returns leads `trace_think` to that earlier
      record, as it did before the `ask`. */
  lemma {:induction false} SameClockReadingFindsEarlier(s: State, question: string, millis: nat, thinkTime: string, k: nat)
    requires AskStep(s, question, millis, thinkTime).reply.Success?
    requires k < |s.records| && s.records[k].thinkId == ThinkId(millis)
    ensures var o := AskStep(s, question, millis, thinkTime);
      && TraceResult(s.records, ThinkId(millis)).Success?
      && TraceResult(o.state.records, o.reply.value.thinkId) == TraceResult(s.records, ThinkId(millis))
  {
    AskStepOutcomes(s, question, millis, thinkTime);
    assert TraceResult(s.records, ThinkId(millis)).Success?;
    AskKeepsEarlierTraces(s, question, millis, thinkTime, ThinkId(millis));
  }

  /** After `reset_cog_depth`, the next successful `ask` answers at depth 1
      again, whatever the depth was. */
  lemma {:induction false} ResetRestartsAtDepthOne(s: State, question: string, millis: nat, thinkTime: string)
    requires AskStep(s.(cogDepth := 0), question, millis, thinkTime).reply.Success?
    ensures var o := AskStep(s.(cogDepth := 0), question, millis, thinkTime);
      && o.reply.value.cogDimension == 1
      && o.reply.value.answer == Answer(question, 1, 1)
      && Last(o.state.records).cogEvolution == "认知深度从0提升至1"
  {
    EvolutionToOne();
  }

  /** The first step of the counter reads "from 0 to 1". */
  lemma EvolutionToOne()
    ensures Evolution(1) == "认知深度从0提升至1"
  {
    assert IntToString(0) == "0" && NatToString(1) == "1";
  }
}
