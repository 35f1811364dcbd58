/** Tool results must directly follow, through other results only, the assistant that made the call. */
module ToolPairing {
  import opened Messages
  import opened QueryCompaction
  import opened CompactionReplay

  predicate HasCall(message: Message, id: string) {
    message.Assistant? && exists c :: 0 <= c < |message.calls| && message.calls[c].id == id
  }

  /** The nearest message before i that is not a tool result; -1 when there is none. */
  function Owner(context: seq<Message>, i: nat): (o: int)
    requires i <= |context|
    ensures -1 <= o < i
  {
    if i == 0 then -1
    else if !context[i - 1].ToolResult? then i - 1
    else Owner(context, i - 1)
  }

  predicate PairedAt(context: seq<Message>, i: nat)
    requires i < |context|
  {
    context[i].ToolResult? ==> Owner(context, i) >= 0 && HasCall(context[Owner(context, i)], context[i].callId)
  }

  predicate Paired(context: seq<Message>) {
    forall i :: 0 <= i < |context| ==> PairedAt(context, i)
  }

  lemma {:induction false} OwnerPrefix(a: seq<Message>, b: seq<Message>, i: nat)
    requires i <= |a|
    ensures Owner(a + b, i) == Owner(a, i)
  {
    if i > 0 {
      OwnerPrefix(a, b, i - 1);
    }
  }

  lemma {:induction false} OwnerShift(a: seq<Message>, b: seq<Message>, i: nat)
    requires 1 <= i <= |b| && !b[0].ToolResult?
    ensures Owner(a + b, |a| + i) == |a| + Owner(b, i)
    ensures Owner(b, i) >= 0
  {
    if b[i - 1].ToolResult? {
      OwnerShift(a, b, i - 1);
    }
  }

  /** Two paired contexts stay paired when joined. */
  lemma {:induction false} PairedJoin(a: seq<Message>, b: seq<Message>)
    requires Paired(a) && Paired(b)
    ensures Paired(a + b)
  {
    forall i | 0 <= i < |a + b| ensures PairedAt(a + b, i) {
      if i < |a| {
        assert PairedAt(a, i);
        OwnerPrefix(a, b, i);
      } else {
        assert PairedAt(b, 0) && PairedAt(b, i - |a|);
        if i > |a| {
          OwnerShift(a, b, i - |a|);
        }
      }
    }
  }

  /** A paired context may be cut in front of any message that is not a tool result. */
  lemma {:induction false} PairedCut(context: seq<Message>, k: nat)
    requires Paired(context) && k <= |context|
    ensures Paired(context[..k])
    ensures k == |context| || !context[k].ToolResult? ==> Paired(context[k..])
  {
    assert context == context[..k] + context[k..];
    forall i | 0 <= i < k ensures PairedAt(context[..k], i) {
      assert PairedAt(context, i);
      OwnerPrefix(context[..k], context[k..], i);
    }
    if k < |context| && !context[k].ToolResult? {
      forall i | 0 <= i < |context[k..]| ensures PairedAt(context[k..], i) {
        assert PairedAt(context, k + i);
        if i > 0 {
          OwnerShift(context[..k], context[k..], i);
        }
      }
    }
  }

  lemma {:induction false} OwnerOfResults(context: seq<Message>, i: nat)
    requires 1 <= i <= |context| && !context[0].ToolResult?
    requires forall k :: 1 <= k < i ==> context[k].ToolResult?
    ensures Owner(context, i) == 0
  {
    if i > 1 {
      OwnerOfResults(context, i - 1);
    }
  }

  /** An assistant followed by results of its own calls is paired. */
  lemma {:induction false} PairedBatch(assistant: Message, results: seq<Message>)
    requires assistant.Assistant?
    requires forall i :: 0 <= i < |results| ==> results[i].ToolResult? && HasCall(assistant, results[i].callId)
    ensures Paired([assistant] + results)
  {
    var batch := [assistant] + results;
    forall i | 0 <= i < |batch| ensures PairedAt(batch, i) {
      if i > 0 {
        OwnerOfResults(batch, i);
      }
    }
  }

  predicate ResultFree(messages: seq<Message>) {
    forall i :: 0 <= i < |messages| ==> !messages[i].ToolResult?
  }

  lemma {:induction false} ResultFreePaired(messages: seq<Message>)
    requires ResultFree(messages)
    ensures Paired(messages)
  {
  }

  /** A compaction chosen by the compactor keeps every result with its call and shortens the context. */
  lemma {:induction false} CompactionKeepsPairing(live: seq<Message>, last: int, options: CompactorOptions,
                                                  estimated: int, summary: string)
    requires Paired(live) && last >= -1 && options.keepRecentBatches >= 1
    requires PlanFor(options, last, live, estimated, summary).Some?
    ensures var plan := PlanFor(options, last, live, estimated, summary).value;
            && plan.startIndex < plan.endIndex <= |live|
            && Paired(Spliced(live, plan))
            && |Spliced(live, plan)| < |live|
  {
    var plan := PlanFor(options, last, live, estimated, summary).value;
    SegmentBoundaries(live, last + 1, options.keepRecentBatches);
    PairedCut(live, plan.startIndex);
    PairedCut(live, plan.endIndex);
    ResultFreePaired([Projection(plan.summary)]);
    PairedJoin(live[..plan.startIndex], [Projection(plan.summary)]);
    PairedJoin(live[..plan.startIndex] + [Projection(plan.summary)], live[plan.endIndex..]);
  }

  lemma {:induction false} UsersThenSuffix(users: seq<Message>, context: seq<Message>, k: nat)
    requires forall i :: 0 <= i < |users| ==> users[i].User?
    requires Paired(context) && k <= |context|
    ensures Paired(users + context[k..]) <==> k == |context| || !context[k].ToolResult?
  {
    if k == |context| || !context[k].ToolResult? {
      PairedCut(context, k);
      ResultFreePaired(users);
      PairedJoin(users, context[k..]);
    } else {
      var joined := users + context[k..];
      assert joined[|users|] == context[k];
      assert !PairedAt(joined, |users|);
    }
  }

  /** After a replay the pairing survives exactly when the first message kept after the summaries
      is not a tool result; the live context of the run that wrote the stream has no such defect. */
  lemma {:induction false} ReplayPairing(live: seq<Message>, stream: seq<Message>, last: int)
    requires Recorded(live, stream, last) && Paired(Raw(stream))
    ensures Covered(Markers(stream)) <= |stream| && MarkersBelow(stream) <= Covered(Markers(stream))
    ensures var k := Covered(Markers(stream)) - MarkersBelow(stream);
            Paired(Replay(stream)) <==> k == |Raw(stream)| || !Raw(stream)[k].ToolResult?
  {
    ReplayShape(live, stream, last);
    UsersThenSuffix(Projections(Markers(stream)), Raw(stream), Covered(Markers(stream)) - MarkersBelow(stream));
  }

  lemma {:induction false} ReplayShape(live: seq<Message>, stream: seq<Message>, last: int)
    requires Recorded(live, stream, last)
    ensures Covered(Markers(stream)) <= |stream| && MarkersBelow(stream) <= Covered(Markers(stream))
    ensures var k := Covered(Markers(stream)) - MarkersBelow(stream);
            k <= |Raw(stream)| && Replay(stream) == Projections(Markers(stream)) + Raw(stream)[k..]
  {
    RoundTrip(live, stream, last);
  }

  function Calling(id: string): Message {
    Assistant("", [ToolCall(id, "", "")], ToolUse, None)
  }

  function Result(id: string): Message {
    ToolResult(id, "", "", false)
  }

  function FirstPlan(): Plan { Plan(0, 3, "x", 1) }

  function SecondPlan(): Plan { Plan(1, 5, "y", 1) }

  /** The context and stream of a run of four tool turns compacted after the second and the fourth. */
  function OrphaningLive(): seq<Message> {
    [Projection("x"), Projection("y"), Calling("4"), Result("4")]
  }

  function OrphaningStream(): seq<Message> {
    [User(""), Calling("1"), Result("1"), Calling("2"), Result("2"), BuildMarker(FirstPlan()),
     Calling("3"), Result("3"), Calling("4"), Result("4"), BuildMarker(SecondPlan())]
  }

  lemma {:induction false} PushTurn(live: seq<Message>, stream: seq<Message>, last: int, id: string)
    requires Recorded(live, stream, last)
    ensures Recorded(live + [Calling(id), Result(id)], stream + [Calling(id), Result(id)], last)
    ensures Raw(stream + [Calling(id), Result(id)]) == Raw(stream) + [Calling(id), Result(id)]
    ensures Markers(stream + [Calling(id), Result(id)]) == Markers(stream)
  {
    PushOne(live, stream, last, Calling(id));
    PushOne(live + [Calling(id)], stream + [Calling(id)], last, Result(id));
    Regroup(live, Calling(id), Result(id));
    Regroup(stream, Calling(id), Result(id));
    Regroup(Raw(stream), Calling(id), Result(id));
  }

  lemma {:induction false} PushOne(live: seq<Message>, stream: seq<Message>, last: int, message: Message)
    requires Recorded(live, stream, last) && !IsMarker(message)
    ensures Recorded(live + [message], stream + [message], last)
    ensures Raw(stream + [message]) == Raw(stream) + [message] && Markers(stream + [message]) == Markers(stream)
  {
    RecordedPush(live, stream, last, message);
    MarkersPush(stream, message);
  }

  lemma {:induction false} Regroup(messages: seq<Message>, a: Message, b: Message)
    ensures messages + [a] + [b] == messages + [a, b]
  {
  }

  lemma {:induction false} OrphaningRunPairs()
    ensures Paired(FirstHalf() + SecondTurns())
  {
    ResultFreePaired([User("")]);
    forall id: string ensures Paired([Calling(id), Result(id)]) {
      assert Calling(id).calls[0].id == id;
      PairedBatch(Calling(id), [Result(id)]);
      assert [Calling(id)] + [Result(id)] == [Calling(id), Result(id)];
    }
    PairedJoin([User("")], [Calling("1"), Result("1")]);
    PairedJoin([User("")] + [Calling("1"), Result("1")], [Calling("2"), Result("2")]);
    assert [User("")] + [Calling("1"), Result("1")] + [Calling("2"), Result("2")] == FirstHalf();
    PairedJoin([Calling("3"), Result("3")], [Calling("4"), Result("4")]);
    PairedJoin(FirstHalf(), SecondTurns());
  }

  /** The segments of that run are the ones the compactor chooses when it keeps one recent batch. */
  lemma {:induction false} OrphaningSegments()
    ensures SelectSegment(FirstHalf(), 0, 1) == Some(Segment(0, 3))
    ensures SelectSegment([Projection("x"), Calling("2"), Result("2"), Calling("3"), Result("3"), Calling("4"),
                           Result("4")], 1, 1)
            == Some(Segment(1, 5))
  {
    var a := FirstHalf();
    assert a[3..] == [Calling("2"), Result("2")];
    assert [Calling("2"), Result("2")][1..] == [Result("2")] && [Result("2")][1..] == [];
    assert AssistantCount([Result("2")]) == 0 && AssistantCount(a[3..]) == 1;
    TailIsUnique(a, 0, 3, 1);
    assert IsWork(a[1]);
    var b := [Projection("x"), Calling("2"), Result("2"), Calling("3"), Result("3"), Calling("4"), Result("4")];
    assert b[5..] == [Calling("4"), Result("4")];
    assert [Calling("4"), Result("4")][1..] == [Result("4")] && [Result("4")][1..] == [];
    assert AssistantCount([Result("4")]) == 0 && AssistantCount(b[5..]) == 1;
    TailIsUnique(b, 1, 5, 1);
    assert IsWork(b[1]);
  }

  function FirstMarker(): Marker { MarkerAt(BuildMarker(FirstPlan()), 5) }

  function SecondMarker(): Marker { MarkerAt(BuildMarker(SecondPlan()), 10) }

  function FirstHalf(): seq<Message> {
    [User(""), Calling("1"), Result("1"), Calling("2"), Result("2")]
  }

  lemma {:induction false} FirstTwoTurns()
    ensures Uncompacted(FirstHalf())
  {
    FirstPrompt([User("")]);
    TwoTurns([User("")], "1", "2", FirstHalf());
  }

  lemma {:induction false} TwoTurns(s: seq<Message>, a: string, b: string, next: seq<Message>)
    requires Uncompacted(s) && next == s + [Calling(a), Result(a)] + [Calling(b), Result(b)]
    ensures Uncompacted(next)
  {
    var middle := s + [Calling(a), Result(a)];
    UncompactedTurn(s, a, middle);
    UncompactedTurn(middle, b, next);
  }

  lemma {:induction false} FirstPrompt(s: seq<Message>)
    requires s == [User("")]
    ensures Uncompacted(s)
  {
    MarkersPush([], User(""));
    assert [] + [User("")] == s;
    RecordedStart(s);
  }

  predicate Uncompacted(s: seq<Message>) {
    Recorded(s, s, -1) && Raw(s) == s && Markers(s) == []
  }

  lemma {:induction false} UncompactedTurn(s: seq<Message>, id: string, next: seq<Message>)
    requires Uncompacted(s) && next == s + [Calling(id), Result(id)]
    ensures Uncompacted(next)
  {
    PushTurn(s, s, -1, id);
  }

  function FirstStored(): seq<Message> { FirstHalf() + [BuildMarker(FirstPlan())] }

  lemma {:induction false} FirstCompaction()
    ensures Recorded([Projection("x"), Calling("2"), Result("2")], FirstStored(), 0)
    ensures Raw(FirstStored()) == FirstHalf() && Markers(FirstStored()) == [FirstMarker()]
  {
    FirstTwoTurns();
    FirstSplice();
    CompactOne(FirstHalf(), FirstHalf(), -1, FirstPlan(), [Projection("x"), Calling("2"), Result("2")], FirstStored());
    assert [] + [FirstMarker()] == [FirstMarker()];
  }

  lemma {:induction false} FirstSplice()
    ensures Spliced(FirstHalf(), FirstPlan()) == [Projection("x"), Calling("2"), Result("2")]
  {
  }

  lemma {:induction false} CompactOne(live: seq<Message>, stream: seq<Message>, last: int, plan: Plan,
                                      shorter: seq<Message>, stored: seq<Message>)
    requires Recorded(live, stream, last) && plan.startIndex == last + 1 && plan.startIndex < plan.endIndex <= |live|
    requires shorter == Spliced(live, plan) && stored == stream + [BuildMarker(plan)]
    ensures Recorded(shorter, stored, plan.startIndex)
    ensures Raw(stored) == Raw(stream) && Markers(stored) == Markers(stream) + [MarkerAt(BuildMarker(plan), |stream|)]
  {
    RecordedCompact(live, stream, last, plan);
    MarkersPush(stream, BuildMarker(plan));
  }

  function SecondTurns(): seq<Message> { [Calling("3"), Result("3")] + [Calling("4"), Result("4")] }

  lemma {:induction false} LastTwoTurns()
    ensures Recorded([Projection("x"), Calling("2"), Result("2")] + SecondTurns(), FirstStored() + SecondTurns(), 0)
    ensures Raw(FirstStored() + SecondTurns()) == FirstHalf() + SecondTurns()
    ensures Markers(FirstStored() + SecondTurns()) == [FirstMarker()]
  {
    FirstCompaction();
    var live, stored := [Projection("x"), Calling("2"), Result("2")], FirstStored();
    PushTurn(live, stored, 0, "3");
    PushTurn(live + [Calling("3"), Result("3")], stored + [Calling("3"), Result("3")], 0, "4");
    assert live + [Calling("3"), Result("3")] + [Calling("4"), Result("4")] == live + SecondTurns();
    assert stored + [Calling("3"), Result("3")] + [Calling("4"), Result("4")] == stored + SecondTurns();
    assert FirstHalf() + [Calling("3"), Result("3")] + [Calling("4"), Result("4")] == FirstHalf() + SecondTurns();
  }

  lemma {:induction false} OrphaningRunRecorded()
    ensures Recorded(OrphaningLive(), OrphaningStream(), 1)
    ensures Raw(OrphaningStream()) == FirstHalf() + SecondTurns()
    ensures Markers(OrphaningStream()) == [FirstMarker(), SecondMarker()]
  {
    LastTwoTurns();
    var live, stored := [Projection("x"), Calling("2"), Result("2")] + SecondTurns(), FirstStored() + SecondTurns();
    SecondSplice();
    CompactOne(live, stored, 0, SecondPlan(), OrphaningLive(), OrphaningStream());
    assert [FirstMarker()] + [SecondMarker()] == [FirstMarker(), SecondMarker()];
  }

  lemma {:induction false} SecondSplice()
    ensures Spliced([Projection("x"), Calling("2"), Result("2")] + SecondTurns(), SecondPlan()) == OrphaningLive()
    ensures FirstStored() + SecondTurns() + [BuildMarker(SecondPlan())] == OrphaningStream()
  {
  }

  lemma {:induction false} OrphaningRunCoordinates()
    ensures Covered([FirstMarker(), SecondMarker()]) == 7
    ensures Markers(OrphaningStream()[..7]) == [FirstMarker()]
  {
    CoveredTwo(FirstMarker(), SecondMarker());
    FirstCompaction();
    MarkersPush(FirstStored(), Calling("3"));
    UpToSeven();
  }

  lemma {:induction false} UpToSeven()
    ensures OrphaningStream()[..7] == FirstStored() + [Calling("3")]
  {
  }

  lemma {:induction false} CoveredTwo(a: Marker, b: Marker)
    ensures Covered([a, b]) == a.coveredCount + b.coveredCount
  {
    CoveredPush([], a);
    CoveredPush([a], b);
    assert [] + [a] == [a] && [a] + [b] == [a, b];
  }

  lemma {:induction false} OrphaningTail()
    ensures (FirstHalf() + SecondTurns())[6..] == [Result("3"), Calling("4"), Result("4")]
    ensures Projections([FirstMarker(), SecondMarker()]) == [Projection("x"), Projection("y")]
  {
  }

  lemma {:induction false} OrphaningReplay()
    ensures Replay(OrphaningStream()) == [Projection("x"), Projection("y"), Result("3"), Calling("4"), Result("4")]
  {
    OrphaningRunRecorded();
    OrphaningRunCoordinates();
    OrphaningTail();
    ReplayShape(OrphaningLive(), OrphaningStream(), 1);
  }

  lemma {:induction false} OrphaningReplayUnpaired()
    ensures !Paired([Projection("x"), Projection("y"), Result("3"), Calling("4"), Result("4")])
  {
    var raw := FirstHalf() + SecondTurns();
    OrphaningRunPairs();
    OrphaningTail();
    UsersThenSuffix([Projection("x"), Projection("y")], raw, 6);
    assert [Projection("x"), Projection("y")] + [Result("3"), Calling("4"), Result("4")]
           == [Projection("x"), Projection("y"), Result("3"), Calling("4"), Result("4")];
    assert raw[6] == raw[6..][0];
  }

  /** A run whose live context is sound, yet whose replay starts with a result without its call. */
  lemma {:induction false} ReplayCanOrphanAResult()
    ensures Recorded(OrphaningLive(), OrphaningStream(), 1)
    ensures Paired(Raw(OrphaningStream())) && !Paired(Replay(OrphaningStream()))
    ensures Replay(OrphaningStream()) != OrphaningLive()
    ensures Replay(OrphaningStream()) == [Projection("x"), Projection("y"), Result("3"), Calling("4"), Result("4")]
  {
    OrphaningRunRecorded();
    OrphaningRunPairs();
    OrphaningReplay();
    OrphaningReplayUnpaired();
    assert |OrphaningLive()| == 4;
  }
}
