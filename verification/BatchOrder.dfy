/** What a listener may rely on in the events of a tool batch, in either execution mode. */
module BatchOrder {
  import opened Messages
  import opened ToolBatch

  function EventCall(event: Event): Option<string> {
    match event
    case ToolStart(id, _) => Some(id)
    case ToolUpdate(id, _, _) => Some(id)
    case ToolEnd(id, _, _, _) => Some(id)
    case _ => None
  }

  /** The events of one call id, in order. */
  function Project(events: seq<Event>, id: string): seq<Event> {
    if events == [] then []
    else
      var n := |events| - 1;
      if EventCall(events[n]) == Some(id) then Project(events[..n], id) + [events[n]] else Project(events[..n], id)
  }

  lemma {:induction false} ProjectSplit(a: seq<Event>, b: seq<Event>, id: string)
    ensures Project(a + b, id) == Project(a, id) + Project(b, id)
    decreases |b|
  {
    if b == [] {
      assert a + b == a;
    } else {
      var n := |b| - 1;
      assert (a + b)[..|a + b| - 1] == a + b[..n];
      ProjectSplit(a, b[..n], id);
    }
  }

  lemma {:induction false} ProjectOwn(events: seq<Event>, id: string)
    requires forall k :: 0 <= k < |events| ==> EventCall(events[k]) == Some(id)
    ensures Project(events, id) == events
  {
    if events != [] {
      ProjectOwn(events[..|events| - 1], id);
      assert events == events[..|events| - 1] + [events[|events| - 1]];
    }
  }

  lemma {:induction false} ProjectForeign(events: seq<Event>, id: string)
    requires forall k :: 0 <= k < |events| ==> EventCall(events[k]) != Some(id)
    ensures Project(events, id) == []
  {
    if events != [] {
      ProjectForeign(events[..|events| - 1], id);
    }
  }

  predicate DistinctIds(calls: seq<ToolCall>) {
    forall i, j :: 0 <= i < j < |calls| ==> calls[i].id != calls[j].id
  }

  lemma {:induction false} StepsBelongToCall(call: ToolCall, oracle: CallOracle)
    ensures forall k :: 0 <= k < |StepsOf(call, oracle)| ==> EventCall(StepsOf(call, oracle)[k]) == Some(call.id)
  {
  }

  lemma {:induction false} CallEventsProject(call: ToolCall, oracle: CallOracle, id: string)
    ensures Project(CallEvents(call, oracle), id) == if call.id == id then CallEvents(call, oracle) else []
  {
    StepsBelongToCall(call, oracle);
    if call.id == id {
      ProjectOwn(CallEvents(call, oracle), id);
    } else {
      ProjectForeign(CallEvents(call, oracle), id);
    }
  }

  lemma {:induction false} SequentialProjectStep(calls: seq<ToolCall>, oracles: seq<CallOracle>, id: string)
    requires |calls| == |oracles| && calls != []
    ensures var n := |calls| - 1;
            Project(SequentialEvents(calls, oracles), id)
            == Project(SequentialEvents(calls[..n], oracles[..n]), id)
               + if calls[n].id == id then CallEvents(calls[n], oracles[n]) else []
  {
    var n := |calls| - 1;
    var head, last := SequentialEvents(calls[..n], oracles[..n]), CallEvents(calls[n], oracles[n]);
    var tail := MessageEvents(ResultMessage(FinalOf(calls[n], oracles[n])));
    ProjectSplit(head + last, tail, id);
    ProjectSplit(head, last, id);
    ProjectForeign(tail, id);
    CallEventsProject(calls[n], oracles[n], id);
  }

  /** The events sequential mode shows of one id among the first k calls. */
  function Shown(calls: seq<ToolCall>, oracles: seq<CallOracle>, k: nat, id: string): seq<Event>
    requires k <= |calls| == |oracles|
  {
    if k == 0 then []
    else
      var n := k - 1;
      if calls[n].id == id then Shown(calls, oracles, n, id) + CallEvents(calls[n], oracles[n])
      else Shown(calls, oracles, n, id)
  }

  lemma {:induction false} SequentialShows(calls: seq<ToolCall>, oracles: seq<CallOracle>, k: nat, id: string)
    requires k <= |calls| == |oracles|
    ensures Project(SequentialEvents(calls[..k], oracles[..k]), id) == Shown(calls, oracles, k, id)
    decreases k
  {
    if k > 0 {
      SequentialProjectStep(calls[..k], oracles[..k], id);
      assert calls[..k][..k - 1] == calls[..k - 1] && oracles[..k][..k - 1] == oracles[..k - 1];
      SequentialShows(calls, oracles, k - 1, id);
    }
  }

  lemma {:induction false} ForeignNotShown(calls: seq<ToolCall>, oracles: seq<CallOracle>, k: nat, id: string)
    requires k <= |calls| == |oracles| && forall i :: 0 <= i < k ==> calls[i].id != id
    ensures Shown(calls, oracles, k, id) == []
    decreases k
  {
    if k > 0 {
      ForeignNotShown(calls, oracles, k - 1, id);
    }
  }

  lemma {:induction false} OwnShown(calls: seq<ToolCall>, oracles: seq<CallOracle>, k: nat, i: nat, id: string)
    requires i < k <= |calls| == |oracles|
    requires forall m :: 0 <= m < k ==> (calls[m].id == id <==> m == i)
    ensures Shown(calls, oracles, k, id) == CallEvents(calls[i], oracles[i])
    decreases k
  {
    if i < k - 1 {
      OwnShown(calls, oracles, k - 1, i, id);
    } else {
      ForeignNotShown(calls, oracles, k - 1, id);
      NothingBefore(CallEvents(calls[i], oracles[i]));
    }
  }

  lemma {:induction false} NothingBefore(events: seq<Event>)
    ensures [] + events == events
  {
  }

  /** Sequential mode: each call shows its start, its updates in order and its end, and nothing else. */
  lemma {:induction false} SequentialPerCall(calls: seq<ToolCall>, oracles: seq<CallOracle>, i: nat)
    requires |calls| == |oracles| && DistinctIds(calls) && i < |calls|
    ensures Project(SequentialEvents(calls, oracles), calls[i].id) == CallEvents(calls[i], oracles[i])
  {
    assert calls[..|calls|] == calls && oracles[..|calls|] == oracles;
    SequentialShows(calls, oracles, |calls|, calls[i].id);
    OwnShown(calls, oracles, |calls|, i, calls[i].id);
  }

  function PreflightOf(call: ToolCall, oracle: CallOracle): seq<Event> {
    [StartEvent(call)] + if Prepare(call, oracle).Immediate? then [EndEvent(FinalOf(call, oracle))] else []
  }

  lemma {:induction false} PreflightProjectStep(calls: seq<ToolCall>, oracles: seq<CallOracle>, id: string)
    requires |calls| == |oracles| && calls != []
    ensures var n := |calls| - 1;
            Project(PreflightEvents(calls, oracles), id)
            == Project(PreflightEvents(calls[..n], oracles[..n]), id)
               + if calls[n].id == id then PreflightOf(calls[n], oracles[n]) else []
  {
    var n := |calls| - 1;
    var last := PreflightOf(calls[n], oracles[n]);
    assert PreflightEvents(calls, oracles) == PreflightEvents(calls[..n], oracles[..n]) + last;
    ProjectSplit(PreflightEvents(calls[..n], oracles[..n]), last, id);
    if calls[n].id == id { ProjectOwn(last, id); } else { ProjectForeign(last, id); }
  }

  lemma {:induction false} PreflightForeign(calls: seq<ToolCall>, oracles: seq<CallOracle>, id: string)
    requires |calls| == |oracles| && forall i :: 0 <= i < |calls| ==> calls[i].id != id
    ensures Project(PreflightEvents(calls, oracles), id) == []
  {
    if calls != [] {
      PreflightProjectStep(calls, oracles, id);
      PreflightForeign(calls[..|calls| - 1], oracles[..|calls| - 1], id);
    }
  }

  lemma {:induction false} PreflightPerCall(calls: seq<ToolCall>, oracles: seq<CallOracle>, i: nat)
    requires |calls| == |oracles| && DistinctIds(calls) && i < |calls|
    ensures Project(PreflightEvents(calls, oracles), calls[i].id) == PreflightOf(calls[i], oracles[i])
  {
    var n := |calls| - 1;
    PreflightProjectStep(calls, oracles, calls[i].id);
    if i < n {
      PreflightPerCall(calls[..n], oracles[..n], i);
    } else {
      PreflightForeign(calls[..n], oracles[..n], calls[i].id);
    }
  }

  /** The events that carry id are picked by the schedule's entries for i, and run through the steps in order. */
  ghost predicate Follows(events: seq<Event>, schedule: seq<nat>, id: string, i: nat, steps: seq<Event>) {
    && |events| == |schedule|
    && forall m :: 0 <= m < |schedule| ==> FollowsAt(events[m], schedule[m], Count(schedule[..m], i), id, i, steps)
  }

  predicate FollowsAt(event: Event, picked: nat, before: nat, id: string, i: nat, steps: seq<Event>) {
    && (EventCall(event) == Some(id) <==> picked == i)
    && (picked == i ==> before < |steps| && event == steps[before])
  }

  lemma {:induction false} FollowedPrefix(events: seq<Event>, schedule: seq<nat>, id: string, i: nat, steps: seq<Event>,
                                          k: nat)
    requires Follows(events, schedule, id, i, steps) && k <= |schedule|
    ensures Count(schedule[..k], i) <= |steps|
    ensures Project(events[..k], id) == steps[..Count(schedule[..k], i)]
    decreases k
  {
    if k > 0 {
      FollowedPrefix(events, schedule, id, i, steps, k - 1);
      CountSnoc(schedule, k - 1, i);
      PrefixSnoc(events, k - 1);
      FollowedStep(events[..k - 1], events[k - 1], schedule[k - 1], Count(schedule[..k - 1], i), id, i, steps);
    }
  }

  lemma {:induction false} FollowedStep(head: seq<Event>, event: Event, picked: nat, before: nat, id: string, i: nat,
                                        steps: seq<Event>)
    requires before <= |steps| && Project(head, id) == steps[..before]
    requires FollowsAt(event, picked, before, id, i, steps)
    ensures var after := before + if picked == i then 1 else 0;
            after <= |steps| && Project(head + [event], id) == steps[..after]
  {
    ProjectSnoc(head, event, id);
  }

  lemma {:induction false} ProjectSnoc(events: seq<Event>, event: Event, id: string)
    ensures Project(events + [event], id) == Project(events, id) + if EventCall(event) == Some(id) then [event] else []
  {
    assert (events + [event])[..|events|] == events;
  }

  /** Event k of the running calls belongs to call i exactly when the schedule picks i, and is then its next step. */
  lemma {:induction false} RunningEventOwner(schedule: seq<nat>, calls: seq<ToolCall>, oracles: seq<CallOracle>, i: nat,
                                             k: nat)
    requires |calls| == |oracles| && DistinctIds(calls) && i < |calls| && k < |schedule|
    requires InRange(schedule, calls, oracles)
    ensures FollowsAt(RunningEvents(schedule, calls, oracles)[k], schedule[k], Count(schedule[..k], i), calls[i].id, i,
                      StepsOf(calls[i], oracles[i]))
  {
    assert RunningEvents(schedule, calls, oracles)[k] == RunningEvent(schedule, calls, oracles, k);
    StepsBelongToCall(calls[schedule[k]], oracles[schedule[k]]);
  }

  lemma {:induction false} RunningFollows(schedule: seq<nat>, calls: seq<ToolCall>, oracles: seq<CallOracle>, i: nat,
                                          events: seq<Event>)
    requires |calls| == |oracles| && DistinctIds(calls) && i < |calls|
    requires InRange(schedule, calls, oracles) && events == RunningEvents(schedule, calls, oracles)
    ensures Follows(events, schedule, calls[i].id, i, StepsOf(calls[i], oracles[i]))
  {
    forall k | 0 <= k < |schedule|
      ensures FollowsAt(events[k], schedule[k], Count(schedule[..k], i), calls[i].id, i, StepsOf(calls[i], oracles[i]))
    {
      RunningEventOwner(schedule, calls, oracles, i, k);
    }
  }

  lemma {:induction false} NotScheduled(schedule: seq<nat>, i: nat)
    requires forall k :: 0 <= k < |schedule| ==> schedule[k] != i
    ensures Count(schedule, i) == 0
  {
    if schedule != [] {
      NotScheduled(schedule[..|schedule| - 1], i);
    }
  }

  lemma {:induction false} MessagesForeign(messages: seq<Message>, id: string)
    ensures Project(AllMessageEvents(messages), id) == []
  {
    if messages != [] {
      var n := |messages| - 1;
      ProjectSplit(AllMessageEvents(messages[..n]), MessageEvents(messages[n]), id);
      MessagesForeign(messages[..n], id);
      ProjectForeign(MessageEvents(messages[n]), id);
    }
  }

  lemma {:induction false} RunningWhole(schedule: seq<nat>, calls: seq<ToolCall>, oracles: seq<CallOracle>, i: nat)
    requires |calls| == |oracles| && DistinctIds(calls) && i < |calls|
    requires Complete(schedule, calls, oracles) && InRange(schedule, calls, oracles)
    ensures Project(RunningEvents(schedule, calls, oracles), calls[i].id)
            == if Prepare(calls[i], oracles[i]).Immediate? then [] else StepsOf(calls[i], oracles[i])
  {
    if Prepare(calls[i], oracles[i]).Immediate? {
      NotScheduled(schedule, i);
    }
    var running := RunningEvents(schedule, calls, oracles);
    assert schedule[..|schedule|] == schedule && running[..|schedule|] == running;
    RunningFollows(schedule, calls, oracles, i, running);
    FollowedPrefix(running, schedule, calls[i].id, i, StepsOf(calls[i], oracles[i]), |schedule|);
  }

  /** Parallel mode, any completion order: a listener that looks at one call sees what sequential mode shows. */
  lemma {:induction false} ParallelPerCall(schedule: seq<nat>, calls: seq<ToolCall>, oracles: seq<CallOracle>, i: nat)
    requires |calls| == |oracles| && DistinctIds(calls) && i < |calls| && Complete(schedule, calls, oracles)
    ensures InRange(schedule, calls, oracles)
    ensures Project(ParallelEvents(schedule, calls, oracles), calls[i].id) == CallEvents(calls[i], oracles[i])
  {
    CompleteInRange(schedule, calls, oracles);
    var id := calls[i].id;
    var preflight, running := PreflightEvents(calls, oracles), RunningEvents(schedule, calls, oracles);
    var results := AllMessageEvents(ResultMessages(Outcomes(calls, oracles)));
    ProjectThree(preflight, running, results, id);
    PreflightPerCall(calls, oracles, i);
    MessagesForeign(ResultMessages(Outcomes(calls, oracles)), id);
    RunningWhole(schedule, calls, oracles, i);
    PiecesOfACall(calls[i], oracles[i]);
  }

  lemma {:induction false} PiecesOfACall(call: ToolCall, oracle: CallOracle)
    ensures PreflightOf(call, oracle) + (if Prepare(call, oracle).Immediate? then [] else StepsOf(call, oracle)) + []
            == CallEvents(call, oracle)
  {
  }

  lemma {:induction false} ProjectThree(a: seq<Event>, b: seq<Event>, c: seq<Event>, id: string)
    ensures Project(a + b + c, id) == Project(a, id) + Project(b, id) + Project(c, id)
  {
    ProjectSplit(a + b, c, id);
    ProjectSplit(a, b, id);
  }

  /** In parallel mode no execution is still running when the first result message starts. */
  lemma {:induction false} EndsPrecedeResults(schedule: seq<nat>, calls: seq<ToolCall>, oracles: seq<CallOracle>)
    requires |calls| == |oracles| && Complete(schedule, calls, oracles)
    ensures InRange(schedule, calls, oracles)
    ensures var events := ParallelEvents(schedule, calls, oracles);
            forall a, b :: 0 <= a < b < |events| && events[a].MessageStart? ==> EventCall(events[b]).None?
  {
    CompleteInRange(schedule, calls, oracles);
    PreflightIsToolOnly(calls, oracles);
    RunningIsToolOnly(schedule, calls, oracles);
    ResultsAreMessages(ResultMessages(Outcomes(calls, oracles)));
    ToolsThenMessages(PreflightEvents(calls, oracles), RunningEvents(schedule, calls, oracles),
                      AllMessageEvents(ResultMessages(Outcomes(calls, oracles))));
  }

  lemma {:induction false} ToolsThenMessages(preflight: seq<Event>, running: seq<Event>, messages: seq<Event>)
    requires forall k :: 0 <= k < |preflight| ==> EventCall(preflight[k]).Some?
    requires forall k :: 0 <= k < |running| ==> EventCall(running[k]).Some?
    requires forall k :: 0 <= k < |messages| ==> EventCall(messages[k]).None?
    ensures var events := preflight + running + messages;
            forall a, b :: 0 <= a < b < |events| && events[a].MessageStart? ==> EventCall(events[b]).None?
  {
    var tools := preflight + running;
    assert forall k :: 0 <= k < |tools| ==> EventCall(tools[k]).Some?;
  }

  lemma {:induction false} RunningIsToolOnly(schedule: seq<nat>, calls: seq<ToolCall>, oracles: seq<CallOracle>)
    requires |calls| == |oracles| && InRange(schedule, calls, oracles)
    ensures forall k :: 0 <= k < |schedule| ==> EventCall(RunningEvents(schedule, calls, oracles)[k]).Some?
  {
    forall k | 0 <= k < |schedule| ensures EventCall(RunningEvents(schedule, calls, oracles)[k]).Some? {
      StepsBelongToCall(calls[schedule[k]], oracles[schedule[k]]);
    }
  }

  lemma {:induction false} PreflightIsToolOnly(calls: seq<ToolCall>, oracles: seq<CallOracle>)
    requires |calls| == |oracles|
    ensures forall k :: 0 <= k < |PreflightEvents(calls, oracles)| ==>
            EventCall(PreflightEvents(calls, oracles)[k]).Some?
  {
    if calls != [] {
      PreflightIsToolOnly(calls[..|calls| - 1], oracles[..|calls| - 1]);
    }
  }

  lemma {:induction false} ResultsAreMessages(messages: seq<Message>)
    ensures forall k :: 0 <= k < |AllMessageEvents(messages)| ==> EventCall(AllMessageEvents(messages)[k]).None?
  {
    if messages != [] {
      ResultsAreMessages(messages[..|messages| - 1]);
    }
  }

  // ---------------------------------------------------------------------
  // Pending tool calls, as the Agent tracks them (packages/agent/src/agent.ts)
  // ---------------------------------------------------------------------

  function TrackPending(pending: set<string>, event: Event): set<string> {
    match event
    case ToolStart(id, _) => pending + {id}
    case ToolEnd(id, _, _, _) => pending - {id}
    case _ => pending
  }

  function PendingAfter(pending: set<string>, events: seq<Event>): set<string> {
    if events == [] then pending
    else TrackPending(PendingAfter(pending, events[..|events| - 1]), events[|events| - 1])
  }

  lemma {:induction false} PendingSplit(pending: set<string>, a: seq<Event>, b: seq<Event>)
    ensures PendingAfter(pending, a + b) == PendingAfter(PendingAfter(pending, a), b)
    decreases |b|
  {
    if b == [] {
      assert a + b == a;
    } else {
      assert (a + b)[..|a + b| - 1] == a + b[..|b| - 1];
      PendingSplit(pending, a, b[..|b| - 1]);
    }
  }

  lemma {:induction false} PendingQuiet(pending: set<string>, events: seq<Event>)
    requires forall k :: 0 <= k < |events| ==> !events[k].ToolStart? && !events[k].ToolEnd?
    ensures PendingAfter(pending, events) == pending
  {
    if events != [] {
      PendingQuiet(pending, events[..|events| - 1]);
    }
  }

  predicate StartsAt(events: seq<Event>, a: nat, id: string) {
    a < |events| && events[a].ToolStart? && events[a].id == id
  }

  predicate EndsAt(events: seq<Event>, b: nat, id: string) {
    b < |events| && events[b].ToolEnd? && events[b].id == id
  }

  /** No end of id at position from or later. */
  ghost predicate NoEndFrom(events: seq<Event>, from: nat, id: string) {
    forall b: nat :: EndsAt(events, b, id) ==> b < from
  }

  ghost predicate StartedLast(events: seq<Event>, id: string) {
    exists a: nat :: StartsAt(events, a, id) && NoEndFrom(events, a, id)
  }

  lemma {:induction false} NoEndSnoc(events: seq<Event>, event: Event, from: nat, id: string)
    requires from <= |events|
    ensures NoEndFrom(events + [event], from, id) <==>
            NoEndFrom(events, from, id) && !(event.ToolEnd? && event.id == id)
  {
    var longer := events + [event];
    assert EndsAt(longer, |events|, id) <==> event.ToolEnd? && event.id == id;
    assert forall b: nat | b < |events| :: EndsAt(longer, b, id) <==> EndsAt(events, b, id);
  }

  lemma {:induction false} StartedLastSnoc(events: seq<Event>, event: Event, id: string)
    ensures StartedLast(events + [event], id) <==>
            || (event.ToolStart? && event.id == id)
            || (StartedLast(events, id) && !(event.ToolEnd? && event.id == id))
  {
    var longer, n := events + [event], |events|;
    assert StartsAt(longer, n, id) <==> event.ToolStart? && event.id == id;
    if StartsAt(longer, n, id) {
      assert NoEndFrom(longer, n, id);
    } else if StartedLast(longer, id) {
      var a: nat :| StartsAt(longer, a, id) && NoEndFrom(longer, a, id);
      NoEndSnoc(events, event, a, id);
      assert StartsAt(events, a, id);
    } else if StartedLast(events, id) {
      var a: nat :| StartsAt(events, a, id) && NoEndFrom(events, a, id);
      NoEndSnoc(events, event, a, id);
      assert StartsAt(longer, a, id);
    }
  }

  /** The set holds exactly the ids whose latest start or end is a start, or that were there before both. */
  lemma {:induction false} PendingMeansStartedNotEnded(pending: set<string>, events: seq<Event>, id: string)
    ensures id in PendingAfter(pending, events) <==>
            StartedLast(events, id) || (id in pending && NoEndFrom(events, 0, id))
  {
    if events != [] {
      var n := |events| - 1;
      PendingMeansStartedNotEnded(pending, events[..n], id);
      assert events == events[..n] + [events[n]];
      StartedLastSnoc(events[..n], events[n], id);
      NoEndSnoc(events[..n], events[n], 0, id);
    }
  }

  function Ids(calls: seq<ToolCall>): set<string> {
    set i | 0 <= i < |calls| :: calls[i].id
  }

  lemma {:induction false} PendingAfterSteps(pending: set<string>, call: ToolCall, oracle: CallOracle)
    ensures PendingAfter(pending, StepsOf(call, oracle)) == pending - {call.id}
  {
    StepsEndOnce(call, oracle);
    PendingUntilTheEnd(pending, StepsOf(call, oracle), call.id);
  }

  lemma {:induction false} StepsEndOnce(call: ToolCall, oracle: CallOracle)
    ensures var steps := StepsOf(call, oracle);
            && steps[|steps| - 1].ToolEnd? && steps[|steps| - 1].id == call.id
            && forall k :: 0 <= k < |steps| - 1 ==> steps[k].ToolUpdate?
  {
  }

  lemma {:induction false} PendingUntilTheEnd(pending: set<string>, steps: seq<Event>, id: string)
    requires steps != [] && steps[|steps| - 1].ToolEnd? && steps[|steps| - 1].id == id
    requires forall k :: 0 <= k < |steps| - 1 ==> steps[k].ToolUpdate?
    ensures PendingAfter(pending, steps) == pending - {id}
  {
    PendingQuiet(pending, steps[..|steps| - 1]);
  }

  lemma {:induction false} PendingOne(pending: set<string>, event: Event)
    ensures PendingAfter(pending, [event]) == TrackPending(pending, event)
  {
    assert [event][..0] == [];
  }

  lemma {:induction false} PendingAfterCall(pending: set<string>, call: ToolCall, oracle: CallOracle)
    ensures PendingAfter(pending, CallEvents(call, oracle)) == pending - {call.id}
  {
    PendingSplit(pending, [StartEvent(call)], StepsOf(call, oracle));
    PendingOne(pending, StartEvent(call));
    PendingAfterSteps(pending + {call.id}, call, oracle);
  }

  /** After a sequential batch nothing it started is pending. */
  lemma {:induction false} PendingAfterSequential(pending: set<string>, calls: seq<ToolCall>, oracles: seq<CallOracle>)
    requires |calls| == |oracles|
    ensures PendingAfter(pending, SequentialEvents(calls, oracles)) == pending - Ids(calls)
  {
    if calls != [] {
      var n := |calls| - 1;
      PendingAfterSequential(pending, calls[..n], oracles[..n]);
      PendingAfterOneMore(pending, SequentialEvents(calls[..n], oracles[..n]), calls[n], oracles[n]);
      IdsSnoc(calls);
    }
  }

  lemma {:induction false} PendingAfterOneMore(pending: set<string>, head: seq<Event>, call: ToolCall,
                                               oracle: CallOracle)
    ensures PendingAfter(pending, head + CallEvents(call, oracle) + MessageEvents(ResultMessage(FinalOf(call, oracle))))
            == PendingAfter(pending, head) - {call.id}
  {
    var last, tail := CallEvents(call, oracle), MessageEvents(ResultMessage(FinalOf(call, oracle)));
    PendingSplit(pending, head + last, tail);
    PendingSplit(pending, head, last);
    PendingAfterCall(PendingAfter(pending, head), call, oracle);
    PendingQuiet(PendingAfter(pending, head + last), tail);
  }

  lemma {:induction false} IdsSnoc(calls: seq<ToolCall>)
    requires calls != []
    ensures Ids(calls) == Ids(calls[..|calls| - 1]) + {calls[|calls| - 1].id}
  {
    var n := |calls| - 1;
    forall id ensures id in Ids(calls) <==> id in Ids(calls[..n]) || id == calls[n].id {
      if id in Ids(calls) {
        var i :| 0 <= i < |calls| && calls[i].id == id;
        assert i < n ==> calls[..n][i].id == id;
      }
      if id in Ids(calls[..n]) {
        var i :| 0 <= i < n && calls[..n][i].id == id;
        assert calls[i].id == id;
      }
    }
  }

  /** Ids of the calls that reached execution. */
  function RunningIds(calls: seq<ToolCall>, oracles: seq<CallOracle>): set<string>
    requires |calls| == |oracles|
  {
    set i | 0 <= i < |calls| && Prepare(calls[i], oracles[i]).Prepared? :: calls[i].id
  }

  lemma {:induction false} PendingAfterPreflight(pending: set<string>, calls: seq<ToolCall>, oracles: seq<CallOracle>,
                                                 id: string)
    requires |calls| == |oracles| && id !in RunningIds(calls, oracles)
    ensures id in PendingAfter(pending, PreflightEvents(calls, oracles)) <==> id in pending && id !in Ids(calls)
  {
    if calls != [] {
      var n := |calls| - 1;
      var last := PreflightOf(calls[n], oracles[n]);
      assert PreflightEvents(calls, oracles) == PreflightEvents(calls[..n], oracles[..n]) + last;
      PendingSplit(pending, PreflightEvents(calls[..n], oracles[..n]), last);
      forall i | 0 <= i < n && Prepare(calls[..n][i], oracles[..n][i]).Prepared? ensures calls[..n][i].id != id {
        assert calls[i].id in RunningIds(calls, oracles);
      }
      PendingAfterPreflight(pending, calls[..n], oracles[..n], id);
      IdsSnoc(calls);
      PendingOfPreflight(PendingAfter(pending, PreflightEvents(calls[..n], oracles[..n])), calls[n], oracles[n]);
      if Prepare(calls[n], oracles[n]).Prepared? {
        assert calls[n].id in RunningIds(calls, oracles);
      }
    }
  }

  lemma {:induction false} PendingOfPreflight(pending: set<string>, call: ToolCall, oracle: CallOracle)
    ensures PendingAfter(pending, PreflightOf(call, oracle))
            == if Prepare(call, oracle).Immediate? then pending - {call.id} else pending + {call.id}
  {
    var events := PreflightOf(call, oracle);
    assert events[..1] == [StartEvent(call)] && [StartEvent(call)][..0] == [];
    assert PendingAfter(pending, events[..1]) == pending + {call.id};
    if Prepare(call, oracle).Prepared? {
      assert events == events[..1];
    }
  }

  lemma {:induction false} PendingOnlyShrinks(pending: set<string>, events: seq<Event>, id: string)
    requires forall k :: 0 <= k < |events| ==> !events[k].ToolStart?
    ensures id in PendingAfter(pending, events) <==>
            id in pending && forall k :: 0 <= k < |events| && events[k].ToolEnd? ==> events[k].id != id
  {
    PendingMeansStartedNotEnded(pending, events, id);
    assert NoEndFrom(events, 0, id) <==> forall k: nat :: !EndsAt(events, k, id);
    assert forall k | 0 <= k < |events| :: EndsAt(events, k, id) <==> events[k].ToolEnd? && events[k].id == id;
  }

  lemma {:induction false} CountReaches(schedule: seq<nat>, i: nat, c: nat) returns (k: nat)
    requires c < Count(schedule, i)
    ensures k < |schedule| && schedule[k] == i && Count(schedule[..k], i) == c
    decreases |schedule|
  {
    var n := |schedule| - 1;
    if c < Count(schedule[..n], i) {
      k := CountReaches(schedule[..n], i, c);
      assert schedule[..n][..k] == schedule[..k];
    } else {
      k := n;
    }
  }

  lemma {:induction false} RunningEventKind(schedule: seq<nat>, calls: seq<ToolCall>, oracles: seq<CallOracle>, k: nat)
    requires |calls| == |oracles| && Complete(schedule, calls, oracles) && InRange(schedule, calls, oracles)
    requires k < |schedule|
    ensures var e := RunningEvents(schedule, calls, oracles)[k];
            !e.ToolStart? && (e.ToolEnd? ==> e.id in RunningIds(calls, oracles))
  {
    var i := schedule[k];
    assert RunningEvents(schedule, calls, oracles)[k] == RunningEvent(schedule, calls, oracles, k);
    StepKind(calls[i], oracles[i], Count(schedule[..k], i));
    assert calls[i].id in RunningIds(calls, oracles);
  }

  lemma {:induction false} StepKind(call: ToolCall, oracle: CallOracle, j: nat)
    requires j < |StepsOf(call, oracle)|
    ensures !StepsOf(call, oracle)[j].ToolStart?
    ensures StepsOf(call, oracle)[j].ToolEnd? ==> StepsOf(call, oracle)[j].id == call.id
  {
  }

  lemma {:induction false} RunningCallEnds(schedule: seq<nat>, calls: seq<ToolCall>, oracles: seq<CallOracle>, i: nat)
      returns (k: nat)
    requires |calls| == |oracles| && Complete(schedule, calls, oracles) && InRange(schedule, calls, oracles)
    requires i < |calls| && Prepare(calls[i], oracles[i]).Prepared?
    ensures k < |schedule|
    ensures var e := RunningEvents(schedule, calls, oracles)[k]; e.ToolEnd? && e.id == calls[i].id
  {
    var steps := StepsOf(calls[i], oracles[i]);
    k := CountReaches(schedule, i, |steps| - 1);
    assert RunningEvents(schedule, calls, oracles)[k] == RunningEvent(schedule, calls, oracles, k);
    assert RunningEvent(schedule, calls, oracles, k) == steps[|steps| - 1];
  }

  lemma {:induction false} RunningEnds(schedule: seq<nat>, calls: seq<ToolCall>, oracles: seq<CallOracle>, id: string)
    requires |calls| == |oracles| && Complete(schedule, calls, oracles) && InRange(schedule, calls, oracles)
    ensures var events := RunningEvents(schedule, calls, oracles);
            && (forall k :: 0 <= k < |events| ==> !events[k].ToolStart?)
            && ((exists k :: 0 <= k < |events| && events[k].ToolEnd? && events[k].id == id)
                <==> id in RunningIds(calls, oracles))
  {
    var events := RunningEvents(schedule, calls, oracles);
    forall k | 0 <= k < |events|
      ensures !events[k].ToolStart? && (events[k].ToolEnd? ==> events[k].id in RunningIds(calls, oracles))
    {
      RunningEventKind(schedule, calls, oracles, k);
    }
    if id in RunningIds(calls, oracles) {
      var i :| 0 <= i < |calls| && Prepare(calls[i], oracles[i]).Prepared? && calls[i].id == id;
      var k := RunningCallEnds(schedule, calls, oracles, i);
      assert events[k].ToolEnd? && events[k].id == id;
    }
  }

  /** After a parallel batch nothing it started is pending, whatever the completion order. */
  lemma {:induction false} PendingAfterParallel(pending: set<string>, schedule: seq<nat>, calls: seq<ToolCall>,
                                                oracles: seq<CallOracle>)
    requires |calls| == |oracles| && Complete(schedule, calls, oracles)
    ensures InRange(schedule, calls, oracles)
    ensures PendingAfter(pending, ParallelEvents(schedule, calls, oracles)) == pending - Ids(calls)
  {
    CompleteInRange(schedule, calls, oracles);
    var preflight, running := PreflightEvents(calls, oracles), RunningEvents(schedule, calls, oracles);
    var results := AllMessageEvents(ResultMessages(Outcomes(calls, oracles)));
    PendingSplit(pending, preflight + running, results);
    PendingSplit(pending, preflight, running);
    ResultsAreMessages(ResultMessages(Outcomes(calls, oracles)));
    PendingQuiet(PendingAfter(pending, preflight + running), results);
    forall id ensures id in PendingAfter(pending, preflight + running) <==> id in pending - Ids(calls) {
      RunningEnds(schedule, calls, oracles, id);
      PendingOnlyShrinks(PendingAfter(pending, preflight), running, id);
      if id in RunningIds(calls, oracles) {
        assert id in Ids(calls);
      } else {
        PendingAfterPreflight(pending, calls, oracles, id);
      }
    }
  }
}
