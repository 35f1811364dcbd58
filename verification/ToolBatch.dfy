/** Events of the agent loop, and the execution of one batch of tool calls
    (packages/agent/src/agent-loop.ts). */
module ToolBatch {
  import opened Messages

  datatype Outcome = Outcome(output: string, terminate: bool)

  datatype Finalized = Finalized(call: ToolCall, result: Outcome, isError: bool)

  datatype Event =
    | AgentStart
    | AgentEnd(messages: seq<Message>)
    | BeforeTurn(turnIndex: nat)
    | TurnStart
    | TurnEnd(reply: Message, results: seq<Message>)
    | MessageStart(message: Message)
    | MessageUpdate(message: Message)
    | MessageEnd(message: Message)
    | ToolStart(id: string, name: string)
    | ToolUpdate(id: string, name: string, partialResult: string)
    | ToolEnd(id: string, name: string, result: Outcome, isError: bool)

  datatype Execution = Returns(result: Outcome) | Throws(error: string)

  datatype AfterHook =
    | Keeps
    | Overrides(output: Option<string>, terminate: Option<bool>, isError: Option<bool>)
    | HookThrows(error: string)

  /** Everything the environment decides about one call: the tool registry, the hooks, the tool itself
      and when the abort signal is seen. */
  datatype CallOracle = CallOracle(
    toolFound: bool,
    sequentialOnly: bool,
    prepareError: Option<string>,
    abortedWhilePreparing: bool,
    block: Option<string>,
    updates: seq<string>,
    execution: Execution,
    after: AfterHook,
    abortedAfter: bool)

  datatype Preparation = Immediate(result: Outcome, isError: bool) | Prepared

  function ErrorResult(message: string): Outcome {
    Outcome(message, false)
  }

  function Prepare(call: ToolCall, oracle: CallOracle): Preparation {
    if !oracle.toolFound then Immediate(ErrorResult(call.name), true)
    else if oracle.prepareError.Some? then Immediate(ErrorResult(oracle.prepareError.value), true)
    else if oracle.abortedWhilePreparing then Immediate(ErrorResult("aborted"), true)
    else if oracle.block.Some? then Immediate(ErrorResult(oracle.block.value), true)
    else Prepared
  }

  function Or<T>(value: Option<T>, fallback: T): T {
    if value.Some? then value.value else fallback
  }

  /** The outcome of an executed call after the after-hook. */
  function Finalize(call: ToolCall, oracle: CallOracle): Finalized {
    var (result, isError) :=
      match oracle.execution
      case Returns(r) => (r, false)
      case Throws(e) => (ErrorResult(e), true);
    match oracle.after
    case Keeps => Finalized(call, result, isError)
    case Overrides(output, terminate, error) =>
      Finalized(call, Outcome(Or(output, result.output), Or(terminate, result.terminate)), Or(error, isError))
    case HookThrows(e) => Finalized(call, ErrorResult(e), true)
  }

  function FinalOf(call: ToolCall, oracle: CallOracle): Finalized {
    match Prepare(call, oracle)
    case Immediate(result, isError) => Finalized(call, result, isError)
    case Prepared => Finalize(call, oracle)
  }

  function EndEvent(f: Finalized): Event {
    ToolEnd(f.call.id, f.call.name, f.result, f.isError)
  }

  function ResultMessage(f: Finalized): Message {
    ToolResult(f.call.id, f.call.name, f.result.output, f.isError)
  }

  function UpdateEvents(call: ToolCall, oracle: CallOracle): (events: seq<Event>)
    ensures |events| == |oracle.updates|
  {
    seq(|oracle.updates|, k requires 0 <= k < |oracle.updates| => ToolUpdate(call.id, call.name, oracle.updates[k]))
  }

  /** What one call emits after its start: its updates, then its end. */
  function StepsOf(call: ToolCall, oracle: CallOracle): (events: seq<Event>)
    ensures |events| >= 1
  {
    match Prepare(call, oracle)
    case Immediate(_, _) => [EndEvent(FinalOf(call, oracle))]
    case Prepared => UpdateEvents(call, oracle) + [EndEvent(FinalOf(call, oracle))]
  }

  function StartEvent(call: ToolCall): Event {
    ToolStart(call.id, call.name)
  }

  /** How many calls are taken up before an abort is seen. */
  function Cut(oracles: seq<CallOracle>): (cut: nat)
    ensures cut <= |oracles|
  {
    if oracles == [] then 0
    else if oracles[0].abortedAfter then 1
    else 1 + Cut(oracles[1..])
  }

  /** An abort is seen after call i only when i is the last one taken. */
  lemma {:induction false} CutIsFirstAbort(oracles: seq<CallOracle>)
    ensures forall i :: 0 <= i < Cut(oracles) - 1 ==> !oracles[i].abortedAfter
    ensures Cut(oracles) < |oracles| ==> Cut(oracles) > 0 && oracles[Cut(oracles) - 1].abortedAfter
  {
    if oracles != [] && !oracles[0].abortedAfter {
      CutIsFirstAbort(oracles[1..]);
      forall i | 0 <= i < Cut(oracles) - 1 ensures !oracles[i].abortedAfter {
        if i > 0 {
          assert oracles[i] == oracles[1..][i - 1];
        }
      }
    }
  }

  /** The results of a batch in source order: the reference both modes are measured against. */
  function Outcomes(calls: seq<ToolCall>, oracles: seq<CallOracle>): (outcomes: seq<Finalized>)
    requires |calls| == |oracles|
    ensures |outcomes| == |calls|
    ensures forall i :: 0 <= i < |calls| ==> outcomes[i] == FinalOf(calls[i], oracles[i])
  {
    seq(|calls|, i requires 0 <= i < |calls| => FinalOf(calls[i], oracles[i]))
  }

  function ResultMessages(outcomes: seq<Finalized>): (messages: seq<Message>)
    ensures |messages| == |outcomes|
    ensures forall i :: 0 <= i < |outcomes| ==> messages[i] == ResultMessage(outcomes[i])
  {
    seq(|outcomes|, i requires 0 <= i < |outcomes| => ResultMessage(outcomes[i]))
  }

  predicate ShouldTerminate(outcomes: seq<Finalized>) {
    |outcomes| > 0 && forall i :: 0 <= i < |outcomes| ==> outcomes[i].result.terminate
  }

  function MessageEvents(message: Message): seq<Event> {
    [MessageStart(message), MessageEnd(message)]
  }

  function AllMessageEvents(messages: seq<Message>): seq<Event> {
    if messages == [] then []
    else AllMessageEvents(messages[..|messages| - 1]) + MessageEvents(messages[|messages| - 1])
  }

  // ---------------------------------------------------------------------
  // Sequential mode
  // ---------------------------------------------------------------------

  function CallEvents(call: ToolCall, oracle: CallOracle): seq<Event> {
    [StartEvent(call)] + StepsOf(call, oracle)
  }

  function SequentialEvents(calls: seq<ToolCall>, oracles: seq<CallOracle>): seq<Event>
    requires |calls| == |oracles|
  {
    if calls == [] then []
    else
      var n := |calls| - 1;
      SequentialEvents(calls[..n], oracles[..n])
      + CallEvents(calls[n], oracles[n])
      + MessageEvents(ResultMessage(FinalOf(calls[n], oracles[n])))
  }

  /** No abort has been seen after any of the first k calls. */
  predicate Unaborted(oracles: seq<CallOracle>, k: nat)
    requires k <= |oracles|
  {
    k == 0 || (Unaborted(oracles, k - 1) && !oracles[k - 1].abortedAfter)
  }

  lemma {:induction false} UnabortedTail(oracles: seq<CallOracle>, k: nat)
    requires 1 <= k <= |oracles| && Unaborted(oracles, k)
    ensures !oracles[0].abortedAfter && Unaborted(oracles[1..], k - 1)
  {
    if k > 1 {
      UnabortedTail(oracles, k - 1);
    }
  }

  lemma {:induction false} CutPrefix(oracles: seq<CallOracle>, k: nat)
    requires k <= |oracles| && Unaborted(oracles, k)
    ensures k <= Cut(oracles)
    ensures k < |oracles| ==> k + 1 <= Cut(oracles) && (oracles[k].abortedAfter ==> Cut(oracles) == k + 1)
  {
    if k > 0 {
      UnabortedTail(oracles, k);
      CutPrefix(oracles[1..], k - 1);
    }
  }

  method TerminatesBatch(outcomes: seq<Finalized>) returns (terminate: bool)
    ensures terminate == ShouldTerminate(outcomes)
    ensures terminate <==> outcomes != [] && forall k :: 0 <= k < |outcomes| ==> outcomes[k].result.terminate
  {
    for k := 0 to |outcomes|
      invariant forall j :: 0 <= j < k ==> outcomes[j].result.terminate
    {
      if !outcomes[k].result.terminate {
        return false;
      }
    }
    return |outcomes| > 0;
  }

  method ExecuteOne(call: ToolCall, oracle: CallOracle) returns (events: seq<Event>, finalized: Finalized)
    ensures events == CallEvents(call, oracle) && finalized == FinalOf(call, oracle)
  {
    events := [StartEvent(call)];
    match Prepare(call, oracle) {
      case Immediate(result, isError) =>
        finalized := Finalized(call, result, isError);
        events := events + [EndEvent(finalized)];
      case Prepared =>
        finalized := Finalize(call, oracle);
        events := events + (UpdateEvents(call, oracle) + [EndEvent(finalized)]);
    }
  }

  lemma {:induction false} SequentialSnoc(calls: seq<ToolCall>, oracles: seq<CallOracle>, i: nat)
    requires |calls| == |oracles| && i < |calls|
    ensures SequentialEvents(calls[..i + 1], oracles[..i + 1])
            == SequentialEvents(calls[..i], oracles[..i]) + CallEvents(calls[i], oracles[i])
               + MessageEvents(ResultMessage(FinalOf(calls[i], oracles[i])))
  {
    assert calls[..i + 1][..i] == calls[..i] && oracles[..i + 1][..i] == oracles[..i];
  }

  lemma {:induction false} OutcomesSnoc(calls: seq<ToolCall>, oracles: seq<CallOracle>, i: nat)
    requires |calls| == |oracles| && i < |calls|
    ensures var before, f := Outcomes(calls[..i], oracles[..i]), FinalOf(calls[i], oracles[i]);
            && Outcomes(calls[..i + 1], oracles[..i + 1]) == before + [f]
            && ResultMessages(before + [f]) == ResultMessages(before) + [ResultMessage(f)]
  {
  }

  method ExecuteSequential(calls: seq<ToolCall>, oracles: seq<CallOracle>)
      returns (events: seq<Event>, messages: seq<Message>, terminate: bool)
    requires |calls| == |oracles|
    ensures var cut := Cut(oracles);
            && events == SequentialEvents(calls[..cut], oracles[..cut])
            && messages == ResultMessages(Outcomes(calls[..cut], oracles[..cut]))
            && terminate == ShouldTerminate(Outcomes(calls[..cut], oracles[..cut]))
  {
    events, messages := [], [];
    var finalized: seq<Finalized> := [];
    var i, aborted := 0, false;
    while i < |calls| && !aborted
      invariant 0 <= i <= |calls|
      invariant if aborted then i == Cut(oracles) else Unaborted(oracles, i)
      invariant events == SequentialEvents(calls[..i], oracles[..i])
      invariant finalized == Outcomes(calls[..i], oracles[..i]) && messages == ResultMessages(finalized)
    {
      var more, f := ExecuteOne(calls[i], oracles[i]);
      SequentialSnoc(calls, oracles, i);
      OutcomesSnoc(calls, oracles, i);
      CutPrefix(oracles, i);
      events := events + more + MessageEvents(ResultMessage(f));
      finalized := finalized + [f];
      messages := messages + [ResultMessage(f)];
      aborted := oracles[i].abortedAfter;
      i := i + 1;
    }
    if !aborted {
      CutPrefix(oracles, i);
    }
    terminate := TerminatesBatch(finalized);
  }

  // ---------------------------------------------------------------------
  // Parallel mode
  // ---------------------------------------------------------------------

  function Count(schedule: seq<nat>, i: nat): nat {
    if schedule == [] then 0
    else Count(schedule[..|schedule| - 1], i) + if schedule[|schedule| - 1] == i then 1 else 0
  }

  /** A completion order: which running call emits next. Every call that reached execution appears
      once for each of its updates and once for its end. */
  predicate Complete(schedule: seq<nat>, calls: seq<ToolCall>, oracles: seq<CallOracle>)
    requires |calls| == |oracles|
  {
    && (forall k :: 0 <= k < |schedule| ==>
          schedule[k] < |calls| && Prepare(calls[schedule[k]], oracles[schedule[k]]).Prepared?)
    && (forall i :: 0 <= i < |calls| && Prepare(calls[i], oracles[i]).Prepared? ==>
          Count(schedule, i) == |StepsOf(calls[i], oracles[i])|)
  }

  function PreflightEvents(calls: seq<ToolCall>, oracles: seq<CallOracle>): seq<Event>
    requires |calls| == |oracles|
  {
    if calls == [] then []
    else
      var n := |calls| - 1;
      PreflightEvents(calls[..n], oracles[..n]) + [StartEvent(calls[n])]
      + if Prepare(calls[n], oracles[n]).Immediate? then [EndEvent(FinalOf(calls[n], oracles[n]))] else []
  }

  predicate InRange(schedule: seq<nat>, calls: seq<ToolCall>, oracles: seq<CallOracle>)
    requires |calls| == |oracles|
  {
    forall k :: 0 <= k < |schedule| ==>
      schedule[k] < |calls| && Count(schedule[..k], schedule[k]) < |StepsOf(calls[schedule[k]], oracles[schedule[k]])|
  }

  function RunningEvent(schedule: seq<nat>, calls: seq<ToolCall>, oracles: seq<CallOracle>, k: nat): Event
    requires |calls| == |oracles| && InRange(schedule, calls, oracles) && k < |schedule|
  {
    StepsOf(calls[schedule[k]], oracles[schedule[k]])[Count(schedule[..k], schedule[k])]
  }

  /** Events of the running calls, interleaved as the schedule says. */
  function RunningEvents(schedule: seq<nat>, calls: seq<ToolCall>, oracles: seq<CallOracle>): (events: seq<Event>)
    requires |calls| == |oracles| && InRange(schedule, calls, oracles)
    ensures |events| == |schedule|
  {
    seq(|schedule|, k requires 0 <= k < |schedule| => RunningEvent(schedule, calls, oracles, k))
  }

  lemma {:induction false} CountGrows(schedule: seq<nat>, k: nat, i: nat)
    requires k <= |schedule|
    ensures Count(schedule[..k], i) <= Count(schedule, i)
    ensures k < |schedule| && schedule[k] == i ==> Count(schedule[..k], i) < Count(schedule, i)
    decreases |schedule|
  {
    if k == |schedule| {
      assert schedule[..k] == schedule;
    } else {
      var n := |schedule| - 1;
      assert schedule[..n][..k] == schedule[..k];
      CountGrows(schedule[..n], k, i);
      if k == n {
        assert schedule[..n] == schedule[..k];
      }
    }
  }

  lemma {:induction false} CompleteInRange(schedule: seq<nat>, calls: seq<ToolCall>, oracles: seq<CallOracle>)
    requires |calls| == |oracles| && Complete(schedule, calls, oracles)
    ensures InRange(schedule, calls, oracles)
  {
    forall k | 0 <= k < |schedule|
      ensures Count(schedule[..k], schedule[k]) < |StepsOf(calls[schedule[k]], oracles[schedule[k]])|
    {
      CountGrows(schedule, k, schedule[k]);
    }
  }

  function ParallelEvents(schedule: seq<nat>, calls: seq<ToolCall>, oracles: seq<CallOracle>): seq<Event>
    requires |calls| == |oracles| && InRange(schedule, calls, oracles)
  {
    PreflightEvents(calls, oracles)
    + RunningEvents(schedule, calls, oracles)
    + AllMessageEvents(ResultMessages(Outcomes(calls, oracles)))
  }

  function SlotOf(call: ToolCall, oracle: CallOracle): Option<Finalized> {
    if Prepare(call, oracle).Immediate? then Some(FinalOf(call, oracle)) else None
  }

  /** First phase: preparation in source order; a finished entry per call that never runs. */
  method Preflight(calls: seq<ToolCall>, oracles: seq<CallOracle>)
      returns (events: seq<Event>, entries: seq<Option<Finalized>>)
    requires |calls| == |oracles|
    ensures |entries| == Cut(oracles)
    ensures events == PreflightEvents(calls[..|entries|], oracles[..|entries|])
    ensures forall k :: 0 <= k < |entries| ==> entries[k] == SlotOf(calls[k], oracles[k])
  {
    events, entries := [], [];
    var i, aborted := 0, false;
    while i < |calls| && !aborted
      invariant 0 <= i <= |calls| && |entries| == i
      invariant if aborted then i == Cut(oracles) else Unaborted(oracles, i)
      invariant events == PreflightEvents(calls[..i], oracles[..i])
      invariant forall k :: 0 <= k < i ==> entries[k] == SlotOf(calls[k], oracles[k])
    {
      assert calls[..i + 1][..i] == calls[..i] && oracles[..i + 1][..i] == oracles[..i];
      CutPrefix(oracles, i);
      events := events + [StartEvent(calls[i])];
      match Prepare(calls[i], oracles[i]) {
        case Immediate(result, isError) =>
          var f := Finalized(calls[i], result, isError);
          events := events + [EndEvent(f)];
          entries := entries + [Some(f)];
        case Prepared =>
          entries := entries + [None];
      }
      aborted := oracles[i].abortedAfter;
      i := i + 1;
    }
    if !aborted {
      CutPrefix(oracles, i);
    }
  }

  lemma {:induction false} CountSnoc(schedule: seq<nat>, k: nat, i: nat)
    requires k < |schedule|
    ensures Count(schedule[..k + 1], i) == Count(schedule[..k], i) + if schedule[k] == i then 1 else 0
  {
    assert schedule[..k + 1][..k] == schedule[..k];
  }

  /** The slots once the calls have advanced as far as progress says. */
  ghost predicate SlotsMatch(slots: seq<Option<Finalized>>, progress: seq<nat>, calls: seq<ToolCall>,
                             oracles: seq<CallOracle>)
    requires |calls| == |oracles|
  {
    && |slots| == |progress| == |calls|
    && forall i :: 0 <= i < |calls| ==>
         slots[i] == if Prepare(calls[i], oracles[i]).Immediate? || progress[i] >= |StepsOf(calls[i], oracles[i])|
                     then Some(FinalOf(calls[i], oracles[i])) else None
  }

  /** One running call emits its next event; its slot is filled by its end. */
  method Advance(progress: nat, call: ToolCall, oracle: CallOracle, slot: Option<Finalized>)
      returns (event: Event, filled: Option<Finalized>)
    requires Prepare(call, oracle).Prepared? && progress < |StepsOf(call, oracle)|
    ensures event == StepsOf(call, oracle)[progress]
    ensures filled == if progress + 1 == |StepsOf(call, oracle)| then Some(FinalOf(call, oracle)) else slot
  {
    if progress < |oracle.updates| {
      return ToolUpdate(call.id, call.name, oracle.updates[progress]), slot;
    }
    var f := Finalize(call, oracle);
    return EndEvent(f), Some(f);
  }

  ghost predicate Counts(progress: seq<nat>, schedule: seq<nat>) {
    forall i :: 0 <= i < |progress| ==> progress[i] == Count(schedule, i)
  }

  lemma {:induction false} ProgressStep(schedule: seq<nat>, k: nat, progress: seq<nat>)
    requires k < |schedule| && schedule[k] < |progress| && Counts(progress, schedule[..k])
    ensures Counts(progress[schedule[k] := progress[schedule[k]] + 1], schedule[..k + 1])
  {
    var after := progress[schedule[k] := progress[schedule[k]] + 1];
    forall i | 0 <= i < |after|
      ensures after[i] == Count(schedule[..k + 1], i)
    {
      CountSnoc(schedule, k, i);
    }
  }

  lemma {:induction false} SlotsStep(slots: seq<Option<Finalized>>, progress: seq<nat>, calls: seq<ToolCall>,
                                     oracles: seq<CallOracle>, i: nat, filled: Option<Finalized>)
    requires |calls| == |oracles| && SlotsMatch(slots, progress, calls, oracles)
    requires i < |calls| && Prepare(calls[i], oracles[i]).Prepared? && progress[i] < |StepsOf(calls[i], oracles[i])|
    requires filled == if progress[i] + 1 == |StepsOf(calls[i], oracles[i])| then Some(FinalOf(calls[i], oracles[i]))
                       else slots[i]
    ensures SlotsMatch(slots[i := filled], progress[i := progress[i] + 1], calls, oracles)
  {
  }

  lemma {:induction false} AllSlotsFilled(slots: seq<Option<Finalized>>, progress: seq<nat>, schedule: seq<nat>,
                                          calls: seq<ToolCall>, oracles: seq<CallOracle>)
    requires |calls| == |oracles| && Complete(schedule, calls, oracles)
    requires SlotsMatch(slots, progress, calls, oracles) && Counts(progress, schedule)
    ensures forall i :: 0 <= i < |calls| ==> slots[i] == Some(FinalOf(calls[i], oracles[i]))
  {
  }

  lemma {:induction false} PrefixSnoc<T>(all: seq<T>, k: nat)
    requires k < |all|
    ensures all[..k + 1] == all[..k] + [all[k]]
  {
  }

  /** The call the schedule picks next has a step left, and it is the next event. */
  lemma {:induction false} NextIsDue(schedule: seq<nat>, k: nat, calls: seq<ToolCall>, oracles: seq<CallOracle>,
                                     progress: seq<nat>)
    requires |calls| == |oracles| && Complete(schedule, calls, oracles) && InRange(schedule, calls, oracles)
    requires k < |schedule| && |progress| == |calls| && Counts(progress, schedule[..k])
    ensures var i := schedule[k];
            && i < |calls| && Prepare(calls[i], oracles[i]).Prepared? && progress[i] < |StepsOf(calls[i], oracles[i])|
            && RunningEvents(schedule, calls, oracles)[k] == StepsOf(calls[i], oracles[i])[progress[i]]
  {
    assert RunningEvents(schedule, calls, oracles)[k] == RunningEvent(schedule, calls, oracles, k);
  }

  /** The call the schedule picks at k takes its next step. */
  method AdvanceScheduled(schedule: seq<nat>, k: nat, calls: seq<ToolCall>, oracles: seq<CallOracle>,
                          progress: seq<nat>, slots: seq<Option<Finalized>>)
      returns (event: Event, further: seq<nat>, filled: seq<Option<Finalized>>)
    requires |calls| == |oracles| && Complete(schedule, calls, oracles) && InRange(schedule, calls, oracles)
    requires k < |schedule| && |progress| == |calls| && Counts(progress, schedule[..k])
    requires SlotsMatch(slots, progress, calls, oracles)
    ensures event == RunningEvents(schedule, calls, oracles)[k]
    ensures |further| == |calls| && Counts(further, schedule[..k + 1])
    ensures SlotsMatch(filled, further, calls, oracles)
  {
    NextIsDue(schedule, k, calls, oracles, progress);
    var i := schedule[k];
    var slot;
    event, slot := Advance(progress[i], calls[i], oracles[i], slots[i]);
    ProgressStep(schedule, k, progress);
    SlotsStep(slots, progress, calls, oracles, i, slot);
    filled := slots[i := slot];
    further := progress[i := progress[i] + 1];
  }

  /** Second phase: the running calls advance in completion order, each filling its own slot. */
  method RunConcurrently(schedule: seq<nat>, calls: seq<ToolCall>, oracles: seq<CallOracle>,
                         entries: seq<Option<Finalized>>)
      returns (events: seq<Event>, slots: seq<Option<Finalized>>)
    requires |calls| == |oracles| && Complete(schedule, calls, oracles)
    requires SlotsMatch(entries, seq(|calls|, _ => 0), calls, oracles)
    ensures InRange(schedule, calls, oracles)
    ensures events == RunningEvents(schedule, calls, oracles)
    ensures |slots| == |calls|
    ensures forall i :: 0 <= i < |calls| ==> slots[i] == Some(FinalOf(calls[i], oracles[i]))
  {
    CompleteInRange(schedule, calls, oracles);
    ghost var all := RunningEvents(schedule, calls, oracles);
    var progress: seq<nat> := seq(|calls|, _ => 0);
    slots := entries;
    events := [];
    for k := 0 to |schedule|
      invariant events == all[..k]
      invariant |progress| == |calls| && Counts(progress, schedule[..k])
      invariant SlotsMatch(slots, progress, calls, oracles)
    {
      var event;
      event, progress, slots := AdvanceScheduled(schedule, k, calls, oracles, progress, slots);
      PrefixSnoc(all, k);
      events := events + [event];
    }
    assert schedule[..|schedule|] == schedule;
    AllSlotsFilled(slots, progress, schedule, calls, oracles);
  }

  /** Third phase: result messages in source order. */
  method EmitResults(outcomes: seq<Finalized>) returns (events: seq<Event>, messages: seq<Message>)
    ensures messages == ResultMessages(outcomes) && events == AllMessageEvents(messages)
  {
    events, messages := [], [];
    for k := 0 to |outcomes|
      invariant messages == ResultMessages(outcomes[..k])
      invariant events == AllMessageEvents(messages)
    {
      var message := ResultMessage(outcomes[k]);
      assert (messages + [message])[..|messages|] == messages;
      events := events + MessageEvents(message);
      messages := messages + [message];
    }
    assert outcomes[..|outcomes|] == outcomes;
  }

  method ExecuteParallel(schedule: seq<nat>, calls: seq<ToolCall>, oracles: seq<CallOracle>)
      returns (events: seq<Event>, messages: seq<Message>, terminate: bool)
    requires |calls| == |oracles|
    requires Complete(schedule, calls[..Cut(oracles)], oracles[..Cut(oracles)])
    ensures var cut := Cut(oracles);
            && InRange(schedule, calls[..cut], oracles[..cut])
            && events == ParallelEvents(schedule, calls[..cut], oracles[..cut])
            && messages == ResultMessages(Outcomes(calls[..cut], oracles[..cut]))
            && terminate == ShouldTerminate(Outcomes(calls[..cut], oracles[..cut]))
  {
    var preflight, entries := Preflight(calls, oracles);
    var taken, seen := calls[..|entries|], oracles[..|entries|];
    var running, slots := RunConcurrently(schedule, taken, seen, entries);
    var ordered := seq(|slots|, i requires 0 <= i < |slots| => slots[i].value);
    assert ordered == Outcomes(taken, seen);
    var results;
    results, messages := EmitResults(ordered);
    events := preflight + running + results;
    terminate := TerminatesBatch(ordered);
  }
}
