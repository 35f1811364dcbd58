/** In-query compaction: segment choice, persisted markers and their replay (packages/agent/src/query-compaction.ts). */
module QueryCompaction {
  import opened Messages
  import opened Whitespace

  /** Stands for the fixed text put in front of every summary; its wording plays no part. */
  const QUERY_COMPACTION_PREFIX := "#"

  datatype Segment = Segment(startIndex: nat, endIndex: nat)

  datatype Plan = Plan(startIndex: nat, endIndex: nat, summary: string, contextWindow: int)

  // ---------------------------------------------------------------------
  // Segment selection
  // ---------------------------------------------------------------------

  function AssistantCount(messages: seq<Message>): nat {
    if messages == [] then 0
    else (if messages[0].Assistant? then 1 else 0) + AssistantCount(messages[1..])
  }

  /** First index from start that is an assistant with exactly keep assistants from there on; the end of the context
      when there is none. */
  function TailIndex(messages: seq<Message>, start: nat, keep: nat): (tail: nat)
    requires start <= |messages|
    ensures start <= tail <= |messages|
    decreases |messages| - start
  {
    if start == |messages| then start
    else if messages[start].Assistant? && AssistantCount(messages[start..]) == keep then start
    else TailIndex(messages, start + 1, keep)
  }

  predicate IsWork(message: Message) {
    message.Assistant? || message.ToolResult?
  }

  /** The segment to compact, if any, when the last summary sits at index start - 1. */
  function SelectSegment(messages: seq<Message>, start: nat, keep: nat): Option<Segment> {
    if start > |messages| then None
    else
      var tail := TailIndex(messages, start, keep);
      if tail - start < 2 || !exists k :: start <= k < tail && IsWork(messages[k]) then None
      else Some(Segment(start, tail))
  }

  lemma {:induction false} AssistantCountSplit(messages: seq<Message>, at: nat)
    requires at <= |messages|
    ensures AssistantCount(messages) == AssistantCount(messages[..at]) + AssistantCount(messages[at..])
  {
    if at == 0 {
      assert messages[..0] == [] && messages[0..] == messages;
    } else {
      AssistantCountSplit(messages[1..], at - 1);
      assert messages[..at][1..] == messages[1..][..at - 1];
      assert messages[1..][at - 1..] == messages[at..];
    }
  }

  /** What TailIndex means: it protects exactly the last keep assistants and what follows them, and protects nothing
      when there are fewer. */
  lemma {:induction false} TailProtectsRecentBatches(messages: seq<Message>, start: nat, keep: nat)
    requires start <= |messages| && keep >= 1
    ensures var tail := TailIndex(messages, start, keep);
            if AssistantCount(messages[start..]) >= keep then
              tail < |messages| && messages[tail].Assistant? && AssistantCount(messages[tail..]) == keep
            else tail == |messages|
    decreases |messages| - start
  {
    if start < |messages| {
      assert messages[start..][1..] == messages[start + 1..];
      if !(messages[start].Assistant? && AssistantCount(messages[start..]) == keep) {
        TailProtectsRecentBatches(messages, start + 1, keep);
      }
    }
  }

  /** A compacted segment ends on an assistant or at the end of the context, and the splice shortens it. */
  lemma {:induction false} SegmentBoundaries(messages: seq<Message>, start: nat, keep: nat)
    requires keep >= 1 && SelectSegment(messages, start, keep).Some?
    ensures var s := SelectSegment(messages, start, keep).value;
            && s.startIndex == start && start + 2 <= s.endIndex <= |messages|
            && (s.endIndex < |messages| ==> messages[s.endIndex].Assistant?)
  {
    TailProtectsRecentBatches(messages, start, keep);
  }

  // ---------------------------------------------------------------------
  // The compactor
  // ---------------------------------------------------------------------

  function Projection(summary: string): Message {
    User(QUERY_COMPACTION_PREFIX + summary)
  }

  function BuildMarker(plan: Plan): Message
    requires plan.startIndex <= plan.endIndex
  {
    Custom(QueryCompactionMarker, Some(QUERY_COMPACTION_PREFIX + plan.summary), false,
           Some(MarkerDetails(Some(plan.startIndex), Some(plan.endIndex - plan.startIndex), plan.contextWindow)))
  }

  datatype CompactorOptions = CompactorOptions(contextWindow: int, triggerTokens: int, keepRecentBatches: nat)

  const DEFAULT_TRIGGER_PERCENT := 0.74
  const DEFAULT_KEEP_RECENT_BATCHES := 1

  /** The options as the constructor completes and bounds them. */
  function OptionsOf(contextWindow: int, triggerPercent: Option<real>, keepRecentBatches: Option<int>):
      (options: CompactorOptions)
    ensures options.contextWindow >= 1 && options.keepRecentBatches >= 1
    ensures contextWindow >= 1 ==> options.contextWindow == contextWindow
    ensures keepRecentBatches.Some? && keepRecentBatches.value >= 1 ==>
              options.keepRecentBatches == keepRecentBatches.value
    ensures var percent := if triggerPercent.Some? then triggerPercent.value else DEFAULT_TRIGGER_PERCENT;
            var trigger := options.contextWindow as real * percent;
            options.triggerTokens as real <= trigger < options.triggerTokens as real + 1.0
  {
    var window := if contextWindow >= 1 then contextWindow else 1;
    var percent := if triggerPercent.Some? then triggerPercent.value else DEFAULT_TRIGGER_PERCENT;
    var keep := if keepRecentBatches.Some? then keepRecentBatches.value else DEFAULT_KEEP_RECENT_BATCHES;
    CompactorOptions(window, (window as real * percent).Floor, if keep >= 1 then keep else 1)
  }

  /** The plan for one evaluation; estimated and summary are what the injected estimator and summarizer answer. */
  function PlanFor(options: CompactorOptions, last: int, messages: seq<Message>, estimated: int, summary: string):
      Option<Plan>
    requires last >= -1
  {
    if estimated <= options.triggerTokens then None
    else
      match SelectSegment(messages, last + 1, options.keepRecentBatches)
      case None => None
      case Some(s) => if Trim(summary) == "" then None
                      else Some(Plan(s.startIndex, s.endIndex, Trim(summary), options.contextWindow))
  }

  class QueryCompactor {
    const options: CompactorOptions
    var lastCompactIndex: int

    constructor (options: CompactorOptions)
      ensures this.options == options && lastCompactIndex == -1
    {
      this.options := options;
      lastCompactIndex := -1;
    }

    method Select(messages: seq<Message>) returns (segment: Option<Segment>)
      requires lastCompactIndex >= -1 && options.keepRecentBatches >= 1
      ensures segment == SelectSegment(messages, lastCompactIndex + 1, options.keepRecentBatches)
    {
      var start := lastCompactIndex + 1;
      var tail := |messages|;
      var batches := 0;
      var i := |messages| - 1;
      while i >= start
        invariant start - 1 <= i < |messages| || (i == |messages| - 1 && i < start)
        invariant i + 1 <= |messages|
        invariant start <= |messages| ==> i + 1 >= start && batches == AssistantCount(messages[i + 1..])
        invariant batches < options.keepRecentBatches
        invariant tail == |messages|
        decreases i
      {
        assert messages[i..][1..] == messages[i + 1..];
        if messages[i].Assistant? {
          batches := batches + 1;
        }
        if batches >= options.keepRecentBatches {
          tail := i;
          break;
        }
        i := i - 1;
      }
      if start <= |messages| {
        if tail < |messages| {
          TailIsUnique(messages, start, tail, options.keepRecentBatches);
        } else {
          TailProtectsRecentBatches(messages, start, options.keepRecentBatches);
        }
      }
      if tail - start < 2 {
        return None;
      }
      if !exists k :: start <= k < tail && IsWork(messages[k]) {
        return None;
      }
      return Some(Segment(start, tail));
    }

    method MaybeCompact(messages: seq<Message>, estimated: int, summary: string) returns (plan: Option<Plan>)
      requires lastCompactIndex >= -1 && options.keepRecentBatches >= 1
      ensures plan == PlanFor(options, lastCompactIndex, messages, estimated, summary)
      ensures plan.Some? <==>
                && estimated > options.triggerTokens && !Blank(summary)
                && WorthCompacting(messages, lastCompactIndex + 1, options.keepRecentBatches)
    {
      PlanWhenever(options, lastCompactIndex, messages, estimated, summary);
      if estimated <= options.triggerTokens {
        return None;
      }
      var segment := Select(messages);
      if segment.None? {
        return None;
      }
      var text := Trim(summary);
      if text == "" {
        return None;
      }
      return Some(Plan(segment.value.startIndex, segment.value.endIndex, text, options.contextWindow));
    }

    method RecordCompacted(plan: Plan)
      modifies this
      ensures lastCompactIndex == plan.startIndex
    {
      lastCompactIndex := plan.startIndex;
    }

    method Reset()
      modifies this
      ensures lastCompactIndex == -1
    {
      lastCompactIndex := -1;
    }
  }

  lemma {:induction false} TailIsUnique(messages: seq<Message>, start: nat, tail: nat, keep: nat)
    requires start <= tail < |messages| && messages[tail].Assistant?
    requires AssistantCount(messages[tail..]) == keep
    ensures TailIndex(messages, start, keep) == tail
    decreases tail - start
  {
    if start < tail {
      AssistantCountSplit(messages[start..], tail - start);
      assert messages[start..][tail - start..] == messages[tail..];
      assert messages[start..][..tail - start][0] == messages[start];
      TailIsUnique(messages, start + 1, tail, keep);
    }
  }

  /** Where the protected tail begins: at the last keep assistants from start on, or at the end when there are fewer. */
  predicate ProtectsTail(messages: seq<Message>, start: nat, keep: nat, end: nat) {
    && start <= end <= |messages|
    && if AssistantCount(messages[start..]) >= keep then
         end < |messages| && messages[end].Assistant? && AssistantCount(messages[end..]) == keep
       else end == |messages|
  }

  /** From start up to the tail there are at least two messages, an assistant or a tool result among them. */
  predicate CompactsTo(messages: seq<Message>, start: nat, keep: nat, end: nat) {
    && ProtectsTail(messages, start, keep, end) && end - start >= 2
    && exists k :: start <= k < end && (messages[k].Assistant? || messages[k].ToolResult?)
  }

  ghost predicate WorthCompacting(messages: seq<Message>, start: nat, keep: nat) {
    exists end: nat :: CompactsTo(messages, start, keep, end)
  }

  /** The segment is the one stretch that leaves exactly the recent batches, when it is worth compacting. */
  lemma {:induction false} SegmentExactly(messages: seq<Message>, start: nat, keep: nat, end: nat)
    requires keep >= 1
    ensures SelectSegment(messages, start, keep) == Some(Segment(start, end)) <==>
            CompactsTo(messages, start, keep, end)
  {
    if start <= |messages| {
      TailProtectsRecentBatches(messages, start, keep);
      if ProtectsTail(messages, start, keep, end) && AssistantCount(messages[start..]) >= keep {
        TailIsUnique(messages, start, end, keep);
      }
    }
  }

  /** A plan is made exactly when the estimate exceeds the trigger, there is a segment worth compacting after the last
      summary, and the summary is not blank; it covers that segment. */
  lemma {:induction false} PlanExactly(options: CompactorOptions, last: int, messages: seq<Message>, estimated: int,
                                       summary: string, end: nat)
    requires last >= -1 && options.keepRecentBatches >= 1
    ensures PlanFor(options, last, messages, estimated, summary)
              == Some(Plan(last + 1, end, Trim(summary), options.contextWindow)) <==>
            && estimated > options.triggerTokens && !Blank(summary)
            && CompactsTo(messages, last + 1, options.keepRecentBatches, end)
    ensures var plan := PlanFor(options, last, messages, estimated, summary);
            plan.Some? ==> plan.value == Plan(last + 1, plan.value.endIndex, Trim(summary), options.contextWindow)
  {
    SegmentExactly(messages, last + 1, options.keepRecentBatches, end);
    var segment := SelectSegment(messages, last + 1, options.keepRecentBatches);
    if segment.Some? {
      SegmentBoundaries(messages, last + 1, options.keepRecentBatches);
    }
  }

  lemma {:induction false} PlanWhenever(options: CompactorOptions, last: int, messages: seq<Message>, estimated: int,
                                        summary: string)
    requires last >= -1 && options.keepRecentBatches >= 1
    ensures PlanFor(options, last, messages, estimated, summary).Some? <==>
              && estimated > options.triggerTokens && !Blank(summary)
              && WorthCompacting(messages, last + 1, options.keepRecentBatches)
  {
    var start := last + 1;
    var plan := PlanFor(options, last, messages, estimated, summary);
    if plan.Some? {
      PlanExactly(options, last, messages, estimated, summary, plan.value.endIndex);
    }
    if WorthCompacting(messages, start, options.keepRecentBatches) {
      var end :| CompactsTo(messages, start, options.keepRecentBatches, end);
      PlanExactly(options, last, messages, estimated, summary, end);
    }
  }

  // ---------------------------------------------------------------------
  // Persisted markers
  // ---------------------------------------------------------------------

  datatype Marker = Marker(index: nat, startIndex: int, coveredCount: int, summary: string)

  predicate IsMarker(message: Message) {
    && message.Custom?
    && message.customType.QueryCompactionMarker?
    && message.details.Some?
    && message.details.value.startIndex.Some?
    && message.details.value.coveredCount.Some?
    && message.details.value.coveredCount.value > 0
  }

  function MarkerAt(message: Message, index: nat): Marker
    requires IsMarker(message)
  {
    Marker(index, message.details.value.startIndex.value, message.details.value.coveredCount.value,
           if message.body.Some? then message.body.value else "")
  }

  /** All markers of a stream, in order, with their positions. */
  function Markers(stream: seq<Message>): seq<Marker> {
    if stream == [] then []
    else
      var k := |stream| - 1;
      Markers(stream[..k]) + if IsMarker(stream[k]) then [MarkerAt(stream[k], k)] else []
  }

  /** The stream without its markers. */
  function Raw(stream: seq<Message>): (raw: seq<Message>)
    ensures |raw| <= |stream|
  {
    if stream == [] then []
    else
      var k := |stream| - 1;
      Raw(stream[..k]) + if IsMarker(stream[k]) then [] else [stream[k]]
  }

  method CollectMarkers(stream: seq<Message>) returns (markers: seq<Marker>)
    ensures markers == Markers(stream)
  {
    markers := [];
    for i := 0 to |stream|
      invariant markers == Markers(stream[..i])
    {
      assert stream[..i + 1][..i] == stream[..i];
      if !IsMarker(stream[i]) {
        continue;
      }
      markers := markers + [MarkerAt(stream[i], i)];
    }
    assert stream[..|stream|] == stream;
  }

  // ---------------------------------------------------------------------
  // Replay
  // ---------------------------------------------------------------------

  datatype Range = Range(from: int, to: int, summary: string)

  /** Total covered by a list of markers. */
  function Covered(markers: seq<Marker>): int {
    if markers == [] then 0 else Covered(markers[..|markers| - 1]) + markers[|markers| - 1].coveredCount
  }

  /** Where marker i claims its segment lies in the stored stream. */
  function RangeOf(markers: seq<Marker>, i: nat): Range
    requires i < |markers|
  {
    var from := markers[i].startIndex - i + Covered(markers[..i]);
    Range(from, from + markers[i].coveredCount, markers[i].summary)
  }

  function Ranges(markers: seq<Marker>): (ranges: seq<Range>)
    ensures |ranges| == |markers|
    ensures forall i :: 0 <= i < |markers| ==> ranges[i] == RangeOf(markers, i)
  {
    seq(|markers|, i requires 0 <= i < |markers| => RangeOf(markers, i))
  }

  /** Ranges are ascending, disjoint and inside a stream of the given length. */
  predicate InBounds(ranges: seq<Range>, length: nat) {
    forall i :: 0 <= i < |ranges| ==>
      0 <= ranges[i].from && ranges[i].to <= length && (i > 0 ==> ranges[i - 1].to <= ranges[i].from)
  }

  predicate Accepts(stream: seq<Message>) {
    InBounds(Ranges(Markers(stream)), |stream|)
  }

  predicate Contiguous(ranges: seq<Range>, cursor: nat, length: nat) {
    && (forall i :: 0 <= i < |ranges| ==> cursor <= ranges[i].from <= ranges[i].to <= length)
    && (forall i :: 0 < i < |ranges| ==> ranges[i - 1].to <= ranges[i].from)
    && cursor <= length
  }

  /** The non-markers at positions a up to b. */
  function RawBetween(stream: seq<Message>, a: int, b: int): seq<Message>
    decreases b - a
  {
    if 0 <= a < b <= |stream| then
      RawBetween(stream, a, b - 1) + if IsMarker(stream[b - 1]) then [] else [stream[b - 1]]
    else []
  }

  /** The rebuilt stream from cursor on: summaries at their ranges, other non-markers kept. */
  function Rebuild(stream: seq<Message>, ranges: seq<Range>, cursor: int): seq<Message> {
    if ranges == [] then RawBetween(stream, cursor, |stream|)
    else
      RawBetween(stream, cursor, ranges[0].from) + [User(ranges[0].summary)]
      + Rebuild(stream, ranges[1..], ranges[0].to)
  }

  lemma {:induction false} ContiguousTail(ranges: seq<Range>, cursor: nat, length: nat)
    requires ranges != [] && Contiguous(ranges, cursor, length)
    ensures Contiguous(ranges[1..], ranges[0].to, length)
  {
    forall i | 0 < i < |ranges|
      ensures ranges[0].to <= ranges[i].from
    {
      FirstBeforeAll(ranges, cursor, length, i);
    }
    assert forall i :: 0 <= i < |ranges[1..]| ==> ranges[1..][i] == ranges[i + 1];
  }

  lemma {:induction false} FirstBeforeAll(ranges: seq<Range>, cursor: nat, length: nat, i: nat)
    requires 0 < i < |ranges| && Contiguous(ranges, cursor, length)
    ensures ranges[0].to <= ranges[i].from
  {
    if i > 1 {
      FirstBeforeAll(ranges, cursor, length, i - 1);
    }
  }

  /** Accepted ranges are contiguous from the start of the stream. */
  lemma {:induction false} AcceptedContiguous(markers: seq<Marker>, length: nat)
    requires InBounds(Ranges(markers), length)
    requires forall i :: 0 <= i < |markers| ==> markers[i].coveredCount > 0
    ensures Contiguous(Ranges(markers), 0, length)
  {
  }

  /** Every collected marker really is one. */
  lemma {:induction false} MarkersAreMarkers(stream: seq<Message>)
    ensures forall i :: 0 <= i < |Markers(stream)| ==> IsMarkerOf(stream, Markers(stream)[i])
  {
    if stream != [] {
      var n := |stream| - 1;
      var before := Markers(stream[..n]);
      MarkersAreMarkers(stream[..n]);
      forall i | 0 <= i < |Markers(stream)| ensures IsMarkerOf(stream, Markers(stream)[i]) {
        if i < |before| {
          assert IsMarkerOf(stream[..n], before[i]);
        }
      }
    }
  }

  predicate IsMarkerOf(stream: seq<Message>, m: Marker) {
    m.index < |stream| && IsMarker(stream[m.index]) && m == MarkerAt(stream[m.index], m.index)
  }

  /** The markers of a stream are its compaction messages with both coordinates and a positive count, each once and
      read as it was written; other custom messages are none. */
  lemma {:induction false} MarkersExactly(stream: seq<Message>, i: nat)
    ensures (exists j :: 0 <= j < |Markers(stream)| && Markers(stream)[j].index == i) <==>
              && i < |stream| && stream[i].Custom? && stream[i].customType == QueryCompactionMarker
              && match stream[i].details
                 case None => false
                 case Some(MarkerDetails(start, count, _)) => start.Some? && count.Some? && count.value > 0
    ensures forall j, k :: 0 <= j < k < |Markers(stream)| ==> Markers(stream)[j].index < Markers(stream)[k].index
  {
    if stream != [] {
      var n := |stream| - 1;
      MarkersExactly(stream[..n], i);
      MarkersAreMarkers(stream[..n]);
      var before := Markers(stream[..n]);
      assert before <= Markers(stream);
      assert forall j :: 0 <= j < |before| ==> Markers(stream)[j] == before[j];
      if i == n && IsMarker(stream[n]) {
        assert Markers(stream)[|before|].index == n;
      }
    }
  }

  /** A plan's marker is hidden, and is read back as the plan. */
  lemma {:induction false} MarkerReadsBack(plan: Plan, index: nat)
    requires plan.startIndex < plan.endIndex
    ensures var marker := BuildMarker(plan);
            && IsMarker(marker) && !marker.display
            && marker.details.value.contextWindow == plan.contextWindow
            && MarkerAt(marker, index)
               == Marker(index, plan.startIndex, plan.endIndex - plan.startIndex, Projection(plan.summary).content)
  {
  }

  /** The replayed context: markers applied when their coordinates check out, otherwise the stream itself. */
  function Replay(stream: seq<Message>): seq<Message> {
    var markers := Markers(stream);
    if markers == [] || !InBounds(Ranges(markers), |stream|) then stream
    else Rebuild(stream, Ranges(markers), 0)
  }

  lemma {:induction false} RawSplit(a: seq<Message>, b: seq<Message>)
    ensures Raw(a + b) == Raw(a) + Raw(b)
    decreases |b|
  {
    if b == [] {
      assert a + b == a;
    } else {
      var k := |b| - 1;
      assert (a + b)[..|a + b| - 1] == a + b[..k];
      RawSplit(a, b[..k]);
    }
  }

  lemma {:induction false} RawBetweenIsRaw(stream: seq<Message>, from: nat, end: nat)
    requires from <= end <= |stream|
    ensures RawBetween(stream, from, end) == Raw(stream[from..end])
    decreases end
  {
    if from < end {
      assert stream[from..end][..end - 1 - from] == stream[from..end - 1];
      RawBetweenIsRaw(stream, from, end - 1);
    }
  }

  method RangesFor(markers: seq<Marker>) returns (ranges: seq<Range>)
    ensures ranges == Ranges(markers)
  {
    var sumPrev := 0;
    ranges := [];
    for i := 0 to |markers|
      invariant |ranges| == i && sumPrev == Covered(markers[..i])
      invariant forall j :: 0 <= j < i ==> ranges[j] == RangeOf(markers, j)
    {
      var from := markers[i].startIndex - i + sumPrev;
      assert markers[..i + 1][..i] == markers[..i];
      sumPrev := sumPrev + markers[i].coveredCount;
      ranges := ranges + [Range(from, from + markers[i].coveredCount, markers[i].summary)];
    }
  }

  method CheckBounds(ranges: seq<Range>, length: nat) returns (ok: bool)
    ensures ok <==> InBounds(ranges, length)
  {
    for i := 0 to |ranges|
      invariant forall j :: 0 <= j < i ==>
                  0 <= ranges[j].from && ranges[j].to <= length && (j > 0 ==> ranges[j - 1].to <= ranges[j].from)
    {
      if ranges[i].from < 0 || ranges[i].to > length {
        return false;
      }
      if i > 0 && ranges[i].from < ranges[i - 1].to {
        return false;
      }
    }
    return true;
  }

  /** One copying loop: the non-markers of a stretch of the stream, appended. */
  method CopyRaw(messages: seq<Message>, from: nat, to: nat, result: seq<Message>) returns (extended: seq<Message>)
    requires from <= to <= |messages|
    ensures extended == result + RawBetween(messages, from, to)
  {
    extended := result;
    for cursor := from to to
      invariant extended == result + RawBetween(messages, from, cursor)
    {
      if !IsMarker(messages[cursor]) {
        extended := extended + [messages[cursor]];
      }
    }
  }

  lemma {:induction false} RebuildStep(messages: seq<Message>, rest: seq<Range>, cursor: int, result: seq<Message>)
    requires rest != []
    ensures result + RawBetween(messages, cursor, rest[0].from) + [User(rest[0].summary)]
              + Rebuild(messages, rest[1..], rest[0].to)
            == result + Rebuild(messages, rest, cursor)
  {
  }

  method Splice(messages: seq<Message>, ranges: seq<Range>) returns (result: seq<Message>)
    requires Contiguous(ranges, 0, |messages|)
    ensures result == Rebuild(messages, ranges, 0)
  {
    result := [];
    var cursor: nat := 0;
    var i := 0;
    ghost var rest := ranges;
    while i < |ranges|
      invariant 0 <= i <= |ranges| && rest == ranges[i..]
      invariant Contiguous(rest, cursor, |messages|)
      invariant Rebuild(messages, ranges, 0) == result + Rebuild(messages, rest, cursor)
    {
      var range := ranges[i];
      assert rest[0] == range;
      ContiguousTail(rest, cursor, |messages|);
      RebuildStep(messages, rest, cursor, result);
      result := CopyRaw(messages, cursor, range.from, result);
      result := result + [User(range.summary)];
      cursor := range.to;
      rest := rest[1..];
      i := i + 1;
    }
    result := CopyRaw(messages, cursor, |messages|, result);
  }

  method ReplayQueryCompactions(messages: seq<Message>) returns (result: seq<Message>)
    ensures result == Replay(messages)
  {
    var markers := CollectMarkers(messages);
    if markers == [] {
      return messages;
    }
    var ranges := RangesFor(markers);
    var ok := CheckBounds(ranges, |messages|);
    if !ok {
      return messages;
    }
    MarkersAreMarkers(messages);
    AcceptedContiguous(markers, |messages|);
    result := Splice(messages, ranges);
  }
}
