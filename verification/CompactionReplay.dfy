/** What a replay keeps, on any stream, and what it recovers of the run that wrote the stream. */
module CompactionReplay {
  import opened Messages
  import opened QueryCompaction

  // ---------------------------------------------------------------------
  // Any stream whatsoever
  // ---------------------------------------------------------------------

  /** One entry of a rebuilt context: an original message or the summary of one marker. */
  datatype Item = Kept(index: nat) | Projected(marker: nat)

  function Place(ranges: seq<Range>, item: Item): int
    requires item.Projected? ==> item.marker < |ranges|
  {
    match item
    case Kept(k) => k
    case Projected(i) => ranges[i].from
  }

  predicate Covers(range: Range, k: nat) {
    range.from <= k < range.to
  }

  predicate WellPlaced(stream: seq<Message>, ranges: seq<Range>, item: Item) {
    match item
    case Kept(k) => k < |stream|
    case Projected(i) => i < |ranges|
  }

  /** The survivors are exactly the uncovered non-markers and one summary per marker, each once
      (the order is strict) and in stream order. */
  ghost predicate IsLayout(stream: seq<Message>, ranges: seq<Range>, layout: seq<Item>) {
    && (forall a :: 0 <= a < |layout| ==> WellPlaced(stream, ranges, layout[a]))
    && (forall a, b :: 0 <= a < b < |layout| ==> Place(ranges, layout[a]) < Place(ranges, layout[b]))
    && (forall k: nat :: Kept(k) in layout <==>
          k < |stream| && !IsMarker(stream[k]) && forall i :: 0 <= i < |ranges| ==> !Covers(ranges[i], k))
    && (forall i: nat :: Projected(i) in layout <==> i < |ranges|)
  }

  function Render(stream: seq<Message>, ranges: seq<Range>, item: Item): Message
    requires WellPlaced(stream, ranges, item)
  {
    match item
    case Kept(k) => stream[k]
    case Projected(i) => User(ranges[i].summary)
  }

  ghost predicate Shows(stream: seq<Message>, ranges: seq<Range>, layout: seq<Item>, result: seq<Message>) {
    && |result| == |layout|
    && forall a :: 0 <= a < |layout| ==>
         WellPlaced(stream, ranges, layout[a]) && result[a] == Render(stream, ranges, layout[a])
  }

  /** Layout of the part of the stream from cursor on, where ranges before j are already behind. */
  ghost predicate IsTailLayout(stream: seq<Message>, ranges: seq<Range>, j: nat, cursor: nat, layout: seq<Item>) {
    && (forall a :: 0 <= a < |layout| ==>
          WellPlaced(stream, ranges, layout[a]) && cursor <= Place(ranges, layout[a]))
    && (forall a, b :: 0 <= a < b < |layout| ==> Place(ranges, layout[a]) < Place(ranges, layout[b]))
    && (forall k: nat :: Kept(k) in layout <==>
          cursor <= k < |stream| && !IsMarker(stream[k]) && forall i :: j <= i < |ranges| ==> !Covers(ranges[i], k))
    && (forall i: nat :: Projected(i) in layout <==> j <= i < |ranges|)
  }

  ghost predicate IsStretch(stream: seq<Message>, from: nat, end: nat, layout: seq<Item>) {
    && (forall a :: 0 <= a < |layout| ==> layout[a].Kept? && from <= layout[a].index < end)
    && (forall a, b :: 0 <= a < b < |layout| ==> layout[a].index < layout[b].index)
    && (forall k: nat :: Kept(k) in layout <==> from <= k < end && k < |stream| && !IsMarker(stream[k]))
  }

  ghost predicate Copies(stream: seq<Message>, layout: seq<Item>, result: seq<Message>) {
    && |result| == |layout|
    && forall a :: 0 <= a < |layout| ==>
         layout[a].Kept? && layout[a].index < |stream| && result[a] == stream[layout[a].index]
  }

  /** The survivors of a stretch that no range covers. */
  function KeptItems(stream: seq<Message>, from: nat, end: nat): seq<Item>
    requires from <= end <= |stream|
  {
    if from == end then []
    else KeptItems(stream, from, end - 1) + if IsMarker(stream[end - 1]) then [] else [Kept(end - 1)]
  }

  lemma {:induction false} KeptItemsStretch(stream: seq<Message>, from: nat, end: nat)
    requires from <= end <= |stream|
    ensures IsStretch(stream, from, end, KeptItems(stream, from, end))
    decreases end
  {
    if from < end {
      var shorter := KeptItems(stream, from, end - 1);
      KeptItemsStretch(stream, from, end - 1);
      StretchGrows(stream, from, end - 1, end, shorter, KeptItems(stream, from, end));
    }
  }

  lemma {:induction false} StretchGrows(stream: seq<Message>, from: nat, end: nat, next: nat, layout: seq<Item>,
                                        longer: seq<Item>)
    requires from <= end < |stream| && next == end + 1 && IsStretch(stream, from, end, layout)
    requires longer == layout + if IsMarker(stream[end]) then [] else [Kept(end)]
    ensures IsStretch(stream, from, next, longer)
  {
    forall k: nat
      ensures Kept(k) in longer <==> from <= k < next && k < |stream| && !IsMarker(stream[k])
    {
      assert Kept(k) in longer <==> Kept(k) in layout || (k == end && !IsMarker(stream[end]));
    }
  }

  lemma {:induction false} KeptItemsCopy(stream: seq<Message>, from: nat, end: nat)
    requires from <= end <= |stream|
    ensures Copies(stream, KeptItems(stream, from, end), RawBetween(stream, from, end))
    decreases end
  {
    if from < end {
      KeptItemsCopy(stream, from, end - 1);
    }
  }

  lemma {:induction false} TailLayout(stream: seq<Message>, ranges: seq<Range>, j: nat, cursor: nat)
      returns (layout: seq<Item>)
    requires j <= |ranges| && Contiguous(ranges[j..], cursor, |stream|)
    requires forall i :: 0 <= i < |ranges| ==> ranges[i].from < ranges[i].to
    ensures IsTailLayout(stream, ranges, j, cursor, layout)
    ensures Shows(stream, ranges, layout, Rebuild(stream, ranges[j..], cursor))
    decreases |ranges| - j
  {
    if j == |ranges| {
      layout := EndLayout(stream, ranges, cursor);
    } else {
      var r := ranges[j];
      assert ranges[j..][0] == r && ranges[j..][1..] == ranges[j + 1..];
      ContiguousTail(ranges[j..], cursor, |stream|);
      var stretch := KeptItems(stream, cursor, r.from);
      KeptItemsStretch(stream, cursor, r.from);
      KeptItemsCopy(stream, cursor, r.from);
      var rest := TailLayout(stream, ranges, j + 1, r.to);
      layout := stretch + [Projected(j)] + rest;
      JoinLayouts(stream, ranges, j, cursor, stretch, rest);
      JoinShows(stream, ranges, j, stretch, rest, RawBetween(stream, cursor, r.from),
                Rebuild(stream, ranges[j + 1..], r.to));
    }
  }

  lemma {:induction false} EndLayout(stream: seq<Message>, ranges: seq<Range>, cursor: nat) returns (layout: seq<Item>)
    requires cursor <= |stream|
    ensures IsTailLayout(stream, ranges, |ranges|, cursor, layout)
    ensures Shows(stream, ranges, layout, Rebuild(stream, [], cursor))
  {
    layout := KeptItems(stream, cursor, |stream|);
    KeptItemsStretch(stream, cursor, |stream|);
    KeptItemsCopy(stream, cursor, |stream|);
  }

  lemma {:induction false} JoinShows(stream: seq<Message>, ranges: seq<Range>, j: nat, stretch: seq<Item>,
                                     rest: seq<Item>, copied: seq<Message>, rebuilt: seq<Message>)
    requires j < |ranges| && Copies(stream, stretch, copied) && Shows(stream, ranges, rest, rebuilt)
    ensures Shows(stream, ranges, stretch + [Projected(j)] + rest, copied + [User(ranges[j].summary)] + rebuilt)
  {
  }

  lemma {:induction false} JoinLayouts(stream: seq<Message>, ranges: seq<Range>, j: nat, cursor: nat,
                                       stretch: seq<Item>, rest: seq<Item>)
    requires j < |ranges| && Contiguous(ranges[j..], cursor, |stream|)
    requires ranges[j].from < ranges[j].to
    requires IsStretch(stream, cursor, ranges[j].from, stretch)
    requires IsTailLayout(stream, ranges, j + 1, ranges[j].to, rest)
    ensures IsTailLayout(stream, ranges, j, cursor, stretch + [Projected(j)] + rest)
  {
    var layout := stretch + [Projected(j)] + rest;
    assert ranges[j..][0] == ranges[j];
    forall k: nat
      ensures Kept(k) in layout <==>
              cursor <= k < |stream| && !IsMarker(stream[k]) && forall i :: j <= i < |ranges| ==> !Covers(ranges[i], k)
    {
      assert Kept(k) in layout <==> Kept(k) in stretch || Kept(k) in rest;
      if k < ranges[j].from {
        forall i | j <= i < |ranges| ensures !Covers(ranges[i], k) {
          assert ranges[i] == ranges[j..][i - j];
          if i > j { FirstBeforeAll(ranges[j..], cursor, |stream|, i - j); }
        }
      }
    }
    forall i: nat ensures Projected(i) in layout <==> j <= i < |ranges| {
      assert Projected(i) in layout <==> Projected(i) in stretch || i == j || Projected(i) in rest;
    }
  }

  lemma {:induction false} RangesNonEmpty(stream: seq<Message>)
    ensures forall i :: 0 <= i < |Markers(stream)| ==> Ranges(Markers(stream))[i].from < Ranges(Markers(stream))[i].to
  {
    MarkersAreMarkers(stream);
  }

  lemma {:induction false} AcceptedLayout(stream: seq<Message>) returns (layout: seq<Item>)
    requires Accepts(stream)
    ensures IsLayout(stream, Ranges(Markers(stream)), layout)
    ensures Shows(stream, Ranges(Markers(stream)), layout, Rebuild(stream, Ranges(Markers(stream)), 0))
  {
    var ranges := Ranges(Markers(stream));
    MarkersAreMarkers(stream);
    RangesNonEmpty(stream);
    AcceptedContiguous(Markers(stream), |stream|);
    assert ranges[0..] == ranges;
    layout := TailLayout(stream, ranges, 0, 0);
  }

  /** Replay of any stream: the input itself, or every uncovered non-marker once and in order
      with one summary per marker put where its range began. */
  lemma {:induction false} ReplayKeepsExactlyTheUncovered(stream: seq<Message>)
    ensures Markers(stream) == [] || !Accepts(stream) ==> Replay(stream) == stream
    ensures Accepts(stream) ==>
              exists layout :: IsLayout(stream, Ranges(Markers(stream)), layout)
                            && Shows(stream, Ranges(Markers(stream)), layout, Replay(stream))
  {
    if Accepts(stream) {
      var layout := AcceptedLayout(stream);
      ReplayIsRebuild(stream);
    }
  }

  lemma {:induction false} ReplayIsRebuild(stream: seq<Message>)
    requires Accepts(stream)
    ensures Replay(stream) == Rebuild(stream, Ranges(Markers(stream)), 0)
  {
    if Markers(stream) == [] {
      NoMarkersRaw(stream);
      RawBetweenIsRaw(stream, 0, |stream|);
      assert stream[0..|stream|] == stream;
    }
  }

  lemma {:induction false} NoMarkersRaw(stream: seq<Message>)
    requires Markers(stream) == []
    ensures Raw(stream) == stream
  {
    if stream != [] {
      NoMarkersRaw(stream[..|stream| - 1]);
      assert stream == stream[..|stream| - 1] + [stream[|stream| - 1]];
    }
  }

  // ---------------------------------------------------------------------
  // Streams written by one run
  // ---------------------------------------------------------------------

  lemma {:induction false} RawPlusMarkers(stream: seq<Message>)
    ensures |Raw(stream)| + |Markers(stream)| == |stream|
  {
    if stream != [] {
      RawPlusMarkers(stream[..|stream| - 1]);
    }
  }

  lemma {:induction false} MarkersPush(stream: seq<Message>, message: Message)
    ensures Markers(stream + [message]) ==
            if IsMarker(message) then Markers(stream) + [MarkerAt(message, |stream|)] else Markers(stream)
    ensures Raw(stream + [message]) == if IsMarker(message) then Raw(stream) else Raw(stream) + [message]
  {
    assert (stream + [message])[..|stream|] == stream;
  }

  function Projections(markers: seq<Marker>): seq<Message> {
    seq(|markers|, i requires 0 <= i < |markers| => User(markers[i].summary))
  }

  /** The markers from base on were numbered 0, 1, 2, ... by the run whose last one is last. */
  predicate Numbered(stream: seq<Message>, base: nat, last: int) {
    var markers := Markers(stream);
    && base <= |markers| && last == |markers| - base - 1
    && forall i :: base <= i < |markers| ==> markers[i].startIndex == i - base
  }

  /** Every marker was appended after the messages it covers, in a stream that goes on after offset others. */
  predicate WrittenAfterCovered(markers: seq<Marker>, offset: nat) {
    if markers == [] then true
    else
      var n := |markers| - 1;
      WrittenAfterCovered(markers[..n], offset) && Covered(markers) + n <= offset + markers[n].index
  }

  /** A context of one run that started without markers, and the stream it persisted so far:
      the summaries in order, then the raw stream after everything covered. */
  predicate Recorded(live: seq<Message>, stream: seq<Message>, last: int) {
    var markers := Markers(stream);
    && Numbered(stream, 0, last)
    && WrittenAfterCovered(markers, 0)
    && 0 <= Covered(markers) <= |Raw(stream)|
    && live == Projections(markers) + Raw(stream)[Covered(markers)..]
  }

  lemma {:induction false} RecordedStart(stream: seq<Message>)
    requires Markers(stream) == []
    ensures Recorded(stream, stream, -1)
  {
    NoMarkersRaw(stream);
  }

  lemma {:induction false} RecordedPush(live: seq<Message>, stream: seq<Message>, last: int, message: Message)
    requires Recorded(live, stream, last) && !IsMarker(message)
    ensures Recorded(live + [message], stream + [message], last)
  {
    MarkersPush(stream, message);
    assert live + [message] == Projections(Markers(stream)) + (Raw(stream) + [message])[Covered(Markers(stream))..];
  }

  function Spliced(live: seq<Message>, plan: Plan): seq<Message>
    requires plan.startIndex <= plan.endIndex <= |live|
  {
    live[..plan.startIndex] + [Projection(plan.summary)] + live[plan.endIndex..]
  }

  lemma {:induction false} CoveredPush(markers: seq<Marker>, marker: Marker)
    ensures Covered(markers + [marker]) == Covered(markers) + marker.coveredCount
  {
    assert (markers + [marker])[..|markers|] == markers;
  }

  /** The markers and the raw stream of a record, with the marker of one more plan. */
  lemma {:induction false} SpliceShape(live: seq<Message>, markers: seq<Marker>, raw: seq<Message>, plan: Plan,
                                       marker: Marker, next: seq<Marker>)
    requires 0 <= Covered(markers) <= |raw| && live == Projections(markers) + raw[Covered(markers)..]
    requires plan.startIndex == |markers| && plan.startIndex < plan.endIndex <= |live|
    requires marker.coveredCount == plan.endIndex - plan.startIndex && User(marker.summary) == Projection(plan.summary)
    requires next == markers + [marker]
    ensures 0 <= Covered(next) <= |raw| && Covered(next) == Covered(markers) + marker.coveredCount
    ensures Spliced(live, plan) == Projections(next) + raw[Covered(next)..]
  {
    CoveredPush(markers, marker);
    assert live[plan.endIndex..] == raw[Covered(next)..];
    assert Projections(next) == Projections(markers) + [Projection(plan.summary)];
  }

  lemma {:induction false} WrittenAfterPush(markers: seq<Marker>, offset: nat, marker: Marker)
    requires WrittenAfterCovered(markers, offset)
    requires Covered(markers) + marker.coveredCount + |markers| <= offset + marker.index
    ensures WrittenAfterCovered(markers + [marker], offset)
  {
    CoveredPush(markers, marker);
    assert (markers + [marker])[..|markers|] == markers;
  }

  lemma {:induction false} RecordedCompact(live: seq<Message>, stream: seq<Message>, last: int, plan: Plan)
    requires Recorded(live, stream, last)
    requires plan.startIndex == last + 1 && plan.startIndex < plan.endIndex <= |live|
    ensures Recorded(Spliced(live, plan), stream + [BuildMarker(plan)], plan.startIndex)
  {
    var marker := MarkerAt(BuildMarker(plan), |stream|);
    var next := Markers(stream + [BuildMarker(plan)]);
    MarkersPush(stream, BuildMarker(plan));
    NumberedCompact(stream, 0, last, plan);
    RawPlusMarkers(stream);
    SpliceShape(live, Markers(stream), Raw(stream), plan, marker, next);
    WrittenAfterPush(Markers(stream), 0, marker);
  }

  /** Number of markers the stream holds below the end of everything covered. */
  function MarkersBelow(stream: seq<Message>): nat
    requires 0 <= Covered(Markers(stream)) <= |stream|
  {
    |Markers(stream[..Covered(Markers(stream))])|
  }

  lemma {:induction false} ProjectionsSplit(markers: seq<Marker>, j: nat)
    requires j < |markers|
    ensures Projections(markers[j..]) == [User(markers[j].summary)] + Projections(markers[j + 1..])
  {
  }

  /** Ranges of one run follow each other without gaps. */
  lemma {:induction false} RunRange(markers: seq<Marker>, j: nat)
    requires j < |markers| && markers[j].startIndex == j
    ensures RangeOf(markers, j).from == Covered(markers[..j]) && RangeOf(markers, j).to == Covered(markers[..j + 1])
  {
    assert markers[..j + 1] == markers[..j] + [markers[j]];
    CoveredPush(markers[..j], markers[j]);
  }

  lemma {:induction false} RebuildFromZero(stream: seq<Message>, markers: seq<Marker>, j: nat, cursor: nat)
    requires j <= |markers| && cursor == Covered(markers[..j])
    requires forall i :: 0 <= i < |markers| ==> markers[i].startIndex == i
    requires Contiguous(Ranges(markers)[j..], cursor, |stream|)
    ensures 0 <= Covered(markers) <= |stream|
    ensures Rebuild(stream, Ranges(markers)[j..], cursor)
            == Projections(markers[j..]) + Raw(stream[Covered(markers)..])
    decreases |markers| - j
  {
    var ranges := Ranges(markers)[j..];
    if j == |markers| {
      assert markers[..j] == markers;
      RawBetweenIsRaw(stream, cursor, |stream|);
      assert stream[cursor..|stream|] == stream[cursor..];
    } else {
      RunRange(markers, j);
      ContiguousTail(ranges, cursor, |stream|);
      assert Ranges(markers)[j + 1..] == ranges[1..];
      RebuildFromZero(stream, markers, j + 1, ranges[0].to);
      AdjacentRange(stream, ranges, cursor);
      SummaryFirst(markers, j, Raw(stream[Covered(markers)..]));
    }
  }

  lemma {:induction false} SummaryFirst(markers: seq<Marker>, j: nat, raw: seq<Message>)
    requires j < |markers|
    ensures [User(markers[j].summary)] + (Projections(markers[j + 1..]) + raw) == Projections(markers[j..]) + raw
  {
    ProjectionsSplit(markers, j);
  }

  /** A range that starts where the last one ended keeps nothing in between. */
  lemma {:induction false} AdjacentRange(stream: seq<Message>, ranges: seq<Range>, cursor: nat)
    requires ranges != [] && Contiguous(ranges, cursor, |stream|) && ranges[0].from == cursor
    ensures Rebuild(stream, ranges, cursor) == [User(ranges[0].summary)] + Rebuild(stream, ranges[1..], ranges[0].to)
  {
  }

  lemma {:induction false} CoveredMonotone(markers: seq<Marker>, i: nat)
    requires forall k :: 0 <= k < |markers| ==> markers[k].coveredCount > 0
    requires i <= |markers|
    ensures 0 <= Covered(markers[..i]) <= Covered(markers)
    decreases |markers| - i
  {
    if i == |markers| {
      assert markers[..i] == markers;
      CoveredNonNegative(markers);
    } else {
      CoveredMonotone(markers, i + 1);
      assert markers[..i + 1][..i] == markers[..i];
      CoveredNonNegative(markers[..i]);
    }
  }

  lemma {:induction false} CoveredNonNegative(markers: seq<Marker>)
    requires forall k :: 0 <= k < |markers| ==> markers[k].coveredCount > 0
    ensures Covered(markers) >= 0
  {
    if markers != [] {
      CoveredNonNegative(markers[..|markers| - 1]);
    }
  }

  /** Markers of one run always pass the coordinate check. */
  lemma {:induction false} RecordedAccepted(live: seq<Message>, stream: seq<Message>, last: int)
    requires Recorded(live, stream, last)
    ensures Accepts(stream)
  {
    var markers := Markers(stream);
    MarkersAreMarkers(stream);
    RawPlusMarkers(stream);
    forall i | 0 <= i < |markers|
      ensures 0 <= RangeOf(markers, i).from && RangeOf(markers, i).to <= |stream|
      ensures i > 0 ==> RangeOf(markers, i - 1).to <= RangeOf(markers, i).from
    {
      OneRunRange(markers, i);
    }
  }

  lemma {:induction false} OneRunRange(markers: seq<Marker>, i: nat)
    requires i < |markers|
    requires forall k :: 0 <= k < |markers| ==> markers[k].startIndex == k && markers[k].coveredCount > 0
    ensures 0 <= RangeOf(markers, i).from && RangeOf(markers, i).to <= Covered(markers)
    ensures i > 0 ==> RangeOf(markers, i - 1).to == RangeOf(markers, i).from
  {
    RunRange(markers, i);
    CoveredNonNegative(markers[..i]);
    CoveredMonotone(markers, i + 1);
    if i > 0 {
      RunRange(markers, i - 1);
    }
  }

  /** A prefix of the stream holds only markers whose position lies in it. */
  lemma {:induction false} MarkersOfPrefix(stream: seq<Message>, at: nat)
    requires at <= |stream|
    ensures |Markers(stream[..at])| <= |Markers(stream)|
    ensures Markers(stream[..at]) == Markers(stream)[..|Markers(stream[..at])|]
    ensures |Markers(stream[..at])| < |Markers(stream)| ==> Markers(stream)[|Markers(stream[..at])|].index >= at
  {
    if at == |stream| {
      assert stream[..at] == stream;
    } else {
      var k := |stream| - 1;
      MarkersOfPrefix(stream[..k], at);
      assert stream[..k][..at] == stream[..at];
    }
  }

  lemma {:induction false} PrefixMarkersLieBelow(stream: seq<Message>, at: nat)
    requires at <= |stream| && |Markers(stream[..at])| <= |Markers(stream)|
    ensures forall i :: 0 <= i < |Markers(stream[..at])| ==> Markers(stream)[i].index < at
  {
    MarkersOfPrefix(stream, at);
    MarkersAreMarkers(stream[..at]);
    forall i | 0 <= i < |Markers(stream[..at])| ensures Markers(stream)[i].index < at {
      assert Markers(stream)[i] == Markers(stream[..at])[i];
    }
  }

  /** The raw stream after a position, counted in the raw stream as a whole. */
  lemma {:induction false} RawAfter(stream: seq<Message>, at: nat)
    requires at <= |stream|
    ensures |Markers(stream[..at])| <= at <= |Raw(stream)| + |Markers(stream[..at])|
    ensures Raw(stream[at..]) == Raw(stream)[at - |Markers(stream[..at])|..]
  {
    RawPlusMarkers(stream[..at]);
    assert stream == stream[..at] + stream[at..];
    RawSplit(stream[..at], stream[at..]);
  }

  lemma {:induction false} RebuildOneRun(stream: seq<Message>, markers: seq<Marker>)
    requires forall i :: 0 <= i < |markers| ==> markers[i].startIndex == i
    requires Contiguous(Ranges(markers), 0, |stream|)
    ensures 0 <= Covered(markers) <= |stream|
    ensures Rebuild(stream, Ranges(markers), 0) == Projections(markers) + Raw(stream[Covered(markers)..])
  {
    assert Ranges(markers)[0..] == Ranges(markers) && markers[0..] == markers && markers[..0] == [];
    RebuildFromZero(stream, markers, 0, 0);
  }

  lemma {:induction false} ReplayOfOneRun(live: seq<Message>, stream: seq<Message>, last: int)
    requires Recorded(live, stream, last)
    ensures 0 <= Covered(Markers(stream)) <= |stream|
    ensures Replay(stream) == Projections(Markers(stream)) + Raw(stream[Covered(Markers(stream))..])
  {
    RecordedAccepted(live, stream, last);
    ReplayIsRebuild(stream);
    MarkersAreMarkers(stream);
    AcceptedContiguous(Markers(stream), |stream|);
    RebuildOneRun(stream, Markers(stream));
  }

  /** The tail of a replay, counted in the raw stream as a whole. */
  lemma {:induction false} ReplayedTail(stream: seq<Message>, head: seq<Message>, e: nat, m: nat)
    requires e <= |stream| && m == |Markers(stream[..e])| && Replay(stream) == head + Raw(stream[e..])
    ensures m <= e <= |Raw(stream)| + m && Replay(stream) == head + Raw(stream)[e - m..]
  {
    RawAfter(stream, e);
  }

  lemma {:induction false} OneRunTail(live: seq<Message>, stream: seq<Message>, last: int, e: nat, m: nat)
    requires Recorded(live, stream, last) && e == Covered(Markers(stream)) <= |stream| && m == MarkersBelow(stream)
    ensures m <= e <= |Raw(stream)| && live == Projections(Markers(stream)) + Raw(stream)[e..]
    ensures Replay(stream) == Projections(Markers(stream)) + Raw(stream)[e - m..]
  {
    ReplayOfOneRun(live, stream, last);
    ReplayedTail(stream, Projections(Markers(stream)), e, m);
  }

  /** Not every marker of one run lies below the end of what is covered. */
  lemma {:induction false} NotAllBelow(live: seq<Message>, stream: seq<Message>, last: int)
    requires Recorded(live, stream, last) && Covered(Markers(stream)) <= |stream|
    ensures Markers(stream) == [] ==> MarkersBelow(stream) == 0
    ensures Markers(stream) != [] ==> MarkersBelow(stream) < |Markers(stream)|
  {
    var e := Covered(Markers(stream));
    MarkersOfPrefix(stream, e);
    PrefixMarkersLieBelow(stream, e);
  }

  /** The round trip: replaying what the run persisted gives its summaries followed by the raw stream
      from an index m messages before the end E of what was covered, where m counts the markers stored
      below E. Hence nothing still live is lost, and the live context comes back exactly when m is 0. */
  lemma {:induction false} RoundTrip(live: seq<Message>, stream: seq<Message>, last: int)
    requires Recorded(live, stream, last)
    ensures Covered(Markers(stream)) <= |stream| && MarkersBelow(stream) <= Covered(Markers(stream))
    ensures var e, m := Covered(Markers(stream)), MarkersBelow(stream);
            && Replay(stream) == Projections(Markers(stream)) + Raw(stream)[e - m..]
            && live == Projections(Markers(stream)) + Raw(stream)[e..]
            && (Replay(stream) == live <==> m == 0)
            && (|Markers(stream)| > 0 ==> m < |Markers(stream)|)
  {
    ReplayOfOneRun(live, stream, last);
    var e, m := Covered(Markers(stream)), MarkersBelow(stream);
    OneRunTail(live, stream, last, e, m);
    NotAllBelow(live, stream, last);
    SuffixesDiffer(Projections(Markers(stream)), Raw(stream), e, m);
  }

  lemma {:induction false} SuffixesDiffer(head: seq<Message>, raw: seq<Message>, e: nat, m: nat)
    requires m <= e <= |raw|
    ensures head + raw[e - m..] == head + raw[e..] <==> m == 0
  {
    if head + raw[e - m..] == head + raw[e..] {
      assert |raw[e - m..]| == |raw[e..]|;
    }
  }

  /** One compaction always comes back exactly. */
  lemma {:induction false} SingleCompactionRoundTrip(live: seq<Message>, stream: seq<Message>, last: int)
    requires Recorded(live, stream, last) && |Markers(stream)| <= 1
    ensures Replay(stream) == live
  {
    RoundTrip(live, stream, last);
    if Markers(stream) == [] {
      assert stream[..0] == [];
    }
  }

  // ---------------------------------------------------------------------
  // Streams written by two runs
  // ---------------------------------------------------------------------

  lemma {:induction false} NumberedPush(stream: seq<Message>, base: nat, last: int, message: Message)
    requires Numbered(stream, base, last) && !IsMarker(message)
    ensures Numbered(stream + [message], base, last)
  {
    MarkersPush(stream, message);
  }

  lemma {:induction false} NumberedCompact(stream: seq<Message>, base: nat, last: int, plan: Plan)
    requires Numbered(stream, base, last)
    requires plan.startIndex == last + 1 && plan.startIndex < plan.endIndex
    ensures Numbered(stream + [BuildMarker(plan)], base, plan.startIndex)
  {
    MarkersPush(stream, BuildMarker(plan));
  }

  /** A marker that starts from 0 again after others were numbered from 0 overlaps the range before it. */
  lemma {:induction false} RestartIsRejected(stream: seq<Message>, n: nat)
    requires 0 < n < |Markers(stream)|
    requires Markers(stream)[n - 1].startIndex == n - 1 && Markers(stream)[n].startIndex == 0
    ensures !Accepts(stream) && Replay(stream) == stream
  {
    var markers := Markers(stream);
    assert markers[..n][..n - 1] == markers[..n - 1];
    assert Ranges(markers)[n].from == Covered(markers[..n]) - n;
    assert Ranges(markers)[n - 1].to == Covered(markers[..n]);
  }

  /** Once a second run has compacted, the stored stream is never compacted again by a replay:
      first holds the markers of the first run, and the second run numbers from 0 once more. */
  lemma {:induction false} SecondRunDisablesReplay(first: seq<Message>, last1: int, stream: seq<Message>, last2: int)
    requires Numbered(first, 0, last1) && Markers(first) != []
    requires first <= stream && Numbered(stream, |Markers(first)|, last2) && last2 >= 0
    ensures !Accepts(stream) && Replay(stream) == stream
  {
    MarkersOfPrefix(stream, |first|);
    assert stream[..|first|] == first && stream + [] == stream;
    StaysRejected(first, last1, stream, []);
  }

  /** The stream goes on with a marker numbered from 0 after the markers of its prefix first. */
  predicate Restarts(first: seq<Message>, stream: seq<Message>) {
    && first <= stream && Markers(first) != [] && |Markers(first)| < |Markers(stream)|
    && Markers(stream)[|Markers(first)|].startIndex == 0
  }

  /** Nor does anything appended later bring it back: no extension of such a stream is accepted. */
  lemma {:induction false} StaysRejected(first: seq<Message>, last1: int, stream: seq<Message>, more: seq<Message>)
    requires Numbered(first, 0, last1) && Restarts(first, stream)
    ensures !Accepts(stream + more) && Replay(stream + more) == stream + more
  {
    var n := |Markers(first)|;
    assert stream[..|first|] == first && (stream + more)[..|stream|] == stream;
    MarkersOfPrefix(stream, |first|);
    MarkersOfPrefix(stream + more, |stream|);
    assert Markers(stream + more)[n] == Markers(stream)[n];
    assert Markers(stream + more)[n - 1] == Markers(stream)[n - 1] == Markers(first)[n - 1];
    RestartIsRejected(stream + more, n);
  }
}
