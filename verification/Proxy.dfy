/** Line framing and block reassembly of the proxied model stream (packages/agent/src/proxy.ts). The framing is a
    subset of Server-Sent Events, section 9.2 of the WHATWG HTML Standard. */
module Proxy {
  import opened Messages
  import opened Whitespace

  // ---------------------------------------------------------------------
  // Lines
  // ---------------------------------------------------------------------

  datatype Framed = Framed(lines: seq<string>, rest: string)

  /** Splitting at newlines: the complete lines, and what follows the last newline. */
  function Split(text: string): Framed {
    if text == "" then Framed([], "")
    else
      var before := Split(text[..|text| - 1]);
      var c := text[|text| - 1];
      if c == '\n' then Framed(before.lines + [before.rest], "")
      else Framed(before.lines, before.rest + [c])
  }

  function Joined(lines: seq<string>): string {
    if lines == [] then "" else Joined(lines[..|lines| - 1]) + lines[|lines| - 1] + "\n"
  }

  predicate OneLine(s: string) {
    forall i :: 0 <= i < |s| ==> s[i] != '\n'
  }

  lemma {:induction false} JoinedSnoc(lines: seq<string>, line: string)
    ensures Joined(lines + [line]) == Joined(lines) + line + "\n"
  {
    assert (lines + [line])[..|lines + [line]| - 1] == lines;
  }

  /** These are the newline-terminated stretches of the text, in order, and what follows them. */
  predicate Frames(f: Framed, text: string) {
    && Joined(f.lines) + f.rest == text && OneLine(f.rest)
    && forall i :: 0 <= i < |f.lines| ==> OneLine(f.lines[i])
  }

  lemma {:induction false} FramesNewline(f: Framed, text: string)
    requires Frames(f, text)
    ensures Frames(Framed(f.lines + [f.rest], ""), text + ['\n'])
  {
    JoinedSnoc(f.lines, f.rest);
    assert Joined(f.lines + [f.rest]) + "" == text + ['\n'];
  }

  lemma {:induction false} FramesChar(f: Framed, text: string, c: char)
    requires Frames(f, text) && c != '\n'
    ensures Frames(Framed(f.lines, f.rest + [c]), text + [c])
  {
    assert Joined(f.lines) + (f.rest + [c]) == text + [c];
  }

  lemma {:induction false} SplitIsExact(text: string)
    ensures Frames(Split(text), text)
    decreases |text|
  {
    if text != "" {
      var head, c := text[..|text| - 1], text[|text| - 1];
      SplitIsExact(head);
      assert text == head + [c];
      if c == '\n' {
        FramesNewline(Split(head), head);
      } else {
        FramesChar(Split(head), head, c);
      }
    }
  }

  /** Continuing from the unfinished rest loses and invents no line. */
  lemma {:induction false} SplitContinues(a: string, b: string)
    ensures Split(a + b) == Framed(Split(a).lines + Split(Split(a).rest + b).lines, Split(Split(a).rest + b).rest)
    decreases |b|
  {
    if b == "" {
      assert a + b == a && Split(a).rest + b == Split(a).rest;
      SplitIsExact(a);
      RestIsWhole(Split(a).rest);
    } else {
      var head, c := b[..|b| - 1], b[|b| - 1];
      SplitContinues(a, head);
      assert (a + b)[..|a + b| - 1] == a + head;
      var rest := Split(a).rest;
      assert (rest + b)[..|rest + b| - 1] == rest + head;
    }
  }

  lemma {:induction false} RestIsWhole(s: string)
    requires OneLine(s)
    ensures Split(s) == Framed([], s)
    decreases |s|
  {
    if s != "" {
      RestIsWhole(s[..|s| - 1]);
      assert s == s[..|s| - 1] + [s[|s| - 1]];
    }
  }

  /** Text after the last newline yields no line, however much of it arrives. */
  lemma {:induction false} UnterminatedTextYieldsNothing(a: string, b: string)
    requires OneLine(b)
    ensures Split(a + b).lines == Split(a).lines
  {
    SplitContinues(a, b);
    SplitIsExact(a);
    RestIsWhole(Split(a).rest + b);
  }

  // ---------------------------------------------------------------------
  // Blocks
  // ---------------------------------------------------------------------

  /** Arguments as parsed from a JSON text, or the empty object of a call that has just started. */
  datatype Arguments = EmptyObject | ParsedFrom(json: string)

  /** A call loses its raw JSON text when it ends. */
  datatype Block =
    | Text(text: string, signature: Option<string>)
    | Thinking(text: string, signature: Option<string>)
    | Call(id: string, name: string, arguments: Arguments, json: Option<string>)

  datatype Kind = TextKind | ThinkingKind | CallKind

  datatype ProxyEvent =
    | StreamStart
    | BlockStart(index: nat, kind: Kind, id: string, name: string)
    | Delta(index: nat, kind: Kind, delta: string)
    | BlockEnd(index: nat, kind: Kind, signature: Option<string>)
    | Done(reason: StopReason)
    | StreamError(reason: StopReason, message: Option<string>)
    | Unknown

  /** The assistant message under construction; its content array may have holes. */
  datatype Partial = Partial(content: map<nat, Block>, stop: Option<StopReason>, errorMessage: Option<string>)

  const EMPTY := Partial(map[], None, None)

  /** What is pushed to the consumer; the reference to the partial message is left out. */
  datatype Pushed =
    | PushedStart
    | PushedBlockStart(index: nat, kind: Kind)
    | PushedDelta(index: nat, kind: Kind, delta: string)
    | PushedBlockEnd(index: nat, content: Block)
    | PushedDone(reason: StopReason)
    | PushedError(reason: StopReason)

  datatype Result = Ok(partial: Partial, push: Option<Pushed>) | Throws

  function KindOf(b: Block): Kind {
    match b
    case Text(_, _) => TextKind
    case Thinking(_, _) => ThinkingKind
    case Call(_, _, _, _) => CallKind
  }

  function NewBlock(e: ProxyEvent): Block
    requires e.BlockStart?
  {
    match e.kind
    case TextKind => Text("", None)
    case ThinkingKind => Thinking("", None)
    case CallKind => Call(e.id, e.name, EmptyObject, Some(""))
  }

  const UNDEFINED := "undefined"

  /** Appending to a call that has already ended starts from the text of the missing value. */
  function Appended(b: Block, delta: string): Block {
    match b
    case Text(text, signature) => Text(text + delta, signature)
    case Thinking(text, signature) => Thinking(text + delta, signature)
    case Call(id, name, _, json) =>
      var all := (if json.Some? then json.value else UNDEFINED) + delta;
      Call(id, name, ParsedFrom(all), Some(all))
  }

  function Ended(b: Block, signature: Option<string>): Block {
    match b
    case Text(text, _) => Text(text, signature)
    case Thinking(text, _) => Thinking(text, signature)
    case Call(id, name, arguments, _) => Call(id, name, arguments, None)
  }

  predicate Matches(p: Partial, index: nat, kind: Kind) {
    index in p.content && KindOf(p.content[index]) == kind
  }

  function Process(p: Partial, e: ProxyEvent): Result {
    match e
    case StreamStart => Ok(p, Some(PushedStart))
    case BlockStart(index, kind, _, _) =>
      Ok(p.(content := p.content[index := NewBlock(e)]), Some(PushedBlockStart(index, kind)))
    case Delta(index, kind, delta) =>
      if Matches(p, index, kind) then
        Ok(p.(content := p.content[index := Appended(p.content[index], delta)]), Some(PushedDelta(index, kind, delta)))
      else Throws
    case BlockEnd(index, kind, signature) =>
      if Matches(p, index, kind) then
        var block := Ended(p.content[index], signature);
        Ok(p.(content := p.content[index := block]), Some(PushedBlockEnd(index, block)))
      else if kind == CallKind then Ok(p, None)
      else Throws
    case Done(reason) => Ok(p.(stop := Some(reason)), Some(PushedDone(reason)))
    case StreamError(reason, message) => Ok(p.(stop := Some(reason), errorMessage := message),
                                            Some(PushedError(reason)))
    case Unknown => Ok(p, None)
  }

  /** The partial message updated in place. */
  class PartialMessage {
    var content: map<nat, Block>
    var stop: Option<StopReason>
    var errorMessage: Option<string>

    ghost function View(): Partial
      reads this
    {
      Partial(content, stop, errorMessage)
    }

    constructor ()
      ensures View() == EMPTY
    {
      content, stop, errorMessage := map[], None, None;
    }

    /** Fails without any change on content of another kind. */
    method ProcessProxyEvent(e: ProxyEvent) returns (ok: bool, push: Option<Pushed>)
      modifies this
      ensures ok ==> Process(old(View()), e) == Ok(View(), push)
      ensures !ok ==> Process(old(View()), e) == Throws && View() == old(View())
    {
      ok, push := true, None;
      match e {
        case StreamStart => push := Some(PushedStart);
        case BlockStart(index, kind, id, name) =>
          content := content[index := NewBlock(e)];
          push := Some(PushedBlockStart(index, kind));
        case Delta(index, kind, delta) =>
          if index in content && KindOf(content[index]) == kind {
            content := content[index := Appended(content[index], delta)];
            push := Some(PushedDelta(index, kind, delta));
          } else {
            ok := false;
          }
        case BlockEnd(index, kind, signature) =>
          if index in content && KindOf(content[index]) == kind {
            content := content[index := Ended(content[index], signature)];
            push := Some(PushedBlockEnd(index, content[index]));
          } else if kind != CallKind {
            ok := false;
          }
        case Done(reason) =>
          stop := Some(reason);
          push := Some(PushedDone(reason));
        case StreamError(reason, message) =>
          stop, errorMessage := Some(reason), message;
          push := Some(PushedError(reason));
        case Unknown =>
      }
    }
  }

  // ---------------------------------------------------------------------
  // Interleaved blocks
  // ---------------------------------------------------------------------

  function ProcessAll(p: Partial, events: seq<ProxyEvent>): Result {
    if events == [] then Ok(p, None)
    else
      match ProcessAll(p, events[..|events| - 1])
      case Ok(before, _) => Process(before, events[|events| - 1])
      case Throws => Throws
  }

  predicate At(e: ProxyEvent, index: nat) {
    (e.BlockStart? || e.Delta? || e.BlockEnd?) && e.index == index
  }

  /** The events of one content index. */
  function Only(events: seq<ProxyEvent>, index: nat): seq<ProxyEvent> {
    if events == [] then []
    else
      Only(events[..|events| - 1], index) + if At(events[|events| - 1], index) then [events[|events| - 1]] else []
  }

  predicate SameAt(p: Partial, q: Partial, index: nat) {
    if index in p.content then index in q.content && p.content[index] == q.content[index] else index !in q.content
  }

  /** A block is what its own events make of it, however the events of other blocks are interleaved. */
  lemma {:induction false} BlocksAreIndependent(events: seq<ProxyEvent>, index: nat)
    requires ProcessAll(EMPTY, events).Ok?
    ensures ProcessAll(EMPTY, Only(events, index)).Ok?
    ensures SameAt(ProcessAll(EMPTY, events).partial, ProcessAll(EMPTY, Only(events, index)).partial, index)
    decreases |events|
  {
    if events != [] {
      var head, e := events[..|events| - 1], events[|events| - 1];
      BlocksAreIndependent(head, index);
      ProcessSnoc(EMPTY, Only(head, index), e);
      OneEventElsewhere(ProcessAll(EMPTY, head).partial, ProcessAll(EMPTY, Only(head, index)).partial, e, index);
      assert Only(head, index) + [] == Only(head, index);
    }
  }

  lemma {:induction false} ProcessSnoc(p: Partial, events: seq<ProxyEvent>, e: ProxyEvent)
    requires ProcessAll(p, events).Ok?
    ensures ProcessAll(p, events + [e]) == Process(ProcessAll(p, events).partial, e)
  {
    assert (events + [e])[..|events + [e]| - 1] == events;
  }

  /** An event acts alike on messages that agree at its index, and leaves every other index alone. */
  lemma {:induction false} OneEventElsewhere(p: Partial, q: Partial, e: ProxyEvent, index: nat)
    requires SameAt(p, q, index) && Process(p, e).Ok?
    ensures if At(e, index) then Process(q, e).Ok? && SameAt(Process(p, e).partial, Process(q, e).partial, index)
            else SameAt(Process(p, e).partial, q, index)
  {
  }

  function Concat(parts: seq<string>): string {
    if parts == [] then "" else Concat(parts[..|parts| - 1]) + parts[|parts| - 1]
  }

  function Deltas(index: nat, kind: Kind, parts: seq<string>): (events: seq<ProxyEvent>)
    ensures |events| == |parts| && forall i :: 0 <= i < |parts| ==> events[i] == Delta(index, kind, parts[i])
  {
    seq(|parts|, i requires 0 <= i < |parts| => Delta(index, kind, parts[i]))
  }

  /** The block that carries exactly the given text. */
  function Carrying(start: ProxyEvent, text: string, any: bool): Block
    requires start.BlockStart?
  {
    match start.kind
    case TextKind => Text(text, None)
    case ThinkingKind => Thinking(text, None)
    case CallKind => Call(start.id, start.name, if any then ParsedFrom(text) else EmptyObject, Some(text))
  }

  ghost predicate Carries(events: seq<ProxyEvent>, start: ProxyEvent, text: string, any: bool)
    requires start.BlockStart?
  {
    var r := ProcessAll(EMPTY, events);
    r.Ok? && start.index in r.partial.content && r.partial.content[start.index] == Carrying(start, text, any)
  }

  lemma {:induction false} OneMoreDelta(events: seq<ProxyEvent>, start: ProxyEvent, text: string, any: bool,
                                        delta: string)
    requires start.BlockStart? && Carries(events, start, text, any)
    ensures Carries(events + [Delta(start.index, start.kind, delta)], start, text + delta, true)
  {
    ProcessSnoc(EMPTY, events, Delta(start.index, start.kind, delta));
  }

  lemma {:induction false} DeltasConcatenate(before: seq<ProxyEvent>, start: ProxyEvent, parts: seq<string>)
    requires start.BlockStart? && ProcessAll(EMPTY, before).Ok?
    ensures Carries(before + [start] + Deltas(start.index, start.kind, parts), start, Concat(parts), parts != [])
    decreases |parts|
  {
    if parts == [] {
      assert before + [start] + Deltas(start.index, start.kind, parts) == before + [start];
      ProcessSnoc(EMPTY, before, start);
    } else {
      var n := |parts| - 1;
      DeltasConcatenate(before, start, parts[..n]);
      OneMoreDelta(before + [start] + Deltas(start.index, start.kind, parts[..n]), start, Concat(parts[..n]),
                   parts[..n] != [], parts[n]);
      DeltasSnoc(before + [start], start, parts);
    }
  }

  lemma {:induction false} DeltasSnoc(head: seq<ProxyEvent>, start: ProxyEvent, parts: seq<string>)
    requires start.BlockStart? && parts != []
    ensures var n := |parts| - 1;
            head + Deltas(start.index, start.kind, parts[..n]) + [Delta(start.index, start.kind, parts[n])]
            == head + Deltas(start.index, start.kind, parts)
  {
  }

  lemma {:induction false} PrefixSucceeds(events: seq<ProxyEvent>, n: nat)
    requires n <= |events| && ProcessAll(EMPTY, events).Ok?
    ensures ProcessAll(EMPTY, events[..n]).Ok?
    decreases |events|
  {
    if n < |events| {
      assert events[..|events| - 1][..n] == events[..n];
      PrefixSucceeds(events[..|events| - 1], n);
    } else {
      assert events[..n] == events;
    }
  }

  /** Text, thinking and raw JSON are the concatenation of the block's own deltas since its latest start, in any
      interleaving with any other blocks, and also after earlier uses of the same index. */
  lemma {:induction false} ReassembledFromOwnDeltas(events: seq<ProxyEvent>, earlier: seq<ProxyEvent>,
                                                    start: ProxyEvent, parts: seq<string>)
    requires ProcessAll(EMPTY, events).Ok? && start.BlockStart?
    requires Only(events, start.index) == earlier + [start] + Deltas(start.index, start.kind, parts)
    ensures var content := ProcessAll(EMPTY, events).partial.content;
            start.index in content && content[start.index] == Carrying(start, Concat(parts), parts != [])
  {
    BlocksAreIndependent(events, start.index);
    var own := Only(events, start.index);
    PrefixSucceeds(own, |earlier|);
    assert own[..|earlier|] == earlier;
    DeltasConcatenate(earlier, start, parts);
  }

  /** The finished block with exactly the given text: a call keeps the arguments parsed from it and drops the text. */
  function Finished(start: ProxyEvent, text: string, any: bool, signature: Option<string>): Block
    requires start.BlockStart?
  {
    match start.kind
    case TextKind => Text(text, signature)
    case ThinkingKind => Thinking(text, signature)
    case CallKind => Call(start.id, start.name, if any then ParsedFrom(text) else EmptyObject, None)
  }

  /** Its end leaves a finished block with that text, and when it is the latest event, that block is what is pushed. */
  lemma {:induction false} FinishedFromOwnDeltas(events: seq<ProxyEvent>, earlier: seq<ProxyEvent>, start: ProxyEvent,
                                                 parts: seq<string>, signature: Option<string>)
    requires ProcessAll(EMPTY, events).Ok? && start.BlockStart?
    requires Only(events, start.index)
             == earlier + [start] + Deltas(start.index, start.kind, parts)
               + [BlockEnd(start.index, start.kind, signature)]
    ensures var content := ProcessAll(EMPTY, events).partial.content;
            && start.index in content
            && content[start.index] == Finished(start, Concat(parts), parts != [], signature)
    ensures At(events[|events| - 1], start.index) ==>
              ProcessAll(EMPTY, events).push
              == Some(PushedBlockEnd(start.index, Finished(start, Concat(parts), parts != [], signature)))
  {
    var open := earlier + [start] + Deltas(start.index, start.kind, parts);
    BlocksAreIndependent(events, start.index);
    PrefixSucceeds(Only(events, start.index), |earlier|);
    assert Only(events, start.index)[..|earlier|] == earlier;
    DeltasConcatenate(earlier, start, parts);
    ProcessSnoc(EMPTY, open, BlockEnd(start.index, start.kind, signature));
    if At(events[|events| - 1], start.index) {
      assert Only(events, start.index) == open + [events[|events| - 1]];
      assert events[|events| - 1] == BlockEnd(start.index, start.kind, signature);
    }
  }

  /** A delta for a call that has already ended starts from the text of a missing value, and its arguments with it. */
  lemma {:induction false} DeltaAfterTheEnd(p: Partial, index: nat, delta: string)
    requires index in p.content && p.content[index].Call? && p.content[index].json.None?
    ensures Process(p, Delta(index, CallKind, delta)).Ok?
    ensures var block := Process(p, Delta(index, CallKind, delta)).partial.content[index];
            block == Call(p.content[index].id, p.content[index].name, ParsedFrom("undefined" + delta),
                          Some("undefined" + delta))
  {
  }

  /** The kind of the block last started at an index. */
  function LastStarted(events: seq<ProxyEvent>, index: nat): Option<Kind> {
    if events == [] then None
    else
      var e := events[|events| - 1];
      if e.BlockStart? && e.index == index then Some(e.kind) else LastStarted(events[..|events| - 1], index)
  }

  /** Deltas, and ends of text and thinking, belong to the block last started at their index. */
  predicate InPlace(events: seq<ProxyEvent>, e: ProxyEvent) {
    e.Delta? || (e.BlockEnd? && e.kind != CallKind) ==> LastStarted(events, e.index) == Some(e.kind)
  }

  lemma {:induction false} KindsFollowStarts(events: seq<ProxyEvent>, index: nat)
    requires ProcessAll(EMPTY, events).Ok?
    ensures var content := ProcessAll(EMPTY, events).partial.content;
            LastStarted(events, index) == if index in content then Some(KindOf(content[index])) else None
    decreases |events|
  {
    if events != [] {
      KindsFollowStarts(events[..|events| - 1], index);
    }
  }

  /** Processing succeeds exactly when every event is in place. */
  lemma {:induction false} AcceptedExactlyWhenInPlace(events: seq<ProxyEvent>)
    ensures ProcessAll(EMPTY, events).Ok? <==> forall k :: 0 <= k < |events| ==> InPlace(events[..k], events[k])
    decreases |events|
  {
    if events != [] {
      var n := |events| - 1;
      AcceptedExactlyWhenInPlace(events[..n]);
      assert forall k :: 0 <= k < n ==> events[..n][..k] == events[..k] && events[..n][k] == events[k];
      if ProcessAll(EMPTY, events[..n]).Ok? && (events[n].Delta? || events[n].BlockEnd?) {
        KindsFollowStarts(events[..n], events[n].index);
      }
    }
  }

  // ---------------------------------------------------------------------
  // The stream
  // ---------------------------------------------------------------------

  datatype Failure = BadJson | WrongContent

  datatype Stream = Stream(partial: Partial, pushed: seq<Pushed>, failure: Option<Failure>)

  const OPENED := Stream(EMPTY, [], None)

  const DATA_PREFIX := "data: "

  function DataOf(line: string): string {
    if DATA_PREFIX <= line then Trim(line[|DATA_PREFIX|..]) else ""
  }

  /** Stands for the text of a failure. */
  const FAILURE_TEXT := "error"

  /** A failure ends the message with an error event; what was received so far stays in it. */
  function Fail(s: Stream, failure: Failure): Stream {
    Stream(s.partial.(stop := Some(Error), errorMessage := Some(FAILURE_TEXT)), s.pushed + [PushedError(Error)],
           Some(failure))
  }

  /** Other lines and empty data are skipped; the JSON parser is a parameter, None where it throws. */
  function ProcessLine(s: Stream, line: string, parse: string -> Option<ProxyEvent>): Stream {
    if s.failure.Some? || DataOf(line) == "" then s
    else
      match parse(DataOf(line))
      case None => Fail(s, BadJson)
      case Some(e) =>
        match Process(s.partial, e)
        case Throws => Fail(s, WrongContent)
        case Ok(partial, push) => Stream(partial, if push.Some? then s.pushed + [push.value] else s.pushed, None)
  }

  function ProcessLines(s: Stream, lines: seq<string>, parse: string -> Option<ProxyEvent>): Stream {
    if lines == [] then s else ProcessLine(ProcessLines(s, lines[..|lines| - 1], parse), lines[|lines| - 1], parse)
  }

  /** The lines of one chunk, up to the first failure. */
  method ReadLines(start: Stream, lines: seq<string>, parse: string -> Option<ProxyEvent>) returns (s: Stream)
    requires start.failure.None?
    ensures s == ProcessLines(start, lines, parse)
  {
    s := start;
    for j := 0 to |lines|
      invariant s.failure.None? && s == ProcessLines(start, lines[..j], parse)
    {
      assert lines[..j + 1][..j] == lines[..j];
      s := ProcessLine(s, lines[j], parse);
      if s.failure.Some? {
        FailureIsFinal(start, lines, j + 1, parse);
        return;
      }
    }
    assert lines[..|lines|] == lines;
  }

  /** The lines of a longer text, from the state after a shorter one. */
  lemma {:induction false} TextContinues(a: string, b: string, parse: string -> Option<ProxyEvent>)
    ensures ProcessLines(OPENED, Split(a + b).lines, parse)
            == ProcessLines(ProcessLines(OPENED, Split(a).lines, parse), Split(Split(a).rest + b).lines, parse)
  {
    SplitContinues(a, b);
    LinesContinue(OPENED, Split(a).lines, Split(Split(a).rest + b).lines, parse);
  }

  lemma {:induction false} NothingAfterFailure(a: string, b: string, parse: string -> Option<ProxyEvent>)
    requires ProcessLines(OPENED, Split(a).lines, parse).failure.Some?
    ensures ProcessLines(OPENED, Split(a + b).lines, parse) == ProcessLines(OPENED, Split(a).lines, parse)
  {
    TextContinues(a, b, parse);
    FailureIsFinal(ProcessLines(OPENED, Split(a).lines, parse), Split(Split(a).rest + b).lines, 0, parse);
  }

  // ---------------------------------------------------------------------
  // What the consumer sees
  // ---------------------------------------------------------------------

  datatype Seen = Seen(kind: Kind, text: string)

  /** What a consumer that only follows the pushed events knows of one content index. */
  function SeenAt(pushed: seq<Pushed>, index: nat): Option<Seen> {
    if pushed == [] then None
    else
      var before := SeenAt(pushed[..|pushed| - 1], index);
      match pushed[|pushed| - 1]
      case PushedBlockStart(i, kind) => if i == index then Some(Seen(kind, "")) else before
      case PushedDelta(i, kind, delta) =>
        if i == index && before.Some? then Some(Seen(kind, before.value.text + delta)) else before
      case _ => before
  }

  /** The consumer knows every block by its kind, and the text of every text and thinking block. */
  ghost predicate Mirrored(content: map<nat, Block>, pushed: seq<Pushed>) {
    forall index: nat :: MirroredAt(content, pushed, index)
  }

  predicate MirroredAt(content: map<nat, Block>, pushed: seq<Pushed>, index: nat) {
    var seen := SeenAt(pushed, index);
    if index !in content then seen.None?
    else
      && seen.Some? && seen.value.kind == KindOf(content[index])
      && (content[index].Text? || content[index].Thinking? ==> seen.value.text == content[index].text)
  }

  lemma {:induction false} SeenSnoc(pushed: seq<Pushed>, push: Pushed, index: nat)
    ensures SeenAt(pushed + [push], index)
            == match push
               case PushedBlockStart(i, kind) => if i == index then Some(Seen(kind, "")) else SeenAt(pushed, index)
               case PushedDelta(i, kind, delta) =>
                 (var before := SeenAt(pushed, index);
                  if i == index && before.Some? then Some(Seen(kind, before.value.text + delta)) else before)
               case _ => SeenAt(pushed, index)
  {
    assert (pushed + [push])[..|pushed|] == pushed;
  }

  lemma {:induction false} EventMirrored(p: Partial, e: ProxyEvent, pushed: seq<Pushed>)
    requires Process(p, e).Ok? && Mirrored(p.content, pushed)
    ensures var r := Process(p, e);
            Mirrored(r.partial.content, if r.push.Some? then pushed + [r.push.value] else pushed)
  {
    var r := Process(p, e);
    if r.push.Some? {
      forall index: nat ensures MirroredAt(r.partial.content, pushed + [r.push.value], index) {
        assert MirroredAt(p.content, pushed, index);
        SeenSnoc(pushed, r.push.value, index);
      }
    }
  }

  lemma {:induction false} LineMirrored(s: Stream, line: string, parse: string -> Option<ProxyEvent>)
    requires Mirrored(s.partial.content, s.pushed)
    ensures var next := ProcessLine(s, line, parse); Mirrored(next.partial.content, next.pushed)
  {
    var next := ProcessLine(s, line, parse);
    if s.failure.None? && DataOf(line) != "" {
      var event := parse(DataOf(line));
      if event.Some? && Process(s.partial, event.value).Ok? {
        EventMirrored(s.partial, event.value, s.pushed);
      } else {
        forall index: nat ensures MirroredAt(next.partial.content, next.pushed, index) {
          assert MirroredAt(s.partial.content, s.pushed, index);
          SeenSnoc(s.pushed, PushedError(Error), index);
        }
      }
    }
  }

  /** Whatever lines arrive, a consumer that follows the pushed events knows the message: which blocks there are, of
      which kind, and the text of each text and thinking block. */
  lemma {:induction false} ConsumerSeesTheMessage(lines: seq<string>, parse: string -> Option<ProxyEvent>)
    ensures var s := ProcessLines(OPENED, lines, parse); Mirrored(s.partial.content, s.pushed)
    decreases |lines|
  {
    if lines == [] {
      assert forall index: nat :: MirroredAt(EMPTY.content, [], index);
    } else {
      var n := |lines| - 1;
      ConsumerSeesTheMessage(lines[..n], parse);
      LineMirrored(ProcessLines(OPENED, lines[..n], parse), lines[n], parse);
    }
  }

  /** The lines that carry an event, up to the first failure. */
  function EventsOf(lines: seq<string>, parse: string -> Option<ProxyEvent>): Option<seq<ProxyEvent>> {
    if lines == [] then Some([])
    else
      EventsWith(EventsOf(lines[..|lines| - 1], parse), lines[|lines| - 1], parse)
  }

  function EventsWith(events: Option<seq<ProxyEvent>>, line: string, parse: string -> Option<ProxyEvent>)
    : Option<seq<ProxyEvent>>
  {
    match events
    case None => None
    case Some(before) =>
      if !(DATA_PREFIX <= line) || Blank(line[|DATA_PREFIX|..]) then events
      else
        match parse(Trim(line[|DATA_PREFIX|..]))
        case None => None
        case Some(e) => if Process(ProcessedPartial(before), e).Ok? then Some(before + [e]) else None
  }

  function ProcessedPartial(events: seq<ProxyEvent>): Partial {
    match ProcessAll(EMPTY, events)
    case Ok(partial, _) => partial
    case Throws => EMPTY
  }

  /** The stream has processed these events, or has failed with an error event. */
  predicate HasProcessed(s: Stream, events: Option<seq<ProxyEvent>>) {
    && (s.failure.None? <==> events.Some?)
    && (events.Some? ==> ProcessAll(EMPTY, events.value).Ok? && s.partial == ProcessedPartial(events.value))
    && (events.None? ==> |s.pushed| > 0 && s.pushed[|s.pushed| - 1] == PushedError(Error)
                         && s.partial.stop == Some(Error) && s.partial.errorMessage.Some?)
  }

  lemma {:induction false} LineProcessed(s: Stream, events: Option<seq<ProxyEvent>>, line: string,
                                         parse: string -> Option<ProxyEvent>)
    requires HasProcessed(s, events)
    ensures HasProcessed(ProcessLine(s, line, parse), EventsWith(events, line, parse))
  {
    if events.Some? && DataOf(line) != "" {
      var e := parse(DataOf(line));
      if e.Some? && Process(s.partial, e.value).Ok? {
        ProcessSnoc(EMPTY, events.value, e.value);
      }
    }
  }

  /** Only data lines that are not blank count; the message is what their events make of it, and a line that does not
      parse or does not apply fails the stream with an error event as the last one pushed. */
  lemma {:induction false} StreamIsItsEvents(lines: seq<string>, parse: string -> Option<ProxyEvent>)
    ensures HasProcessed(ProcessLines(OPENED, lines, parse), EventsOf(lines, parse))
    decreases |lines|
  {
    if lines != [] {
      var n := |lines| - 1;
      StreamIsItsEvents(lines[..n], parse);
      LineProcessed(ProcessLines(OPENED, lines[..n], parse), EventsOf(lines[..n], parse), lines[n], parse);
    }
  }

  /** How the latest done or error event left the message. */
  function LastEnd(events: seq<ProxyEvent>): (Option<StopReason>, Option<string>) {
    if events == [] then (None, None)
    else
      var before := LastEnd(events[..|events| - 1]);
      match events[|events| - 1]
      case Done(reason) => (Some(reason), before.1)
      case StreamError(reason, message) => (Some(reason), message)
      case _ => before
  }

  /** The stop reason is that of the latest done or error event, and the error message that of the latest error. */
  lemma {:induction false} StopFollowsTheLastEnd(events: seq<ProxyEvent>)
    requires ProcessAll(EMPTY, events).Ok?
    ensures var r := ProcessAll(EMPTY, events);
            && (r.partial.stop, r.partial.errorMessage) == LastEnd(events)
            && (events != [] && events[|events| - 1].Done? ==> r.push == Some(PushedDone(events[|events| - 1].reason)))
            && (events != [] && events[|events| - 1].StreamError? ==>
                  r.push == Some(PushedError(events[|events| - 1].reason)))
  {
    if events != [] {
      StopFollowsTheLastEnd(events[..|events| - 1]);
    }
  }

  /** Reads chunk after chunk, keeping the unfinished line in a buffer; what is left in it at the end is dropped. The
      result depends on the text only, not on how it is cut into chunks. */
  method ReadStream(chunks: seq<string>, parse: string -> Option<ProxyEvent>) returns (s: Stream)
    ensures s == ProcessLines(OPENED, Split(Concat(chunks)).lines, parse)
  {
    s := OPENED;
    var buffer := "";
    for i := 0 to |chunks|
      invariant s.failure.None?
      invariant s == ProcessLines(OPENED, Split(Concat(chunks[..i])).lines, parse)
      invariant buffer == Split(Concat(chunks[..i])).rest
    {
      assert chunks[..i + 1][..i] == chunks[..i];
      SplitContinues(Concat(chunks[..i]), chunks[i]);
      TextContinues(Concat(chunks[..i]), chunks[i], parse);
      var framed := Split(buffer + chunks[i]);
      buffer := framed.rest;
      s := ReadLines(s, framed.lines, parse);
      if s.failure.Some? {
        ConcatSplits(chunks, i + 1);
        NothingAfterFailure(Concat(chunks[..i + 1]), Concat(chunks[i + 1..]), parse);
        return;
      }
    }
    assert chunks[..|chunks|] == chunks;
  }

  lemma {:induction false} LinesContinue(s: Stream, a: seq<string>, b: seq<string>, parse: string -> Option<ProxyEvent>)
    ensures ProcessLines(s, a + b, parse) == ProcessLines(ProcessLines(s, a, parse), b, parse)
    decreases |b|
  {
    if b == [] {
      assert a + b == a;
    } else {
      assert (a + b)[..|a + b| - 1] == a + b[..|b| - 1];
      LinesContinue(s, a, b[..|b| - 1], parse);
    }
  }

  lemma {:induction false} FailureIsFinal(s: Stream, lines: seq<string>, n: nat, parse: string -> Option<ProxyEvent>)
    requires n <= |lines| && ProcessLines(s, lines[..n], parse).failure.Some?
    ensures ProcessLines(s, lines, parse) == ProcessLines(s, lines[..n], parse)
    decreases |lines| - n
  {
    if n < |lines| {
      assert lines[..n + 1][..n] == lines[..n];
      FailureIsFinal(s, lines, n + 1, parse);
    } else {
      assert lines[..n] == lines;
    }
  }

  lemma {:induction false} ConcatSplits(parts: seq<string>, n: nat)
    requires n <= |parts|
    ensures Concat(parts) == Concat(parts[..n]) + Concat(parts[n..])
    decreases |parts| - n
  {
    if n == |parts| {
      assert parts[..n] == parts;
    } else {
      ConcatSplits(parts, n + 1);
      assert parts[..n + 1][..n] == parts[..n];
      FirstConcat(parts[n..]);
      assert parts[n..][1..] == parts[n + 1..];
    }
  }

  lemma {:induction false} FirstConcat(parts: seq<string>)
    requires parts != []
    ensures Concat(parts) == parts[0] + Concat(parts[1..])
    decreases |parts|
  {
    if |parts| > 1 {
      FirstConcat(parts[..|parts| - 1]);
      assert parts[..|parts| - 1][1..] == parts[1..][..|parts| - 2];
    }
  }
}
