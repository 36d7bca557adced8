/** The streamed transcript: chunks are buffered and flushed on a timer, at a change of
    kind, before a tool event and at the end. Text is a sequence of UTF-16 code units. */
module TranscriptStream {
  import opened Options

  const MAX_VISIBLE_TURN_TEXT := 320_000
  const MAX_THOUGHT_TEXT := 160_000
  const MAX_TOOL_TEXT := 4_000

  const ELLIPSIS := 8230 as char
  const MARKER := "\n\n" + [ELLIPSIS] + " earlier output compacted to keep this session responsive " + [ELLIPSIS] + "\n\n"

  datatype Kind = User | Assistant | Thought | Tool

  /** The kinds that chunks have. */
  datatype Voice = Speaking | Thinking

  datatype Turn = Turn(kind: Kind, text: string, toolId: Option<string>)

  function KindOf(v: Voice): Kind {
    if v.Speaking? then Assistant else Thought
  }

  function Cap(v: Voice): nat {
    if v.Speaking? then MAX_VISIBLE_TURN_TEXT else MAX_THOUGHT_TEXT
  }

  // ---- bounding one turn's text

  function Head(cap: nat): nat {
    cap * 58 / 100
  }

  function Tail(cap: nat): nat
    requires cap >= 1_000
  {
    cap - Head(cap) - |MARKER|
  }

  /** The beginning and the end of a text, with the marker between. */
  function Squeezed(text: string, head: nat, tail: nat): (r: string)
    requires head <= |text| && tail <= |text|
    ensures |r| == head + |MARKER| + tail
  {
    text[..head] + MARKER + text[|text| - tail..]
  }

  /** Text longer than its cap keeps its beginning and its end. */
  function Bounded(text: string, cap: nat): (r: string)
    requires cap >= 1_000
    ensures |r| == if |text| <= cap then |text| else cap
  {
    if |text| <= cap then text else Squeezed(text, Head(cap), Tail(cap))
  }

  function AppendBounded(current: string, chunk: string, cap: nat): string
    requires cap >= 1_000
  {
    Bounded(current + chunk, cap)
  }

  lemma EndOfAppend(a: string, b: string, n: nat)
    requires n <= |b|
    ensures (a + b)[|a + b| - n..] == b[|b| - n..]
  {
  }

  lemma StartOfAppend(a: string, b: string)
    ensures (a + b)[..|a|] == a
  {
  }

  lemma SqueezedEnd(text: string, more: string, head: nat, tail: nat)
    requires head <= |text| && tail <= |text|
    ensures var once, whole := Squeezed(text, head, tail) + more, text + more;
            once[|once| - tail..] == whole[|whole| - tail..]
  {
    var front, back := text[..head] + MARKER, text[|text| - tail..];
    assert Squeezed(text, head, tail) + more == front + (back + more);
    assert text + more == text[..|text| - tail] + (back + more);
    EndOfAppend(front, back + more, tail);
    EndOfAppend(text[..|text| - tail], back + more, tail);
  }

  lemma SqueezedTwice(text: string, more: string, head: nat, tail: nat)
    requires head <= |text| && tail <= |text|
    ensures Squeezed(Squeezed(text, head, tail) + more, head, tail) == Squeezed(text + more, head, tail)
  {
    SqueezedEnd(text, more, head, tail);
    var once := Squeezed(text, head, tail) + more;
    assert once == text[..head] + (MARKER + text[|text| - tail..] + more);
    StartOfAppend(text[..head], MARKER + text[|text| - tail..] + more);
    assert once[..head] == (text + more)[..head];
  }

  /** Compacting early loses nothing that compacting late would keep. */
  lemma BoundedTwice(text: string, more: string, cap: nat)
    requires cap >= 1_000
    ensures Bounded(Bounded(text, cap) + more, cap) == Bounded(text + more, cap)
  {
    if |text| > cap {
      if more == "" {
        assert Bounded(text, cap) + more == Bounded(text, cap) && text + more == text;
      } else {
        SqueezedTwice(text, more, Head(cap), Tail(cap));
      }
    }
  }

  /** Appending chunk by chunk is appending them joined. */
  lemma AppendsJoin(current: string, a: string, b: string, cap: nat)
    requires cap >= 1_000
    ensures AppendBounded(AppendBounded(current, a, cap), b, cap) == AppendBounded(current, a + b, cap)
  {
    BoundedTwice(current + a, b, cap);
    assert current + a + b == current + (a + b);
  }

  // ---- the runtime's turns

  function Cut(text: string, cap: nat): string {
    if |text| <= cap then text else text[..cap]
  }

  predicate Continues(turns: seq<Turn>, v: Voice) {
    turns != [] && turns[|turns| - 1].kind == KindOf(v)
  }

  /** Adds text to the last turn, or opens a turn with it. */
  function Append(turns: seq<Turn>, v: Voice, text: string): seq<Turn> {
    if Continues(turns, v) then
      var last := turns[|turns| - 1];
      turns[|turns| - 1 := last.(text := AppendBounded(last.text, text, Cap(v)))]
    else turns + [Turn(KindOf(v), Cut(text, Cap(v)), None)]
  }

  function Clipped(title: string): string {
    Cut(title, MAX_TOOL_TEXT)
  }

  function UpdatedTurn(t: Turn, toolId: Option<string>, title: Option<string>): Turn {
    if t.kind.Tool? && t.toolId == toolId then t.(text := Clipped(if title.Some? then title.value else t.text)) else t
  }

  function Updated(turns: seq<Turn>, toolId: Option<string>, title: Option<string>): seq<Turn> {
    if turns == [] then [] else [UpdatedTurn(turns[0], toolId, title)] + Updated(turns[1..], toolId, title)
  }

  datatype Event =
    | Chunk(voice: Voice, text: string)
    | ToolCall(toolId: Option<string>, title: string)
    | ToolUpdate(toolId: Option<string>, newTitle: Option<string>)
    | Timer

  datatype Pending = Pending(voice: Voice, text: string)
  datatype Stream = Stream(turns: seq<Turn>, pending: Option<Pending>)

  /** A tool event on the turns. */
  function ToolStep(turns: seq<Turn>, e: Event): seq<Turn> {
    match e
    case ToolCall(toolId, title) => turns + [Turn(Tool, Clipped(title), toolId)]
    case ToolUpdate(toolId, title) => Updated(turns, toolId, title)
    case _ => turns
  }

  function Flush(s: Stream): Stream {
    if s.pending.None? then s
    else Stream(Append(s.turns, s.pending.value.voice, s.pending.value.text), None)
  }

  function Buffer(s: Stream, v: Voice, text: string): Stream {
    var s1 := if s.pending.Some? && s.pending.value.voice != v then Flush(s) else s;
    if s1.pending.Some? then s1.(pending := Some(Pending(v, s1.pending.value.text + text)))
    else s1.(pending := Some(Pending(v, text)))
  }

  function OnUpdate(s: Stream, e: Event): Stream {
    match e
    case Chunk(v, text) => Buffer(s, v, text)
    case Timer => Flush(s)
    case _ => var s1 := Flush(s); s1.(turns := ToolStep(s1.turns, e))
  }

  /** All events, then the flush at the end of the turn. */
  function Run(s: Stream, events: seq<Event>): seq<Turn>
    decreases events
  {
    if events == [] then Flush(s).turns else Run(OnUpdate(s, events[0]), events[1..])
  }

  // ---- each chunk appended at once

  function AtOnce(turns: seq<Turn>, e: Event): seq<Turn> {
    if e.Chunk? then Append(turns, e.voice, e.text) else ToolStep(turns, e)
  }

  function RunAtOnce(turns: seq<Turn>, events: seq<Event>): seq<Turn>
    decreases events
  {
    if events == [] then turns else RunAtOnce(AtOnce(turns, events[0]), events[1..])
  }

  function WithoutTimers(events: seq<Event>): seq<Event> {
    if events == [] then []
    else if events[0].Timer? then WithoutTimers(events[1..])
    else [events[0]] + WithoutTimers(events[1..])
  }

  /** The buffered text fits if it is to open a turn. */
  predicate OpeningFits(s: Stream) {
    s.pending.Some? && !Continues(s.turns, s.pending.value.voice) ==>
      |s.pending.value.text| <= Cap(s.pending.value.voice)
  }

  /** At every moment the buffer fits if it is to open a turn. */
  predicate OpeningsFit(s: Stream, events: seq<Event>)
    decreases events
  {
    OpeningFits(s) && (events != [] ==> OpeningsFit(OnUpdate(s, events[0]), events[1..]))
  }

  lemma AppendTwice(turns: seq<Turn>, v: Voice, a: string, b: string)
    requires Continues(turns, v) || |a + b| <= Cap(v)
    ensures Append(Append(turns, v, a), v, b) == Append(turns, v, a + b)
  {
    if Continues(turns, v) {
      AppendsJoin(turns[|turns| - 1].text, a, b, Cap(v));
    }
  }

  lemma ChunkSameAtOnce(s: Stream, v: Voice, text: string)
    requires OpeningFits(s) && OpeningFits(Buffer(s, v, text))
    ensures Flush(Buffer(s, v, text)).turns == Append(Flush(s).turns, v, text)
  {
    if s.pending.Some? && s.pending.value.voice == v {
      AppendTwice(s.turns, v, s.pending.value.text, text);
    }
  }

  /** Wherever the timer fires, the turns are those of appending each chunk at once, as
      long as no buffer that opens a turn is longer than the turn may be. */
  lemma {:induction false} BufferingIsInvisible(s: Stream, events: seq<Event>)
    requires OpeningsFit(s, events)
    ensures Run(s, events) == RunAtOnce(Flush(s).turns, WithoutTimers(events))
    decreases events
  {
    if events != [] {
      var e := events[0];
      BufferingIsInvisible(OnUpdate(s, e), events[1..]);
      if e.Chunk? {
        ChunkSameAtOnce(s, e.voice, e.text);
      }
    }
  }

  // ---- while the turns stay within their caps

  /** Appending without any bound. */
  function PlainAppend(turns: seq<Turn>, v: Voice, text: string): seq<Turn> {
    if Continues(turns, v) then
      var last := turns[|turns| - 1];
      turns[|turns| - 1 := last.(text := last.text + text)]
    else turns + [Turn(KindOf(v), text, None)]
  }

  function PlainStep(turns: seq<Turn>, e: Event): seq<Turn> {
    if e.Chunk? then PlainAppend(turns, e.voice, e.text) else ToolStep(turns, e)
  }

  function PlainRun(turns: seq<Turn>, events: seq<Event>): seq<Turn>
    decreases events
  {
    if events == [] then turns else PlainRun(PlainStep(turns, events[0]), events[1..])
  }

  predicate Fits(t: Turn) {
    && (t.kind.Assistant? ==> |t.text| <= Cap(Speaking))
    && (t.kind.Thought? ==> |t.text| <= Cap(Thinking))
  }

  predicate AllFit(turns: seq<Turn>) {
    forall i | 0 <= i < |turns| :: Fits(turns[i])
  }

  /** The unbounded turns stay within their caps throughout. */
  predicate StaysWithinCaps(turns: seq<Turn>, events: seq<Event>)
    decreases events
  {
    AllFit(turns) && (events != [] ==> StaysWithinCaps(PlainStep(turns, events[0]), events[1..]))
  }

  lemma PlainIfFits(turns: seq<Turn>, v: Voice, text: string)
    requires AllFit(PlainAppend(turns, v, text))
    ensures Append(turns, v, text) == PlainAppend(turns, v, text)
  {
    var r := PlainAppend(turns, v, text);
    assert Fits(r[|r| - 1]);
  }

  lemma PlainTwice(turns: seq<Turn>, v: Voice, a: string, b: string)
    ensures PlainAppend(PlainAppend(turns, v, a), v, b) == PlainAppend(turns, v, a + b)
  {
    if Continues(turns, v) {
      assert turns[|turns| - 1].text + a + b == turns[|turns| - 1].text + (a + b);
    }
  }

  /** The buffer's turns once flushed without bound. */
  function PlainFlush(s: Stream): seq<Turn> {
    if s.pending.None? then s.turns else PlainAppend(s.turns, s.pending.value.voice, s.pending.value.text)
  }

  lemma PlainFlushStep(s: Stream, e: Event)
    requires AllFit(PlainFlush(s))
    ensures Flush(s).turns == PlainFlush(s)
    ensures PlainFlush(OnUpdate(s, e)) == PlainStep(PlainFlush(s), e)
  {
    if s.pending.Some? {
      PlainIfFits(s.turns, s.pending.value.voice, s.pending.value.text);
      if e.Chunk? && s.pending.value.voice == e.voice {
        PlainTwice(s.turns, e.voice, s.pending.value.text, e.text);
      }
    }
  }

  /** For every placement of timers: while the turns stay within their caps the
      transcript is the plain concatenation of the chunks, turn by turn. */
  lemma {:induction false} WithinCapsNothingIsLost(s: Stream, events: seq<Event>)
    requires StaysWithinCaps(PlainFlush(s), events)
    ensures Run(s, events) == PlainRun(PlainFlush(s), events)
    decreases events
  {
    if events == [] {
      PlainFlushStep(s, Timer);
    } else {
      PlainFlushStep(s, events[0]);
      WithinCapsNothingIsLost(OnUpdate(s, events[0]), events[1..]);
    }
  }

  // ---- with the caps reached

  lemma {:induction false} UpdatedFits(turns: seq<Turn>, toolId: Option<string>, title: Option<string>)
    requires AllFit(turns)
    ensures AllFit(Updated(turns, toolId, title)) && |Updated(turns, toolId, title)| == |turns|
  {
    if turns != [] {
      UpdatedFits(turns[1..], toolId, title);
      assert Fits(turns[0]);
    }
  }

  lemma AppendFits(turns: seq<Turn>, v: Voice, text: string)
    requires AllFit(turns)
    ensures AllFit(Append(turns, v, text))
  {
  }

  lemma StepFits(s: Stream, e: Event)
    requires AllFit(s.turns)
    ensures AllFit(OnUpdate(s, e).turns) && AllFit(Flush(s).turns)
  {
    if s.pending.Some? {
      AppendFits(s.turns, s.pending.value.voice, s.pending.value.text);
    }
    if e.ToolUpdate? {
      UpdatedFits(Flush(s).turns, e.toolId, e.newTitle);
    }
  }

  /** No text turn ever exceeds its cap. */
  lemma {:induction false} TurnsNeverExceedCaps(s: Stream, events: seq<Event>)
    requires AllFit(s.turns)
    ensures AllFit(Run(s, events))
    decreases events
  {
    if events == [] {
      StepFits(s, Timer);
    } else {
      StepFits(s, events[0]);
      TurnsNeverExceedCaps(OnUpdate(s, events[0]), events[1..]);
    }
  }

  /** All chunks of one voice joined. */
  function Joined(chunks: seq<string>): string {
    if chunks == [] then "" else chunks[0] + Joined(chunks[1..])
  }

  function Chunks(v: Voice, chunks: seq<string>): seq<Event> {
    if chunks == [] then [] else [Chunk(v, chunks[0])] + Chunks(v, chunks[1..])
  }

  lemma {:induction false} ChunksBuffered(s: Stream, v: Voice, chunks: seq<string>)
    requires s.pending.Some? && s.pending.value.voice == v
    ensures Run(s, Chunks(v, chunks)) == Append(s.turns, v, s.pending.value.text + Joined(chunks))
    decreases chunks
  {
    if chunks == [] {
      assert s.pending.value.text + "" == s.pending.value.text;
    } else {
      var events := Chunks(v, chunks);
      assert events[0] == Chunk(v, chunks[0]) && events[1..] == Chunks(v, chunks[1..]);
      ChunksBuffered(OnUpdate(s, events[0]), v, chunks[1..]);
      assert s.pending.value.text + chunks[0] + Joined(chunks[1..]) == s.pending.value.text + Joined(chunks);
    }
  }

  lemma {:induction false} ChunksAtOnce(turns: seq<Turn>, v: Voice, chunks: seq<string>)
    requires Continues(turns, v)
    ensures RunAtOnce(turns, Chunks(v, chunks)) ==
            if chunks == [] then turns else Append(turns, v, Joined(chunks))
    decreases chunks
  {
    if chunks != [] {
      var events := Chunks(v, chunks);
      assert events[0] == Chunk(v, chunks[0]) && events[1..] == Chunks(v, chunks[1..]);
      ChunksAtOnce(Append(turns, v, chunks[0]), v, chunks[1..]);
      if |chunks| > 1 {
        AppendTwice(turns, v, chunks[0], Joined(chunks[1..]));
      } else {
        assert chunks[1..] == [] && chunks[0] + "" == chunks[0];
      }
    }
  }

  /** A text too long for its turn that a cut at the cap leaves as compacting would: the
      marker stands where compacting puts it and the end follows. */
  predicate ReadsAsCompacted(text: string, cap: nat)
    requires cap >= 1_000
  {
    && |text| > cap
    && text[Head(cap)..Head(cap) + |MARKER|] == MARKER
    && text[Head(cap) + |MARKER|..cap] == text[|text| - Tail(cap)..]
  }

  lemma CutAtCap(text: string, head: nat, mid: nat, cap: nat)
    requires head <= mid <= cap <= |text|
    ensures text[..cap] == text[..head] + text[head..mid] + text[mid..cap]
  {
  }

  lemma SameParts(a: string, b: string, c: string, b2: string, c2: string)
    requires |b| == |b2|
    ensures a + b + c == a + b2 + c2 <==> b == b2 && c == c2
  {
    assert (a + b + c)[|a|..|a| + |b|] == b && (a + b + c)[|a| + |b|..] == c;
    assert (a + b2 + c2)[|a|..|a| + |b|] == b2 && (a + b2 + c2)[|a| + |b|..] == c2;
  }

  lemma CutIsCompacted(text: string, cap: nat)
    requires cap >= 1_000 && |text| > cap
    ensures text[..cap] == Bounded(text, cap) <==> ReadsAsCompacted(text, cap)
  {
    var head, mid := Head(cap), Head(cap) + |MARKER|;
    CutAtCap(text, head, mid, cap);
    SameParts(text[..head], text[head..mid], text[mid..cap], MARKER, text[|text| - Tail(cap)..]);
  }

  lemma CompactedHasEllipsis(text: string, cap: nat)
    requires cap >= 1_000 && ReadsAsCompacted(text, cap)
    ensures ELLIPSIS in text
  {
    assert text[Head(cap)..Head(cap) + |MARKER|][2] == MARKER[2] == ELLIPSIS;
  }

  /** What appending chunk by chunk puts into a turn, before it is bounded. */
  function Opened(v: Voice, chunks: seq<string>): string
    requires chunks != []
  {
    Cut(chunks[0], Cap(v)) + Joined(chunks[1..])
  }

  lemma OpenedAtOnce(turns: seq<Turn>, v: Voice, chunks: seq<string>)
    requires !Continues(turns, v) && chunks != []
    ensures RunAtOnce(turns, Chunks(v, chunks)) == turns + [Turn(KindOf(v), Bounded(Opened(v, chunks), Cap(v)), None)]
  {
    var events := Chunks(v, chunks);
    assert events[0] == Chunk(v, chunks[0]) && events[1..] == Chunks(v, chunks[1..]);
    var first := Turn(KindOf(v), Cut(chunks[0], Cap(v)), None);
    assert Append(turns, v, chunks[0]) == turns + [first];
    ChunksAtOnce(turns + [first], v, chunks[1..]);
    if chunks[1..] == [] {
      assert first.text + "" == first.text;
    }
  }

  lemma OpenedByFlush(turns: seq<Turn>, v: Voice, chunks: seq<string>)
    requires !Continues(turns, v) && chunks != []
    ensures Run(Stream(turns, None), Chunks(v, chunks)) == turns + [Turn(KindOf(v), Cut(Opened(v, chunks), Cap(v)), None)]
  {
    var events := Chunks(v, chunks);
    assert events[0] == Chunk(v, chunks[0]) && events[1..] == Chunks(v, chunks[1..]);
    ChunksBuffered(Stream(turns, Some(Pending(v, chunks[0]))), v, chunks[1..]);
    var all, cap := chunks[0] + Joined(chunks[1..]), Cap(v);
    if |chunks[0]| > cap {
      assert all[..cap] == chunks[0][..cap] == Opened(v, chunks)[..cap];
    }
    assert Cut(all, cap) == Cut(Opened(v, chunks), cap);
  }

  /** A turn opened by one flush of several chunks agrees with one built chunk by chunk
      exactly when the text fits the cap or happens to read as if compacted: the flush
      cuts the end off, where appending compacts the middle. */
  lemma OpeningBeyondTheCapCuts(turns: seq<Turn>, v: Voice, chunks: seq<string>)
    requires !Continues(turns, v) && chunks != []
    ensures Run(Stream(turns, None), Chunks(v, chunks)) == RunAtOnce(turns, Chunks(v, chunks))
            <==> |Opened(v, chunks)| <= Cap(v) || ReadsAsCompacted(Opened(v, chunks), Cap(v))
    ensures ReadsAsCompacted(Opened(v, chunks), Cap(v)) ==> ELLIPSIS in Opened(v, chunks)
  {
    var text, cap := Opened(v, chunks), Cap(v);
    OpenedByFlush(turns, v, chunks);
    OpenedAtOnce(turns, v, chunks);
    var cut, compacted := Turn(KindOf(v), Cut(text, cap), None), Turn(KindOf(v), Bounded(text, cap), None);
    assert (turns + [cut])[|turns|] == cut && (turns + [compacted])[|turns|] == compacted;
    if |text| > cap {
      CutIsCompacted(text, cap);
      if ReadsAsCompacted(text, cap) {
        CompactedHasEllipsis(text, cap);
      }
    }
  }

  lemma SameStartAndEnd(a: string, b: string, more: string, cap: nat)
    requires cap >= 1_000 && |a| == |b| == cap && a[..Head(cap)] == b[..Head(cap)] && |more| >= Tail(cap)
    ensures Bounded(a + more, cap) == Bounded(b + more, cap)
  {
    EndOfAppend(a, more, Tail(cap));
    EndOfAppend(b, more, Tail(cap));
    assert (a + more)[..Head(cap)] == a[..Head(cap)] && (b + more)[..Head(cap)] == b[..Head(cap)];
  }

  lemma CutThenMore(text: string, more: string, cap: nat)
    requires cap >= 1_000 && |more| >= Tail(cap)
    ensures Bounded(Cut(text, cap) + more, cap) == Bounded(Bounded(text, cap) + more, cap)
  {
    if |text| > cap {
      var cut, compacted := text[..cap], Bounded(text, cap);
      assert compacted == text[..Head(cap)] + (MARKER + text[|text| - Tail(cap)..]);
      StartOfAppend(text[..Head(cap)], MARKER + text[|text| - Tail(cap)..]);
      assert cut[..Head(cap)] == compacted[..Head(cap)];
      SameStartAndEnd(cut, compacted, more, cap);
    }
  }

  lemma AppendToLast(turns: seq<Turn>, v: Voice, text: string, more: string)
    ensures Append(turns + [Turn(KindOf(v), text, None)], v, more)
            == turns + [Turn(KindOf(v), AppendBounded(text, more, Cap(v)), None)]
  {
  }

  /** The difference does not last: once the same turn has grown by as much as compacting
      keeps of its end, both read the same again. */
  lemma CutIsForgotten(turns: seq<Turn>, v: Voice, chunks: seq<string>, more: string)
    requires !Continues(turns, v) && chunks != [] && |more| >= Tail(Cap(v))
    ensures Append(Run(Stream(turns, None), Chunks(v, chunks)), v, more)
            == Append(RunAtOnce(turns, Chunks(v, chunks)), v, more)
  {
    var text, cap := Opened(v, chunks), Cap(v);
    OpenedByFlush(turns, v, chunks);
    OpenedAtOnce(turns, v, chunks);
    AppendToLast(turns, v, Cut(text, cap), more);
    AppendToLast(turns, v, Bounded(text, cap), more);
    CutThenMore(text, more, cap);
  }

  // ---- the updater object of one prompt

  lemma {:induction false} UpdatedIs(turns: seq<Turn>, r: seq<Turn>, toolId: Option<string>, title: Option<string>)
    requires |r| == |turns| && forall k | 0 <= k < |turns| :: r[k] == UpdatedTurn(turns[k], toolId, title)
    ensures r == Updated(turns, toolId, title)
  {
    if turns != [] {
      UpdatedIs(turns[1..], r[1..], toolId, title);
    }
  }

  class Updater {
    var turns: seq<Turn>
    var pending: Option<Pending>
    var timer: bool

    ghost function State(): Stream
      reads this
    {
      Stream(turns, pending)
    }

    /** A buffered chunk always has a timer coming. */
    ghost predicate Valid()
      reads this
    {
      pending.Some? ==> timer
    }

    constructor (turns: seq<Turn>)
      ensures Valid() && State() == Stream(turns, None)
    {
      this.turns, pending, timer := turns, None, false;
    }

    method AppendText(v: Voice, text: string)
      modifies `turns
      ensures turns == Append(old(turns), v, text)
    {
      if turns != [] && turns[|turns| - 1].kind == KindOf(v) {
        var last := turns[|turns| - 1];
        turns := turns[|turns| - 1 := last.(text := AppendBounded(last.text, text, Cap(v)))];
      } else {
        turns := turns + [Turn(KindOf(v), if |text| <= Cap(v) then text else text[..Cap(v)], None)];
      }
    }

    method FlushPending()
      requires Valid()
      modifies this
      ensures Valid() && State() == Flush(old(State())) && pending.None?
    {
      timer := false;
      if pending.None? {
        return;
      }
      var p := pending.value;
      pending := None;
      AppendText(p.voice, p.text);
    }

    method BufferText(v: Voice, text: string)
      requires Valid()
      modifies this
      ensures Valid() && State() == Buffer(old(State()), v, text)
    {
      if pending.Some? && pending.value.voice != v {
        FlushPending();
      }
      if pending.Some? {
        pending := Some(Pending(v, pending.value.text + text));
      } else {
        pending := Some(Pending(v, text));
      }
      timer := true;
    }

    method UpdateTools(toolId: Option<string>, title: Option<string>)
      modifies `turns
      ensures turns == Updated(old(turns), toolId, title)
    {
      var mapped := [];
      for i := 0 to |turns|
        invariant |mapped| == i && forall k | 0 <= k < i :: mapped[k] == UpdatedTurn(turns[k], toolId, title)
      {
        var t := turns[i];
        if t.kind.Tool? && t.toolId == toolId {
          t := t.(text := Clipped(if title.Some? then title.value else t.text));
        }
        mapped := mapped + [t];
      }
      UpdatedIs(turns, mapped, toolId, title);
      turns := mapped;
    }

    method Update(e: Event)
      requires Valid()
      modifies this
      ensures Valid() && State() == OnUpdate(old(State()), e)
    {
      match e
      case Chunk(v, text) => BufferText(v, text);
      case Timer => FlushPending();
      case ToolCall(toolId, title) =>
        FlushPending();
        turns := turns + [Turn(Tool, Clipped(title), toolId)];
      case ToolUpdate(toolId, title) =>
        FlushPending();
        UpdateTools(toolId, title);
    }
  }
}
