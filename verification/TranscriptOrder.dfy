/** What each streamed event does to the turns: where tools stand, what their updates change,
    and that every word of a voice stays in order. */
module TranscriptOrder {
  import opened Options
  import opened TranscriptStream

  /** A tool's title as shown. */
  predicate IsTitle(shown: string, title: string) {
    shown <= title && |shown| == if |title| <= 4_000 then |title| else 4_000
  }

  // ---- one event

  /** The timer, and every event that flushes, appends the buffer to the last turn if that has
      its voice and opens a turn with it otherwise; within the cap nothing is cut. */
  lemma TimerAppends(s: Stream, v: Voice, text: string)
    requires s.pending == Some(Pending(v, text))
    ensures var r := OnUpdate(s, Timer);
            && r.pending.None?
            && (!Continues(s.turns, v) ==>
                  && |r.turns| == |s.turns| + 1 && r.turns[..|s.turns|] == s.turns
                  && r.turns[|s.turns|].kind == KindOf(v) && r.turns[|s.turns|].text <= text
                  && (|text| <= Cap(v) ==> r.turns[|s.turns|].text == text))
            && (Continues(s.turns, v) ==>
                  var last := |s.turns| - 1;
                  && |r.turns| == |s.turns| && r.turns[..last] == s.turns[..last]
                  && r.turns[last].kind == KindOf(v) && r.turns[last].toolId == s.turns[last].toolId
                  && (|s.turns[last].text| + |text| <= Cap(v) ==> r.turns[last].text == s.turns[last].text + text))
  {
  }

  lemma NothingToFlush(s: Stream)
    requires s.pending.None?
    ensures OnUpdate(s, Timer) == s
  {
  }

  /** A chunk joins the buffer of its own voice; the other voice's buffer is flushed first. */
  lemma ChunkIsBuffered(s: Stream, v: Voice, text: string)
    ensures var r := OnUpdate(s, Chunk(v, text));
            if s.pending.Some? && s.pending.value.voice == v
            then r == s.(pending := Some(Pending(v, s.pending.value.text + text)))
            else r == OnUpdate(s, Timer).(pending := Some(Pending(v, text)))
  {
  }

  /** A tool call stands behind all that was said before it, as one turn with its id and
      title. */
  lemma ToolStandsLast(s: Stream, toolId: Option<string>, title: string)
    ensures var r, said := OnUpdate(s, ToolCall(toolId, title)), OnUpdate(s, Timer).turns;
            && r.pending.None? && |r.turns| == |said| + 1 && r.turns[..|said|] == said
            && r.turns[|said|].kind == Tool && r.turns[|said|].toolId == toolId && IsTitle(r.turns[|said|].text, title)
  {
  }

  /** What is said after a tool call opens a new turn behind it. */
  lemma SpeechAfterTool(s: Stream, toolId: Option<string>, title: string, v: Voice, text: string)
    requires |text| <= Cap(v)
    ensures Run(s, [ToolCall(toolId, title), Chunk(v, text)])
            == OnUpdate(s, ToolCall(toolId, title)).turns + [Turn(KindOf(v), text, None)]
  {
    var events := [ToolCall(toolId, title), Chunk(v, text)];
    assert events[1..] == [Chunk(v, text)] && events[1..][1..] == [];
    ToolStandsLast(s, toolId, title);
    var s1 := OnUpdate(s, events[0]);
    var s2 := OnUpdate(s1, Chunk(v, text));
    assert Run(s, events) == Run(s1, events[1..]) == Run(s2, []);
  }

  lemma {:induction false} UpdatedAt(turns: seq<Turn>, toolId: Option<string>, title: Option<string>, i: nat)
    requires i < |turns|
    ensures |Updated(turns, toolId, title)| == |turns| && Updated(turns, toolId, title)[i] == UpdatedTurn(turns[i], toolId, title)
    decreases turns
  {
    if i > 0 {
      UpdatedAt(turns[1..], toolId, title, i - 1);
    } else if |turns| > 1 {
      UpdatedAt(turns[1..], toolId, title, 0);
    }
  }

  lemma {:induction false} UpdatedLength(turns: seq<Turn>, toolId: Option<string>, title: Option<string>)
    ensures |Updated(turns, toolId, title)| == |turns|
  {
    if turns != [] {
      UpdatedLength(turns[1..], toolId, title);
    }
  }

  /** A tool update gives every tool turn of its id the new title, or cuts the title it has,
      and leaves every other turn as it was. */
  lemma UpdateRenames(s: Stream, toolId: Option<string>, title: Option<string>, i: nat)
    requires i < |OnUpdate(s, Timer).turns|
    ensures var r, said := OnUpdate(s, ToolUpdate(toolId, title)), OnUpdate(s, Timer).turns;
            && r.pending.None? && |r.turns| == |said|
            && if said[i].kind.Tool? && said[i].toolId == toolId
               then r.turns[i].kind == Tool && r.turns[i].toolId == toolId
                    && IsTitle(r.turns[i].text, if title.Some? then title.value else said[i].text)
               else r.turns[i] == said[i]
  {
    UpdatedAt(OnUpdate(s, Timer).turns, toolId, title, i);
  }

  // ---- whole streams

  /** The ids of the tool turns, in order. */
  function Tools(turns: seq<Turn>): seq<Option<string>> {
    if turns == [] then []
    else Tools(turns[..|turns| - 1]) + if turns[|turns| - 1].kind.Tool? then [turns[|turns| - 1].toolId] else []
  }

  /** The ids of the tool calls, in order. */
  function Calls(events: seq<Event>): seq<Option<string>> {
    if events == [] then [] else (if events[0].ToolCall? then [events[0].toolId] else []) + Calls(events[1..])
  }

  lemma ToolsSnoc(turns: seq<Turn>, t: Turn)
    ensures Tools(turns + [t]) == Tools(turns) + if t.kind.Tool? then [t.toolId] else []
  {
    assert (turns + [t])[..|turns|] == turns;
  }

  lemma {:induction false} SameTools(a: seq<Turn>, b: seq<Turn>)
    requires |a| == |b| && forall i | 0 <= i < |a| :: b[i].kind == a[i].kind && b[i].toolId == a[i].toolId
    ensures Tools(a) == Tools(b)
    decreases a
  {
    if a != [] {
      SameTools(a[..|a| - 1], b[..|b| - 1]);
    }
  }

  lemma FlushKeepsTools(s: Stream)
    ensures Tools(OnUpdate(s, Timer).turns) == Tools(s.turns)
  {
    if s.pending.Some? {
      var v, text := s.pending.value.voice, s.pending.value.text;
      TimerAppends(s, v, text);
      var turns := OnUpdate(s, Timer).turns;
      if Continues(s.turns, v) {
        SameTools(s.turns, turns);
      } else {
        assert turns == s.turns + [turns[|s.turns|]];
        ToolsSnoc(s.turns, turns[|s.turns|]);
      }
    }
  }

  lemma StepKeepsTools(s: Stream, e: Event)
    ensures Tools(OnUpdate(s, e).turns) == Tools(s.turns) + if e.ToolCall? then [e.toolId] else []
  {
    FlushKeepsTools(s);
    var said := OnUpdate(s, Timer).turns;
    match e
    case Chunk(v, text) => ChunkIsBuffered(s, v, text);
    case ToolCall(toolId, title) =>
      ToolStandsLast(s, toolId, title);
      var turns := OnUpdate(s, e).turns;
      assert turns == said + [turns[|said|]];
      ToolsSnoc(said, turns[|said|]);
    case ToolUpdate(toolId, title) =>
      UpdatedLength(said, toolId, title);
      forall i | 0 <= i < |said|
        ensures OnUpdate(s, e).turns[i].kind == said[i].kind && OnUpdate(s, e).turns[i].toolId == said[i].toolId
      {
        UpdateRenames(s, toolId, title, i);
      }
      SameTools(said, OnUpdate(s, e).turns);
    case Timer =>
  }

  lemma NextTools(s: Stream, events: seq<Event>) returns (s1: Stream)
    requires events != []
    ensures Run(s, events) == Run(s1, events[1..])
    ensures Tools(s1.turns) + Calls(events[1..]) == Tools(s.turns) + Calls(events)
  {
    s1 := OnUpdate(s, events[0]);
    StepKeepsTools(s, events[0]);
    CallsFirst(Tools(s.turns), events);
  }

  lemma CallsFirst(before: seq<Option<string>>, events: seq<Event>)
    requires events != []
    ensures before + Calls(events) == before + (if events[0].ToolCall? then [events[0].toolId] else []) + Calls(events[1..])
  {
  }

  /** Wherever the timer fires, the tool turns of a stream are its tool calls, each once and
      in order. */
  lemma {:induction false} ToolsAreTheCalls(s: Stream, events: seq<Event>)
    ensures Tools(Run(s, events)) == Tools(s.turns) + Calls(events)
    decreases events
  {
    if events == [] {
      FlushKeepsTools(s);
    } else {
      var s1 := NextTools(s, events);
      ToolsAreTheCalls(s1, events[1..]);
    }
  }

  /** All that one voice says in the turns. */
  function Said(turns: seq<Turn>, v: Voice): string {
    if turns == [] then ""
    else Said(turns[..|turns| - 1], v) + if turns[|turns| - 1].kind == KindOf(v) then turns[|turns| - 1].text else ""
  }

  /** All that one voice's chunks say. */
  function Spoken(events: seq<Event>, v: Voice): string {
    if events == [] then "" else (if events[0].Chunk? && events[0].voice == v then events[0].text else "") + Spoken(events[1..], v)
  }

  lemma SaidSnoc(turns: seq<Turn>, t: Turn, v: Voice)
    ensures Said(turns + [t], v) == Said(turns, v) + if t.kind == KindOf(v) then t.text else ""
  {
    assert (turns + [t])[..|turns|] == turns;
  }

  lemma {:induction false} SameSaid(a: seq<Turn>, b: seq<Turn>, v: Voice)
    requires |a| == |b| && forall i | 0 <= i < |a| :: b[i].kind == a[i].kind && (a[i].kind.Tool? || b[i].text == a[i].text)
    ensures Said(a, v) == Said(b, v)
    decreases a
  {
    if a != [] {
      SameSaid(a[..|a| - 1], b[..|b| - 1], v);
    }
  }

  lemma AppendSays(turns: seq<Turn>, v: Voice, text: string, w: Voice)
    ensures Said(PlainAppend(turns, v, text), w) == Said(turns, w) + if v == w then text else ""
  {
    if Continues(turns, v) {
      var n := |turns| - 1;
      var last := turns[n];
      assert turns == turns[..n] + [last];
      assert PlainAppend(turns, v, text) == turns[..n] + [last.(text := last.text + text)];
      SaidSnoc(turns[..n], last, w);
      SaidSnoc(turns[..n], last.(text := last.text + text), w);
    } else {
      SaidSnoc(turns, Turn(KindOf(v), text, None), w);
    }
  }

  lemma ToolsSayNothing(turns: seq<Turn>, e: Event, v: Voice)
    requires !e.Chunk?
    ensures Said(ToolStep(turns, e), v) == Said(turns, v)
  {
    match e
    case ToolCall(toolId, title) =>
      var t := ToolStep(turns, e)[|turns|];
      SaidSnoc(turns, t, v);
    case ToolUpdate(toolId, title) =>
      UpdatedLength(turns, toolId, title);
      forall i | 0 <= i < |turns|
        ensures Updated(turns, toolId, title)[i].kind == turns[i].kind
        ensures turns[i].kind.Tool? || Updated(turns, toolId, title)[i] == turns[i]
      {
        UpdatedAt(turns, toolId, title, i);
      }
      SameSaid(turns, Updated(turns, toolId, title), v);
    case Timer =>
  }

  lemma {:induction false} PlainRunSays(turns: seq<Turn>, events: seq<Event>, v: Voice)
    ensures Said(PlainRun(turns, events), v) == Said(turns, v) + Spoken(events, v)
    decreases events
  {
    if events != [] {
      var e := events[0];
      PlainRunSays(PlainStep(turns, e), events[1..], v);
      if e.Chunk? {
        AppendSays(turns, e.voice, e.text, v);
      } else {
        ToolsSayNothing(turns, e, v);
      }
    }
  }

  /** Wherever the timer fires and whatever tools come between: while the turns stay within
      their caps, the turns of a voice say, joined, exactly what its chunks say. */
  lemma EveryWordIsSaid(s: Stream, events: seq<Event>, v: Voice)
    requires StaysWithinCaps(PlainFlush(s), events)
    ensures Said(Run(s, events), v) == Said(s.turns, v) + Buffered(s, v) + Spoken(events, v)
  {
    WithinCapsNothingIsLost(s, events);
    PlainRunSays(PlainFlush(s), events, v);
    if s.pending.Some? {
      AppendSays(s.turns, s.pending.value.voice, s.pending.value.text, v);
    }
  }

  /** What the buffer holds of a voice. */
  function Buffered(s: Stream, v: Voice): string {
    if s.pending.Some? && s.pending.value.voice == v then s.pending.value.text else ""
  }
}
