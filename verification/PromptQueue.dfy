/** The durable prompt queue of one thread: what users put in, what dispatch takes out and
    what a failed dispatch puts back. */
module PromptQueue {
  import opened Options
  import opened PromptBatch

  const MAX_USER_QUEUED_PROMPTS := 20
  const MAX_PERSISTED_QUEUED_PROMPTS := MAX_USER_QUEUED_PROMPTS + 1

  function AddQueuedPrompt(current: seq<Prompt>, p: Prompt, front: bool, preserveAccepted: bool): Option<seq<Prompt>> {
    if |current| >= (if preserveAccepted then MAX_PERSISTED_QUEUED_PROMPTS else MAX_USER_QUEUED_PROMPTS) then None
    else Some(if front then [p] + current else current + [p])
  }

  /** A prompt on its way; fromQueue if the queue's drain sent it. */
  datatype Dispatch = Idle | Preflight(prompt: Prompt, fromQueue: bool) | Running(prompt: Prompt, fromQueue: bool)

  /** late holds the queued prompts whose reply is still to come although the thread is
      idle again: their runs were stopped, or an older run's reply ended the wait. lost is
      history: the accepted prompts that were put back nowhere. */
  datatype Thread = Thread(queue: seq<Prompt>, dispatch: Dispatch, late: seq<Prompt>, lost: seq<Prompt>)

  /** Stop and Undo end a preflight; toDraft says whether the composer can take the
      prompt back. A late reply may turn out to be a completed one: back says whether
      its prompt is put back. */
  datatype Event =
    | Enqueue(p: Prompt)
    | Clear
    | Remove(i: nat)
    | Claim
    | SendDirect(p: Prompt)
    | Commit
    | Undo(toDraft: bool)
    | Succeed
    | Fail
    | StopRun
    | LateReply(i: nat, back: bool)

  /** A failed run of a queued batch goes back to the front of the queue. */
  function Restored(t: Thread, p: Prompt): Thread {
    match AddQueuedPrompt(t.queue, p, true, true)
    case Some(queue) => t.(queue := queue)
    case None => t.(lost := t.lost + [p])
  }

  function Step(t: Thread, e: Event): Thread
    requires Enabled(t, e)
  {
    match e
    case Enqueue(p) =>
      var added := AddQueuedPrompt(t.queue, p, false, false);
      if Trim(p.text) == "" || added.None? then t else t.(queue := added.value)
    case Clear => t.(queue := [])
    case Remove(i) => t.(queue := t.queue[..i] + t.queue[i + 1..])
    case Claim =>
      var batch := NextQueuedDispatchBatch(t.queue);
      t.(queue := t.queue[|batch|..], dispatch := Preflight(MergeQueuedPrompts(batch), true))
    case SendDirect(p) => t.(dispatch := Preflight(p, false))
    case Commit => t.(dispatch := Running(t.dispatch.prompt, t.dispatch.fromQueue))
    case Undo(toDraft) =>
      var t1 := t.(dispatch := Idle);
      if toDraft && !t.dispatch.fromQueue then t1 else t1.(queue := [t.dispatch.prompt] + t.queue)
    case Succeed => t.(dispatch := Idle)
    case Fail => if t.dispatch.fromQueue then Restored(t.(dispatch := Idle), t.dispatch.prompt) else t.(dispatch := Idle)
    case StopRun => t.(dispatch := Idle, late := t.late + if t.dispatch.fromQueue then [t.dispatch.prompt] else [])
    case LateReply(i, back) =>
      var t1 := t.(late := t.late[..i] + t.late[i + 1..]);
      if back then Restored(t1, t.late[i]) else t1
  }

  /** A drain waits for its own late reply, but a card that is hidden and shown again
      drains anew, so a claim may find replies still to come. A direct send looks at the
      queue before it connects, so it may find prompts queued meanwhile. */
  predicate Enabled(t: Thread, e: Event) {
    match e
    case Enqueue(_) => true
    case Clear => true
    case Remove(i) => i < |t.queue|
    case Claim => t.dispatch.Idle? && t.queue != []
    case SendDirect(_) => t.dispatch.Idle?
    case Commit => t.dispatch.Preflight?
    case Undo(_) => t.dispatch.Preflight?
    case Succeed => t.dispatch.Running?
    case Fail => t.dispatch.Running?
    case StopRun => t.dispatch.Running?
    case LateReply(i, _) => i < |t.late|
  }

  const Empty := Thread([], Idle, [], [])

  predicate AllEnabled(t: Thread, events: seq<Event>)
    decreases events
  {
    events == [] || (Enabled(t, events[0]) && AllEnabled(Step(t, events[0]), events[1..]))
  }

  function After(t: Thread, events: seq<Event>): Thread
    requires AllEnabled(t, events)
    decreases events
  {
    if events == [] then t else After(Step(t, events[0]), events[1..])
  }

  // ---- the bound of 21, exactly

  /** The events that put an accepted prompt back in front of the queue. */
  predicate PutsBack(t: Thread, e: Event)
    requires Enabled(t, e)
  {
    (e.Undo? && (t.dispatch.fromQueue || !e.toDraft)) || (e.Fail? && t.dispatch.fromQueue) || (e.LateReply? && e.back)
  }

  /** From a queue of at most 21 prompts, an event leaves more than 21 exactly if it is the
      undo of a preflight into a full queue. */
  lemma BoundBreaksExactlyOnUndo(t: Thread, e: Event)
    requires Enabled(t, e) && |t.queue| <= MAX_PERSISTED_QUEUED_PROMPTS
    ensures |Step(t, e).queue| > MAX_PERSISTED_QUEUED_PROMPTS <==>
            e.Undo? && PutsBack(t, e) && |t.queue| == MAX_PERSISTED_QUEUED_PROMPTS
  {
    if e.Claim? {
      BatchIsNotEmpty(t.queue);
    }
  }

  /** An accepted prompt is lost exactly if another event puts it back into a full queue. */
  lemma LostExactlyIfFull(t: Thread, e: Event)
    requires Enabled(t, e)
    ensures Step(t, e).lost != t.lost <==>
            !e.Undo? && PutsBack(t, e) && |t.queue| >= MAX_PERSISTED_QUEUED_PROMPTS
  {
    var r := Step(t, e);
    assert |r.lost| > |t.lost| ==> r.lost != t.lost;
  }

  /** Along the whole run the queue holds at most 21 prompts and none is lost. */
  predicate StaysWithin(t: Thread, events: seq<Event>)
    requires AllEnabled(t, events)
    decreases events
  {
    |t.queue| <= MAX_PERSISTED_QUEUED_PROMPTS
    && (events == [] || (Step(t, events[0]).lost == t.lost && StaysWithin(Step(t, events[0]), events[1..])))
  }

  /** Every prompt that is put back finds the reserved place free. */
  predicate PutBacksFit(t: Thread, events: seq<Event>)
    requires AllEnabled(t, events)
    decreases events
  {
    events == []
    || ((PutsBack(t, events[0]) ==> |t.queue| <= MAX_USER_QUEUED_PROMPTS) && PutBacksFit(Step(t, events[0]), events[1..]))
  }

  /** The bound of 21 holds along a run without loss if and only if every prompt put back
      meets at most 20 others. */
  lemma {:induction false} BoundHoldsExactly(t: Thread, events: seq<Event>)
    requires AllEnabled(t, events) && |t.queue| <= MAX_PERSISTED_QUEUED_PROMPTS
    ensures StaysWithin(t, events) <==> PutBacksFit(t, events)
    decreases events
  {
    if events != [] {
      var r := Step(t, events[0]);
      BoundBreaksExactlyOnUndo(t, events[0]);
      LostExactlyIfFull(t, events[0]);
      if |r.queue| <= MAX_PERSISTED_QUEUED_PROMPTS {
        BoundHoldsExactly(r, events[1..]);
      }
    }
  }

  /** Nothing is sent while the reply of a stopped run is still to come, and nothing
      directly past a full queue. */
  predicate NeverOverlaps(t: Thread, events: seq<Event>)
    requires AllEnabled(t, events)
    decreases events
  {
    events == [] || (Alone(t, events[0]) && NeverOverlaps(Step(t, events[0]), events[1..]))
  }

  predicate Alone(t: Thread, e: Event) {
    (e.Claim? || e.SendDirect? ==> t.late == []) && (e.SendDirect? ==> |t.queue| <= MAX_USER_QUEUED_PROMPTS)
  }

  /** Accepted prompts that are out of the queue and may come back. */
  function Outstanding(t: Thread): nat {
    (if t.dispatch.Idle? then 0 else 1) + |t.late|
  }

  predicate Bounded(t: Thread) {
    |t.queue| + Outstanding(t) <= MAX_PERSISTED_QUEUED_PROMPTS && Outstanding(t) <= 1 && t.lost == []
  }

  lemma StepKeepsBounded(t: Thread, e: Event)
    requires Bounded(t) && Enabled(t, e) && Alone(t, e)
    ensures Bounded(Step(t, e))
  {
    if e.Claim? {
      BatchIsNotEmpty(t.queue);
    }
  }

  /** Unless sends overlap, the queue never holds more than 21 prompts, never more than 20
      while one is out, and no accepted prompt is lost by putting one back. */
  lemma {:induction false} QueueStaysBounded(t: Thread, events: seq<Event>)
    requires Bounded(t) && AllEnabled(t, events) && NeverOverlaps(t, events)
    ensures StaysWithin(t, events) && PutBacksFit(t, events)
    ensures var r := After(t, events);
            (!r.dispatch.Idle? || r.late != [] ==> |r.queue| <= MAX_USER_QUEUED_PROMPTS) && r.lost == []
    decreases events
  {
    if events != [] {
      StepKeepsBounded(t, events[0]);
      QueueStaysBounded(Step(t, events[0]), events[1..]);
    }
  }

  /** Prompts are sent directly only while nothing is queued, as the composer checks. */
  predicate SendsMeetEmptyQueue(t: Thread, events: seq<Event>)
    requires AllEnabled(t, events)
    decreases events
  {
    events == []
    || ((events[0].SendDirect? ==> t.queue == []) && SendsMeetEmptyQueue(Step(t, events[0]), events[1..]))
  }

  function Sending(t: Thread): nat {
    if t.dispatch.Idle? then 0 else 1
  }

  lemma StepKeepsTwentyTwo(t: Thread, e: Event)
    requires Enabled(t, e) && (e.SendDirect? ==> t.queue == [])
    requires |t.queue| + Sending(t) <= MAX_PERSISTED_QUEUED_PROMPTS + 1
    ensures |Step(t, e).queue| + Sending(Step(t, e)) <= MAX_PERSISTED_QUEUED_PROMPTS + 1
  {
    if e.Claim? {
      BatchIsNotEmpty(t.queue);
    }
  }

  /** However many replies are late, the queue never holds more than 22 prompts. */
  lemma {:induction false} AtMostTwentyTwo(t: Thread, events: seq<Event>)
    requires AllEnabled(t, events) && SendsMeetEmptyQueue(t, events)
    requires |t.queue| + Sending(t) <= MAX_PERSISTED_QUEUED_PROMPTS + 1
    ensures |After(t, events).queue| <= MAX_PERSISTED_QUEUED_PROMPTS + 1
    decreases events
  {
    if events != [] {
      StepKeepsTwentyTwo(t, events[0]);
      AtMostTwentyTwo(Step(t, events[0]), events[1..]);
    }
  }

  // ---- sends that overlap a late reply

  /** How a send can overlap a late reply: the composer sends past it, or a card that was
      hidden and shown again claims past it. */
  datatype Overlap = Composer | Reshown

  /** Only this kind of overlap occurs. */
  predicate Allowed(t: Thread, e: Event, kind: Overlap) {
    match kind
    case Composer => (e.Claim? ==> t.late == []) && (e.SendDirect? ==> t.queue == [])
    case Reshown => !e.SendDirect?
  }

  predicate AllAllowed(t: Thread, events: seq<Event>, kind: Overlap)
    requires AllEnabled(t, events)
    decreases events
  {
    events == [] || (Allowed(t, events[0], kind) && AllAllowed(Step(t, events[0]), events[1..], kind))
  }

  /** Some run with only this kind of overlap leads from the empty thread to t. */
  ghost predicate Reachable(t: Thread, kind: Overlap) {
    exists events: seq<Event> :: AllEnabled(Empty, events) && AllAllowed(Empty, events, kind) && After(Empty, events) == t
  }

  lemma {:induction false} AfterSnoc(t: Thread, events: seq<Event>, e: Event)
    requires AllEnabled(t, events) && Enabled(After(t, events), e)
    ensures AllEnabled(t, events + [e]) && After(t, events + [e]) == Step(After(t, events), e)
    ensures forall kind | AllAllowed(t, events, kind) && Allowed(After(t, events), e, kind) ::
              AllAllowed(t, events + [e], kind)
    decreases events
  {
    if events == [] {
      assert events + [e] == [e] && [e][1..] == [];
    } else {
      assert (events + [e])[1..] == events[1..] + [e];
      AfterSnoc(Step(t, events[0]), events[1..], e);
    }
  }

  lemma Reach(t: Thread, e: Event, kind: Overlap)
    requires Reachable(t, kind) && Enabled(t, e) && Allowed(t, e, kind)
    ensures Reachable(Step(t, e), kind)
  {
    var events: seq<Event> :| AllEnabled(Empty, events) && AllAllowed(Empty, events, kind) && After(Empty, events) == t;
    AfterSnoc(Empty, events, e);
  }

  function Copies(p: Prompt, n: nat): seq<Prompt> {
    if n == 0 then [] else Copies(p, n - 1) + [p]
  }

  lemma {:induction false} ReachFilled(t: Thread, p: Prompt, n: nat, kind: Overlap)
    requires Reachable(t, kind) && Trim(p.text) != "" && t.queue == [] && n <= MAX_USER_QUEUED_PROMPTS
    ensures |Copies(p, n)| == n && Reachable(t.(queue := Copies(p, n)), kind)
  {
    if n == 0 {
      assert t.(queue := []) == t;
    } else {
      ReachFilled(t, p, n - 1, kind);
      Reach(t.(queue := Copies(p, n - 1)), Enqueue(p), kind);
    }
  }

  lemma ClaimsOne(t: Thread, p: Prompt)
    requires t.queue == [p] && t.dispatch.Idle?
    ensures Step(t, Claim) == t.(queue := [], dispatch := Preflight(MergeQueuedPrompts([p]), true))
  {
    BatchIsNotEmpty([p]);
    assert NextQueuedDispatchBatch([p]) == [p];
  }

  /** A prompt queued into an idle thread and claimed. */
  lemma ReachClaimed(t: Thread, p: Prompt, kind: Overlap)
    requires Reachable(t, kind) && Trim(p.text) != "" && t.queue == [] && t.dispatch.Idle?
    requires kind.Composer? ==> t.late == []
    ensures Reachable(t.(dispatch := Preflight(MergeQueuedPrompts([p]), true)), kind)
  {
    Reach(t, Enqueue(p), kind);
    var queued := t.(queue := [p]);
    assert Step(t, Enqueue(p)) == queued;
    ClaimsOne(queued, p);
    Reach(queued, Claim, kind);
    assert Step(queued, Claim) == t.(dispatch := Preflight(MergeQueuedPrompts([p]), true));
  }

  /** A prompt on its way while a stopped run is still to answer. */
  function Overlapping(p: Prompt, kind: Overlap): Thread {
    Thread([], if kind.Composer? then Preflight(p, false) else Preflight(MergeQueuedPrompts([p]), true),
           [MergeQueuedPrompts([p])], [])
  }

  lemma ReachOverlapping(p: Prompt, kind: Overlap)
    requires Trim(p.text) != ""
    ensures Reachable(Overlapping(p, kind), kind)
  {
    assert AllEnabled(Empty, []) && After(Empty, []) == Empty && AllAllowed(Empty, [], kind);
    ReachClaimed(Empty, p, kind);
    var batch := MergeQueuedPrompts([p]);
    var sent := Empty.(dispatch := Preflight(batch, true));
    Reach(sent, Commit, kind);
    Reach(Step(sent, Commit), StopRun, kind);
    var stopped := Thread([], Idle, [batch], []);
    assert Step(Step(sent, Commit), StopRun) == stopped;
    if kind.Composer? {
      Reach(stopped, SendDirect(p), kind);
    } else {
      ReachClaimed(stopped, p, kind);
    }
  }

  /** The same with twenty prompts queued meanwhile. */
  lemma ReachOverlapFilled(kind: Overlap) returns (full: Thread)
    ensures Reachable(full, kind) && |full.queue| == MAX_USER_QUEUED_PROMPTS
    ensures full.dispatch.Preflight? && |full.late| == 1 && full.lost == []
  {
    var p := Prompt("a", [], [], false, None);
    assert Trim(p.text) == "a";
    ReachOverlapping(p, kind);
    ReachFilled(Overlapping(p, kind), p, MAX_USER_QUEUED_PROMPTS, kind);
    full := Overlapping(p, kind).(queue := Copies(p, MAX_USER_QUEUED_PROMPTS));
  }

  /** Either kind of overlap alone leads to 22 queued prompts: the late reply takes the
      reserved place, then the preflight is undone. */
  lemma TwentyTwoIsReached(kind: Overlap)
    ensures exists t :: Reachable(t, kind) && |t.queue| == MAX_PERSISTED_QUEUED_PROMPTS + 1
  {
    var full := ReachOverlapFilled(kind);
    Reach(full, LateReply(0, true), kind);
    var t := Step(full, LateReply(0, true));
    Reach(t, Undo(false), kind);
    assert |Step(t, Undo(false)).queue| == MAX_PERSISTED_QUEUED_PROMPTS + 1;
  }

  /** Either kind of overlap alone can lose an accepted prompt: the preflight is undone
      into the reserved place, and the late reply finds none. */
  lemma OverlapCanLoseAPrompt(kind: Overlap)
    ensures exists t :: Reachable(t, kind) && t.lost != []
  {
    var full := ReachOverlapFilled(kind);
    Reach(full, Undo(false), kind);
    var t := Step(full, Undo(false));
    Reach(t, LateReply(0, true), kind);
    assert Step(t, LateReply(0, true)).lost == full.late;
  }

  // ---- nothing typed is lost, reordered or doubled

  /** The drain's prompts on their way. */
  function Away(t: Thread): seq<Prompt> {
    t.late + if !t.dispatch.Idle? && t.dispatch.fromQueue then [t.dispatch.prompt] else []
  }

  /** The drain's prompts on their way, then the queue. */
  function Pipeline(t: Thread): seq<Prompt> {
    Away(t) + t.queue
  }

  /** The user's prompts that the queue accepts, in order. */
  function Accepted(t: Thread, events: seq<Event>): seq<Prompt>
    requires AllEnabled(t, events)
    decreases events
  {
    if events == [] then []
    else
      var r := Step(t, events[0]);
      (if events[0].Enqueue? && r.queue != t.queue then [events[0].p] else []) + Accepted(r, events[1..])
  }

  lemma {:induction false} TextsAppend(a: seq<Prompt>, b: seq<Prompt>)
    ensures Texts(a + b) == Texts(a) + Texts(b)
  {
    if a == [] {
      assert a + b == b;
    } else {
      assert (a + b)[1..] == a[1..] + b;
      TextsAppend(a[1..], b);
    }
  }

  /** A merged batch in front of the rest reads like the whole. */
  lemma MergedReadsTheSame(batch: seq<Prompt>, rest: seq<Prompt>)
    ensures MergedText([MergeQueuedPrompts(batch)] + rest) == MergedText(batch + rest)
  {
    var parts := Texts(batch);
    TextsAreSolid(batch);
    JoinIsTrimmed(parts);
    TrimIsTrimmed(MergedText(batch));
    TextsAppend(batch, rest);
    var merged := [MergeQueuedPrompts(batch)] + rest;
    assert merged[1..] == rest;
    if parts == [] {
      assert Texts(merged) == Texts(rest);
    } else {
      assert Texts(merged) == [Join(parts)] + Texts(rest);
      if Texts(rest) != [] {
        JoinAppend(parts, Texts(rest));
        assert Texts(merged)[1..] == Texts(rest);
      } else {
        assert parts + [] == parts;
      }
    }
  }

  /** Events of the drain alone: nothing is taken out by the user or sent directly. */
  predicate OnlyDrain(events: seq<Event>) {
    forall i | 0 <= i < |events| :: IsDrain(events[i])
  }

  predicate FromQueue(t: Thread) {
    Bounded(t) && (!t.dispatch.Idle? ==> t.dispatch.fromQueue)
  }

  lemma {:induction false} SameTextsAfter(a: seq<Prompt>, b: seq<Prompt>, more: seq<Prompt>)
    requires MergedText(a) == MergedText(b) && (Texts(a) == [] <==> Texts(b) == [])
    ensures MergedText(a + more) == MergedText(b + more)
  {
    TextsAppend(a, more);
    TextsAppend(b, more);
    if Texts(more) == [] {
      assert Texts(a) + [] == Texts(a) && Texts(b) + [] == Texts(b);
    } else if Texts(a) == [] {
      assert [] + Texts(more) == Texts(more);
    } else {
      JoinAppend(Texts(a), Texts(more));
      JoinAppend(Texts(b), Texts(more));
    }
  }

  lemma ClaimPipeline(t: Thread, batch: seq<Prompt>)
    requires Enabled(t, Claim) && t.late == [] && batch == NextQueuedDispatchBatch(t.queue)
    ensures Pipeline(t) == batch + t.queue[|batch|..]
    ensures Pipeline(Step(t, Claim)) == [MergeQueuedPrompts(batch)] + t.queue[|batch|..]
  {
    assert batch + t.queue[|batch|..] == t.queue;
    assert Away(t) == [] && Away(Step(t, Claim)) == [MergeQueuedPrompts(batch)];
  }

  lemma ClaimReadsTheSame(t: Thread)
    requires Enabled(t, Claim) && t.late == []
    ensures MergedText(Pipeline(Step(t, Claim))) == MergedText(Pipeline(t))
  {
    var batch := NextQueuedDispatchBatch(t.queue);
    ClaimPipeline(t, batch);
    MergedReadsTheSame(batch, t.queue[|batch|..]);
  }

  lemma SolidNotBlank(queue: seq<Prompt>)
    ensures MergedText(queue) == "" <==> Texts(queue) == []
  {
    TextsAreSolid(queue);
    JoinIsTrimmed(Texts(queue));
  }

  predicate IsDrain(e: Event) {
    !e.Remove? && !e.Clear? && !e.SendDirect?
  }

  lemma DrainKeepsFromQueue(t: Thread, e: Event)
    requires FromQueue(t) && Enabled(t, e) && IsDrain(e) && Alone(t, e)
    ensures FromQueue(Step(t, e))
  {
    StepKeepsBounded(t, e);
  }

  lemma PutBackPipeline(t: Thread, e: Event)
    requires FromQueue(t) && Enabled(t, e) && PutsBack(t, e)
    ensures Pipeline(Step(t, e)) == Pipeline(t)
  {
    var p := if e.LateReply? then t.late[0] else t.dispatch.prompt;
    assert Away(t) == [p] && Away(Step(t, e)) == [];
    assert Step(t, e).queue == [p] + t.queue;
  }

  /** The prompt that an event delivers for good. */
  function DeliveredBy(t: Thread, e: Event): seq<Prompt>
    requires Enabled(t, e)
  {
    if e.Succeed? && t.dispatch.fromQueue then [t.dispatch.prompt]
    else if e.LateReply? && !e.back then [t.late[e.i]]
    else []
  }

  /** The drain's prompts that were delivered for good, in order. */
  function Delivered(t: Thread, events: seq<Event>): seq<Prompt>
    requires AllEnabled(t, events)
    decreases events
  {
    if events == [] then [] else DeliveredBy(t, events[0]) + Delivered(Step(t, events[0]), events[1..])
  }

  lemma DeliveryPipeline(t: Thread, e: Event)
    requires FromQueue(t) && Enabled(t, e) && (e.Succeed? || (e.LateReply? && !e.back))
    ensures DeliveredBy(t, e) + Pipeline(Step(t, e)) == Pipeline(t)
  {
    assert Away(t) == DeliveredBy(t, e) && Away(Step(t, e)) == [];
  }

  lemma PipelineStep(t: Thread, e: Event)
    requires FromQueue(t) && Enabled(t, e) && IsDrain(e) && !e.Claim?
    ensures DeliveredBy(t, e) + Pipeline(Step(t, e)) ==
            if e.Enqueue? && Step(t, e).queue != t.queue then Pipeline(t) + [e.p] else Pipeline(t)
  {
    if e.Succeed? || (e.LateReply? && !e.back) {
      DeliveryPipeline(t, e);
    } else if e.Undo? || e.Fail? || e.LateReply? {
      PutBackPipeline(t, e);
    } else {
      assert Away(Step(t, e)) == Away(t);
    }
  }

  lemma AcceptedOne(t: Thread, e: Event)
    requires Enabled(t, e) && AllEnabled(t, [e])
    ensures Accepted(t, [e]) == if e.Enqueue? && Step(t, e).queue != t.queue then [e.p] else []
  {
    assert [e][1..] == [];
  }

  lemma DrainStep(t: Thread, e: Event)
    requires FromQueue(t) && Enabled(t, e) && IsDrain(e) && Alone(t, e) && AllEnabled(t, [e])
    ensures MergedText(DeliveredBy(t, e) + Pipeline(Step(t, e))) == MergedText(Pipeline(t) + Accepted(t, [e]))
  {
    AcceptedOne(t, e);
    assert Pipeline(t) + [] == Pipeline(t) && [] + Pipeline(Step(t, e)) == Pipeline(Step(t, e));
    if e.Claim? {
      ClaimReadsTheSame(t);
    } else {
      PipelineStep(t, e);
    }
  }

  lemma AcceptedStep(t: Thread, events: seq<Event>)
    requires events != [] && AllEnabled(t, events)
    ensures Accepted(t, events) == Accepted(t, [events[0]]) + Accepted(Step(t, events[0]), events[1..])
  {
    assert [events[0]][1..] == [];
  }

  lemma ExtendText(a: seq<Prompt>, b: seq<Prompt>, more: seq<Prompt>)
    requires MergedText(a) == MergedText(b)
    ensures MergedText(a + more) == MergedText(b + more)
  {
    SolidNotBlank(a);
    SolidNotBlank(b);
    SameTextsAfter(a, b, more);
  }

  lemma {:induction false} PrependText(first: seq<Prompt>, a: seq<Prompt>, b: seq<Prompt>)
    requires MergedText(a) == MergedText(b)
    ensures MergedText(first + a) == MergedText(first + b)
  {
    SolidNotBlank(a);
    SolidNotBlank(b);
    TextsAppend(first, a);
    TextsAppend(first, b);
    if Texts(a) == [] {
      assert Texts(first) + [] == Texts(first);
    } else if Texts(first) == [] {
      assert [] + Texts(a) == Texts(a) && [] + Texts(b) == Texts(b);
    } else {
      JoinAppend(Texts(first), Texts(a));
      JoinAppend(Texts(first), Texts(b));
    }
  }

  lemma Assoc(a: seq<Prompt>, b: seq<Prompt>, c: seq<Prompt>)
    ensures a + b + c == a + (b + c)
  {
  }

  /** From one step and the rest of a run to the whole. */
  lemma ChainText(done: seq<Prompt>, later: seq<Prompt>, end: seq<Prompt>, start: seq<Prompt>, next: seq<Prompt>,
                  first: seq<Prompt>, more: seq<Prompt>)
    requires MergedText(done + next) == MergedText(start + first)
    requires MergedText(later + end) == MergedText(next + more)
    ensures MergedText(done + later + end) == MergedText(start + (first + more))
  {
    PrependText(done, later + end, next + more);
    ExtendText(done + next, start + first, more);
    Assoc(done, later, end);
    Assoc(done, next, more);
    Assoc(start, first, more);
  }

  /** However often batches are claimed, stopped, undone or failed, unless sends overlap,
      what was delivered, what is on its way and the queue read together exactly as what was
      there followed by what the user added since: no text is lost, moved or repeated. */
  lemma {:induction false} NoTextIsLost(t: Thread, events: seq<Event>)
    requires FromQueue(t) && AllEnabled(t, events) && OnlyDrain(events) && NeverOverlaps(t, events)
    ensures MergedText(Delivered(t, events) + Pipeline(After(t, events))) == MergedText(Pipeline(t) + Accepted(t, events))
    decreases events
  {
    if events == [] {
      assert Pipeline(t) + [] == Pipeline(t) && [] + Pipeline(t) == Pipeline(t);
    } else {
      var r := Step(t, events[0]);
      assert IsDrain(events[0]) && [events[0]][1..] == [];
      DrainStep(t, events[0]);
      DrainKeepsFromQueue(t, events[0]);
      NoTextIsLost(r, events[1..]);
      AcceptedStep(t, events);
      ChainText(DeliveredBy(t, events[0]), Delivered(r, events[1..]), Pipeline(After(r, events[1..])),
                Pipeline(t), Pipeline(r), Accepted(t, [events[0]]), Accepted(r, events[1..]));
    }
  }

  const Reordering: seq<Event> := [Claim, LateReply(0, true), Undo(false)]

  lemma Unroll(t: Thread, e: Event, rest: seq<Event>)
    requires Enabled(t, e) && !e.Enqueue? && AllEnabled(Step(t, e), rest)
    ensures var events := [e] + rest;
            && AllEnabled(t, events) && After(t, events) == After(Step(t, e), rest)
            && Accepted(t, events) == Accepted(Step(t, e), rest)
            && Delivered(t, events) == DeliveredBy(t, e) + Delivered(Step(t, e), rest)
  {
    assert ([e] + rest)[1..] == rest;
  }

  lemma ReorderingRuns(p: Prompt, q: Prompt)
    ensures var t := Thread([q], Idle, [p], []);
            && AllEnabled(t, Reordering) && Accepted(t, Reordering) == [] && Delivered(t, Reordering) == []
            && After(t, Reordering) == Thread([MergeQueuedPrompts([q]), p], Idle, [], [])
  {
    var t, merged := Thread([q], Idle, [p], []), MergeQueuedPrompts([q]);
    var t1 := Thread([], Preflight(merged, true), [p], []);
    var t2 := Thread([p], Preflight(merged, true), [], []);
    ClaimsOne(t, q);
    assert Step(t1, LateReply(0, true)) == t2;
    assert Step(t2, Undo(false)) == Thread([merged, p], Idle, [], []);
    Unroll(t2, Undo(false), []);
    Unroll(t1, LateReply(0, true), [Undo(false)] + []);
    Unroll(t, Claim, [LateReply(0, true)] + ([Undo(false)] + []));
    assert [Claim] + ([LateReply(0, true)] + ([Undo(false)] + [])) == Reordering;
  }

  lemma TwoTexts(p: Prompt, q: Prompt)
    requires Trim(p.text) != "" && Trim(q.text) != ""
    ensures MergedText([p, q]) == Trim(p.text) + SEPARATOR + Trim(q.text)
  {
    assert [q][1..] == [] && Texts([q]) == [Trim(q.text)] + Texts([]);
    assert [p, q][1..] == [q] && Texts([p, q]) == [Trim(p.text)] + Texts([q]);
    var parts := [Trim(p.text), Trim(q.text)];
    assert Texts([p, q]) == parts && parts[1..] == [Trim(q.text)];
    assert Join(parts[1..]) == Trim(q.text);
  }

  lemma ReorderedPipelines(p: Prompt, q: Prompt)
    ensures var t := Thread([q], Idle, [p], []);
            && FromQueue(t) && AllEnabled(t, Reordering) && OnlyDrain(Reordering) && Delivered(t, Reordering) == []
            && Pipeline(t) + Accepted(t, Reordering) == [p, q]
            && Pipeline(After(t, Reordering)) == [MergeQueuedPrompts([q])] + [p]
  {
    ReorderingRuns(p, q);
  }

  /** Where sends overlap, texts change places: the queue drains past a late reply, the
      reply is put back, and then the claim is undone in front of it. */
  lemma OverlapReorders(p: Prompt, q: Prompt)
    requires Trim(p.text) != "" && Trim(q.text) != ""
    ensures var t := Thread([q], Idle, [p], []);
            && FromQueue(t) && AllEnabled(t, Reordering) && OnlyDrain(Reordering) && Delivered(t, Reordering) == []
            && MergedText(Pipeline(t) + Accepted(t, Reordering)) == Trim(p.text) + SEPARATOR + Trim(q.text)
            && MergedText(Pipeline(After(t, Reordering))) == Trim(q.text) + SEPARATOR + Trim(p.text)
  {
    ReorderedPipelines(p, q);
    TwoTexts(p, q);
    MergedReadsTheSame([q], [p]);
    TwoTexts(q, p);
    assert [q] + [p] == [q, p];
  }

  /** A prompt that is not blank joins the end of the queue while fewer than 20 wait; any other
      is refused. */
  lemma UserAdds(t: Thread, p: Prompt)
    ensures Step(t, Enqueue(p)) == if Trim(p.text) != "" && |t.queue| < 20 then t.(queue := t.queue + [p]) else t
  {
  }

  /** The user can empty the queue, or take one prompt out and leave the others in order. */
  lemma UserTakesOut(t: Thread, i: nat, k: nat)
    ensures Step(t, Clear) == t.(queue := [])
    ensures i < |t.queue| ==>
              && |Step(t, Remove(i)).queue| == |t.queue| - 1 && Step(t, Remove(i)) == t.(queue := Step(t, Remove(i)).queue)
              && (k < |t.queue| - 1 ==> Step(t, Remove(i)).queue[k] == t.queue[if k < i then k else k + 1])
  {
  }

  // ---- the thread's queue in the store

  class ThreadQueue {
    var queue: seq<Prompt>
    var dispatch: Dispatch
    ghost var model: Thread

    ghost predicate Valid()
      reads this
    {
      model.queue == queue && model.dispatch == dispatch
    }

    constructor ()
      ensures Valid() && model == Empty
    {
      queue, dispatch, model := [], Idle, Empty;
    }

    method EnqueueAssistantPrompt(p: Prompt, front: bool, preserveAccepted: bool) returns (accepted: bool)
      requires Valid()
      modifies `queue, `model
      ensures Valid() && accepted == (Trim(p.text) != "" && AddQueuedPrompt(old(queue), p, front, preserveAccepted).Some?)
      ensures model == old(model).(queue := if accepted then AddQueuedPrompt(old(queue), p, front, preserveAccepted).value else old(queue))
    {
      if Trim(p.text) == "" {
        return false;
      }
      var limit := if preserveAccepted then MAX_PERSISTED_QUEUED_PROMPTS else MAX_USER_QUEUED_PROMPTS;
      if |queue| >= limit {
        return false;
      }
      queue := if front then [p] + queue else queue + [p];
      model := model.(queue := queue);
      accepted := true;
    }

    /** One round of the drain: claims the next batch as one merged prompt. */
    method ClaimBatch()
      requires Valid() && Enabled(model, Claim)
      modifies this
      ensures Valid() && model == Step(old(model), Claim)
    {
      var batch := NextBatch(queue);
      var mentions := MergeMentions(batch);
      MergedOnce(batch);
      var merged := MergeQueuedPrompts(batch).(mentions := mentions);
      model := Step(model, Claim);
      queue, dispatch := queue[|batch|..], Preflight(merged, true);
    }

    /** Stop before the prompt was sent. */
    method RollbackAssistantDispatch(toDraft: bool)
      requires Valid() && Enabled(model, Undo(toDraft))
      modifies this
      ensures Valid() && model == Step(old(model), Undo(toDraft))
    {
      model := Step(model, Undo(toDraft));
      if !toDraft || dispatch.fromQueue {
        queue := [dispatch.prompt] + queue;
      }
      dispatch := Idle;
    }
  }

  method NextBatch(queue: seq<Prompt>) returns (batch: seq<Prompt>)
    ensures batch == NextQueuedDispatchBatch(queue)
  {
    if queue == [] {
      return [];
    }
    for i := 0 to |queue|
      invariant forall k | 0 <= k < i :: Compatible(queue[0].marker, queue[k])
    {
      if !Compatible(queue[0].marker, queue[i]) {
        assert BatchEnd(queue, queue[0].marker) == i;
        return queue[..i];
      }
    }
    assert BatchEnd(queue, queue[0].marker) == |queue|;
    batch := queue;
  }
}
