/** What an Idea pass records of the members' replies, and that every answer reaches every
    peer. */
module IdeaAnswers {
  import opened IdeaCycle
  import opened IdeaRuns

  // ---- what is recorded

  /** Reply q is the last of its author that is not blank. */
  predicate LastSaid(replies: seq<Reply>, q: nat) {
    && q < |replies| && replies[q].text != ""
    && forall p | q < p < |replies| && replies[p].authorId == replies[q].authorId :: replies[p].text == ""
  }

  /** The pass that runs: first answers, then reactions. */
  function PassOf(g: Group): Kind {
    if g.phase.AwaitInitial? then Initial else Reaction
  }

  function MessageOf(cycleId: string, kind: Kind, r: Reply): Message {
    Message(IdeaMessageId(cycleId, kind, r.authorId), cycleId, kind, r.authorId, r.name, r.text, r.at)
  }

  lemma SameAuthor(cycleId: string, kind: Kind, a: string, b: string)
    requires ':' !in cycleId && !kind.User?
    ensures IdeaMessageId(cycleId, kind, a) == IdeaMessageId(cycleId, kind, b) <==> a == b
  {
    IdsAreDistinct(cycleId, kind, a, cycleId, kind, b);
  }

  lemma EntriesGrow(cycleId: string, kind: Kind, replies: seq<Reply>)
    requires replies != []
    ensures var es, rest := IdeaEntriesFor(cycleId, kind, replies), IdeaEntriesFor(cycleId, kind, replies[1..]);
            if replies[0].text == "" then es == rest else es != [] && es[0] == MessageOf(cycleId, kind, replies[0]) && es[1..] == rest
  {
  }

  /** Every entry is what its author said last. */
  lemma {:induction false} EntryIsSaid(cycleId: string, kind: Kind, replies: seq<Reply>, id: string) returns (q: nat)
    requires ':' !in cycleId && !kind.User? && Named(IdeaEntriesFor(cycleId, kind, replies), id)
    ensures LastSaid(replies, q) && id == IdeaMessageId(cycleId, kind, replies[q].authorId)
    ensures LastOf(IdeaEntriesFor(cycleId, kind, replies), id) == MessageOf(cycleId, kind, replies[q])
    decreases replies
  {
    var es, rest := IdeaEntriesFor(cycleId, kind, replies), replies[1..];
    EntriesGrow(cycleId, kind, replies);
    NamedSplits(es, id);
    if Named(IdeaEntriesFor(cycleId, kind, rest), id) {
      var p := EntryIsSaid(cycleId, kind, rest, id);
      q := p + 1;
      assert rest[p] == replies[q];
      assert forall x | q < x < |replies| :: replies[x] == rest[x - 1];
    } else {
      q := 0;
      forall p | 0 < p < |replies| && replies[p].authorId == replies[0].authorId ensures replies[p].text == "" {
        if replies[p].text != "" {
          SaidIsEntry(cycleId, kind, rest, p - 1);
        }
      }
    }
  }

  lemma {:induction false} SaidIsEntry(cycleId: string, kind: Kind, replies: seq<Reply>, p: nat)
    requires p < |replies| && replies[p].text != ""
    ensures Named(IdeaEntriesFor(cycleId, kind, replies), IdeaMessageId(cycleId, kind, replies[p].authorId))
    decreases replies
  {
    var es := IdeaEntriesFor(cycleId, kind, replies);
    EntriesGrow(cycleId, kind, replies);
    if p > 0 {
      SaidIsEntry(cycleId, kind, replies[1..], p - 1);
      if es != [] {
        NamedSplits(es, IdeaMessageId(cycleId, kind, replies[p].authorId));
      }
    } else {
      assert es[0] in es;
    }
  }

  lemma LastSaidIsOne(replies: seq<Reply>, p: nat, q: nat)
    requires LastSaid(replies, p) && LastSaid(replies, q) && replies[p].authorId == replies[q].authorId
    ensures p == q
  {
  }

  /** What a member said last is its entry. */
  lemma SaidIsLastEntry(cycleId: string, kind: Kind, replies: seq<Reply>, q: nat)
    requires ':' !in cycleId && !kind.User? && LastSaid(replies, q)
    ensures var es, m := IdeaEntriesFor(cycleId, kind, replies), MessageOf(cycleId, kind, replies[q]);
            Named(es, m.id) && LastOf(es, m.id) == m
  {
    SaidIsEntry(cycleId, kind, replies, q);
    var p := EntryIsSaid(cycleId, kind, replies, IdeaMessageId(cycleId, kind, replies[q].authorId));
    SameAuthor(cycleId, kind, replies[p].authorId, replies[q].authorId);
    LastSaidIsOne(replies, p, q);
  }

  /** The events that record a pass. */
  predicate Records(e: Event) {
    e.Snapshot? || e.SettleInitial? || e.SettleReaction?
  }

  lemma RecordsAll(g: Group, e: Event)
    requires Inv(g) && Enabled(g, e) && Records(e)
    ensures !PassOf(g).User? && ':' !in g.cycleId && DistinctIds(g.history) && Inv(Step(g, e))
    ensures Step(g, e).history == PutAll(g.history, IdeaEntriesFor(g.cycleId, PassOf(g), e.replies))
    ensures Step(g, e).cycleId == g.cycleId && Step(g, e).members == g.members
  {
    StepKeepsInv(g, e);
  }

  /** A message of the merged history is one of the old ones, or what a member said last. */
  ghost predicate OldOrSaid(h: seq<Message>, i: nat, m: Message, cycleId: string, kind: Kind, replies: seq<Reply>) {
    (i < |h| && m == h[i]) || exists q: nat :: LastSaid(replies, q) && m == MessageOf(cycleId, kind, replies[q])
  }

  lemma MergedIsSaid(h: seq<Message>, cycleId: string, kind: Kind, replies: seq<Reply>, i: nat)
    requires DistinctIds(h) && ':' !in cycleId && !kind.User?
    requires i < |PutAll(h, IdeaEntriesFor(cycleId, kind, replies))|
    ensures var h2 := PutAll(h, IdeaEntriesFor(cycleId, kind, replies));
            |h| <= |h2| && (i < |h| ==> h2[i].id == h[i].id) && OldOrSaid(h, i, h2[i], cycleId, kind, replies)
  {
    var es := IdeaEntriesFor(cycleId, kind, replies);
    PutAllAt(h, es, i);
    PutAllHolds(h, es, i);
    if Named(es, PutAll(h, es)[i].id) {
      var q := EntryIsSaid(cycleId, kind, replies, PutAll(h, es)[i].id);
    }
  }

  /** What a member said last stands in the merged history. */
  lemma SaidIsMerged(h: seq<Message>, cycleId: string, kind: Kind, replies: seq<Reply>, q: nat) returns (i: nat)
    requires DistinctIds(h) && ':' !in cycleId && !kind.User? && LastSaid(replies, q)
    ensures var h2 := PutAll(h, IdeaEntriesFor(cycleId, kind, replies)); i < |h2| && h2[i] == MessageOf(cycleId, kind, replies[q])
  {
    var es, m := IdeaEntriesFor(cycleId, kind, replies), MessageOf(cycleId, kind, replies[q]);
    SaidIsLastEntry(cycleId, kind, replies, q);
    var entry :| entry in es && entry.id == m.id;
    PutAllNames(h, es, entry);
    i := Find(PutAll(h, es), m.id);
    PutAllHolds(h, es, i);
  }

  lemma SaidStands(g: Group, e: Event, q: nat) returns (i: nat)
    requires Inv(g) && Enabled(g, e) && Records(e) && LastSaid(e.replies, q)
    ensures i < |Step(g, e).history| && Step(g, e).history[i] == MessageOf(g.cycleId, PassOf(g), e.replies[q])
  {
    RecordsAll(g, e);
    i := SaidIsMerged(g.history, g.cycleId, PassOf(g), e.replies, q);
  }

  /** At most one message answers for one author in one pass of one cycle. */
  lemma OneAnswerEach(g: Group, i: nat, j: nat)
    requires Inv(g) && i < |g.history| && j < |g.history| && g.history[i].kind == g.history[j].kind
    requires g.history[i].cycleId == g.history[j].cycleId && g.history[i].authorId == g.history[j].authorId
    ensures i == j
  {
    var a, b := g.history[i], g.history[j];
    assert a.id == IdeaMessageId(a.cycleId, a.kind, a.authorId) && b.id == IdeaMessageId(b.cycleId, b.kind, b.authorId);
  }

  /** m is in the history, and nothing else answers for its author in its pass. */
  ghost predicate StandsAlone(h: seq<Message>, m: Message) {
    exists i: nat :: i < |h| && h[i] == m && forall j: nat | j < |h| && j != i :: !SameAnswer(h[j], m)
  }

  predicate SameAnswer(a: Message, b: Message) {
    a.cycleId == b.cycleId && a.kind == b.kind && a.authorId == b.authorId
  }

  lemma SaidStandsAlone(g: Group, e: Event, q: nat)
    requires Inv(g) && Enabled(g, e) && Records(e) && LastSaid(e.replies, q)
    ensures StandsAlone(Step(g, e).history, MessageOf(g.cycleId, PassOf(g), e.replies[q]))
  {
    var i := SaidStands(g, e, q);
    StepKeepsInv(g, e);
    var r := Step(g, e);
    forall j: nat | j < |r.history| && j != i ensures !SameAnswer(r.history[j], r.history[i]) {
      if SameAnswer(r.history[j], r.history[i]) {
        OneAnswerEach(r, i, j);
      }
    }
  }

  /** When a pass is recorded, each member that said something stands in the history once
      for the cycle and the pass, with the name, text and time of its last reply that is not
      blank; nothing else is added and every other message stays where it is. */
  lemma AnswersAreRecorded(states: seq<Group>, events: seq<Event>, k: nat)
    requires IsRun(states, events) && k < |events| && Records(events[k])
    ensures var g, h, h2, replies := states[k], states[k].history, states[k + 1].history, events[k].replies;
            && |h| <= |h2|
            && (forall q: nat | LastSaid(replies, q) :: StandsAlone(h2, MessageOf(g.cycleId, PassOf(g), replies[q])))
            && (forall i: nat | i < |h2| :: OldOrSaid(h, i, h2[i], g.cycleId, PassOf(g), replies))
            && (forall i | 0 <= i < |h| :: h2[i].id == h[i].id)
  {
    var g, e := states[k], events[k];
    RunKeepsInv(states, events, k);
    forall q: nat | LastSaid(e.replies, q) ensures StandsAlone(states[k + 1].history, MessageOf(g.cycleId, PassOf(g), e.replies[q])) {
      SaidStandsAlone(g, e, q);
    }
    RecordsAll(g, e);
    RecordedIsSaid(g.history, g.cycleId, PassOf(g), e.replies);
  }

  lemma RecordedIsSaid(h: seq<Message>, cycleId: string, kind: Kind, replies: seq<Reply>)
    requires DistinctIds(h) && ':' !in cycleId && !kind.User?
    ensures var h2 := PutAll(h, IdeaEntriesFor(cycleId, kind, replies));
            && |h| <= |h2|
            && (forall i: nat | i < |h2| :: OldOrSaid(h, i, h2[i], cycleId, kind, replies))
            && (forall i | 0 <= i < |h| :: h2[i].id == h[i].id)
  {
    var h2 := PutAll(h, IdeaEntriesFor(cycleId, kind, replies));
    PutAllAt(h, IdeaEntriesFor(cycleId, kind, replies), 0);
    forall i: nat | i < |h2| ensures OldOrSaid(h, i, h2[i], cycleId, kind, replies) && (i < |h| ==> h2[i].id == h[i].id) {
      MergedIsSaid(h, cycleId, kind, replies, i);
    }
  }

  // ---- the cycle

  /** An idea opens a cycle with the user's message; the first answers lead to the reactions,
      and these end the cycle; a Stop leaves the pass as it is. */
  lemma CycleAdvances(g: Group, e: Event)
    requires Inv(g) && Enabled(g, e)
    ensures var r := Step(g, e);
            match e
            case SendIdea(cycleId, text, at) =>
              && r.phase.AwaitInitial? && r.cycleId == cycleId
              && r.history == g.history + [Message(cycleId + ":user", cycleId, User, "user", "You", text, at)]
            case Snapshot(_) => r.phase == g.phase && r.cycleId == g.cycleId && r.seen == g.seen && r.handed == g.handed
            case SettleInitial(_) => r.phase.AwaitReaction? && r.cycleId == g.cycleId
            case SettleReaction(_) => r.phase.Resting? && r.seen == g.seen && r.handed == g.handed
            case Leave => r == g.(phase := Resting)
  {
  }

  /** The transcript is the history, or its last 400 messages. */
  lemma TranscriptIsTheEnd(states: seq<Group>, events: seq<Event>, i: nat)
    requires IsRun(states, events) && i < |states|
    ensures var g := states[i];
            g.transcript == if |g.history| <= 400 then g.history else g.history[|g.history| - 400..]
  {
    RunKeepsInv(states, events, i);
    assert states[i].history[0..] == states[i].history;
  }

  // ---- everybody's answers

  /** chosen are the places in t of the messages by others, in order. */
  ghost predicate AreOthers(t: seq<Message>, member: string, chosen: seq<nat>) {
    && (forall i, j | 0 <= i < j < |chosen| :: chosen[i] < chosen[j])
    && (forall i | 0 <= i < |chosen| :: chosen[i] < |t| && t[chosen[i]].authorId != member)
    && (forall k: nat | k < |t| && t[k].authorId != member :: k in chosen)
  }

  /** packet holds the chosen messages. */
  ghost predicate Holds(packet: seq<Message>, t: seq<Message>, chosen: seq<nat>) {
    |packet| == |chosen| && forall i | 0 <= i < |chosen| :: chosen[i] < |t| && packet[i] == t[chosen[i]]
  }

  lemma OneMore(t: seq<Message>, m: Message, member: string, chosen: seq<nat>)
    requires AreOthers(t, member, chosen)
    ensures AreOthers(t + [m], member, if m.authorId != member then chosen + [|t|] else chosen)
  {
    var more := if m.authorId != member then chosen + [|t|] else chosen;
    forall k: nat | k < |t| + 1 && (t + [m])[k].authorId != member ensures k in more {
      if k == |t| {
        assert more[|chosen|] == k;
      } else {
        assert k in chosen;
      }
    }
  }

  lemma PacketGrows(t: seq<Message>, m: Message, member: string, chosen: seq<nat>)
    requires Holds(NotBy(t, member), t, chosen)
    ensures Holds(NotBy(t + [m], member), t + [m], if m.authorId != member then chosen + [|t|] else chosen)
  {
    NotByAppend(t, [m], member);
    assert [m][1..] == [];
  }

  /** A packet holds the messages by others, all of them, in order and each once. */
  lemma {:induction false} OthersAreChosen(t: seq<Message>, member: string) returns (chosen: seq<nat>)
    ensures AreOthers(t, member, chosen) && Holds(NotBy(t, member), t, chosen)
    decreases |t|
  {
    chosen := [];
    if t != [] {
      var n := |t| - 1;
      assert t == t[..n] + [t[n]];
      var before := OthersAreChosen(t[..n], member);
      OneMore(t[..n], t[n], member, before);
      PacketGrows(t[..n], t[n], member, before);
      chosen := if t[n].authorId != member then before + [n] else before;
    }
  }

  /** A member without a cursor, or with one that is not in the transcript, is shown all that
      the others wrote; any other what follows its cursor. */
  lemma CursorDecides(t: seq<Message>, seen: map<string, string>, member: string, k: nat)
    requires DistinctIds(t) && k < |t|
    ensures member !in seen || (forall i | 0 <= i < |t| :: t[i].id != seen[member]) ==>
              UnseenIdeaMessages(t, seen, member) == NotBy(t, member)
    ensures member in seen && t[k].id == seen[member] ==> UnseenIdeaMessages(t, seen, member) == NotBy(t[k + 1..], member)
  {
    assert t[0..] == t;
  }

  /** A message that will not change any more: it was shown, or no pass is running. */
  predicate Settled(g: Group, p: nat) {
    p < |g.history| && (p < g.shown || g.phase.Resting?)
  }

  lemma ShownGrows(g: Group, e: Event)
    requires Inv(g) && Enabled(g, e)
    ensures g.shown <= Step(g, e).shown
  {
    ShownStays(g, e);
    if e.SettleInitial? || e.SendIdea? {
      StepKeepsInv(g, e);
    }
  }

  lemma SettledStays(g: Group, e: Event, p: nat)
    requires Inv(g) && Enabled(g, e) && Settled(g, p)
    ensures Settled(Step(g, e), p) && Step(g, e).history[p] == g.history[p]
  {
    ShownStays(g, e);
    ShownGrows(g, e);
    if p < g.shown {
      assert Step(g, e).history[..g.shown][p] == g.history[..g.shown][p];
    } else if e.SendIdea? {
      StepKeepsInv(g, e);
    }
  }

  lemma {:induction false} SettledRemains(states: seq<Group>, events: seq<Event>, k: nat, i: nat, p: nat)
    requires IsRun(states, events) && k <= i < |states| && Settled(states[k], p)
    ensures Settled(states[i], p) && states[i].history[p] == states[k].history[p]
    decreases i - k
  {
    if k < i {
      SettledRemains(states, events, k, i - 1, p);
      RunKeepsInv(states, events, i - 1);
      SettledStays(states[i - 1], events[i - 1], p);
    }
  }

  /** Whatever a member last said in a pass that settled reaches every other member: from the
      settling itself if it was the first pass, and in any case from the next idea on, it is
      among what each of the others has been handed. */
  lemma AnswersReachEveryone(states: seq<Group>, events: seq<Event>, k: nat, q: nat, i: nat, member: string)
    requires IsRun(states, events) && k <= i < |events| && (events[k].SettleInitial? || events[k].SettleReaction?)
    requires LastSaid(events[k].replies, q) && member in states[0].members && member != events[k].replies[q].authorId
    requires events[i].SendIdea? || (i == k && events[k].SettleInitial?)
    ensures member in states[i + 1].handed
    ensures MessageOf(states[k].cycleId, PassOf(states[k]), events[k].replies[q]) in states[i + 1].handed[member]
  {
    RunKeepsInv(states, events, k);
    RunKeepsInv(states, events, i);
    var p := SaidSettles(states[k], events[k], q);
    SettledRemains(states, events, k + 1, i + 1, p);
    StepKeepsInv(states[i], events[i]);
    RunKeepsInv(states, events, i + 1);
    HandedHas(states[i + 1], p, member);
  }

  lemma SaidSettles(g: Group, e: Event, q: nat) returns (p: nat)
    requires Inv(g) && Enabled(g, e) && (e.SettleInitial? || e.SettleReaction?) && LastSaid(e.replies, q)
    ensures Settled(Step(g, e), p) && Step(g, e).history[p] == MessageOf(g.cycleId, PassOf(g), e.replies[q])
  {
    p := SaidStands(g, e, q);
    StepKeepsInv(g, e);
    CycleAdvances(g, e);
  }

  lemma HandedHas(g: Group, p: nat, member: string)
    requires AllHanded(g) && member in g.members && p < |g.history| && g.history[p].authorId != member
    ensures member in g.handed && g.history[p] in g.handed[member]
  {
    var chosen := OthersAreChosen(g.history, member);
    assert p in chosen;
    var at :| 0 <= at < |chosen| && chosen[at] == p;
    assert NotBy(g.history, member)[at] == g.history[p];
  }
}
