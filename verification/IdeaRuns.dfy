/** Whole runs of Idea mode: every member is shown every message of the others once. */
module IdeaRuns {
  import opened IdeaCycle

  const MAX_MEMBERS := 6

  /** Resting stands for every phase that is not one of the two running Idea phases. */
  datatype Phase = Resting | AwaitInitial | AwaitReaction

  /** A worker's trimmed response. */
  datatype Reply = Reply(authorId: string, name: string, text: string, at: int)

  /** The fields from history on are not the program's: every message ever written, the
      cycles begun, where the latest cycle starts, how many messages the members have
      been brought up to, and what each member has been handed. */
  datatype Group = Group(
    members: seq<string>, phase: Phase, cycleId: string, transcript: seq<Message>, seen: map<string, string>,
    history: seq<Message>, used: set<string>, start: nat, shown: nat, handed: map<string, seq<Message>>)

  datatype Event =
    | SendIdea(cycleId: string, text: string, at: int)
    | Snapshot(replies: seq<Reply>)
    | SettleInitial(replies: seq<Reply>)
    | SettleReaction(replies: seq<Reply>)
    | Leave

  /** One message for each member that said something. */
  function IdeaEntriesFor(cycleId: string, kind: Kind, replies: seq<Reply>): seq<Message> {
    if replies == [] then []
    else
      var r := replies[0];
      (if r.text == "" then []
       else [Message(IdeaMessageId(cycleId, kind, r.authorId), cycleId, kind, r.authorId, r.name, r.text, r.at)])
      + IdeaEntriesFor(cycleId, kind, replies[1..])
  }

  function RunningKind(phase: Phase): Kind
    requires !phase.Resting?
  {
    if phase.AwaitInitial? then Initial else Reaction
  }

  function Gather(g: Group, replies: seq<Reply>): Group
    requires !g.phase.Resting?
  {
    var entries := IdeaEntriesFor(g.cycleId, RunningKind(g.phase), replies);
    g.(transcript := Merge(g.transcript, entries), history := PutAll(g.history, entries))
  }

  function UserEntry(cycleId: string, text: string, at: int): Message {
    Message(IdeaMessageId(cycleId, User, "user"), cycleId, User, "user", "You", text, at)
  }

  function SeenUpTo(seen: map<string, string>, members: seq<string>, cursor: string): map<string, string> {
    seen + map m | m in members :: cursor
  }

  /** Every member's cursor moves to the transcript's last message. */
  function Advance(g: Group): Group {
    if g.transcript == [] then g
    else g.(seen := SeenUpTo(g.seen, g.members, IdeaSeenCursor(g.transcript)), shown := |g.history|)
  }

  function HandUnseen(g: Group, transcript: seq<Message>): map<string, seq<Message>>
    requires CanHand(g)
  {
    map m | m in g.members :: g.handed[m] + UnseenIdeaMessages(transcript, g.seen, m)
  }

  function HandInitials(g: Group): map<string, seq<Message>>
    requires CanHand(g)
  {
    map m | m in g.members :: g.handed[m] + NotBy(Initials(g.transcript, g.cycleId), m)
  }

  predicate CanHand(g: Group) {
    forall m | m in g.members :: m in g.handed
  }

  function Step(g: Group, e: Event): Group
    requires Enabled(g, e)
  {
    match e
    case SendIdea(cycleId, text, at) =>
      var user := UserEntry(cycleId, text, at);
      var transcript := Merge(g.transcript, [user]);
      Advance(g.(phase := AwaitInitial, cycleId := cycleId, transcript := transcript,
                 history := g.history + [user], used := g.used + {cycleId}, start := |g.history|,
                 handed := HandUnseen(g, transcript)))
    case Snapshot(replies) => Gather(g, replies)
    case SettleInitial(replies) =>
      var s := Gather(g, replies);
      Advance(s.(phase := AwaitReaction, handed := HandInitials(s)))
    case SettleReaction(replies) => Gather(g, replies).(phase := Resting)
    case Leave => g.(phase := Resting)
  }

  /** Replies come from members; a cycle id is new and, being built from letters,
      digits and dashes, has no colon. */
  ghost predicate Enabled(g: Group, e: Event) {
    && CanHand(g)
    && match e
       case SendIdea(cycleId, text, _) => g.phase.Resting? && text != "" && cycleId !in g.used && ':' !in cycleId
       case Snapshot(replies) => !g.phase.Resting? && FromMembers(g, replies)
       case SettleInitial(replies) => g.phase.AwaitInitial? && FromMembers(g, replies)
       case SettleReaction(replies) => g.phase.AwaitReaction? && FromMembers(g, replies)
       case Leave => true
  }

  predicate FromMembers(g: Group, replies: seq<Reply>) {
    forall r | r in replies :: r.authorId in g.members
  }

  predicate IsTeam(members: seq<string>) {
    && 2 <= |members| <= MAX_MEMBERS && "user" !in members
    && forall i, j | 0 <= i < j < |members| :: members[i] != members[j]
  }

  function NewGroup(members: seq<string>): Group {
    Group(members, Resting, "", [], map[], [], {}, 0, 0, map m | m in members :: [])
  }

  /** states[0] is a new group and each later state follows by an enabled event. */
  ghost predicate IsRun(states: seq<Group>, events: seq<Event>) {
    && |states| == |events| + 1
    && IsTeam(states[0].members) && states[0] == NewGroup(states[0].members)
    && forall i | 0 <= i < |events| :: Enabled(states[i], events[i]) && states[i + 1] == Step(states[i], events[i])
  }

  // ---- the invariant

  /** A message written in one of the cycles begun. */
  predicate Proper(m: Message, members: seq<string>, used: set<string>) {
    && m.cycleId in used && ':' !in m.cycleId
    && m.id == IdeaMessageId(m.cycleId, m.kind, m.authorId)
    && (if m.kind.User? then m.authorId == "user" else m.authorId in members)
  }

  /** The latest cycle is the end of the history from start on; the messages shown to
      all include its user message and none that may still be replaced. */
  ghost predicate HistoryOk(h: seq<Message>, g: Group) {
    && DistinctIds(h)
    && (forall i | 0 <= i < |h| :: Proper(h[i], g.members, g.used))
    && (forall i | 0 <= i < |h| :: i >= g.start <==> h[i].cycleId == g.cycleId)
    && (h != [] ==> g.start < g.shown <= |h|)
    && (!g.phase.Resting? ==> h != [] && g.cycleId in g.used && ':' !in g.cycleId)
    && (forall i | 0 <= i < g.shown <= |h| && !g.phase.Resting? && h[i].cycleId == g.cycleId ::
          h[i].kind != RunningKind(g.phase))
    && (forall i | g.shown <= i < |h| && g.phase.AwaitInitial? :: h[i].kind.Initial?)
    && (forall i | g.start <= i < |h| && g.phase.AwaitInitial? :: !h[i].kind.Reaction?)
  }

  /** Every member's cursor is at the last message shown. */
  ghost predicate CursorsOk(g: Group) {
    && (g.history == [] ==> g.shown == 0 && g.seen == map[])
    && (g.history != [] ==> 0 < g.shown <= |g.history|)
    && forall m | m in g.members :: g.history != [] ==> m in g.seen && g.seen[m] == g.history[g.shown - 1].id
  }

  ghost predicate HandedOk(g: Group) {
    && g.shown <= |g.history|
    && forall m | m in g.members :: m in g.handed && g.handed[m] == NotBy(g.history[..g.shown], m)
  }

  ghost predicate Inv(g: Group) {
    IsTeam(g.members) && HistoryOk(g.history, g) && g.transcript == Last(g.history) && CursorsOk(g) && HandedOk(g)
  }

  // ---- a cycle is short

  function CycleIds(cycleId: string, members: seq<string>): (ids: set<string>)
    ensures |ids| <= 2 * |members|
    ensures forall m | m in members ::
              IdeaMessageId(cycleId, Initial, m) in ids && IdeaMessageId(cycleId, Reaction, m) in ids
  {
    if members == [] then {}
    else {IdeaMessageId(cycleId, Initial, members[0]), IdeaMessageId(cycleId, Reaction, members[0])}
         + CycleIds(cycleId, members[1..])
  }

  lemma {:induction false} DistinctFit(t: seq<Message>, ids: set<string>)
    requires DistinctIds(t) && forall m | m in t :: m.id in ids
    ensures |t| <= |ids|
  {
    if t != [] {
      forall m | m in t[1..] ensures m.id in ids - {t[0].id} {
        var k :| 0 < k < |t| && t[k] == m;
      }
      DistinctFit(t[1..], ids - {t[0].id});
    }
  }

  lemma CycleIsShort(g: Group)
    requires IsTeam(g.members) && HistoryOk(g.history, g)
    ensures |g.history| - g.start <= 1 + 2 * MAX_MEMBERS
  {
    if g.start < |g.history| {
      var t := g.history[g.start..];
      var ids := CycleIds(g.cycleId, g.members) + {IdeaMessageId(g.cycleId, User, "user")};
      forall m | m in t ensures m.id in ids {
        var k :| 0 <= k < |t| && t[k] == m;
      }
      DistinctFit(t, ids);
    }
  }

  // ---- merging the answers of the running pass

  ghost predicate Answer(e: Message, g: Group)
    requires !g.phase.Resting?
  {
    && e.cycleId == g.cycleId && e.kind == RunningKind(g.phase) && e.authorId in g.members
    && e.id == IdeaMessageId(e.cycleId, e.kind, e.authorId)
  }

  lemma {:induction false} EntriesAreAnswers(g: Group, replies: seq<Reply>)
    requires !g.phase.Resting? && FromMembers(g, replies)
    ensures forall e | e in IdeaEntriesFor(g.cycleId, RunningKind(g.phase), replies) :: Answer(e, g)
  {
    if replies != [] {
      EntriesAreAnswers(g, replies[1..]);
    }
  }

  /** An answer's id stands nowhere in the part already shown. */
  lemma AnswerIsLate(h: seq<Message>, g: Group, e: Message, i: nat)
    requires HistoryOk(h, g) && !g.phase.Resting? && Answer(e, g) && i < g.shown
    ensures i < |h| && h[i].id != e.id
  {
    IdsAreDistinct(h[i].cycleId, h[i].kind, h[i].authorId, e.cycleId, e.kind, e.authorId);
  }

  lemma PutKeepsHistory(h: seq<Message>, g: Group, e: Message)
    requires HistoryOk(h, g) && !g.phase.Resting? && Answer(e, g)
    ensures HistoryOk(Put(h, e), g) && Put(h, e)[..g.shown] == h[..g.shown]
  {
    var at := Find(h, e.id);
    var r := Put(h, e);
    forall i | 0 <= i < g.shown ensures h[i].id != e.id {
      AnswerIsLate(h, g, e, i);
    }
    assert forall i | 0 <= i < |r| && i != at :: r[i] == h[i];
    assert r[at] == e;
  }

  lemma {:induction false} PutAllKeepsHistory(h: seq<Message>, g: Group, entries: seq<Message>)
    requires HistoryOk(h, g) && !g.phase.Resting? && forall e | e in entries :: Answer(e, g)
    ensures HistoryOk(PutAll(h, entries), g) && PutAll(h, entries)[..g.shown] == h[..g.shown]
    decreases entries
  {
    if entries != [] {
      PutKeepsHistory(h, g, entries[0]);
      PutAllKeepsHistory(Put(h, entries[0]), g, entries[1..]);
    }
  }

  lemma SameStart(g: Group, s: Group)
    requires CursorsOk(g) && HandedOk(g) && g.history != [] && g.shown <= |s.history|
    requires s.history[..g.shown] == g.history[..g.shown] && s.shown == g.shown
    requires s.members == g.members && s.seen == g.seen && s.handed == g.handed
    ensures CursorsOk(s) && HandedOk(s)
  {
    assert s.history[g.shown - 1] == s.history[..g.shown][g.shown - 1];
    assert g.history[g.shown - 1] == g.history[..g.shown][g.shown - 1];
  }

  lemma GatherWindow(g: Group, entries: seq<Message>)
    requires Inv(g) && !g.phase.Resting? && forall e | e in entries :: Answer(e, g)
    ensures Merge(g.transcript, entries) == Last(PutAll(g.history, entries))
  {
    CycleIsShort(g);
    forall e, k | e in entries && 0 <= k < Trimmed(g.history) ensures g.history[k].id != e.id {
      AnswerIsLate(g.history, g, e, k);
    }
    MergeWindow(g.history, entries);
  }

  lemma GatherKeeps(g: Group, replies: seq<Reply>)
    requires Inv(g) && !g.phase.Resting? && FromMembers(g, replies)
    ensures Inv(Gather(g, replies))
  {
    var entries := IdeaEntriesFor(g.cycleId, RunningKind(g.phase), replies);
    EntriesAreAnswers(g, replies);
    PutAllKeepsHistory(g.history, g, entries);
    GatherWindow(g, entries);
    var s := Gather(g, replies);
    SameStart(g, s);
  }

  /** No answer of the running pass is trimmed away by the merge that records it. */
  lemma AnswersStay(g: Group, entries: seq<Message>)
    requires Inv(g) && !g.phase.Resting? && forall e | e in entries :: Answer(e, g)
    ensures KeepsAll(g.transcript, entries)
  {
    var all := PutAll(g.history, entries);
    GatherWindow(g, entries);
    PutAllKeepsHistory(g.history, g, entries);
    CycleIsShort(g.(history := all));
    forall e | e in entries ensures Find(Last(all), e.id) < |Last(all)| {
      PutAllNames(g.history, entries, e);
      var k := Find(all, e.id);
      if k < g.shown {
        AnswerIsLate(all, g, e, k);
      }
      FindInEnd(all, Trimmed(all), k);
    }
    NoneFresh(Last(all), entries);
    KeptExactly(g.transcript, entries);
  }

  /** Recording the same answers again changes nothing. */
  lemma GatherTwice(g: Group, replies: seq<Reply>)
    requires Inv(g) && !g.phase.Resting? && FromMembers(g, replies)
    ensures Gather(Gather(g, replies), replies) == Gather(g, replies)
  {
    var entries := IdeaEntriesFor(g.cycleId, RunningKind(g.phase), replies);
    EntriesAreAnswers(g, replies);
    AnswersStay(g, entries);
    MergeAgain(g.transcript, entries);
    PutAllAgain(g.history, entries);
  }

  // ---- what the members are handed

  /** What follows a cursor in the window is what follows it in the history. */
  lemma UnseenInWindow(h: seq<Message>, i: nat, seen: map<string, string>, member: string)
    requires DistinctIds(h) && Trimmed(h) <= i < |h| && member in seen && seen[member] == h[i].id
    ensures UnseenIdeaMessages(Last(h), seen, member) == NotBy(h[i + 1..], member)
  {
    var k := i - Trimmed(h);
    FindInEnd(h, Trimmed(h), i);
    assert Last(h)[k + 1..] == h[i + 1..];
  }

  lemma CursorIs(g: Group, member: string)
    requires Inv(g) && member in g.members
    ensures g.history == [] ==> g.shown == 0 && member !in g.seen
    ensures g.history != [] ==> 0 < g.shown <= |g.history| <= g.shown + 2 * MAX_MEMBERS
                                && member in g.seen && g.seen[member] == g.history[g.shown - 1].id
  {
    CycleIsShort(g);
  }

  lemma UnseenIsRest(g: Group, h: seq<Message>, member: string)
    requires Inv(g) && member in g.members && g.history <= h && DistinctIds(h) && |h| <= |g.history| + 1
    ensures UnseenIdeaMessages(Last(h), g.seen, member) == NotBy(h[g.shown..], member)
  {
    CursorIs(g, member);
    if g.history == [] {
      assert Last(h) == h && h[0..] == h && h[g.shown..] == h;
    } else {
      assert h[g.shown - 1] == g.history[g.shown - 1];
      UnseenInWindow(h, g.shown - 1, g.seen, member);
    }
  }

  lemma {:induction false} InitialsSkip(t: seq<Message>, n: nat, cycleId: string)
    requires n <= |t| && forall i | 0 <= i < n :: t[i].cycleId != cycleId || !t[i].kind.Initial?
    ensures Initials(t, cycleId) == Initials(t[n..], cycleId)
    decreases n
  {
    if n > 0 {
      InitialsSkip(t[1..], n - 1, cycleId);
      assert t[1..][n - 1..] == t[n..];
    } else {
      assert t[0..] == t;
    }
  }

  lemma {:induction false} InitialsAll(t: seq<Message>, cycleId: string)
    requires forall i | 0 <= i < |t| :: t[i].cycleId == cycleId && t[i].kind.Initial?
    ensures Initials(t, cycleId) == t
  {
    if t != [] {
      InitialsAll(t[1..], cycleId);
    }
  }

  /** The initial answers in the window are the messages not shown yet. */
  lemma InitialsAreRest(g: Group)
    requires Inv(g) && g.phase.AwaitInitial?
    ensures Initials(g.transcript, g.cycleId) == g.history[g.shown..]
  {
    CycleIsShort(g);
    InitialsSkip(g.transcript, g.shown - Trimmed(g.history), g.cycleId);
    InitialsAll(g.history[g.shown..], g.cycleId);
  }

  lemma HandRest(h: seq<Message>, n: nat, member: string)
    requires n <= |h|
    ensures NotBy(h[..n], member) + NotBy(h[n..], member) == NotBy(h, member)
  {
    assert h == h[..n] + h[n..];
    NotByAppend(h[..n], h[n..], member);
  }

  // ---- every step keeps the invariant

  /** Everyone has been handed all that the others wrote. */
  ghost predicate AllHanded(g: Group) {
    && g.shown == |g.history|
    && forall m | m in g.members :: m in g.handed && g.handed[m] == NotBy(g.history, m)
  }

  lemma UserIdIsNew(h: seq<Message>, g: Group, user: Message, k: nat)
    requires HistoryOk(h, g) && k < |h| && user.cycleId !in g.used && ':' !in user.cycleId
    requires user.id == IdeaMessageId(user.cycleId, User, "user")
    ensures h[k].id != user.id
  {
    IdsAreDistinct(h[k].cycleId, h[k].kind, h[k].authorId, user.cycleId, User, "user");
  }

  lemma MergeNew(h: seq<Message>, e: Message)
    requires forall k | 0 <= k < |h| :: h[k].id != e.id
    ensures Merge(Last(h), [e]) == Last(h + [e])
  {
    MergeWindow(h, [e]);
    assert [e][1..] == [];
    assert Find(h, e.id) == |h|;
    assert PutAll(Put(h, e), []) == Put(h, e);
  }

  lemma SendHistory(g: Group, cycleId: string, text: string, at: int)
    requires Inv(g) && Enabled(g, SendIdea(cycleId, text, at))
    ensures var h := g.history + [UserEntry(cycleId, text, at)];
            && Merge(g.transcript, [UserEntry(cycleId, text, at)]) == Last(h)
            && HistoryOk(h, g.(phase := AwaitInitial, cycleId := cycleId, used := g.used + {cycleId},
                               start := |g.history|, shown := |h|))
  {
    var user := UserEntry(cycleId, text, at);
    forall k | 0 <= k < |g.history| ensures g.history[k].id != user.id {
      UserIdIsNew(g.history, g, user, k);
    }
    MergeNew(g.history, user);
  }

  lemma AdvanceKeeps(s: Group)
    requires IsTeam(s.members) && s.history != [] && s.transcript == Last(s.history)
    requires HistoryOk(s.history, s.(shown := |s.history|))
    requires forall m | m in s.members :: m in s.handed && s.handed[m] == NotBy(s.history, m)
    ensures Inv(Advance(s)) && AllHanded(Advance(s))
  {
    var r := Advance(s);
    assert r.history[..|r.history|] == r.history;
    assert IdeaSeenCursor(s.transcript) == s.history[|s.history| - 1].id;
  }

  lemma SendHands(g: Group, h: seq<Message>, member: string)
    requires Inv(g) && member in g.members && g.history <= h && DistinctIds(h) && |h| <= |g.history| + 1
    ensures g.handed[member] + UnseenIdeaMessages(Last(h), g.seen, member) == NotBy(h, member)
  {
    UnseenIsRest(g, h, member);
    HandRest(h, g.shown, member);
    assert h[..g.shown] == g.history[..g.shown];
  }

  lemma SendKeeps(g: Group, cycleId: string, text: string, at: int)
    requires Inv(g) && Enabled(g, SendIdea(cycleId, text, at))
    ensures var r := Step(g, SendIdea(cycleId, text, at)); Inv(r) && AllHanded(r)
  {
    var user := UserEntry(cycleId, text, at);
    var h := g.history + [user];
    SendHistory(g, cycleId, text, at);
    var handed := HandUnseen(g, Last(h));
    forall m | m in g.members ensures handed[m] == NotBy(h, m) {
      SendHands(g, h, m);
    }
    var s := g.(phase := AwaitInitial, cycleId := cycleId, transcript := Last(h), history := h,
                used := g.used + {cycleId}, start := |g.history|, handed := handed);
    assert Step(g, SendIdea(cycleId, text, at)) == Advance(s);
    AdvanceKeeps(s);
  }

  lemma SettleHands(s: Group, member: string)
    requires Inv(s) && s.phase.AwaitInitial? && member in s.members
    ensures s.handed[member] + NotBy(Initials(s.transcript, s.cycleId), member) == NotBy(s.history, member)
  {
    InitialsAreRest(s);
    HandRest(s.history, s.shown, member);
  }

  lemma SettleKeeps(s: Group)
    requires Inv(s) && s.phase.AwaitInitial?
    ensures var r := Advance(s.(phase := AwaitReaction, handed := HandInitials(s)));
            Inv(r) && AllHanded(r)
  {
    var handed := HandInitials(s);
    forall m | m in s.members ensures handed[m] == NotBy(s.history, m) {
      SettleHands(s, m);
    }
    AdvanceKeeps(s.(phase := AwaitReaction, handed := handed));
  }

  lemma SettleInitialKeeps(g: Group, replies: seq<Reply>)
    requires Inv(g) && Enabled(g, SettleInitial(replies))
    ensures Inv(Step(g, SettleInitial(replies))) && AllHanded(Step(g, SettleInitial(replies)))
  {
    GatherKeeps(g, replies);
    SettleKeeps(Gather(g, replies));
  }

  lemma RestKeeps(g: Group)
    requires Inv(g)
    ensures Inv(g.(phase := Resting))
  {
    assert HistoryOk(g.history, g.(phase := Resting));
  }

  lemma StepKeepsInv(g: Group, e: Event)
    requires Inv(g) && Enabled(g, e)
    ensures Inv(Step(g, e))
    ensures e.SendIdea? || e.SettleInitial? ==> AllHanded(Step(g, e))
  {
    match e
    case SendIdea(cycleId, text, at) => SendKeeps(g, cycleId, text, at);
    case Snapshot(replies) => GatherKeeps(g, replies);
    case SettleInitial(replies) => SettleInitialKeeps(g, replies);
    case SettleReaction(replies) =>
      GatherKeeps(g, replies);
      RestKeeps(Gather(g, replies));
    case Leave => RestKeeps(g);
  }

  /** A message shown to a member is never replaced or removed afterwards. */
  lemma ShownStays(g: Group, e: Event)
    requires Inv(g) && Enabled(g, e)
    ensures g.shown <= |Step(g, e).history| && Step(g, e).history[..g.shown] == g.history[..g.shown]
  {
    match e
    case SendIdea(_, _, _) =>
    case Leave =>
    case _ =>
      EntriesAreAnswers(g, e.replies);
      PutAllKeepsHistory(g.history, g, IdeaEntriesFor(g.cycleId, RunningKind(g.phase), e.replies));
  }

  lemma {:induction false} RunKeepsInv(states: seq<Group>, events: seq<Event>, i: nat)
    requires IsRun(states, events) && i < |states|
    ensures Inv(states[i]) && states[i].members == states[0].members
  {
    if i > 0 {
      RunKeepsInv(states, events, i - 1);
      StepKeepsInv(states[i - 1], events[i - 1]);
    }
  }

  /** Whatever was stopped and continued before, when the user sends an idea each
      member has by then been handed every message ever written by the others, in
      order and each once. */
  lemma EveryMessageIsHandedOnce(states: seq<Group>, events: seq<Event>, i: nat, member: string)
    requires IsRun(states, events) && i < |events| && events[i].SendIdea? && member in states[0].members
    ensures var g := states[i + 1];
            && member in g.handed && g.handed[member] == NotBy(g.history, member) && DistinctIds(g.history)
            && g.history == states[i].history + [UserEntry(events[i].cycleId, events[i].text, events[i].at)]
  {
    RunKeepsInv(states, events, i);
    StepKeepsInv(states[i], events[i]);
  }

  /** At no time has a member been handed a message twice or out of order: it has been
      handed an initial part of what the others wrote. */
  lemma HandedIsAPrefix(states: seq<Group>, events: seq<Event>, i: nat, member: string)
    requires IsRun(states, events) && i < |states| && member in states[0].members
    ensures var g := states[i];
            && g.shown <= |g.history| && member in g.handed
            && g.handed[member] == NotBy(g.history[..g.shown], member) && DistinctIds(g.history)
  {
    RunKeepsInv(states, events, i);
  }

  /** A saved cursor is never trimmed out of the window, so the transcript is never
      replayed from its beginning. */
  lemma CursorStaysInWindow(states: seq<Group>, events: seq<Event>, i: nat, member: string)
    requires IsRun(states, events) && i < |states| && member in states[i].seen && member in states[0].members
    ensures Find(states[i].transcript, states[i].seen[member]) < |states[i].transcript| <= MAX_IDEA_MESSAGES
    ensures |states[i].history| - states[i].shown <= 2 * MAX_MEMBERS
  {
    RunKeepsInv(states, events, i);
    var g := states[i];
    CursorIs(g, member);
    FindInEnd(g.history, Trimmed(g.history), g.shown - 1);
  }

  /** The messages that an event merges into the transcript. */
  function Entries(g: Group, e: Event): seq<Message>
    requires Enabled(g, e)
  {
    match e
    case SendIdea(cycleId, text, at) => [UserEntry(cycleId, text, at)]
    case Leave => []
    case _ => IdeaEntriesFor(g.cycleId, RunningKind(g.phase), e.replies)
  }

  lemma SentStays(g: Group, cycleId: string, text: string, at: int)
    requires Inv(g) && Enabled(g, SendIdea(cycleId, text, at))
    ensures KeepsAll(g.transcript, [UserEntry(cycleId, text, at)])
  {
    var user := UserEntry(cycleId, text, at);
    var h := g.history + [user];
    SendHistory(g, cycleId, text, at);
    var m := Last(h);
    assert m[|m| - 1] == user && Find(m, user.id) < |m|;
    NoneFresh(m, [user]);
    KeptExactly(g.transcript, [user]);
  }

  /** Every merge that a run makes can be repeated without any change, and no id ever
      stands twice in the transcript. */
  lemma EveryMergeIsIdempotent(states: seq<Group>, events: seq<Event>, i: nat)
    requires IsRun(states, events) && i < |events|
    ensures var t, entries := states[i].transcript, Entries(states[i], events[i]);
            && states[i + 1].transcript == Merge(t, entries) && KeepsAll(t, entries)
            && Merge(Merge(t, entries), entries) == Merge(t, entries) && DistinctIds(Merge(t, entries))
  {
    RunKeepsInv(states, events, i);
    var g, e := states[i], events[i];
    match e {
      case SendIdea(cycleId, text, at) => SentStays(g, cycleId, text, at);
      case Leave => assert Last(g.transcript) == g.transcript;
      case _ =>
        EntriesAreAnswers(g, e.replies);
        AnswersStay(g, Entries(g, e));
    }
    MergeAgain(g.transcript, Entries(g, e));
    MergeKeepsDistinct(g.transcript, Entries(g, e));
  }

  /** A Stop that records what the settling pass records again leaves what settling
      alone would have left. */
  lemma StopThenSettle(states: seq<Group>, events: seq<Event>, i: nat, replies: seq<Reply>)
    requires IsRun(states, events) && i < |states| && Enabled(states[i], Snapshot(replies))
    ensures var g := states[i];
            var settle := if g.phase.AwaitInitial? then SettleInitial(replies) else SettleReaction(replies);
            && Enabled(g, settle) && Enabled(Step(g, Snapshot(replies)), settle)
            && Step(Step(g, Snapshot(replies)), settle) == Step(g, settle)
  {
    RunKeepsInv(states, events, i);
    GatherTwice(states[i], replies);
  }

  lemma {:induction false} NotByIsPart(t: seq<Message>, member: string)
    ensures forall m | m in NotBy(t, member) :: m in t && m.authorId != member
  {
    if t != [] {
      NotByIsPart(t[1..], member);
    }
  }

  lemma UnseenIsPart(t: seq<Message>, seen: map<string, string>, member: string)
    ensures forall m | m in UnseenIdeaMessages(t, seen, member) :: m in t && m.authorId != member
  {
    var start := if member in seen && Find(t, seen[member]) < |t| then Find(t, seen[member]) + 1 else 0;
    NotByIsPart(t[start..], member);
  }

  /** The first pass shows no peer's answer of its own cycle: of the new cycle a member
      sees the user's message alone. */
  lemma FirstPassIsBlind(states: seq<Group>, events: seq<Event>, i: nat, member: string, m: Message)
    requires IsRun(states, events) && i < |events| && events[i].SendIdea? && member in states[0].members
    requires m in UnseenIdeaMessages(states[i + 1].transcript, states[i].seen, member)
    requires m.cycleId == events[i].cycleId
    ensures m == UserEntry(events[i].cycleId, events[i].text, events[i].at)
  {
    RunKeepsInv(states, events, i);
    SendHistory(states[i], events[i].cycleId, events[i].text, events[i].at);
    UnseenIsPart(states[i + 1].transcript, states[i].seen, member);
  }
}
