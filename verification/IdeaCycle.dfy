/** Idea mode: the bounded transcript of a group discussion and what each member is
    shown of it. */
module IdeaCycle {

  const MAX_IDEA_MESSAGES := 400

  datatype Kind = User | Initial | Reaction

  datatype Message = Message(id: string, cycleId: string, kind: Kind, authorId: string, name: string, text: string, at: int)

  function KindName(kind: Kind): string {
    match kind
    case User => "user"
    case Initial => "initial"
    case Reaction => "reaction"
  }

  function IdeaMessageId(cycleId: string, kind: Kind, authorId: string): string {
    if kind.User? then cycleId + ":user" else cycleId + ":" + KindName(kind) + ":" + authorId
  }

  lemma {:induction false} FirstColonSplits(a: string, x: string, b: string, y: string)
    requires ':' !in a && ':' !in b && a + ":" + x == b + ":" + y
    ensures a == b && x == y
  {
    var p, q := a + ":" + x, b + ":" + y;
    assert p[0] == (if a == "" then ':' else a[0]);
    assert q[0] == (if b == "" then ':' else b[0]);
    if a == "" {
      assert p[1..] == x && q[1..] == y;
    } else {
      assert p[1..] == a[1..] + ":" + x && q[1..] == b[1..] + ":" + y;
      FirstColonSplits(a[1..], x, b[1..], y);
    }
  }

  function IdRest(kind: Kind, authorId: string): string {
    if kind.User? then "user" else KindName(kind) + ":" + authorId
  }

  lemma RestsAreDistinct(k1: Kind, a1: string, k2: Kind, a2: string)
    ensures IdRest(k1, a1) == IdRest(k2, a2) <==> k1 == k2 && (k1.User? || a1 == a2)
  {
    var r1, r2 := IdRest(k1, a1), IdRest(k2, a2);
    assert r1[0] == KindName(k1)[0] && r2[0] == KindName(k2)[0];
    if k1 == k2 && !k1.User? {
      var n := |KindName(k1)| + 1;
      assert r1[n..] == a1 && r2[n..] == a2;
    }
  }

  /** An id names one cycle, one kind and, for answers, one author. */
  lemma IdsAreDistinct(c1: string, k1: Kind, a1: string, c2: string, k2: Kind, a2: string)
    requires ':' !in c1 && ':' !in c2
    ensures IdeaMessageId(c1, k1, a1) == IdeaMessageId(c2, k2, a2)
            <==> c1 == c2 && k1 == k2 && (k1.User? || a1 == a2)
  {
    var r1, r2 := IdRest(k1, a1), IdRest(k2, a2);
    assert IdeaMessageId(c1, k1, a1) == c1 + ":" + r1;
    assert IdeaMessageId(c2, k2, a2) == c2 + ":" + r2;
    RestsAreDistinct(k1, a1, k2, a2);
    if IdeaMessageId(c1, k1, a1) == IdeaMessageId(c2, k2, a2) {
      FirstColonSplits(c1, r1, c2, r2);
    }
  }

  // ---- merging

  /** Where id first stands in t, or |t|. */
  function Find(t: seq<Message>, id: string): (i: nat)
    ensures i <= |t| && (i < |t| ==> t[i].id == id) && (forall k | 0 <= k < i :: t[k].id != id)
  {
    if t == [] || t[0].id == id then 0 else 1 + Find(t[1..], id)
  }

  function Put(t: seq<Message>, e: Message): seq<Message> {
    var i := Find(t, e.id);
    if i < |t| then t[i := e] else t + [e]
  }

  function PutAll(t: seq<Message>, entries: seq<Message>): seq<Message>
    decreases entries
  {
    if entries == [] then t else PutAll(Put(t, entries[0]), entries[1..])
  }

  /** How many messages the window leaves out. */
  function Trimmed(t: seq<Message>): (n: nat)
    ensures n <= |t| <= n + MAX_IDEA_MESSAGES
  {
    if |t| <= MAX_IDEA_MESSAGES then 0 else |t| - MAX_IDEA_MESSAGES
  }

  function Last(t: seq<Message>): seq<Message> {
    t[Trimmed(t)..]
  }

  function Merge(transcript: seq<Message>, entries: seq<Message>): seq<Message> {
    Last(PutAll(transcript, entries))
  }

  lemma {:induction false} PutAllSnoc(t: seq<Message>, entries: seq<Message>, e: Message)
    ensures PutAll(t, entries + [e]) == Put(PutAll(t, entries), e)
    decreases entries
  {
    if entries == [] {
      assert ([e])[1..] == [];
      assert [] + [e] == [e];
    } else {
      assert (entries + [e])[1..] == entries[1..] + [e];
      PutAllSnoc(Put(t, entries[0]), entries[1..], e);
    }
  }

  method FindIndex(t: seq<Message>, id: string) returns (index: int)
    ensures index == if Find(t, id) < |t| then Find(t, id) else -1
  {
    for i := 0 to |t|
      invariant forall k | 0 <= k < i :: t[k].id != id
    {
      if t[i].id == id {
        return i;
      }
    }
    index := -1;
  }

  method MergeIdeaMessages(transcript: seq<Message>, entries: seq<Message>) returns (r: seq<Message>)
    ensures r == Merge(transcript, entries)
  {
    var merged := transcript;
    for n := 0 to |entries|
      invariant merged == PutAll(transcript, entries[..n])
    {
      var entry := entries[n];
      var index := FindIndex(merged, entry.id);
      PutAllSnoc(transcript, entries[..n], entry);
      assert entries[..n + 1] == entries[..n] + [entry];
      if index >= 0 {
        merged := merged[index := entry];
      } else {
        merged := merged + [entry];
      }
    }
    assert entries[..|entries|] == entries;
    r := merged[Trimmed(merged)..];
  }

  ghost predicate DistinctIds(t: seq<Message>) {
    forall i, j | 0 <= i < j < |t| :: t[i].id != t[j].id
  }

  lemma {:induction false} PutAllAt(t: seq<Message>, entries: seq<Message>, i: nat)
    requires DistinctIds(t)
    ensures DistinctIds(PutAll(t, entries)) && |t| <= |PutAll(t, entries)|
    ensures i < |t| ==> PutAll(t, entries)[i].id == t[i].id
    decreases entries
  {
    if entries != [] {
      PutAllAt(Put(t, entries[0]), entries[1..], i);
    }
  }

  // ---- merging twice

  /** The ids that entries bring and t lacks. */
  function FreshIds(t: seq<Message>, entries: seq<Message>): set<string> {
    set e | e in entries && Find(t, e.id) == |t| :: e.id
  }

  lemma FindPut(t: seq<Message>, e: Message, id: string)
    ensures Find(Put(t, e), id) < |Put(t, e)| <==> Find(t, id) < |t| || id == e.id
  {
    var r := Put(t, e);
    if id == e.id {
      assert r[Find(t, id)].id == id;
    } else if Find(t, id) < |t| {
      assert r[Find(t, id)].id == id;
    }
  }

  predicate Named(entries: seq<Message>, id: string) {
    exists e | e in entries :: e.id == id
  }

  lemma NamedSplits(entries: seq<Message>, id: string)
    requires entries != []
    ensures Named(entries, id) <==> entries[0].id == id || Named(entries[1..], id)
  {
    assert forall e | e in entries :: e == entries[0] || e in entries[1..];
  }

  lemma InFresh(t: seq<Message>, entries: seq<Message>, id: string)
    ensures id in FreshIds(t, entries) <==> Named(entries, id) && Find(t, id) == |t|
  {
  }

  lemma FreshAfterPut(t: seq<Message>, e: Message, entries: seq<Message>)
    requires entries != [] && entries[0] == e
    ensures FreshIds(t, entries) == FreshIds(Put(t, e), entries[1..]) + if Find(t, e.id) == |t| then {e.id} else {}
    ensures e.id !in FreshIds(Put(t, e), entries[1..])
  {
    var before, after := FreshIds(t, entries), FreshIds(Put(t, e), entries[1..]);
    forall id: string ensures id in before <==> id in after || (id == e.id && Find(t, e.id) == |t|) {
      InFresh(t, entries, id);
      InFresh(Put(t, e), entries[1..], id);
      NamedSplits(entries, id);
      FindPut(t, e, id);
    }
    InFresh(Put(t, e), entries[1..], e.id);
    FindPut(t, e, e.id);
  }

  /** Merging adds one message for each fresh id, at the end. */
  lemma {:induction false} PutAllLength(t: seq<Message>, entries: seq<Message>)
    ensures |PutAll(t, entries)| == |t| + |FreshIds(t, entries)|
    decreases entries
  {
    if entries != [] {
      FreshAfterPut(t, entries[0], entries);
      PutAllLength(Put(t, entries[0]), entries[1..]);
    }
  }

  /** The last entry of this id. */
  function LastOf(entries: seq<Message>, id: string): Message
    requires Named(entries, id)
  {
    if Named(entries[1..], id) then LastOf(entries[1..], id) else entries[0]
  }

  lemma PutAt(t: seq<Message>, e: Message, i: nat)
    requires DistinctIds(t) && i < |Put(t, e)|
    ensures Put(t, e)[i] == if Put(t, e)[i].id == e.id then e else if i < |t| then t[i] else e
  {
  }

  /** A message of the merged transcript is the last entry of its id, or untouched. */
  lemma {:induction false} PutAllHolds(t: seq<Message>, entries: seq<Message>, i: nat)
    requires DistinctIds(t) && i < |PutAll(t, entries)|
    ensures var m := PutAll(t, entries)[i];
            if Named(entries, m.id) then m == LastOf(entries, m.id) else i < |t| && m == t[i]
    decreases entries
  {
    if entries != [] {
      var t1 := Put(t, entries[0]);
      PutAllAt(t, [entries[0]], 0);
      assert [entries[0]][1..] == [] && PutAll(t, [entries[0]]) == t1;
      PutAllHolds(t1, entries[1..], i);
      var m := PutAll(t, entries)[i];
      NamedSplits(entries, m.id);
      if !Named(entries[1..], m.id) {
        PutAt(t, entries[0], i);
      }
    }
  }

  /** Every entry of the merged transcript beyond t is one of the entries. */
  lemma PutAllNames(t: seq<Message>, entries: seq<Message>, e: Message)
    requires DistinctIds(t) && e in entries
    ensures Find(PutAll(t, entries), e.id) < |PutAll(t, entries)|
    decreases entries
  {
    var t1 := Put(t, entries[0]);
    PutAllAt(t, [entries[0]], 0);
    assert [entries[0]][1..] == [] && PutAll(t, [entries[0]]) == t1;
    FindPut(t, entries[0], e.id);
    if e != entries[0] {
      PutAllNames(t1, entries[1..], e);
    } else {
      var k := Find(t1, e.id);
      PutAllAt(t1, entries[1..], k);
    }
  }

  lemma {:induction false} PutAllKnown(t: seq<Message>, entries: seq<Message>)
    requires DistinctIds(t) && FreshIds(t, entries) == {}
    requires forall i | 0 <= i < |t| && Named(entries, t[i].id) :: t[i] == LastOf(entries, t[i].id)
    ensures PutAll(t, entries) == t
  {
    PutAllLength(t, entries);
    forall i | 0 <= i < |t| ensures PutAll(t, entries)[i] == t[i] {
      PutAllAt(t, entries, i);
      PutAllHolds(t, entries, i);
    }
  }

  /** The messages that a merge touches all stay in the window. */
  predicate KeepsAll(t: seq<Message>, entries: seq<Message>) {
    var added := |FreshIds(t, entries)|;
    && added <= MAX_IDEA_MESSAGES
    && forall e | e in entries && Find(t, e.id) < |t| :: Find(t, e.id) + MAX_IDEA_MESSAGES >= |t| + added
  }

  lemma FindInEnd(h: seq<Message>, off: nat, i: nat)
    requires DistinctIds(h) && off <= i < |h|
    ensures Find(h[off..], h[i].id) == i - off
  {
    var t := h[off..];
    assert t[i - off] == h[i];
    forall k | 0 <= k < i - off ensures t[k].id != h[i].id {
      assert t[k] == h[off + k];
    }
  }

  /** Where an entry's id stands after merging. */
  lemma FindMerged(t: seq<Message>, entries: seq<Message>, e: Message)
    requires DistinctIds(t) && e in entries
    ensures var i := Find(PutAll(t, entries), e.id);
            i < |PutAll(t, entries)| && if Find(t, e.id) < |t| then i == Find(t, e.id) else i >= |t|
  {
    PutAllNames(t, entries, e);
    var all, p := PutAll(t, entries), Find(t, e.id);
    PutAllAt(t, entries, p);
    var i := Find(all, e.id);
    if p == |t| && i < |t| {
      PutAllAt(t, entries, i);
    }
  }

  lemma FindInWindow(all: seq<Message>, id: string)
    requires DistinctIds(all) && Find(all, id) < |all|
    ensures Find(Last(all), id) < |Last(all)| <==> Find(all, id) >= Trimmed(all)
  {
    var i, off := Find(all, id), Trimmed(all);
    if i >= off {
      FindInEnd(all, off, i);
    }
  }

  lemma NoneFresh(m: seq<Message>, entries: seq<Message>)
    ensures FreshIds(m, entries) == {} <==> forall e | e in entries :: Find(m, e.id) < |m|
  {
    if e :| e in entries && Find(m, e.id) == |m| {
      assert e.id in FreshIds(m, entries);
    }
  }

  /** With more than 400 fresh ids, the first of them is trimmed away again. */
  lemma FirstFreshIsLost(t: seq<Message>, entries: seq<Message>)
    requires DistinctIds(t) && |FreshIds(t, entries)| > MAX_IDEA_MESSAGES
    ensures FreshIds(Merge(t, entries), entries) != {}
  {
    var all, n := PutAll(t, entries), |t|;
    PutAllLength(t, entries);
    PutAllAt(t, entries, 0);
    PutAllHolds(t, entries, n);
    var e :| e in entries && e.id == all[n].id;
    assert Find(all, e.id) == n;
    FindInWindow(all, e.id);
    NoneFresh(Merge(t, entries), entries);
  }

  /** No entry is trimmed away exactly if the condition on the input holds. */
  lemma KeptExactly(t: seq<Message>, entries: seq<Message>)
    requires DistinctIds(t)
    ensures FreshIds(Merge(t, entries), entries) == {} <==> KeepsAll(t, entries)
  {
    var all, added := PutAll(t, entries), |FreshIds(t, entries)|;
    PutAllLength(t, entries);
    PutAllAt(t, entries, 0);
    NoneFresh(Merge(t, entries), entries);
    if added > MAX_IDEA_MESSAGES {
      FirstFreshIsLost(t, entries);
    } else {
      forall e | e in entries
        ensures Find(Last(all), e.id) < |Last(all)|
                <==> (Find(t, e.id) < |t| ==> Find(t, e.id) + MAX_IDEA_MESSAGES >= |t| + added)
      {
        FindMerged(t, entries, e);
        FindInWindow(all, e.id);
      }
    }
  }

  lemma MergeKeepsDistinct(t: seq<Message>, entries: seq<Message>)
    requires DistinctIds(t)
    ensures DistinctIds(Merge(t, entries))
  {
    PutAllAt(t, entries, 0);
  }

  lemma FreshEntryShifts(m: seq<Message>, entries: seq<Message>)
    requires DistinctIds(m) && |m| <= MAX_IDEA_MESSAGES && FreshIds(m, entries) != {}
    ensures Merge(m, entries) != m
  {
    PutAllLength(m, entries);
    PutAllAt(m, entries, 0);
    var all := PutAll(m, entries);
    if m != [] {
      assert all[0].id == m[0].id && Last(all)[0] == all[Trimmed(all)];
    }
  }

  lemma MergedHolds(t: seq<Message>, entries: seq<Message>)
    requires DistinctIds(t)
    ensures var m := Merge(t, entries);
            forall i | 0 <= i < |m| && Named(entries, m[i].id) :: m[i] == LastOf(entries, m[i].id)
  {
    var all := PutAll(t, entries);
    var m, off := Last(all), Trimmed(all);
    forall i | 0 <= i < |m| && Named(entries, m[i].id) ensures m[i] == LastOf(entries, m[i].id) {
      assert m[i] == all[off + i];
      PutAllHolds(t, entries, off + i);
    }
  }

  lemma PutAllAgain(t: seq<Message>, entries: seq<Message>)
    requires DistinctIds(t)
    ensures PutAll(PutAll(t, entries), entries) == PutAll(t, entries)
  {
    var all := PutAll(t, entries);
    PutAllAt(t, entries, 0);
    forall e | e in entries ensures Find(all, e.id) < |all| {
      PutAllNames(t, entries, e);
    }
    NoneFresh(all, entries);
    forall i | 0 <= i < |all| && Named(entries, all[i].id) ensures all[i] == LastOf(entries, all[i].id) {
      PutAllHolds(t, entries, i);
    }
    PutAllKnown(all, entries);
  }

  /** Repeating a merge changes nothing exactly when at most 400 ids are fresh and no
      known id stands so early that the fresh ones push it out of the window. */
  lemma MergeAgain(t: seq<Message>, entries: seq<Message>)
    requires DistinctIds(t)
    ensures Merge(Merge(t, entries), entries) == Merge(t, entries) <==> KeepsAll(t, entries)
  {
    var m := Merge(t, entries);
    MergeKeepsDistinct(t, entries);
    KeptExactly(t, entries);
    if KeepsAll(t, entries) {
      MergedHolds(t, entries);
      PutAllKnown(m, entries);
    } else {
      FreshEntryShifts(m, entries);
    }
  }

  /** In a full window, an entry that replaces the oldest message and any fresh entry
      beside it: merging again brings the oldest back at the end. */
  lemma ReplacedOldestComesBack(t: seq<Message>, entries: seq<Message>, e: Message, added: Message)
    requires DistinctIds(t) && |t| == MAX_IDEA_MESSAGES && e in entries && added in entries
    requires e.id == t[0].id && Find(t, added.id) == |t|
    ensures Merge(Merge(t, entries), entries) != Merge(t, entries)
  {
    MergeAgain(t, entries);
    assert Find(t, e.id) == 0;
    assert added.id in FreshIds(t, entries);
  }

  function Filled(n: nat): (s: string)
    ensures |s| == n
  {
    seq(n, _ => 'a')
  }

  function Numbered(n: nat): Message {
    Message(Filled(n), "c", User, "user", "You", "", 0)
  }

  /** The smallest such input: 400 messages, the oldest again and one more. */
  lemma MergeIsNotIdempotent()
    ensures exists t, entries ::
              && DistinctIds(t) && DistinctIds(entries) && |t| == MAX_IDEA_MESSAGES && |entries| == 2
              && Merge(Merge(t, entries), entries) != Merge(t, entries)
  {
    var t := seq(MAX_IDEA_MESSAGES, i requires 0 <= i => Numbered(i));
    var entries := [Numbered(0), Numbered(MAX_IDEA_MESSAGES)];
    assert forall i | 0 <= i < |t| :: |t[i].id| == i;
    assert |entries[0].id| == 0 && |entries[1].id| == MAX_IDEA_MESSAGES;
    ReplacedOldestComesBack(t, entries, entries[0], entries[1]);
  }

  /** Merging into the end of a history gives the end of the merged history, when no
      entry's id stands before that end. */
  lemma PutEnd(h: seq<Message>, off: nat, e: Message)
    requires off <= |h| && forall k | 0 <= k < off :: h[k].id != e.id
    ensures Put(h[off..], e) == Put(h, e)[off..] && Put(h, e)[..off] == h[..off] && |h| <= |Put(h, e)|
  {
    var i := Find(h[off..], e.id);
    forall k | 0 <= k < off + i ensures h[k].id != e.id {
      if k >= off {
        assert h[k] == h[off..][k - off];
      }
    }
    assert Find(h, e.id) == off + i;
  }

  lemma {:induction false} PutAllEnd(h: seq<Message>, off: nat, entries: seq<Message>)
    requires off <= |h| && forall e, k | e in entries && 0 <= k < off :: h[k].id != e.id
    ensures |h| <= |PutAll(h, entries)| && PutAll(h[off..], entries) == PutAll(h, entries)[off..]
    ensures PutAll(h, entries)[..off] == h[..off]
    decreases entries
  {
    if entries != [] {
      PutEnd(h, off, entries[0]);
      var h1 := Put(h, entries[0]);
      forall e, k | e in entries[1..] && 0 <= k < off ensures h1[k].id != e.id {
        assert h1[..off][k] == h[..off][k];
      }
      PutAllEnd(h1, off, entries[1..]);
    }
  }

  lemma MergeWindow(h: seq<Message>, entries: seq<Message>)
    requires forall e, k | e in entries && 0 <= k < Trimmed(h) :: h[k].id != e.id
    ensures Merge(Last(h), entries) == Last(PutAll(h, entries))
  {
    var off := Trimmed(h);
    PutAllEnd(h, off, entries);
  }

  // ---- what a member is shown

  function NotBy(t: seq<Message>, member: string): seq<Message> {
    if t == [] then []
    else if t[0].authorId != member then [t[0]] + NotBy(t[1..], member) else NotBy(t[1..], member)
  }

  lemma {:induction false} NotByAppend(a: seq<Message>, b: seq<Message>, member: string)
    ensures NotBy(a + b, member) == NotBy(a, member) + NotBy(b, member)
  {
    if a == [] {
      assert a + b == b;
    } else {
      assert (a + b)[1..] == a[1..] + b;
      NotByAppend(a[1..], b, member);
    }
  }

  function UnseenIdeaMessages(transcript: seq<Message>, seen: map<string, string>, member: string): seq<Message> {
    var start := if member in seen && Find(transcript, seen[member]) < |transcript|
                 then Find(transcript, seen[member]) + 1 else 0;
    NotBy(transcript[start..], member)
  }

  function IdeaSeenCursor(transcript: seq<Message>): string
    requires transcript != []
  {
    transcript[|transcript| - 1].id
  }

  /** The cycle's initial answers, in transcript order. */
  function Initials(t: seq<Message>, cycleId: string): seq<Message> {
    if t == [] then []
    else if t[0].cycleId == cycleId && t[0].kind.Initial? then [t[0]] + Initials(t[1..], cycleId)
    else Initials(t[1..], cycleId)
  }
}
