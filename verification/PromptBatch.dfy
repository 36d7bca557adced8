/** Draining a prompt queue in batches of one provenance. */
module PromptBatch {
  import opened Options

  const MAX_MENTIONS := 64

  /** Which Mesh stage attempt minted a prompt. */
  datatype Marker = Marker(groupId: string, attemptId: string, phase: string, readOnly: bool)

  /** A mention's key is its kind and id. */
  datatype Mention = Mention(key: string, text: string)

  datatype Prompt = Prompt(text: string, mentions: seq<Mention>, attachments: seq<string>, fast: bool, marker: Option<Marker>)

  // ---- batches

  predicate Compatible(marker: Option<Marker>, p: Prompt) {
    match marker
    case None => p.marker.None?
    case Some(m) =>
      p.marker.Some? && p.marker.value.groupId == m.groupId && p.marker.value.attemptId == m.attemptId
      && p.marker.value.phase == m.phase
  }

  /** Where the first prompt of another provenance stands. */
  function BatchEnd(queue: seq<Prompt>, marker: Option<Marker>): (n: nat)
    ensures n <= |queue| && (forall i | 0 <= i < n :: Compatible(marker, queue[i]))
    ensures n < |queue| ==> !Compatible(marker, queue[n])
  {
    if queue == [] || !Compatible(marker, queue[0]) then 0 else 1 + BatchEnd(queue[1..], marker)
  }

  function NextQueuedDispatchBatch(queue: seq<Prompt>): seq<Prompt> {
    if queue == [] then [] else queue[..BatchEnd(queue, queue[0].marker)]
  }

  function Batches(queue: seq<Prompt>): seq<seq<Prompt>>
    decreases |queue|
  {
    if queue == [] then []
    else
      var batch := NextQueuedDispatchBatch(queue);
      assert Compatible(queue[0].marker, queue[0]);
      if |batch| == 0 then [] else [batch] + Batches(queue[|batch|..])
  }

  function Flatten<T>(parts: seq<seq<T>>): seq<T> {
    if parts == [] then [] else parts[0] + Flatten(parts[1..])
  }

  predicate OneProvenance(batch: seq<Prompt>) {
    batch != [] && forall i | 0 <= i < |batch| :: Compatible(batch[0].marker, batch[i])
  }

  lemma BatchIsNotEmpty(queue: seq<Prompt>)
    requires queue != []
    ensures NextQueuedDispatchBatch(queue) != [] && OneProvenance(NextQueuedDispatchBatch(queue))
  {
    assert Compatible(queue[0].marker, queue[0]);
  }

  lemma FirstBatch(queue: seq<Prompt>) returns (n: nat)
    requires queue != []
    ensures 1 <= n <= |queue| && Batches(queue) == [queue[..n]] + Batches(queue[n..])
  {
    BatchIsNotEmpty(queue);
    n := |NextQueuedDispatchBatch(queue)|;
  }

  lemma FlattenFirst<T>(first: seq<T>, rest: seq<seq<T>>)
    ensures Flatten([first] + rest) == first + Flatten(rest)
  {
    assert ([first] + rest)[1..] == rest;
  }

  /** Draining a queue hands over all of it, in order and without loss. */
  lemma {:induction false} BatchesLoseNothing(queue: seq<Prompt>)
    ensures Flatten(Batches(queue)) == queue
    decreases |queue|
  {
    if queue != [] {
      var n := FirstBatch(queue);
      BatchesLoseNothing(queue[n..]);
      FlattenFirst(queue[..n], Batches(queue[n..]));
    }
  }

  /** Every batch has one provenance and the next batch begins with another. */
  lemma {:induction false} BatchesAreMaximal(queue: seq<Prompt>, i: nat)
    requires i < |Batches(queue)|
    ensures OneProvenance(Batches(queue)[i])
    ensures i + 1 < |Batches(queue)| ==>
              Batches(queue)[i + 1] != [] && !Compatible(Batches(queue)[i][0].marker, Batches(queue)[i + 1][0])
    decreases |queue|
  {
    BatchIsNotEmpty(queue);
    var n := |NextQueuedDispatchBatch(queue)|;
    var rest := queue[n..];
    assert Batches(queue) == [queue[..n]] + Batches(rest);
    if i > 0 {
      BatchesAreMaximal(rest, i - 1);
    } else if rest != [] {
      BatchIsNotEmpty(rest);
      assert Batches(rest)[0] == NextQueuedDispatchBatch(rest);
      assert NextQueuedDispatchBatch(rest)[0] == rest[0] == queue[n];
    }
  }

  /** Two prompts were minted by the same phase of the same attempt, or both by a user. */
  predicate SameOrigin(p: Prompt, q: Prompt) {
    if p.marker.None? || q.marker.None? then p.marker == q.marker
    else p.marker.value.groupId == q.marker.value.groupId && p.marker.value.attemptId == q.marker.value.attemptId
         && p.marker.value.phase == q.marker.value.phase
  }

  /** Any two prompts of a batch have one origin; the first of the next batch has another. */
  lemma BatchesShareOrigin(queue: seq<Prompt>, i: nat, j: nat, k: nat)
    requires i < |Batches(queue)| && j < |Batches(queue)[i]| && k < |Batches(queue)[i]|
    ensures SameOrigin(Batches(queue)[i][j], Batches(queue)[i][k])
    ensures i + 1 < |Batches(queue)| ==>
              Batches(queue)[i + 1] != [] && !SameOrigin(Batches(queue)[i][j], Batches(queue)[i + 1][0])
  {
    BatchesAreMaximal(queue, i);
    var batch := Batches(queue)[i];
    assert Compatible(batch[0].marker, batch[j]) && Compatible(batch[0].marker, batch[k]);
  }

  // ---- the text of a batch

  /** White space as trimming sees it. */
  predicate IsSpace(c: char) {
    var n := c as int;
    9 <= n <= 13 || n == 32 || n == 160 || n == 5760 || 8192 <= n <= 8202 || n == 8232 || n == 8233 || n == 8239
    || n == 8287 || n == 12288 || n == 65279
  }

  function TrimStart(s: string): (r: string)
    ensures r == "" || !IsSpace(r[0])
  {
    if s != "" && IsSpace(s[0]) then TrimStart(s[1..]) else s
  }

  function TrimEnd(s: string): (r: string)
    ensures r == "" || !IsSpace(r[|r| - 1])
    ensures r <= s
  {
    if s != "" && IsSpace(s[|s| - 1]) then TrimEnd(s[..|s| - 1]) else s
  }

  function Trim(s: string): string {
    TrimEnd(TrimStart(s))
  }

  predicate IsTrimmed(s: string) {
    s == "" || (!IsSpace(s[0]) && !IsSpace(s[|s| - 1]))
  }

  lemma TrimIsTrimmed(s: string)
    ensures IsTrimmed(Trim(s)) && (IsTrimmed(s) ==> Trim(s) == s)
  {
    var t := TrimStart(s);
    var r := TrimEnd(t);
    assert r != "" ==> r[0] == t[0];
  }

  predicate AllSpace(s: string) {
    forall i | 0 <= i < |s| :: IsSpace(s[i])
  }

  lemma {:induction false} TrimStartDrops(s: string) returns (lead: string)
    ensures AllSpace(lead) && s == lead + TrimStart(s)
  {
    lead := "";
    if s != "" && IsSpace(s[0]) {
      var more := TrimStartDrops(s[1..]);
      lead := [s[0]] + more;
    }
  }

  lemma {:induction false} TrimEndDrops(s: string) returns (trail: string)
    ensures AllSpace(trail) && s == TrimEnd(s) + trail
  {
    trail := "";
    if s != "" && IsSpace(s[|s| - 1]) {
      var more := TrimEndDrops(s[..|s| - 1]);
      trail := more + [s[|s| - 1]];
    }
  }

  /** Trimming drops nothing but white space at both ends. */
  lemma TrimDrops(s: string) returns (lead: string, trail: string)
    ensures AllSpace(lead) && AllSpace(trail) && s == lead + Trim(s) + trail
  {
    lead := TrimStartDrops(s);
    trail := TrimEndDrops(TrimStart(s));
  }

  const SEPARATOR := "\n\n"

  function Join(parts: seq<string>): string {
    if parts == [] then "" else if |parts| == 1 then parts[0] else parts[0] + SEPARATOR + Join(parts[1..])
  }

  /** The prompts' trimmed texts that are not blank. */
  function Texts(queue: seq<Prompt>): seq<string> {
    if queue == [] then []
    else (if Trim(queue[0].text) == "" then [] else [Trim(queue[0].text)]) + Texts(queue[1..])
  }

  function MergedText(queue: seq<Prompt>): string {
    Join(Texts(queue))
  }

  /** Pieces that survive trimming. */
  predicate Solid(parts: seq<string>) {
    forall i | 0 <= i < |parts| :: parts[i] != "" && IsTrimmed(parts[i])
  }

  lemma {:induction false} TextsAreSolid(queue: seq<Prompt>)
    ensures Solid(Texts(queue))
  {
    if queue != [] {
      TextsAreSolid(queue[1..]);
      TrimIsTrimmed(queue[0].text);
    }
  }

  lemma {:induction false} JoinIsTrimmed(parts: seq<string>)
    requires Solid(parts)
    ensures IsTrimmed(Join(parts)) && (parts != [] ==> Join(parts) != "")
  {
    if |parts| > 1 {
      JoinIsTrimmed(parts[1..]);
      var rest := Join(parts[1..]);
      var all := Join(parts);
      assert all[0] == parts[0][0] && all[|all| - 1] == rest[|rest| - 1];
    }
  }

  lemma {:induction false} JoinAppend(a: seq<string>, b: seq<string>)
    requires a != [] && b != []
    ensures Join(a + b) == Join(a) + SEPARATOR + Join(b)
  {
    if |a| == 1 {
      assert (a + b)[1..] == b;
    } else {
      assert (a + b)[1..] == a[1..] + b;
      JoinAppend(a[1..], b);
      assert Join(a + b) == a[0] + SEPARATOR + (Join(a[1..]) + SEPARATOR + Join(b));
    }
  }

  /** Prompts whose texts are themselves joined pieces merge into the join of all the
      pieces: a batch that fails and is queued again loses nothing when merged again. */
  lemma {:induction false} MergedTextJoins(queue: seq<Prompt>, pieces: seq<seq<string>>)
    requires |pieces| == |queue| && forall i | 0 <= i < |queue| :: Solid(pieces[i]) && queue[i].text == Join(pieces[i])
    ensures MergedText(queue) == Join(Flatten(pieces))
    ensures Texts(queue) == [] <==> Flatten(pieces) == []
  {
    if queue != [] {
      var head, rest := pieces[0], Flatten(pieces[1..]);
      MergedTextJoins(queue[1..], pieces[1..]);
      JoinIsTrimmed(head);
      TrimIsTrimmed(queue[0].text);
      if head == [] {
        assert Flatten(pieces) == rest;
        assert Texts(queue) == Texts(queue[1..]);
      } else {
        assert Texts(queue) == [Join(head)] + Texts(queue[1..]);
        if rest != [] {
          JoinAppend(head, rest);
          assert Texts(queue)[1..] == Texts(queue[1..]);
        } else {
          assert head + rest == head;
        }
      }
    }
  }

  // ---- merging a batch

  predicate Known<T(!new)>(key: T -> string, found: seq<T>, x: T) {
    exists i | 0 <= i < |found| :: key(found[i]) == key(x)
  }

  /** found, and then whatever more brings that has a new key. */
  function AddNew<T(!new)>(key: T -> string, found: seq<T>, more: seq<T>): seq<T>
    decreases more
  {
    if more == [] then found
    else AddNew(key, if Known(key, found, more[0]) then found else found + [more[0]], more[1..])
  }

  function KeyOf(m: Mention): string {
    m.key
  }

  function Itself(s: string): string {
    s
  }

  function AllMentions(queue: seq<Prompt>): seq<Mention> {
    if queue == [] then [] else queue[0].mentions + AllMentions(queue[1..])
  }

  function Take<T>(s: seq<T>, n: nat): seq<T> {
    if |s| <= n then s else s[..n]
  }

  function AllAttachments(queue: seq<Prompt>): seq<string> {
    if queue == [] then [] else queue[0].attachments + AllAttachments(queue[1..])
  }

  predicate OneAttempt(queue: seq<Prompt>, m: Marker) {
    forall i | 0 <= i < |queue| ::
      queue[i].marker.Some? && queue[i].marker.value.groupId == m.groupId && queue[i].marker.value.attemptId == m.attemptId
  }

  /** The marker of the last prompt, if all are of its attempt. */
  function MergedMarker(queue: seq<Prompt>): Option<Marker> {
    if queue == [] || queue[|queue| - 1].marker.None? then None
    else if OneAttempt(queue, queue[|queue| - 1].marker.value) then queue[|queue| - 1].marker
    else None
  }

  function MergeQueuedPrompts(queue: seq<Prompt>): Prompt {
    Prompt(MergedText(queue), Take(AddNew(KeyOf, [], AllMentions(queue)), MAX_MENTIONS),
           Take(AddNew(Itself, [], AllAttachments(queue)), MAX_MENTIONS),
           queue != [] && queue[|queue| - 1].fast, MergedMarker(queue))
  }

  /** A merged batch is of its prompts' provenance. */
  lemma MergeKeepsProvenance(batch: seq<Prompt>, i: nat)
    requires OneProvenance(batch) && i < |batch|
    ensures Compatible(batch[i].marker, MergeQueuedPrompts(batch))
  {
    var last := batch[|batch| - 1];
    assert Compatible(batch[0].marker, last) && Compatible(batch[0].marker, batch[i]);
    if last.marker.Some? {
      assert OneAttempt(batch, last.marker.value) by {
        forall k | 0 <= k < |batch|
          ensures batch[k].marker.Some? && batch[k].marker.value.groupId == last.marker.value.groupId
                  && batch[k].marker.value.attemptId == last.marker.value.attemptId
        {
          assert Compatible(batch[0].marker, batch[k]);
        }
      }
    }
  }

  /** A merged batch has the newest choice of speed. It carries a marker exactly if all its
      prompts were minted by one attempt, and then the newest one's. */
  lemma MergedTakesNewest(batch: seq<Prompt>)
    requires batch != []
    ensures var p, last := MergeQueuedPrompts(batch), batch[|batch| - 1];
            && p.fast == last.fast
            && (p.marker.Some? <==>
                  forall q, r | q in batch && r in batch ::
                    q.marker.Some? && r.marker.Some? && q.marker.value.groupId == r.marker.value.groupId
                    && q.marker.value.attemptId == r.marker.value.attemptId)
            && (p.marker.Some? ==> p.marker == last.marker)
  {
    var last := batch[|batch| - 1];
    assert last in batch;
    if MergeQueuedPrompts(batch).marker.Some? {
      forall q | q in batch
        ensures q.marker.Some? && q.marker.value.groupId == last.marker.value.groupId
                && q.marker.value.attemptId == last.marker.value.attemptId
      {
        var i :| 0 <= i < |batch| && batch[i] == q;
      }
    }
  }

  lemma {:induction false} AddNewGrows<T(!new)>(key: T -> string, found: seq<T>, more: seq<T>)
    ensures found <= AddNew(key, found, more)
    decreases more
  {
    if more != [] {
      AddNewGrows(key, if Known(key, found, more[0]) then found else found + [more[0]], more[1..]);
    }
  }

  lemma {:induction false} AddNewAppend<T(!new)>(key: T -> string, found: seq<T>, a: seq<T>, b: seq<T>)
    ensures AddNew(key, found, a + b) == AddNew(key, AddNew(key, found, a), b)
    decreases a
  {
    if a == [] {
      assert a + b == b;
    } else {
      assert (a + b)[0] == a[0] && (a + b)[1..] == a[1..] + b;
      AddNewAppend(key, if Known(key, found, a[0]) then found else found + [a[0]], a[1..], b);
    }
  }

  // ---- each key once, where it first occurs

  /** Where in all the key of all[i] first occurs is i itself. */
  predicate IsFirst<T(!new)>(key: T -> string, all: seq<T>, i: nat)
    requires i < |all|
  {
    !Known(key, all[..i], all[i])
  }

  /** The elements that are first of their key, in order. */
  function Firsts<T(!new)>(key: T -> string, all: seq<T>): seq<T>
    decreases all
  {
    if all == [] then []
    else
      var n := |all| - 1;
      Firsts(key, all[..n]) + if IsFirst(key, all, n) then [all[n]] else []
  }

  predicate DistinctKeys<T(!new)>(key: T -> string, s: seq<T>) {
    forall i, j | 0 <= i < j < |s| :: key(s[i]) != key(s[j])
  }

  lemma {:induction false} FirstsKeepKeys<T(!new)>(key: T -> string, all: seq<T>, x: T)
    ensures Known(key, Firsts(key, all), x) <==> Known(key, all, x)
    decreases all
  {
    if all != [] {
      var n := |all| - 1;
      var init, firsts := all[..n], Firsts(key, all[..n]);
      FirstsKeepKeys(key, init, x);
      FirstsKeepKeys(key, init, all[n]);
      KnownSnoc(key, init, all[n], x);
      KnownSnoc(key, firsts, all[n], x);
      assert init + [all[n]] == all && firsts + [] == firsts;
    }
  }

  lemma KnownSnoc<T(!new)>(key: T -> string, s: seq<T>, last: T, x: T)
    ensures Known(key, s + [last], x) <==> Known(key, s, x) || key(last) == key(x)
  {
    if Known(key, s, x) {
      var i :| 0 <= i < |s| && key(s[i]) == key(x);
      assert (s + [last])[i] == s[i];
    }
    assert (s + [last])[|s|] == last;
  }

  /** Adding to nothing keeps exactly the first occurrence of every key, in order; so each
      key is kept, and once. */
  lemma {:induction false} AddNewKeepsFirsts<T(!new)>(key: T -> string, all: seq<T>)
    ensures AddNew(key, [], all) == Firsts(key, all)
    ensures DistinctKeys(key, AddNew(key, [], all))
    ensures forall i | 0 <= i < |all| :: Known(key, AddNew(key, [], all), all[i])
    decreases all
  {
    if all != [] {
      var n := |all| - 1;
      var init, last := all[..n], all[n];
      assert init + [last] == all && [last][1..] == [];
      AddNewKeepsFirsts(key, init);
      AddNewAppend(key, [], init, [last]);
      FirstsKeepKeys(key, init, last);
    }
    forall i | 0 <= i < |all|
      ensures Known(key, Firsts(key, all), all[i])
    {
      FirstsKeepKeys(key, all, all[i]);
    }
  }

  /** So a merged batch holds the first 64 of the distinct mentions and of the distinct
      attachments of its prompts, as they first occur. */
  lemma MergedOnce(queue: seq<Prompt>)
    ensures var p := MergeQueuedPrompts(queue);
            && p.mentions == Take(Firsts(KeyOf, AllMentions(queue)), MAX_MENTIONS) && DistinctKeys(KeyOf, p.mentions)
            && p.attachments == Take(Firsts(Itself, AllAttachments(queue)), MAX_MENTIONS)
            && DistinctKeys(Itself, p.attachments)
  {
    AddNewKeepsFirsts(KeyOf, AllMentions(queue));
    AddNewKeepsFirsts(Itself, AllAttachments(queue));
  }

  /** Adds one prompt's new mentions until there are 64. */
  method AddMentions(found: seq<Mention>, mentions: seq<Mention>) returns (r: seq<Mention>)
    requires |found| < MAX_MENTIONS
    ensures r == Take(AddNew(KeyOf, found, mentions), MAX_MENTIONS)
  {
    r := found;
    for j := 0 to |mentions|
      invariant |r| < MAX_MENTIONS && AddNew(KeyOf, found, mentions) == AddNew(KeyOf, r, mentions[j..])
    {
      var known := false;
      for k := 0 to |r|
        invariant known <==> exists i | 0 <= i < k :: r[i].key == mentions[j].key
      {
        known := known || r[k].key == mentions[j].key;
      }
      assert mentions[j..][0] == mentions[j] && mentions[j..][1..] == mentions[j + 1..];
      if !known {
        r := r + [mentions[j]];
        if |r| >= MAX_MENTIONS {
          AddNewGrows(KeyOf, r, mentions[j + 1..]);
          return;
        }
      }
    }
    assert mentions[|mentions|..] == [];
  }

  lemma MentionsOfNext(found: seq<Mention>, queue: seq<Prompt>, n: nat)
    requires n < |queue|
    ensures var next := AddNew(KeyOf, found, queue[n].mentions);
            && AddNew(KeyOf, found, AllMentions(queue[n..])) == AddNew(KeyOf, next, AllMentions(queue[n + 1..]))
            && next <= AddNew(KeyOf, found, AllMentions(queue[n..]))
  {
    assert queue[n..][0] == queue[n] && queue[n..][1..] == queue[n + 1..];
    AddNewAppend(KeyOf, found, queue[n].mentions, AllMentions(queue[n + 1..]));
    AddNewGrows(KeyOf, AddNew(KeyOf, found, queue[n].mentions), AllMentions(queue[n + 1..]));
  }

  /** The first 64 mentions of a batch by their keys' first occurrence, each key once. */
  method MergeMentions(queue: seq<Prompt>) returns (merged: seq<Mention>)
    ensures merged == Take(Firsts(KeyOf, AllMentions(queue)), MAX_MENTIONS) && DistinctKeys(KeyOf, merged)
  {
    AddNewKeepsFirsts(KeyOf, AllMentions(queue));
    merged := [];
    for n := 0 to |queue|
      invariant |merged| < MAX_MENTIONS
      invariant AddNew(KeyOf, [], AllMentions(queue)) == AddNew(KeyOf, merged, AllMentions(queue[n..]))
    {
      MentionsOfNext(merged, queue, n);
      merged := AddMentions(merged, queue[n].mentions);
      if |merged| >= MAX_MENTIONS {
        return;
      }
    }
    assert queue[|queue|..] == [];
  }
}
