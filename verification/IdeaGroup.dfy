/** The group record of an Idea session, updated by the handlers. */
module IdeaGroup {
  import opened IdeaCycle
  import opened IdeaRuns

  class GroupRecord {
    const members: seq<string>
    var phase: Phase
    var cycleId: string
    var transcript: seq<Message>
    var seen: map<string, string>
    ghost var model: Group

    /** The record holds the program's part of its model. */
    ghost predicate Valid()
      reads this
    {
      && model.members == members && model.phase == phase && model.cycleId == cycleId
      && model.transcript == transcript && model.seen == seen
      && CanHand(model) && |transcript| <= MAX_IDEA_MESSAGES
    }

    constructor (members: seq<string>)
      ensures Valid() && model == NewGroup(members)
    {
      this.members := members;
      phase, cycleId, transcript, seen := Resting, "", [], map[];
      model := NewGroup(members);
    }

    /** The saved cursors after every member was shown the transcript t. */
    method MoveCursors(t: seq<Message>) returns (r: map<string, string>)
      requires t != []
      ensures r == SeenUpTo(seen, members, IdeaSeenCursor(t))
    {
      r := seen;
      for i := 0 to |members|
        invariant r.Keys == seen.Keys + set m | m in members[..i]
        invariant forall m | m in r :: r[m] == if m in members[..i] then IdeaSeenCursor(t) else seen[m]
      {
        r := r[members[i] := t[|t| - 1].id];
        assert members[..i + 1] == members[..i] + [members[i]];
      }
      assert members[..|members|] == members;
    }

    /** The new user message opens a cycle; each member's packet is what it has not seen. */
    method SendIdea(text: string, workspace: bool, freshId: string, at: int)
      returns (sent: bool, packets: map<string, seq<Message>>)
      requires Valid() && freshId !in model.used && ':' !in freshId
      modifies this
      ensures Valid()
      ensures sent <==> text != "" && |members| >= 2 && old(phase).Resting? && workspace
      ensures !sent ==> model == old(model)
      ensures sent ==> model == Step(old(model), IdeaRuns.SendIdea(freshId, text, at))
      ensures sent ==> forall m | m in members :: m in packets && packets[m] == UnseenIdeaMessages(transcript, old(seen), m)
    {
      if text == "" || |members| < 2 || !phase.Resting? || !workspace {
        return false, map[];
      }
      var entry := UserEntry(freshId, text, at);
      var t := MergeIdeaMessages(transcript, [entry]);
      MergeNotEmpty(transcript, entry);
      packets := map m | m in members :: UnseenIdeaMessages(t, seen, m);
      seen := MoveCursors(t);
      phase, cycleId, transcript := AwaitInitial, freshId, t;
      model := Step(model, IdeaRuns.SendIdea(freshId, text, at));
      sent := true;
    }

    /** Records what the running pass has produced so far. */
    method Snapshot(replies: seq<Reply>)
      requires Valid() && !phase.Resting?
      modifies `transcript, `model
      ensures Valid() && model == Gather(old(model), replies)
    {
      var kind := if phase.AwaitInitial? then Initial else Reaction;
      var entries := IdeaEntriesFor(cycleId, kind, replies);
      model := Gather(model, replies);
      if entries != [] {
        transcript := MergeIdeaMessages(transcript, entries);
      } else {
        assert transcript[0..] == transcript;
      }
    }

    /** All have answered: each member's packet for the reaction pass is its peers'
        initial answers. */
    method SettleInitial(replies: seq<Reply>) returns (packets: map<string, seq<Message>>)
      requires Valid() && Enabled(model, IdeaRuns.SettleInitial(replies))
      modifies this
      ensures Valid() && model == Step(old(model), IdeaRuns.SettleInitial(replies))
      ensures forall m | m in members :: m in packets && packets[m] == NotBy(Initials(transcript, cycleId), m)
    {
      var t := MergeIdeaMessages(transcript, IdeaEntriesFor(cycleId, Initial, replies));
      var initials := Initials(t, cycleId);
      packets := map m | m in members :: NotBy(initials, m);
      if t != [] {
        seen := MoveCursors(t);
      }
      phase, transcript := AwaitReaction, t;
      model := Step(model, IdeaRuns.SettleInitial(replies));
    }

    method SettleReaction(replies: seq<Reply>)
      requires Valid() && Enabled(model, IdeaRuns.SettleReaction(replies))
      modifies this
      ensures Valid() && model == Step(old(model), IdeaRuns.SettleReaction(replies))
    {
      ghost var g := Gather(model, replies);
      var entries := IdeaEntriesFor(cycleId, Reaction, replies);
      var t := MergeIdeaMessages(transcript, entries);
      assert g.transcript == t;
      phase, transcript := Resting, t;
      model := g.(phase := Resting);
    }
  }

  lemma MergeNotEmpty(t: seq<Message>, e: Message)
    ensures Merge(t, [e]) != []
  {
    assert [e][1..] == [];
    assert PutAll(t, [e]) == Put(t, e);
  }
}
