/** The Mesh group and its workers, updated by the handlers of one stage. */
module MeshGroup {
  import opened Options
  import opened MeshStage

  function Elements(s: seq<string>): set<string> {
    set m | m in s
  }

  ghost predicate Distinct(s: seq<string>) {
    forall i, j | 0 <= i < j < |s| :: s[i] != s[j]
  }

  class GroupSession {
    var workers: map<string, Worker>
    var stageAttemptId: Option<nat>
    var stagePrompts: map<string, string>
    var stageTargets: seq<string>
    var paused: bool
    var pausedPending: seq<string>
    var recorded: map<string, string>
    var continuing: Option<Retry>
    var nextAttemptId: nat
    ghost var model: Mesh

    /** The session holds the program's part of its model. */
    ghost predicate Valid()
      reads this
    {
      && model.workers == workers && model.attempt == stageAttemptId && model.prompts == stagePrompts
      && model.targets == Elements(stageTargets) && model.paused == paused
      && model.pausedPending == Elements(pausedPending) && model.recorded == recorded
      && model.retry == continuing && model.nextAttempt == nextAttemptId
      && Elements(stageTargets) <= workers.Keys && Distinct(stageTargets)
    }

    constructor (members: set<string>)
      ensures Valid() && model == NewMesh(members)
    {
      workers := NewMesh(members).workers;
      stageAttemptId, stagePrompts, stageTargets, paused, pausedPending := None, map[], [], false, [];
      recorded, continuing, nextAttemptId := map[], None, 0;
      model := NewMesh(members);
    }

    predicate StageSucceeded(m: string)
      requires stageAttemptId.Some?
      reads this
    {
      m in workers && workers[m].activity.Quiet? && Success(workers[m], stageAttemptId.value)
    }

    /** The addressed members that have succeeded, and the others. */
    method Partition(targets: seq<string>) returns (completed: seq<string>, pending: seq<string>)
      requires stageAttemptId.Some?
      ensures forall m :: m in completed <==> m in targets && StageSucceeded(m)
      ensures forall m :: m in pending <==> m in targets && !StageSucceeded(m)
      ensures Distinct(targets) ==> Distinct(pending)
    {
      completed, pending := [], [];
      for i := 0 to |targets|
        invariant forall m :: m in completed <==> m in targets[..i] && StageSucceeded(m)
        invariant forall m :: m in pending <==> m in targets[..i] && !StageSucceeded(m)
        invariant Distinct(targets) ==> Distinct(pending)
      {
        assert targets[..i + 1] == targets[..i] + [targets[i]];
        if StageSucceeded(targets[i]) {
          completed := completed + [targets[i]];
        } else {
          pending := pending + [targets[i]];
        }
      }
      assert targets[..|targets|] == targets;
    }

    /** The texts of the last runs of some members. */
    method StageValues(members: seq<string>) returns (values: map<string, string>)
      requires forall m | m in members :: m in workers && workers[m].last.Some?
      ensures values.Keys == Elements(members)
      ensures forall m | m in members :: values[m] == workers[m].last.value.text
    {
      values := map[];
      for i := 0 to |members|
        invariant values.Keys == Elements(members[..i])
        invariant forall m | m in members[..i] :: values[m] == workers[m].last.value.text
      {
        assert members[..i + 1] == members[..i] + [members[i]];
        values := values[members[i] := workers[members[i]].last.value.text];
      }
      assert members[..|members|] == members;
    }

    /** Gives every target its prompt in an emptied, running queue. */
    method PromptAll(targets: seq<string>, asks: map<string, string>, attempt: nat)
      requires Elements(targets) <= workers.Keys && Elements(targets) == asks.Keys
      modifies `workers
      ensures workers == PromptEach(old(workers), asks, attempt)
    {
      for i := 0 to |targets|
        invariant workers.Keys == old(workers).Keys
        invariant forall m | m in workers && m !in targets[..i] :: workers[m] == old(workers)[m]
        invariant forall m | m in targets[..i] :: m in asks && workers[m] == Prompted(old(workers)[m], Prompt(attempt, asks[m]))
      {
        var m := targets[i];
        assert targets[..i + 1] == targets[..i] + [m];
        assert m in Elements(targets);
        workers := workers[m := Prompted(workers[m], Prompt(attempt, asks[m]))];
      }
      assert targets[..|targets|] == targets;
      assert forall m | m in asks :: m in Elements(targets);
    }

    /** Mints an attempt. */
    method QueueStage(asks: map<string, string>, targets: seq<string>)
      requires Valid() && Elements(targets) <= workers.Keys && Elements(targets) == asks.Keys && Distinct(targets)
      modifies this
      ensures Valid() && model == Queued(old(model), asks)
    {
      var attempt := nextAttemptId;
      PromptAll(targets, asks, attempt);
      assert workers == Queued(model, asks).workers && Elements([]) == {};
      nextAttemptId := attempt + 1;
      stageAttemptId, stagePrompts, stageTargets, paused, pausedPending := Some(attempt), asks, targets, false, [];
      model := Queued(model, asks);
    }

    /** A new stage. */
    method StartStage(asks: map<string, string>, targets: seq<string>)
      requires Valid() && Enabled(model, Event.QueueStage(asks)) && Elements(targets) == asks.Keys && Distinct(targets)
      modifies this
      ensures Valid() && model == Step(old(model), Event.QueueStage(asks))
    {
      model := model.(original := asks.Keys, asked := asks, prior := recorded, done := map[]);
      QueueStage(asks, targets);
    }

    /** Withdraws the prompts not yet sent. */
    method StopPending(pending: seq<string>)
      requires Elements(pending) <= workers.Keys && Distinct(pending)
      modifies `workers
      ensures workers == StopAll(old(workers), Elements(pending))
    {
      for i := 0 to |pending|
        invariant workers.Keys == old(workers).Keys
        invariant forall m | m in workers && m !in pending[..i] :: workers[m] == old(workers)[m]
        invariant forall m | m in pending[..i] :: m in workers && workers[m] == Stopped(old(workers)[m])
      {
        var m := pending[i];
        assert pending[..i + 1] == pending[..i] + [m];
        assert m in Elements(pending) && m !in pending[..i];
        workers := workers[m := Stopped(workers[m])];
      }
      assert pending[..|pending|] == pending;
    }

    /** Stop: keeps what is finished and withdraws every prompt not yet sent. */
    method PauseStage()
      requires Valid() && Enabled(model, Pause)
      modifies this
      ensures Valid() && model == Step(old(model), Pause)
    {
      var completed, pending := Partition(stageTargets);
      var values := StageValues(completed);
      assert Elements(completed) == Completed(model) && Elements(pending) == model.targets - Completed(model);
      SameValues(model, Completed(model), values);
      recorded := recorded + values;
      StopPending(pending);
      paused, pausedPending := true, pending;
      model := MeshStage.PauseStage(model);
    }

    /** Continue begins: with nothing left it only resumes; otherwise it keeps what it
        read of the group while it waits for the old turns to end. */
    method BeginContinue()
      requires Valid() && Enabled(model, Event.BeginContinue)
      modifies this
      ensures Valid() && model == Step(old(model), Event.BeginContinue)
    {
      assert pausedPending != [] ==> pausedPending[0] in Elements(pausedPending);
      var pendingIds := if pausedPending != [] then pausedPending else stageTargets;
      var done, initialPending := Partition(pendingIds);
      assert Elements(initialPending) == InitialPending(model);
      model := BeginRetry(model);
      if initialPending == [] {
        paused, pausedPending := false, [];
      } else if continuing.None? {
        assert initialPending[0] in Elements(initialPending);
        continuing := Some(Retry(stageAttemptId.value, Elements(stageTargets), Elements(initialPending), stagePrompts, recorded));
      } else {
        assert initialPending[0] in Elements(initialPending);
      }
    }

    /** The members whose last run finished the attempt. */
    method FinishedOf(addressed: seq<string>, attempt: nat) returns (completed: seq<string>)
      ensures forall m :: m in completed <==> m in addressed && m in workers && Success(workers[m], attempt)
    {
      completed := [];
      for i := 0 to |addressed|
        invariant forall m :: m in completed <==> m in addressed[..i] && m in workers && Success(workers[m], attempt)
      {
        var m := addressed[i];
        assert addressed[..i + 1] == addressed[..i] + [m];
        if m in workers && Success(workers[m], attempt) {
          completed := completed + [m];
        }
      }
      assert addressed[..|addressed|] == addressed;
    }

    method Remaining(pending: seq<string>, completed: seq<string>, r: Retry) returns (again: seq<string>, asks: map<string, string>)
      requires Distinct(pending)
      ensures Elements(again) == Elements(pending) - Elements(completed) && Distinct(again)
      ensures asks == PromptsAgain(r, Elements(again))
    {
      again := [];
      for i := 0 to |pending|
        invariant forall m :: m in again <==> m in pending[..i] && m !in completed
        invariant Distinct(again)
      {
        assert pending[..i + 1] == pending[..i] + [pending[i]];
        if pending[i] !in completed {
          again := again + [pending[i]];
        }
      }
      assert pending[..|pending|] == pending;
      asks := PromptsAgain(r, Elements(again));
    }

    /** Records the members that have finished the attempt Continue began on. */
    method RecordFinished(addressed: seq<string>, r: Retry) returns (completed: seq<string>)
      requires Valid() && Elements(addressed) == r.targets
      modifies `recorded, `continuing, `model
      ensures Valid() && model == RetryRecorded(old(model), r)
      ensures Elements(completed) == FinishedBy(old(model), r)
    {
      completed := FinishedOf(addressed, r.attempt);
      FinishedAre(model, r, addressed, completed);
      var values := StageValues(completed);
      SameValues(model, FinishedBy(model, r), values);
      RecordedIs(model, r, values);
      if completed != [] {
        recorded := r.base + values;
      }
      continuing := None;
      model := RetryRecorded(model, r);
    }

    /** Continue ends: records whoever finished meanwhile and asks the others again. */
    method FinishContinue(initialPending: seq<string>, addressed: seq<string>)
      requires Valid() && Enabled(model, Event.FinishContinue)
      requires Elements(initialPending) == continuing.value.pending && Distinct(initialPending)
      requires Elements(addressed) == continuing.value.targets
      requires continuing.value.pending <= continuing.value.prompts.Keys
      modifies this
      ensures Valid() && model == Step(old(model), Event.FinishContinue)
    {
      var r := continuing.value;
      if !paused || stageAttemptId != Some(r.attempt) {
        continuing := None;
        model := model.(retry := None);
        return;
      }
      ghost var s := model;
      var completed := RecordFinished(addressed, r);
      var retryPending, asks := Remaining(initialPending, completed, r);
      assert Elements(retryPending) == r.pending - FinishedBy(s, r) == asks.Keys;
      if retryPending == [] {
        paused, pausedPending := false, [];
        model := model.(paused := false, pausedPending := {});
      } else {
        assert retryPending[0] in Elements(retryPending);
        QueueStage(asks, retryPending);
      }
    }

    /** All addressed have answered: their texts are recorded and the stage ends. */
    method Settle()
      requires Valid() && Enabled(model, Event.Settle)
      modifies this
      ensures Valid() && model == Step(old(model), Event.Settle)
    {
      SettledHaveRun(model, stageTargets);
      var values := StageValues(stageTargets);
      SameValues(model, model.targets, values);
      recorded := recorded + values;
      assert Elements([]) == {};
      stageAttemptId, stagePrompts, stageTargets, paused, pausedPending := None, map[], [], false, [];
      model := Leave(Record(model, values));
    }
  }

  lemma SettledHaveRun(s: Mesh, targets: seq<string>)
    requires Enabled(s, Event.Settle) && s.targets == Elements(targets)
    ensures forall m | m in targets :: m in s.workers && s.workers[m].last.Some?
  {
    forall m | m in targets ensures m in s.workers && s.workers[m].last.Some? {
      assert m in Elements(targets) && Succeeded(s, m);
    }
  }

  lemma FinishedAre(s: Mesh, r: Retry, addressed: seq<string>, completed: seq<string>)
    requires Elements(addressed) == r.targets
    requires forall m :: m in completed <==> m in addressed && m in s.workers && Success(s.workers[m], r.attempt)
    ensures Elements(completed) == FinishedBy(s, r) && (completed == [] <==> FinishedBy(s, r) == {})
  {
    assert forall m | m in addressed :: m in Elements(addressed);
    if completed != [] {
      assert completed[0] in Elements(completed);
    }
  }

  lemma RecordedIs(s: Mesh, r: Retry, values: map<string, string>)
    requires values == Values(s, FinishedBy(s, r))
    ensures RetryRecorded(s, r) ==
            s.(recorded := if FinishedBy(s, r) == {} then s.recorded else r.base + values, done := s.done + values, retry := None)
  {
  }

  lemma SameValues(s: Mesh, members: set<string>, values: map<string, string>)
    requires forall m | m in members :: m in s.workers && s.workers[m].last.Some?
    requires values.Keys == members && forall m | m in members :: values[m] == s.workers[m].last.value.text
    ensures values == Values(s, members)
  {
  }
}
