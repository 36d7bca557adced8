/** What Stop and Continue do to every member, and why a stage can always be brought to its
    end. */
module MeshProgress {
  import opened Options
  import opened MeshStage
  import opened MeshRuns

  /** The worker's last run finished the attempt with an answer. */
  predicate Answered(w: Worker, attempt: nat) {
    w.last.Some? && w.last.value.attempt == attempt && w.last.value.ok && w.last.value.text != ""
  }

  // ---- beginning and end of a stage

  /** A new stage mints an attempt and gives each member asked its prompt alone, in a running
      queue; nobody else is touched and nothing recorded is lost. */
  lemma StageStarts(s: Mesh, prompts: map<string, string>, m: string)
    requires Enabled(s, QueueStage(prompts)) && m in s.workers
    ensures var r := Step(s, QueueStage(prompts));
            && r.attempt == Some(s.nextAttempt) && r.nextAttempt == s.nextAttempt + 1 && !r.paused
            && r.targets == r.original == prompts.Keys && r.recorded == s.recorded && m in r.workers
            && r.workers[m] ==
               if m in prompts then s.workers[m].(queue := [Prompt(s.nextAttempt, prompts[m])], held := false) else s.workers[m]
  {
  }

  /** A stage that settles is over, and each target's last answer is recorded. */
  lemma StageEnds(s: Mesh, m: string)
    requires Enabled(s, Settle)
    ensures var r := Step(s, Settle);
            && r.attempt.None? && r.targets == {} && r.workers == s.workers
            && if m in s.targets
               then m in s.workers && Answered(s.workers[m], s.attempt.value)
                    && m in r.recorded && r.recorded[m] == s.workers[m].last.value.text
               else Same(r.recorded, s.recorded, m)
  {
    assert m in s.targets ==> Succeeded(s, m);
  }

  // ---- Continue

  /** The targets without an answer for the group's attempt. */
  function Unanswered(s: Mesh): set<string>
    requires s.attempt.Some?
  {
    set m | m in s.targets && !(m in s.workers && Answered(s.workers[m], s.attempt.value))
  }

  lemma AgainAreUnanswered(s: Mesh)
    requires Inv(s) && s.retry.Some? && s.attempt == Some(s.retry.value.attempt)
    ensures var r := s.retry.value; r.pending - FinishedBy(s, r) == Unanswered(s)
  {
    var r := s.retry.value;
    forall m ensures m in r.pending - FinishedBy(s, r) <==> m in Unanswered(s) {
      if m in s.targets {
        FinishedAre(s, m);
      }
    }
  }

  lemma PromptsOfAgain(s: Mesh, m: string)
    requires Inv(s) && s.retry.Some? && s.attempt == Some(s.retry.value.attempt)
    ensures var prompts := PromptsAgain(s.retry.value, Unanswered(s));
            && prompts.Keys == Unanswered(s)
            && (m in prompts ==> m in s.asked && prompts[m] == s.asked[m])
  {
  }

  /** The member is asked anew, or left alone. */
  ghost predicate AskedAnew(s: Mesh, r: Mesh, m: string)
    requires s.attempt.Some? && m in s.workers
  {
    && m in r.workers
    && if m in Unanswered(s) then m in s.asked && r.workers[m] == s.workers[m].(queue := [Prompt(s.nextAttempt, s.asked[m])], held := false)
       else r.workers[m] == s.workers[m]
  }

  lemma AttemptIsOld(s: Mesh)
    requires Inv(s) && s.attempt.Some?
    ensures s.attempt.value < s.nextAttempt
  {
  }

  lemma ContinueIs(s: Mesh)
    requires Inv(s) && Enabled(s, FinishContinue) && s.paused && s.attempt == Some(s.retry.value.attempt)
    ensures var s1 := RetryRecorded(s, s.retry.value);
            FinishRetry(s) == if Unanswered(s) == {} then s1.(paused := false, pausedPending := {})
                              else Queued(s1, PromptsAgain(s.retry.value, Unanswered(s)))
  {
    AgainAreUnanswered(s);
  }

  lemma ContinueShape(s: Mesh, prompts: map<string, string>)
    requires s.attempt.Some? && s.attempt.value < s.nextAttempt && s.retry.Some? && prompts.Keys == Unanswered(s)
    ensures var s1 := RetryRecorded(s, s.retry.value);
            var r := if Unanswered(s) == {} then s1.(paused := false, pausedPending := {}) else Queued(s1, prompts);
            && !r.paused && r.retry == None && r.original == s.original
            && (r.attempt == Some(s.nextAttempt) <==> Unanswered(s) != {})
            && (Unanswered(s) == {} ==> r.attempt == s.attempt && r.targets == s.targets && r.workers == s.workers)
            && (Unanswered(s) != {} ==> r.targets == Unanswered(s) && r.workers.Keys == s.workers.Keys)
  {
  }

  lemma ContinueDecides(s: Mesh)
    requires Inv(s) && Enabled(s, FinishContinue) && s.paused && s.attempt == Some(s.retry.value.attempt)
    ensures var r := FinishRetry(s);
            && !r.paused && r.retry == None && r.original == s.original
            && (r.attempt == Some(s.nextAttempt) <==> Unanswered(s) != {})
            && (Unanswered(s) == {} ==> r.attempt == s.attempt && r.targets == s.targets && r.workers == s.workers)
            && (Unanswered(s) != {} ==> r.targets == Unanswered(s) && r.workers.Keys == s.workers.Keys)
  {
    AttemptIsOld(s);
    ContinueIs(s);
    PromptsOfAgain(s, "");
    ContinueShape(s, PromptsAgain(s.retry.value, Unanswered(s)));
  }

  lemma ContinueAsks(s: Mesh, m: string)
    requires Inv(s) && Enabled(s, FinishContinue) && s.paused && s.attempt == Some(s.retry.value.attempt) && m in s.workers
    ensures AskedAnew(s, Step(s, FinishContinue), m)
  {
    ContinueIs(s);
    PromptsOfAgain(s, m);
  }

  /** When Continue ends and the stage it began on is still the group's, a new attempt is
      minted exactly if some addressed member has no answer; exactly those are addressed
      and get what they were first asked in a running queue. Otherwise the group goes on
      with the attempt it has. */
  lemma ContinueAsksTheUnfinished(states: seq<Mesh>, events: seq<Event>, i: nat)
    requires IsRun(states, events) && i < |events| && events[i].FinishContinue?
    requires states[i].paused && states[i].attempt == Some(states[i].retry.value.attempt)
    ensures var s, r := states[i], states[i + 1];
            && !r.paused && r.retry == None
            && (r.attempt == Some(s.nextAttempt) <==> Unanswered(s) != {})
            && (Unanswered(s) == {} ==> r.attempt == s.attempt && r.targets == s.targets && r.workers == s.workers)
            && (Unanswered(s) != {} ==> r.targets == Unanswered(s) && forall m | m in s.workers :: AskedAnew(s, r, m))
  {
    RunKeepsInv(states, events, i);
    ContinueDecides(states[i]);
    forall m | m in states[i].workers ensures AskedAnew(states[i], states[i + 1], m) {
      ContinueAsks(states[i], m);
    }
  }

  /** A Continue whose stage was left or is no longer stopped changes nothing but that it
      ends. */
  lemma StaleContinueEnds(s: Mesh)
    requires Enabled(s, FinishContinue) && !(s.paused && s.attempt == Some(s.retry.value.attempt))
    ensures Step(s, FinishContinue) == s.(retry := None)
  {
  }

  /** The member is done with the attempt and idle. */
  predicate Finished(s: Mesh, m: string)
    requires s.attempt.Some?
  {
    m in s.workers && s.workers[m].activity.Quiet? && Answered(s.workers[m], s.attempt.value)
  }

  /** Whom a stopped stage waits for and who has not finished. */
  function Waiting(s: Mesh): set<string>
    requires s.attempt.Some?
  {
    set m | m in (if s.pausedPending == {} then s.targets else s.pausedPending) && !Finished(s, m)
  }

  /** Continue begins: if all that were stopped have finished it only goes on; if one is
      under way already nothing changes; otherwise it keeps what it read. */
  lemma ContinueBegins(s: Mesh)
    requires Enabled(s, BeginContinue)
    ensures Step(s, BeginContinue) ==
            if Waiting(s) == {} then s.(paused := false, pausedPending := {})
            else if s.retry.Some? then s
            else s.(retry := Some(Retry(s.attempt.value, s.targets, Waiting(s), s.prompts, s.recorded)))
  {
    assert InitialPending(s) == Waiting(s);
  }

  // ---- Stop

  /** Stop leaves a member that has finished alone; any other keeps no prompt but one it
      was preparing, and is held. */
  lemma StopWithdraws(s: Mesh, m: string)
    requires Enabled(s, Pause) && m in s.workers
    ensures var w, r := s.workers[m], Step(s, Pause);
            && m in r.workers
            && r.workers[m] ==
               if m !in s.targets || Finished(s, m) then w
               else if w.activity.Preflight?
               then w.(queue := [w.activity.prompt], held := true, activity := Quiet,
                       last := Some(Receipt(w.activity.prompt.attempt, false, "")))
               else w.(queue := [], held := true)
  {
    assert m in Completed(s) <==> m in s.targets && Finished(s, m);
    var w := s.workers[m];
    if w.activity.Preflight? {
      assert [w.activity.prompt] + [] == [w.activity.prompt];
    }
  }

  /** Who has not finished. */
  function Open(s: Mesh): set<string>
    requires s.attempt.Some?
  {
    set m | m in s.targets && !Finished(s, m)
  }

  /** Stop waits for those who have not finished and changes nothing else of the group. */
  lemma StopWaits(s: Mesh)
    requires Enabled(s, Pause)
    ensures var r := Step(s, Pause);
            && r == s.(workers := r.workers, recorded := r.recorded, done := r.done, paused := true, pausedPending := Open(s))
            && r.workers.Keys == s.workers.Keys
  {
    assert s.targets - Completed(s) == Open(s);
  }

  /** Stop records the answers of those who have finished. */
  lemma StopRecords(s: Mesh, m: string)
    requires Enabled(s, Pause)
    ensures var r := Step(s, Pause);
            if m in s.targets && Finished(s, m) then m in r.recorded && r.recorded[m] == s.workers[m].last.value.text
            else Same(r.recorded, s.recorded, m)
  {
    assert m in Completed(s) <==> m in s.targets && Finished(s, m);
  }

  // ---- one worker

  /** Taking from a queue starts the first prompt if it is current; in either case it
      removes the prompts at the head that share its attempt. */
  lemma TakeStarts(s: Mesh, m: string) returns (n: nat)
    requires Enabled(s, At(m, Take))
    ensures var w, r := s.workers[m], Step(s, At(m, Take)).workers[m];
            && 1 <= n <= |w.queue| && r.queue == w.queue[n..]
            && (forall i | 0 <= i < n :: w.queue[i].attempt == w.queue[0].attempt)
            && (n < |w.queue| ==> w.queue[n].attempt != w.queue[0].attempt)
            && r.activity == (if !s.paused && s.attempt == Some(w.queue[0].attempt) then Preflight(w.queue[0]) else Quiet)
            && r == w.(queue := r.queue, activity := r.activity)
  {
    n := BatchLength(s.workers[m].queue, s.workers[m].queue[0].attempt);
  }

  lemma {:induction false} BatchLength(queue: seq<Prompt>, attempt: nat) returns (n: nat)
    ensures n <= |queue| && AfterBatch(queue, attempt) == queue[n..]
    ensures forall i | 0 <= i < n :: queue[i].attempt == attempt
    ensures n < |queue| ==> queue[n].attempt != attempt
  {
    n := 0;
    if queue != [] && queue[0].attempt == attempt {
      var k := BatchLength(queue[1..], attempt);
      n := k + 1;
      assert queue[1..][k..] == queue[n..];
    }
  }

  /** A run that succeeds leaves its receipt behind. */
  lemma RunAnswers(s: Mesh, m: string, text: string)
    requires m in s.workers && s.workers[m].activity.Running?
    ensures var w := s.workers[m];
            Step(s, At(m, WorkerEvent.Finish(true, text))).workers[m]
            == w.(activity := Quiet, last := Some(Receipt(w.activity.prompt.attempt, true, text)))
  {
  }

  /** A refused or lost prompt is not forgotten: it waits, and in the end it is the first of
      the queue again, which is held until it is released. */
  lemma RefusedComesBack(w: Worker, current: bool, text: string)
    requires w.activity.Running? && w.refused == []
    ensures var p := w.activity.prompt;
            var back := w.(activity := Quiet, queue := [p] + w.queue, held := true);
            && StepWorker(StepWorker(w, Lose, current), PutBack, current) == back
            && StepWorker(StepWorker(w, WorkerEvent.Finish(false, text), current), PutBack, current)
               == back.(last := Some(Receipt(p.attempt, false, text)))
            && StepWorker(back, Release, current) == back.(held := false)
  {
    var p := w.activity.prompt;
    assert [] + [p] == [p] && [p][1..] == [];
  }

  // ---- a stage can be brought to its end

  ghost predicate IsPath(states: seq<Mesh>, events: seq<Event>) {
    && |states| == |events| + 1
    && forall i | 0 <= i < |events| :: Enabled(states[i], events[i]) && states[i + 1] == Step(states[i], events[i])
  }

  /** Some enabled events lead from s to t. */
  ghost predicate Leads(s: Mesh, t: Mesh) {
    exists states: seq<Mesh>, events: seq<Event> :: IsPath(states, events) && states[0] == s && states[|events|] == t
  }

  lemma LeadsNowhere(s: Mesh)
    ensures Leads(s, s)
  {
    assert IsPath([s], []);
  }

  lemma LeadsOn(s: Mesh, t: Mesh, e: Event)
    requires Leads(s, t) && Enabled(t, e)
    ensures Leads(s, Step(t, e))
  {
    var states: seq<Mesh>, events: seq<Event> :| IsPath(states, events) && states[0] == s && states[|events|] == t;
    var states2, events2 := states + [Step(t, e)], events + [e];
    forall i | 0 <= i < |events2| ensures Enabled(states2[i], events2[i]) && states2[i + 1] == Step(states2[i], events2[i]) {
      if i < |events| {
        assert states2[i] == states[i] && states2[i + 1] == states[i + 1] && events2[i] == events[i];
      }
    }
    assert IsPath(states2, events2);
  }

  /** Only the workers differ, and there are as many. */
  ghost predicate SameStage(s: Mesh, t: Mesh) {
    t == s.(workers := t.workers) && t.workers.Keys == s.workers.Keys
  }

  function Busy(s: Mesh): set<string> {
    set m | m in s.workers && !s.workers[m].activity.Quiet?
  }

  lemma OneFallsQuiet(s0: Mesh, s: Mesh, m: string) returns (t: Mesh)
    requires Leads(s0, s) && Inv(s) && m in Busy(s)
    ensures Leads(s0, t) && Inv(t) && SameStage(s, t) && Busy(t) == Busy(s) - {m}
  {
    var e := At(m, if s.workers[m].activity.Running? then Lose else FailPreflight);
    LeadsOn(s0, s, e);
    StepKeepsInv(s, e);
    t := Step(s, e);
    FallenQuiet(s, t, m);
  }

  lemma FallenQuiet(s: Mesh, t: Mesh, m: string)
    requires m in Busy(s)
    requires t == Step(s, At(m, if s.workers[m].activity.Running? then Lose else FailPreflight))
    ensures SameStage(s, t) && Busy(t) == Busy(s) - {m}
  {
  }

  /** Every run and every preflight can end. */
  lemma {:induction false} AllFallQuiet(s0: Mesh, s: Mesh) returns (t: Mesh)
    requires Leads(s0, s) && Inv(s)
    ensures Leads(s0, t) && Inv(t) && SameStage(s, t) && Busy(t) == {}
    decreases |Busy(s)|
  {
    if Busy(s) == {} {
      t := s;
    } else {
      var m :| m in Busy(s);
      var s1 := OneFallsQuiet(s0, s, m);
      t := AllFallQuiet(s0, s1);
    }
  }

  /** The member has been asked and can start at once. */
  ghost predicate ReadyToStart(s: Mesh, m: string)
    requires s.attempt.Some?
  {
    m in s.workers && var w := s.workers[m];
    w.activity.Quiet? && !w.held && w.queue != [] && w.queue[0].attempt == s.attempt.value
  }

  /** A member that can start can also finish. */
  lemma OneAnswers(s0: Mesh, s: Mesh, m: string) returns (t: Mesh)
    requires Leads(s0, s) && s.attempt.Some? && !s.paused && ReadyToStart(s, m)
    ensures Leads(s0, t) && SameStage(s, t) && Finished(t, m)
    ensures forall x | x in s.workers && x != m :: t.workers[x] == s.workers[x]
  {
    var s1 := Step(s, At(m, Take));
    LeadsOn(s0, s, At(m, Take));
    LeadsOn(s0, s1, At(m, Commit));
    var s2 := Step(s1, At(m, Commit));
    var finish := At(m, WorkerEvent.Finish(true, "done"));
    LeadsOn(s0, s2, finish);
    t := Step(s2, finish);
  }

  lemma {:induction false} AllAnswer(s0: Mesh, s: Mesh) returns (t: Mesh)
    requires Leads(s0, s) && s.attempt.Some? && !s.paused && forall m | m in Open(s) :: ReadyToStart(s, m)
    ensures Leads(s0, t) && SameStage(s, t) && Open(t) == {}
    decreases |Open(s)|
  {
    if Open(s) == {} {
      t := s;
    } else {
      var m :| m in Open(s);
      var s1 := OneAnswers(s0, s, m);
      assert Open(s1) == Open(s) - {m};
      t := AllAnswer(s0, s1);
    }
  }

  /** A stopped stage whose workers are idle can be continued until everyone can start
      who has not finished. */
  lemma CanContinue(s0: Mesh, s: Mesh) returns (t: Mesh)
    requires Leads(s0, s) && Inv(s) && s.attempt.Some? && s.paused && s.retry.None? && Busy(s) == {}
    ensures Leads(s0, t) && t.attempt.Some? && !t.paused && t.original == s.original
    ensures forall m | m in Open(t) :: ReadyToStart(t, m)
  {
    var r := Step(s, BeginContinue);
    LeadsOn(s0, s, BeginContinue);
    StepKeepsInv(s, BeginContinue);
    ContinueBegins(s);
    if Waiting(s) != {} {
      t := ContinueEnds(s0, r);
    } else {
      t := r;
      GoesOnFinished(s);
      assert Open(t) == Open(s);
    }
  }

  lemma GoesOnFinished(s: Mesh)
    requires Inv(s) && s.attempt.Some? && s.paused && Busy(s) == {} && Waiting(s) == {}
    ensures Open(s) == {}
  {
    forall m | m in s.targets ensures Finished(s, m) {
      assert m !in Waiting(s);
      UnstoppedFinished(s, m);
    }
  }

  /** Whoever is not waited for by a stopped stage has finished. */
  lemma UnstoppedFinished(s: Mesh, m: string)
    requires Inv(s) && s.attempt.Some? && s.paused && Busy(s) == {} && m in s.targets
    requires m in s.pausedPending || s.pausedPending == {} ==> Finished(s, m)
    ensures Finished(s, m)
  {
    if m !in s.pausedPending {
      assert m in s.done;
    }
    assert m in s.workers && m !in Busy(s);
  }

  lemma ContinueEnds(s0: Mesh, r: Mesh) returns (t: Mesh)
    requires Leads(s0, r) && Inv(r) && r.attempt.Some? && r.paused && Busy(r) == {}
    requires r.retry.Some? && r.retry.value.attempt == r.attempt.value
    ensures Leads(s0, t) && t.attempt.Some? && !t.paused && t.original == r.original
    ensures forall m | m in Open(t) :: ReadyToStart(t, m)
  {
    assert Enabled(r, FinishContinue) by {
      PendingAreIdle(r);
    }
    LeadsOn(s0, r, FinishContinue);
    ContinueDecides(r);
    t := Step(r, FinishContinue);
    forall m | m in Open(t) ensures ReadyToStart(t, m) {
      TargetsWork(r, m);
      ContinueAsks(r, m);
    }
  }

  lemma PendingAreIdle(r: Mesh)
    requires Inv(r) && r.retry.Some? && r.attempt == Some(r.retry.value.attempt) && Busy(r) == {}
    ensures Enabled(r, FinishContinue)
  {
    forall m | m in r.retry.value.pending ensures m in r.workers && r.workers[m].activity.Quiet? {
      assert m in r.targets && m in r.workers && m !in Busy(r);
    }
  }

  lemma TargetsWork(r: Mesh, m: string)
    requires Inv(r) && r.attempt.Some? && Busy(r) == {} && m in r.targets
    ensures m in r.workers && r.workers[m].activity.Quiet?
  {
    assert m in r.workers && m !in Busy(r);
  }

  /** However often a stage was stopped and continued, whatever was lost, refused or came
      late: from every state of every run some events bring it to where it settles. */
  lemma StageCanSettle(states: seq<Mesh>, events: seq<Event>, i: nat) returns (t: Mesh)
    requires IsRun(states, events) && i < |states| && states[i].attempt.Some?
    ensures Leads(states[i], t) && Enabled(t, Settle) && t.original == states[i].original
  {
    var s := states[i];
    RunKeepsInv(states, events, i);
    LeadsNowhere(s);
    LeadsOn(s, s, GiveUpContinue);
    StepKeepsInv(s, GiveUpContinue);
    var idle := AllFallQuiet(s, Step(s, GiveUpContinue));
    var stopped := idle;
    if !idle.paused {
      LeadsOn(s, idle, Pause);
      StepKeepsInv(idle, Pause);
      stopped := Step(idle, Pause);
      StopStaysIdle(idle);
    }
    var running := CanContinue(s, stopped);
    t := AllAnswer(s, running);
    forall m | m in t.targets ensures Succeeded(t, m) {
      assert m !in Open(t);
    }
  }

  lemma StopStaysIdle(s: Mesh)
    requires Inv(s) && Enabled(s, Pause) && Busy(s) == {}
    ensures var r := Step(s, Pause); Busy(r) == {} && r.paused && r.attempt == s.attempt && r.retry == s.retry && r.original == s.original
  {
    StopWaits(s);
    forall m | m in s.workers ensures Step(s, Pause).workers[m].activity.Quiet? {
      assert m !in Busy(s);
      StopWithdraws(s, m);
    }
  }
}
