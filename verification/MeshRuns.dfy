/** What every run of a Mesh stage keeps: nobody who answered is asked again, and nobody
    who was addressed is left without a recorded answer. */
module MeshRuns {
  import opened Options
  import opened MeshStage

  // ---- the prompts of one attempt a worker still has

  function Count(queue: seq<Prompt>, attempt: nat): nat {
    if queue == [] then 0 else (if queue[0].attempt == attempt then 1 else 0) + Count(queue[1..], attempt)
  }

  function InFlight(w: Worker, attempt: nat): nat {
    if !w.activity.Quiet? && w.activity.prompt.attempt == attempt then 1 else 0
  }

  function Live(w: Worker, attempt: nat): nat {
    Count(w.queue, attempt) + Count(w.refused, attempt) + InFlight(w, attempt)
  }

  predicate Holds(w: Worker, p: Prompt) {
    p in w.queue || p in w.refused || (!w.activity.Quiet? && w.activity.prompt == p)
  }

  /** Every prompt and the receipt come from attempts below n. */
  ghost predicate Older(w: Worker, n: nat) {
    && (forall p | Holds(w, p) :: p.attempt < n)
    && (w.last.Some? ==> w.last.value.attempt < n)
  }

  /** At most limit prompts of the attempt, all with the one text, and none once the
      attempt has succeeded. */
  ghost predicate WorkerOk(w: Worker, attempt: nat, limit: nat, text: string) {
    && Live(w, attempt) <= limit
    && (forall p | Holds(w, p) && p.attempt == attempt :: p.text == text)
    && (Success(w, attempt) ==> Live(w, attempt) == 0 && w.activity.Quiet?)
  }

  lemma {:induction false} CountOlder(queue: seq<Prompt>, attempt: nat)
    requires forall p | p in queue :: p.attempt < attempt
    ensures Count(queue, attempt) == 0
  {
    if queue != [] {
      CountOlder(queue[1..], attempt);
    }
  }

  lemma {:induction false} CountAppend(a: seq<Prompt>, b: seq<Prompt>, attempt: nat)
    ensures Count(a + b, attempt) == Count(a, attempt) + Count(b, attempt)
  {
    if a == [] {
      assert a + b == b;
    } else {
      assert (a + b)[1..] == a[1..] + b;
      CountAppend(a[1..], b, attempt);
    }
  }

  lemma {:induction false} AfterBatchCount(queue: seq<Prompt>, batch: nat, attempt: nat)
    ensures var rest := AfterBatch(queue, batch);
            && Count(rest, attempt) <= Count(queue, attempt)
            && (queue != [] && queue[0].attempt == batch == attempt ==> Count(rest, attempt) < Count(queue, attempt))
            && (forall p | p in rest :: p in queue)
  {
    if queue != [] && queue[0].attempt == batch {
      AfterBatchCount(queue[1..], batch, attempt);
    }
  }

  lemma TakeKeeps(w: Worker, current: bool, attempt: nat, limit: nat, text: string)
    requires w.queue != [] && w.activity.Quiet? && WorkerOk(w, attempt, limit, text)
    requires current ==> w.queue[0].attempt == attempt
    ensures WorkerOk(TakeBatch(w, current), attempt, limit, text)
  {
    AfterBatchCount(w.queue, w.queue[0].attempt, attempt);
    var r := TakeBatch(w, current);
    assert forall p | Holds(r, p) :: Holds(w, p);
    if w.queue[0].attempt == attempt {
      assert Count(w.queue, attempt) >= 1;
    }
  }

  lemma RollBackKeeps(w: Worker, attempt: nat, limit: nat, text: string)
    requires WorkerOk(w, attempt, limit, text)
    ensures WorkerOk(RolledBack(w), attempt, limit, text)
  {
    if w.activity.Preflight? {
      var r := RolledBack(w);
      assert r.queue[1..] == w.queue;
      assert forall p | Holds(r, p) :: Holds(w, p);
    }
  }

  lemma StopKeeps(w: Worker, attempt: nat, limit: nat, text: string)
    requires WorkerOk(w, attempt, limit, text)
    ensures WorkerOk(Stopped(w), attempt, limit, text)
  {
    var r := w.(queue := [], held := true);
    assert forall p | Holds(r, p) :: Holds(w, p);
    RollBackKeeps(r, attempt, limit, text);
  }

  lemma RefuseKeeps(w: Worker, last: Option<Receipt>, attempt: nat, limit: nat, text: string)
    requires WorkerOk(w, attempt, limit, text) && w.activity.Running?
    requires last == w.last || (last.Some? && !last.value.ok)
    ensures WorkerOk(Refused(w, last), attempt, limit, text)
  {
    var r := Refused(w, last);
    CountAppend(w.refused, [w.activity.prompt], attempt);
    assert [w.activity.prompt][1..] == [];
    assert forall p | Holds(r, p) :: Holds(w, p);
  }

  lemma PutBackKeeps(w: Worker, current: bool, attempt: nat, limit: nat, text: string)
    requires w.refused != [] && WorkerOk(w, attempt, limit, text)
    ensures WorkerOk(StepWorker(w, PutBack, current), attempt, limit, text)
  {
    var r := StepWorker(w, PutBack, current);
    assert r.queue[1..] == w.queue;
    assert forall p | Holds(r, p) :: Holds(w, p);
  }

  lemma WorkerEventKeeps(w: Worker, e: WorkerEvent, current: bool, attempt: nat, limit: nat, text: string)
    requires CanHappen(w, e) && WorkerOk(w, attempt, limit, text) && limit <= 1
    requires current ==> w.queue != [] && w.queue[0].attempt == attempt
    ensures WorkerOk(StepWorker(w, e, current), attempt, limit, text)
    ensures Success(w, attempt) ==> StepWorker(w, e, current).last == w.last
  {
    var r := StepWorker(w, e, current);
    match e
    case Take => TakeKeeps(w, current, attempt, limit, text);
    case FailPreflight => RollBackKeeps(w, attempt, limit, text);
    case Finish(ok, answer) =>
      if ok {
        assert forall p | Holds(r, p) :: Holds(w, p);
      } else {
        RefuseKeeps(w, r.last, attempt, limit, text);
      }
    case Lose => RefuseKeeps(w, w.last, attempt, limit, text);
    case PutBack => PutBackKeeps(w, current, attempt, limit, text);
    case _ => assert forall p | Holds(r, p) :: Holds(w, p);
  }

  /** An event of a worker brings in no prompt and no attempt it did not have. */
  lemma WorkerEventOlder(w: Worker, e: WorkerEvent, current: bool, n: nat)
    requires CanHappen(w, e) && Older(w, n) && (current ==> w.queue != [])
    ensures Older(StepWorker(w, e, current), n)
  {
    var r := StepWorker(w, e, current);
    if e.Take? {
      AfterBatchCount(w.queue, w.queue[0].attempt, 0);
      assert Holds(w, w.queue[0]);
    } else if e.PutBack? {
      assert Holds(w, w.refused[0]);
    } else if !w.activity.Quiet? {
      assert Holds(w, w.activity.prompt);
    }
    assert forall p | Holds(r, p) :: Holds(w, p);
  }

  // ---- the invariant

  predicate Same(a: map<string, string>, b: map<string, string>, m: string) {
    if m in a then m in b && a[m] == b[m] else m !in b
  }

  function Limit(s: Mesh, m: string): nat {
    if m in s.targets then 1 else 0
  }

  function Asked(s: Mesh, m: string): string {
    if m in s.asked then s.asked[m] else ""
  }

  ghost predicate WorkersOk(s: Mesh) {
    && (forall m | m in s.workers :: Older(s.workers[m], s.nextAttempt))
    && (s.attempt.Some? ==>
          forall m | m in s.workers :: WorkerOk(s.workers[m], s.attempt.value, Limit(s, m), Asked(s, m)))
  }

  /** Who has been recorded: every member the stage no longer addresses, and a member
      still addressed only with the text of its successful run. */
  ghost predicate RecordsOk(s: Mesh) {
    && (forall m | m in s.done :: m in s.original && s.done[m] != "" && m in s.recorded && s.recorded[m] == s.done[m])
    && (forall m | m !in s.done :: Same(s.recorded, s.prior, m))
    && (forall m | m in s.original && m !in s.targets :: m in s.done)
    && (s.attempt.Some? ==> forall m | m in s.done && m in s.targets ::
          m in s.workers && Success(s.workers[m], s.attempt.value) && s.workers[m].last.value.text == s.done[m])
  }

  ghost predicate StageOk(s: Mesh) {
    && s.targets <= s.original <= s.workers.Keys && s.asked.Keys == s.original
    && s.prompts.Keys == s.targets && (forall m | m in s.targets :: s.prompts[m] == s.asked[m])
    && s.pausedPending <= s.targets
    && (s.attempt.Some? ==> s.attempt.value < s.nextAttempt)
    && (s.attempt.Some? && s.paused ==> forall m | m in s.targets && m !in s.pausedPending :: m in s.done)
  }

  /** What a waiting Continue still knows of the attempt it was begun on. */
  ghost predicate RetryOk(s: Mesh) {
    s.retry.Some? ==>
      var r := s.retry.value;
      && r.attempt < s.nextAttempt
      && (s.attempt == Some(r.attempt) ==>
            && r.targets == s.targets && r.pending <= s.targets && r.prompts == s.prompts
            && (forall m | m in s.targets && m !in r.pending :: m in s.workers && Success(s.workers[m], r.attempt))
            && (forall m | m !in s.done :: Same(r.base, s.prior, m))
            && (forall m | m in s.done && m !in s.targets :: Same(r.base, s.recorded, m)))
  }

  /** Outside a stage all the members last addressed have been recorded, unless the
      stage was left before its end. */
  ghost predicate Inv(s: Mesh) {
    && WorkersOk(s)
    && (s.attempt.Some? ==> RecordsOk(s) && StageOk(s))
    && RetryOk(s)
  }

  // ---- worker events

  /** The successful receipts of the attempt are still there. */
  ghost predicate Keeps(s: Mesh, workers: map<string, Worker>) {
    && workers.Keys == s.workers.Keys
    && (s.attempt.Some? ==> forall m | m in workers && Success(s.workers[m], s.attempt.value) ::
          workers[m].last == s.workers[m].last)
  }

  lemma KeepsRecords(s: Mesh, workers: map<string, Worker>)
    requires RecordsOk(s) && Keeps(s, workers)
    ensures RecordsOk(s.(workers := workers))
  {
  }

  lemma KeepsRetry(s: Mesh, workers: map<string, Worker>)
    requires RetryOk(s) && Keeps(s, workers)
    ensures RetryOk(s.(workers := workers))
  {
  }

  lemma KeepsStage(s: Mesh, workers: map<string, Worker>)
    requires StageOk(s) && Keeps(s, workers)
    ensures StageOk(s.(workers := workers))
  {
  }

  lemma WorkersStep(s: Mesh, m: string, e: WorkerEvent, current: bool)
    requires WorkersOk(s) && m in s.workers && CanHappen(s.workers[m], e)
    requires current ==> s.workers[m].queue != [] && s.attempt == Some(s.workers[m].queue[0].attempt)
    ensures var workers := s.workers[m := StepWorker(s.workers[m], e, current)];
            WorkersOk(s.(workers := workers)) && Keeps(s, workers)
  {
    var w := s.workers[m];
    WorkerEventOlder(w, e, current, s.nextAttempt);
    if s.attempt.Some? {
      WorkerEventKeeps(w, e, current, s.attempt.value, Limit(s, m), Asked(s, m));
    }
  }

  lemma WorkerStepKeeps(s: Mesh, m: string, e: WorkerEvent)
    requires Inv(s) && Enabled(s, At(m, e))
    ensures Inv(Step(s, At(m, e)))
  {
    var w := s.workers[m];
    var current := w.queue != [] && IsCurrent(s, w.queue[0]);
    var workers := s.workers[m := StepWorker(w, e, current)];
    WorkersStep(s, m, e, current);
    if s.attempt.Some? {
      KeepsRecords(s, workers);
      KeepsStage(s, workers);
    }
    KeepsRetry(s, workers);
  }

  // ---- minting an attempt

  lemma FreshPrompt(w: Worker, n: nat, text: string)
    requires Older(w, n)
    ensures Older(Prompted(w, Prompt(n, text)), n + 1) && WorkerOk(Prompted(w, Prompt(n, text)), n, 1, text)
  {
    var r := Prompted(w, Prompt(n, text));
    assert forall p | Holds(r, p) :: p == r.queue[0] || Holds(w, p);
    assert r.queue[1..] == [];
    assert Count(r.queue, n) == 1;
    NoneLeft(w, n);
  }

  lemma NoneLeft(w: Worker, n: nat)
    requires Older(w, n)
    ensures Older(w, n + 1) && Count(w.refused, n) == 0 && Live(w, n) == 0 && !Success(w, n) && (forall p | Holds(w, p) :: p.attempt != n)
  {
    assert forall p | p in w.refused :: Holds(w, p);
    assert forall p | p in w.queue :: Holds(w, p);
    CountOlder(w.refused, n);
    CountOlder(w.queue, n);
  }

  lemma QueuedWorkers(s: Mesh, prompts: map<string, string>)
    requires WorkersOk(s) && prompts.Keys <= s.workers.Keys <= s.workers.Keys
    requires forall m | m in prompts :: m in s.asked && s.asked[m] == prompts[m]
    ensures WorkersOk(Queued(s, prompts))
  {
    var r := Queued(s, prompts);
    forall m | m in r.workers
      ensures Older(r.workers[m], r.nextAttempt) && WorkerOk(r.workers[m], s.nextAttempt, Limit(r, m), Asked(r, m))
    {
      if m in prompts {
        FreshPrompt(s.workers[m], s.nextAttempt, prompts[m]);
      } else {
        NoneLeft(s.workers[m], s.nextAttempt);
      }
    }
  }

  function Started(s: Mesh, prompts: map<string, string>): Mesh {
    s.(original := prompts.Keys, asked := prompts, prior := s.recorded, done := map[])
  }

  lemma StartRecords(s: Mesh, prompts: map<string, string>)
    requires prompts.Keys <= s.workers.Keys
    ensures RecordsOk(Queued(Started(s, prompts), prompts)) && StageOk(Queued(Started(s, prompts), prompts))
  {
  }

  lemma StartKeeps(s: Mesh, prompts: map<string, string>)
    requires Inv(s) && Enabled(s, QueueStage(prompts))
    ensures Inv(Step(s, QueueStage(prompts)))
  {
    QueuedWorkers(Started(s, prompts), prompts);
    StartRecords(s, prompts);
    assert RetryOk(Queued(Started(s, prompts), prompts));
  }

  // ---- Stop

  lemma PausedWorkers(s: Mesh)
    requires WorkersOk(s) && s.attempt.Some?
    ensures WorkersOk(PauseStage(s)) && Keeps(s, PauseStage(s).workers)
  {
    var r := PauseStage(s);
    forall m | m in r.workers
      ensures Older(r.workers[m], s.nextAttempt) && WorkerOk(r.workers[m], s.attempt.value, Limit(s, m), Asked(s, m))
      ensures Success(s.workers[m], s.attempt.value) ==> r.workers[m].last == s.workers[m].last
    {
      if m in r.pausedPending {
        StopKeeps(s.workers[m], s.attempt.value, Limit(s, m), Asked(s, m));
        StopOlder(s.workers[m], s.nextAttempt);
      }
    }
  }

  lemma StopOlder(w: Worker, n: nat)
    requires Older(w, n)
    ensures Older(Stopped(w), n)
  {
    var r := Stopped(w);
    assert forall p | Holds(r, p) :: Holds(w, p);
    if w.activity.Preflight? {
      assert Holds(w, w.activity.prompt);
    }
  }

  /** Recording the texts of successful members. */
  lemma RecordKeeps(s: Mesh, members: set<string>)
    requires s.attempt.Some? && RecordsOk(s) && StageOk(s) && members <= s.targets
    requires forall m | m in members :: m in s.workers && s.workers[m].last.Some? && Success(s.workers[m], s.attempt.value)
    ensures var values := Values(s, members);
            RecordsOk(Record(s, values))
  {
  }

  lemma RecordRetry(s: Mesh, members: set<string>)
    requires s.attempt.Some? && RetryOk(s) && members <= s.targets
    requires forall m | m in members :: m in s.workers && s.workers[m].last.Some?
    ensures RetryOk(Record(s, Values(s, members)))
  {
  }

  lemma RecordInv(s: Mesh, members: set<string>)
    requires Inv(s) && s.attempt.Some? && members <= s.targets
    requires forall m | m in members :: m in s.workers && s.workers[m].last.Some? && Success(s.workers[m], s.attempt.value)
    ensures Inv(Record(s, Values(s, members)))
  {
    RecordKeeps(s, members);
    RecordRetry(s, members);
  }

  lemma PausedStage(s: Mesh, workers: map<string, Worker>, pending: set<string>)
    requires StageOk(s) && pending <= s.targets && Keeps(s, workers)
    requires forall m | m in s.targets && m !in pending :: m in s.done
    ensures StageOk(s.(workers := workers, paused := true, pausedPending := pending))
  {
  }

  lemma PausedRecords(s: Mesh, workers: map<string, Worker>, pending: set<string>)
    requires RecordsOk(s) && Keeps(s, workers)
    ensures RecordsOk(s.(workers := workers, paused := true, pausedPending := pending))
  {
  }

  lemma PauseKeeps(s: Mesh)
    requires Inv(s) && Enabled(s, Pause)
    ensures Inv(PauseStage(s))
  {
    var completed := Completed(s);
    var s1 := Record(s, Values(s, completed));
    var workers := StopAll(s.workers, s.targets - completed);
    RecordInv(s, completed);
    PausedWorkers(s);
    PausedRecords(s1, workers, s.targets - completed);
    PausedStage(s1, workers, s.targets - completed);
    KeepsRetry(s1, workers);
  }

  // ---- Continue

  function Unpaused(s: Mesh): Mesh {
    s.(paused := false, pausedPending := {})
  }

  lemma UnpauseWorkers(s: Mesh)
    requires WorkersOk(s)
    ensures WorkersOk(Unpaused(s))
  {
    assert forall m | m in s.workers :: Limit(Unpaused(s), m) == Limit(s, m) && Asked(Unpaused(s), m) == Asked(s, m);
  }

  lemma UnpauseKeeps(s: Mesh)
    requires Inv(s) && s.attempt.Some?
    ensures Inv(s.(paused := false, pausedPending := {}))
  {
    UnpauseWorkers(s);
    assert Unpaused(s) == s.(paused := false, pausedPending := {});
  }

  lemma NotPendingSucceeded(s: Mesh, m: string)
    requires Inv(s) && s.attempt.Some? && s.paused && m in s.targets && m !in InitialPending(s)
    ensures m in s.workers && Success(s.workers[m], s.attempt.value)
  {
    assert m in s.done || Succeeded(s, m);
  }

  lemma SetRetry(s: Mesh, retry: Option<Retry>)
    requires WorkersOk(s) && (s.attempt.Some? ==> RecordsOk(s) && StageOk(s)) && RetryOk(s.(retry := retry))
    ensures Inv(s.(retry := retry))
  {
    var r := s.(retry := retry);
    assert s.attempt.Some? ==> RecordsOk(r) && StageOk(r);
  }

  lemma CapturedOk(s: Mesh)
    requires Inv(s) && s.attempt.Some? && s.paused
    ensures RetryOk(s.(retry := Some(Captured(s))))
  {
    forall m | m in s.targets && m !in InitialPending(s) ensures m in s.workers && Success(s.workers[m], s.attempt.value) {
      NotPendingSucceeded(s, m);
    }
  }

  lemma CaptureKeeps(s: Mesh)
    requires Inv(s) && s.attempt.Some? && s.paused
    ensures Inv(s.(retry := Some(Captured(s))))
  {
    CapturedOk(s);
    SetRetry(s, Some(Captured(s)));
  }

  /** The members that finished in time, and the others: still pending, not recorded. */
  lemma FinishedAre(s: Mesh, m: string)
    requires Inv(s) && s.retry.Some? && s.attempt == Some(s.retry.value.attempt) && m in s.targets
    ensures var r := s.retry.value;
            if m in FinishedBy(s, r) then m in s.workers && s.workers[m].last.Some? && Success(s.workers[m], r.attempt)
            else m in r.pending && m !in s.done
  {
  }

  /** Recording on what the group had when Continue began loses nothing since. */
  lemma BaseIsRecent(s: Mesh, m: string)
    requires Inv(s) && s.retry.Some? && s.attempt == Some(s.retry.value.attempt) && m !in FinishedBy(s, s.retry.value)
    ensures Same(s.retry.value.base, s.recorded, m)
  {
    if m in s.targets {
      FinishedAre(s, m);
    }
  }

  lemma SameMaps(a: map<string, string>, b: map<string, string>)
    requires forall m :: Same(a, b, m)
    ensures a == b
  {
    assert forall m | m in a :: Same(a, b, m);
    assert forall m | m in b :: Same(a, b, m);
  }

  lemma BaseValues(s: Mesh)
    requires Inv(s) && s.retry.Some? && s.attempt == Some(s.retry.value.attempt)
    ensures var values := Values(s, FinishedBy(s, s.retry.value)); s.retry.value.base + values == s.recorded + values
  {
    var r := s.retry.value;
    var values := Values(s, FinishedBy(s, r));
    forall m ensures Same(r.base + values, s.recorded + values, m) {
      if m !in values {
        BaseIsRecent(s, m);
      }
    }
    SameMaps(r.base + values, s.recorded + values);
  }

  lemma BaseRecords(s: Mesh)
    requires Inv(s) && s.retry.Some? && s.attempt == Some(s.retry.value.attempt)
    ensures var r := s.retry.value; RetryRecorded(s, r) == Record(s, Values(s, FinishedBy(s, r))).(retry := None)
  {
    BaseValues(s);
  }

  /** What Continue leaves recorded: the members that finished in time join those
      recorded before. */
  lemma RetryRecords(s: Mesh)
    requires Inv(s) && s.retry.Some? && s.attempt == Some(s.retry.value.attempt)
    ensures Inv(RetryRecorded(s, s.retry.value))
  {
    var r := s.retry.value;
    var completed := FinishedBy(s, r);
    forall m | m in completed ensures m in s.workers && s.workers[m].last.Some? && Success(s.workers[m], r.attempt) {
      FinishedAre(s, m);
    }
    BaseRecords(s);
    RecordInv(s, completed);
    var values := Values(s, completed);
    SetRetry(Record(s, values), None);
  }

  /** Only the members still unfinished are asked again. */
  lemma AgainRecords(s: Mesh, prompts: map<string, string>)
    requires s.attempt.Some? && RecordsOk(s) && prompts.Keys <= s.targets
    requires forall m | m in s.targets && m !in prompts :: m in s.done
    requires forall m | m in prompts :: m !in s.done
    ensures RecordsOk(Queued(s, prompts))
  {
  }

  lemma AgainKeeps(s: Mesh, prompts: map<string, string>)
    requires Inv(s) && s.attempt.Some? && s.retry.None? && prompts.Keys <= s.targets
    requires forall m | m in s.targets && m !in prompts :: m in s.done
    requires forall m | m in prompts :: m !in s.done && prompts[m] == s.asked[m]
    ensures Inv(Queued(s, prompts))
  {
    AgainRecords(s, prompts);
    QueuedWorkers(s, prompts);
    assert StageOk(Queued(s, prompts));
  }

  lemma AgainIsUnrecorded(s: Mesh, m: string)
    requires Inv(s) && s.retry.Some? && s.attempt == Some(s.retry.value.attempt)
    ensures var r := s.retry.value;
            var prompts := PromptsAgain(r, r.pending - FinishedBy(s, r));
            && (m in prompts ==> m in s.targets && m in s.asked && prompts[m] == s.asked[m])
            && (m in s.targets ==> (m in prompts <==> m !in RetryRecorded(s, r).done))
  {
    Unfinished(s, m);
    if m in s.targets {
      FinishedAre(s, m);
    }
  }

  lemma AskAgainKeeps(s: Mesh)
    requires Inv(s) && s.retry.Some? && s.attempt == Some(s.retry.value.attempt)
    ensures var r := s.retry.value;
            Inv(Queued(RetryRecorded(s, r), PromptsAgain(r, r.pending - FinishedBy(s, r))))
  {
    var r := s.retry.value;
    var again := r.pending - FinishedBy(s, r);
    var prompts := PromptsAgain(r, again);
    RetryRecords(s);
    forall m | m in s.targets || m in prompts
      ensures m in s.targets && (m in prompts <==> m !in RetryRecorded(s, r).done)
      ensures m in prompts ==> m in s.asked && prompts[m] == s.asked[m]
    {
      AgainIsUnrecorded(s, m);
    }
    AgainKeeps(RetryRecorded(s, r), prompts);
  }

  lemma FinishContinueKeeps(s: Mesh)
    requires Inv(s) && Enabled(s, FinishContinue)
    ensures Inv(FinishRetry(s))
  {
    if !s.paused || s.attempt != Some(s.retry.value.attempt) {
      SetRetry(s, None);
    } else {
      RetryRecords(s);
      UnpauseKeeps(RetryRecorded(s, s.retry.value));
      AskAgainKeeps(s);
    }
  }

  // ---- every run

  lemma LeaveKeeps(s: Mesh)
    requires Inv(s)
    ensures Inv(Leave(s))
  {
    assert WorkersOk(Leave(s)) && RetryOk(Leave(s));
  }

  lemma SettleKeeps(s: Mesh)
    requires Inv(s) && Enabled(s, Settle)
    ensures Inv(Step(s, Settle))
  {
    RecordInv(s, s.targets);
    LeaveKeeps(Record(s, Values(s, s.targets)));
  }

  lemma StepKeepsInv(s: Mesh, e: Event)
    requires Inv(s) && Enabled(s, e)
    ensures Inv(Step(s, e))
  {
    match e
    case At(m, what) => WorkerStepKeeps(s, m, what);
    case QueueStage(prompts) => StartKeeps(s, prompts);
    case Pause => PauseKeeps(s);
    case BeginContinue =>
      UnpauseKeeps(s);
      CaptureKeeps(s);
    case FinishContinue => FinishContinueKeeps(s);
    case GiveUpContinue => SetRetry(s, None);
    case Settle => SettleKeeps(s);
    case Abandon => LeaveKeeps(s);
  }

  lemma {:induction false} RunKeepsInv(states: seq<Mesh>, events: seq<Event>, i: nat)
    requires IsRun(states, events) && i < |states|
    ensures Inv(states[i])
  {
    if i == 0 {
      var s := states[0];
      assert s == NewMesh(s.workers.Keys);
      assert forall m | m in s.workers :: Older(s.workers[m], 0);
    } else {
      RunKeepsInv(states, events, i - 1);
      StepKeepsInv(states[i - 1], events[i - 1]);
    }
  }

  /** Whatever was stopped, continued or late before: when a stage settles, every member
      it first addressed has a recorded answer that is not empty and was recorded by
      this stage. */
  lemma SettlingLeavesNobodyOut(states: seq<Mesh>, events: seq<Event>, i: nat, m: string)
    requires IsRun(states, events) && i < |events| && events[i].Settle? && m in states[i].original
    ensures var r := states[i + 1];
            m in r.recorded && r.recorded[m] != "" && m in r.done && r.done[m] == r.recorded[m]
  {
    RunKeepsInv(states, events, i);
  }

  /** At every moment of a stage, a member it first addressed and no longer addresses
      has its answer recorded. */
  lemma UnaddressedIsRecorded(states: seq<Mesh>, events: seq<Event>, i: nat, m: string)
    requires IsRun(states, events) && i < |states| && states[i].attempt.Some?
    requires m in states[i].original && m !in states[i].targets
    ensures m in states[i].recorded && states[i].recorded[m] != ""
  {
    RunKeepsInv(states, events, i);
    assert m in states[i].done;
  }

  /** A prompt of the current attempt goes to a worker only for a member the stage still
      addresses, that has no successful receipt for the attempt and no recorded answer in
      the stage; it is what the member was first asked, and no second such prompt waits. */
  lemma PromptedOnlyIfUnanswered(states: seq<Mesh>, events: seq<Event>, i: nat, m: string)
    requires IsRun(states, events) && i < |events| && events[i] == At(m, Take)
    requires IsCurrent(states[i], states[i].workers[m].queue[0])
    ensures var s := states[i];
            var w := states[i + 1].workers[m];
            && m in s.targets && m !in s.done && !Success(s.workers[m], s.attempt.value)
            && m in s.asked && w.activity == Preflight(Prompt(s.attempt.value, s.asked[m]))
            && Count(w.queue, s.attempt.value) + Count(w.refused, s.attempt.value) == 0
  {
    var s := states[i];
    var w := s.workers[m];
    RunKeepsInv(states, events, i);
    RunKeepsInv(states, events, i + 1);
    TakenIsLive(s, m);
  }

  lemma TakenIsLive(s: Mesh, m: string)
    requires Inv(s) && Enabled(s, At(m, Take)) && IsCurrent(s, s.workers[m].queue[0])
    ensures var w := s.workers[m];
            && m in s.targets && m !in s.done && !Success(w, s.attempt.value)
            && m in s.asked && w.queue[0] == Prompt(s.attempt.value, s.asked[m])
  {
    var w := s.workers[m];
    var a := s.attempt.value;
    assert WorkerOk(w, a, Limit(s, m), Asked(s, m));
    assert Count(w.queue, a) >= 1 && Holds(w, w.queue[0]);
  }

  lemma Unfinished(s: Mesh, m: string)
    requires Inv(s) && s.retry.Some? && s.attempt == Some(s.retry.value.attempt)
    ensures var t := s.retry.value;
            var prompts := PromptsAgain(t, t.pending - FinishedBy(s, t));
            && (m in prompts <==> m in s.targets && !(m in s.workers && Success(s.workers[m], t.attempt)))
            && (m in prompts ==> m in s.asked && m in s.workers && prompts[m] == s.asked[m])
  {
    if m in s.targets {
      FinishedAre(s, m);
    }
  }

  /** The texts an event records. */
  function Recording(s: Mesh, e: Event): map<string, string>
    requires Enabled(s, e)
  {
    if e.Pause? then Values(s, Completed(s))
    else if e.FinishContinue? && s.paused && s.attempt == Some(s.retry.value.attempt) then Values(s, FinishedBy(s, s.retry.value))
    else if e.Settle? then Values(s, s.targets)
    else map[]
  }

  lemma NothingAdded(a: map<string, string>)
    ensures a + map[] == a
  {
  }

  lemma FinishIsRecorded(s: Mesh)
    requires s.retry.Some? && s.paused && s.attempt == Some(s.retry.value.attempt)
    ensures FinishRetry(s).recorded == RetryRecorded(s, s.retry.value).recorded
    ensures FinishRetry(s).done == RetryRecorded(s, s.retry.value).done
  {
  }

  lemma FinishRecords(s: Mesh)
    requires Inv(s) && Enabled(s, FinishContinue)
    ensures FinishRetry(s).recorded == s.recorded + Recording(s, FinishContinue)
    ensures FinishRetry(s).done == s.done + Recording(s, FinishContinue)
  {
    if s.paused && s.attempt == Some(s.retry.value.attempt) {
      BaseRecords(s);
      FinishIsRecorded(s);
    } else {
      NothingAdded(s.recorded);
      NothingAdded(s.done);
    }
  }

  lemma PlainStep(s: Mesh, e: Event)
    requires Enabled(s, e) && !e.FinishContinue? && !e.Pause? && !e.Settle?
    ensures Step(s, e).recorded == s.recorded && (!e.QueueStage? ==> Step(s, e).done == s.done)
  {
    match e
    case At(_, _) =>
    case QueueStage(_) =>
    case BeginContinue => assert BeginRetry(s).recorded == s.recorded && BeginRetry(s).done == s.done;
    case GiveUpContinue =>
    case Abandon =>
  }

  lemma OtherRecords(s: Mesh, e: Event)
    requires Enabled(s, e) && !e.FinishContinue?
    ensures Step(s, e).recorded == s.recorded + Recording(s, e)
    ensures !e.QueueStage? ==> Step(s, e).done == s.done + Recording(s, e)
  {
    if !e.Pause? && !e.Settle? {
      PlainStep(s, e);
      NothingAdded(s.recorded);
      NothingAdded(s.done);
    }
  }

  lemma StepRecords(s: Mesh, e: Event)
    requires Inv(s) && Enabled(s, e)
    ensures Step(s, e).recorded == s.recorded + Recording(s, e)
    ensures !e.QueueStage? ==> Step(s, e).done == s.done + Recording(s, e)
  {
    if e.FinishContinue? {
      FinishRecords(s);
    } else {
      OtherRecords(s, e);
    }
  }

  lemma RecordingIsCurrent(s: Mesh, e: Event, m: string)
    requires Inv(s) && Enabled(s, e) && m in Recording(s, e)
    ensures s.attempt.Some? && m in s.targets && m in s.workers && Success(s.workers[m], s.attempt.value)
    ensures Recording(s, e)[m] == s.workers[m].last.value.text
  {
    if e.FinishContinue? {
      assert m in FinishedBy(s, s.retry.value);
    } else {
      assert m in s.targets && Succeeded(s, m);
    }
  }

  /** Only receipts of the current attempt contribute: a step that gives a member a new
      recorded text takes it from the member's successful run of the attempt current
      just before; nobody's recorded text is ever lost. */
  lemma OnlyCurrentReceiptsCount(states: seq<Mesh>, events: seq<Event>, i: nat, m: string)
    requires IsRun(states, events) && i < |events|
    ensures var s, r := states[i], states[i + 1];
            && (m in s.recorded ==> m in r.recorded)
            && (m in r.recorded && !(m in s.recorded && s.recorded[m] == r.recorded[m]) ==>
                  && s.attempt.Some? && m in s.targets && m in s.workers
                  && Success(s.workers[m], s.attempt.value) && r.recorded[m] == s.workers[m].last.value.text)
  {
    RunKeepsInv(states, events, i);
    var s, e := states[i], events[i];
    StepRecords(s, e);
    if m in Recording(s, e) {
      RecordingIsCurrent(s, e, m);
    }
  }

  /** Within a stage a recorded answer is final. */
  lemma RecordedIsFinal(states: seq<Mesh>, events: seq<Event>, i: nat, m: string)
    requires IsRun(states, events) && i < |events| && !events[i].QueueStage?
    requires states[i].attempt.Some? && m in states[i].done
    ensures m in states[i].recorded && m in states[i + 1].recorded && states[i + 1].recorded[m] == states[i].recorded[m]
    ensures m in states[i + 1].done && states[i + 1].done[m] == states[i].done[m]
  {
    RunKeepsInv(states, events, i);
    var s, e := states[i], events[i];
    StepRecords(s, e);
    if m in Recording(s, e) {
      RecordingIsCurrent(s, e, m);
    }
  }
}
