/** One stage of a Mesh group: a prompt for each addressed member, Stop and Continue over
    partial completion, and attempt ids that tell late receipts from current ones. */
module MeshStage {
  import opened Options

  /** A queued prompt carries the attempt that minted it. */
  datatype Prompt = Prompt(attempt: nat, text: string)

  /** The last run of a worker; its text is trimmed. */
  datatype Receipt = Receipt(attempt: nat, ok: bool, text: string)

  /** Preflight can still be rolled back; a running prompt has gone to the provider. */
  datatype Activity = Quiet | Preflight(prompt: Prompt) | Running(prompt: Prompt)

  /** held is the paused flag of the queue; refused holds prompts whose run failed and
      that the queue drain has not put back yet. */
  datatype Worker = Worker(queue: seq<Prompt>, refused: seq<Prompt>, held: bool, activity: Activity, last: Option<Receipt>)

  /** What a Continue took from the group when it began: it waits before it acts. */
  datatype Retry = Retry(attempt: nat, targets: set<string>, pending: set<string>, prompts: map<string, string>, base: map<string, string>)

  /** attempt is absent outside a stage. The fields from nextAttempt on are history: the
      next new attempt id, the members first addressed by the stage, what they were
      asked, what was recorded before it and what it has recorded. */
  datatype Mesh = Mesh(
    workers: map<string, Worker>, attempt: Option<nat>, prompts: map<string, string>, targets: set<string>,
    paused: bool, pausedPending: set<string>, recorded: map<string, string>, retry: Option<Retry>,
    nextAttempt: nat, original: set<string>, asked: map<string, string>, prior: map<string, string>, done: map<string, string>)

  /** What happens at one worker: its queue is drained, a preflight ends, a run ends
      with or without a receipt, a refused prompt is put back, its queue is resumed. */
  datatype WorkerEvent = Take | Commit | FailPreflight | Finish(ok: bool, text: string) | Lose | PutBack | Release

  datatype Event =
    | At(member: string, what: WorkerEvent)
    | QueueStage(prompts: map<string, string>)
    | Pause
    | BeginContinue
    | FinishContinue
    | GiveUpContinue
    | Settle
    | Abandon

  // ---- one worker

  /** The attempt is the group's and the group is not stopped. */
  predicate IsCurrent(s: Mesh, p: Prompt) {
    !s.paused && s.attempt == Some(p.attempt)
  }

  /** The queue without the prompts at its head that share one attempt. */
  function AfterBatch(queue: seq<Prompt>, attempt: nat): seq<Prompt> {
    if queue != [] && queue[0].attempt == attempt then AfterBatch(queue[1..], attempt) else queue
  }

  /** A stopped preflight leaves its prompt in the held queue and a failed receipt. */
  function RolledBack(w: Worker): Worker {
    if !w.activity.Preflight? then w
    else w.(queue := [w.activity.prompt] + w.queue, held := true, activity := Quiet,
            last := Some(Receipt(w.activity.prompt.attempt, false, "")))
  }

  function Stopped(w: Worker): Worker {
    RolledBack(w.(queue := [], held := true))
  }

  function Prompted(w: Worker, p: Prompt): Worker {
    w.(queue := [p], held := false)
  }

  predicate Success(w: Worker, attempt: nat) {
    w.last.Some? && w.last.value.attempt == attempt && w.last.value.ok && w.last.value.text != ""
  }

  predicate CanHappen(w: Worker, e: WorkerEvent) {
    match e
    case Take => w.activity.Quiet? && !w.held && w.queue != []
    case Commit => w.activity.Preflight? && !w.held
    case FailPreflight => w.activity.Preflight?
    case Finish(_, _) => w.activity.Running?
    case Lose => w.activity.Running?
    case PutBack => w.refused != []
    case Release => true
  }

  /** The prompts at the head of the queue go to preflight if they are current and are
      thrown away otherwise. */
  function TakeBatch(w: Worker, current: bool): Worker
    requires w.queue != []
  {
    var rest := w.(queue := AfterBatch(w.queue, w.queue[0].attempt));
    if current then rest.(activity := Preflight(w.queue[0])) else rest
  }

  function Refused(w: Worker, last: Option<Receipt>): Worker
    requires w.activity.Running?
  {
    w.(activity := Quiet, last := last, refused := w.refused + [w.activity.prompt])
  }

  function StepWorker(w: Worker, e: WorkerEvent, current: bool): Worker
    requires CanHappen(w, e)
  {
    match e
    case Take => TakeBatch(w, current)
    case Commit => w.(activity := Running(w.activity.prompt))
    case FailPreflight => RolledBack(w)
    case Finish(ok, text) =>
      var last := Some(Receipt(w.activity.prompt.attempt, ok, text));
      if ok then w.(activity := Quiet, last := last) else Refused(w, last)
    case Lose => Refused(w, w.last)
    case PutBack => w.(queue := [w.refused[0]] + w.queue, refused := w.refused[1..], held := true)
    case Release => w.(held := false)
  }

  // ---- the group

  predicate Succeeded(s: Mesh, m: string)
    requires s.attempt.Some?
  {
    m in s.workers && s.workers[m].activity.Quiet? && Success(s.workers[m], s.attempt.value)
  }

  function Completed(s: Mesh): set<string>
    requires s.attempt.Some?
  {
    set m | m in s.targets && Succeeded(s, m)
  }

  /** The texts of the last runs of some members. */
  function Values(s: Mesh, members: set<string>): map<string, string>
    requires forall m | m in members :: m in s.workers && s.workers[m].last.Some?
  {
    map m | m in members :: s.workers[m].last.value.text
  }

  /** The stage records texts; later ones replace earlier ones. */
  function Record(s: Mesh, values: map<string, string>): Mesh {
    s.(recorded := s.recorded + values, done := s.done + values)
  }

  function PromptEach(workers: map<string, Worker>, prompts: map<string, string>, attempt: nat): map<string, Worker> {
    map m | m in workers :: if m in prompts then Prompted(workers[m], Prompt(attempt, prompts[m])) else workers[m]
  }

  /** Every target is given a new attempt's prompt in a fresh queue. */
  function Queued(s: Mesh, prompts: map<string, string>): Mesh {
    s.(workers := PromptEach(s.workers, prompts, s.nextAttempt), attempt := Some(s.nextAttempt),
       prompts := prompts, targets := prompts.Keys,
       paused := false, pausedPending := {}, nextAttempt := s.nextAttempt + 1)
  }

  function StopAll(workers: map<string, Worker>, members: set<string>): map<string, Worker> {
    map m | m in workers :: if m in members then Stopped(workers[m]) else workers[m]
  }

  function PauseStage(s: Mesh): Mesh
    requires s.attempt.Some?
  {
    var completed := Completed(s);
    var pending := s.targets - completed;
    var values := Values(s, completed);
    Record(s, values).(workers := StopAll(s.workers, pending), paused := true, pausedPending := pending)
  }

  function InitialPending(s: Mesh): set<string>
    requires s.attempt.Some?
  {
    set m | m in (if s.pausedPending != {} then s.pausedPending else s.targets) && !Succeeded(s, m)
  }

  function Captured(s: Mesh): Retry
    requires s.attempt.Some?
  {
    Retry(s.attempt.value, s.targets, InitialPending(s), s.prompts, s.recorded)
  }

  function BeginRetry(s: Mesh): Mesh
    requires s.attempt.Some?
  {
    if InitialPending(s) == {} then s.(paused := false, pausedPending := {})
    else if s.retry.Some? then s
    else s.(retry := Some(Captured(s)))
  }

  /** The members of an attempt that have finished it by now, busy or not. */
  function FinishedBy(s: Mesh, r: Retry): set<string> {
    set m | m in r.targets && m in s.workers && Success(s.workers[m], r.attempt)
  }

  /** The finished members join what the group had recorded when Continue began. */
  function RetryRecorded(s: Mesh, r: Retry): Mesh {
    var completed := FinishedBy(s, r);
    var values := Values(s, completed);
    s.(recorded := if completed == {} then s.recorded else r.base + values, done := s.done + values, retry := None)
  }

  function PromptsAgain(r: Retry, again: set<string>): map<string, string> {
    map m | m in again && m in r.prompts :: r.prompts[m]
  }

  function FinishRetry(s: Mesh): Mesh
    requires s.retry.Some?
  {
    var r := s.retry.value;
    if !s.paused || s.attempt != Some(r.attempt) then s.(retry := None)
    else
      var s1 := RetryRecorded(s, r);
      var again := r.pending - FinishedBy(s, r);
      if again == {} then s1.(paused := false, pausedPending := {}) else Queued(s1, PromptsAgain(r, again))
  }

  function Leave(s: Mesh): Mesh {
    s.(attempt := None, prompts := map[], targets := {}, paused := false, pausedPending := {})
  }

  function Step(s: Mesh, e: Event): Mesh
    requires Enabled(s, e)
  {
    match e
    case QueueStage(prompts) =>
      Queued(s.(original := prompts.Keys, asked := prompts, prior := s.recorded, done := map[]), prompts)
    case At(m, what) =>
      var w := s.workers[m];
      s.(workers := s.workers[m := StepWorker(w, what, w.queue != [] && IsCurrent(s, w.queue[0]))])
    case Pause => PauseStage(s)
    case BeginContinue => BeginRetry(s)
    case FinishContinue => FinishRetry(s)
    case GiveUpContinue => s.(retry := None)
    case Settle =>
      var values := Values(s, s.targets);
      Leave(Record(s, values))
    case Abandon => Leave(s)
  }

  predicate Enabled(s: Mesh, e: Event) {
    match e
    case QueueStage(prompts) => s.attempt.None? && prompts != map[] && prompts.Keys <= s.workers.Keys
    case At(m, what) => m in s.workers && CanHappen(s.workers[m], what)
    case Pause => s.attempt.Some? && !s.paused
    case BeginContinue => s.attempt.Some? && s.paused
    case FinishContinue =>
      s.retry.Some? && forall m | m in s.retry.value.pending :: m in s.workers && s.workers[m].activity.Quiet?
    case GiveUpContinue => true
    case Settle => s.attempt.Some? && !s.paused && forall m | m in s.targets :: Succeeded(s, m)
    case Abandon => true
  }

  function NewMesh(members: set<string>): Mesh {
    Mesh(map m | m in members :: Worker([], [], false, Quiet, None), None, map[], {}, false, {}, map[], None,
         0, {}, map[], map[], map[])
  }

  ghost predicate IsRun(states: seq<Mesh>, events: seq<Event>) {
    && |states| == |events| + 1
    && states[0] == NewMesh(states[0].workers.Keys)
    && forall i | 0 <= i < |events| :: Enabled(states[i], events[i]) && states[i + 1] == Step(states[i], events[i])
  }
}
