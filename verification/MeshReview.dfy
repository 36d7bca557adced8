/** Cross-review of frozen candidates and their integration. Reviewer i verifies the
    candidate of member i + 1, the last that of the first. */
module MeshReview {
  import opened Options

  datatype Verdict = Approve | ChangesRequested | Blocked

  datatype Receipt = Receipt(
    candidate: string, commit: string, verdict: Verdict, files: seq<string>, tests: seq<string>, findings: seq<string>)

  datatype Expectation = Expectation(candidate: string, commit: string, files: seq<string>)

  /** Why a receipt is not accepted. */
  datatype Fault = Missing | NoManifest | WrongCandidate | WrongCommit | Coverage(missing: set<string>, unexpected: set<string>)
    | NotApproved(verdict: Verdict) | HasFindings

  datatype Validation = Valid(receipt: Receipt) | Invalid(fault: Fault, returned: Option<Receipt>)

  function Paths(files: seq<string>): set<string> {
    set f | f in files
  }

  function Validate(receipt: Option<Receipt>, expected: Expectation): Validation {
    if receipt.None? then Invalid(Missing, None)
    else
      var r := receipt.value;
      var wanted, covered := Paths(expected.files), Paths(r.files);
      if r.candidate != expected.candidate then Invalid(WrongCandidate, receipt)
      else if r.commit != expected.commit then Invalid(WrongCommit, receipt)
      else if wanted - covered != {} || covered - wanted != {} then
        Invalid(Coverage(wanted - covered, covered - wanted), receipt)
      else if r.verdict != Approve then Invalid(NotApproved(r.verdict), receipt)
      else if r.findings != [] then Invalid(HasFindings, receipt)
      else Valid(r)
  }

  /** A receipt attests exactly one frozen candidate with all its files and no reservation. */
  predicate Attests(r: Receipt, expected: Expectation) {
    && r.candidate == expected.candidate && r.commit == expected.commit && r.verdict.Approve? && r.findings == []
    && (forall f | f in expected.files :: f in r.files)
    && (forall f | f in r.files :: f in expected.files)
  }

  lemma ValidMeansAttests(receipt: Option<Receipt>, expected: Expectation)
    ensures Validate(receipt, expected).Valid? <==> receipt.Some? && Attests(receipt.value, expected)
    ensures Validate(receipt, expected).Valid? ==> Validate(receipt, expected).receipt == receipt.value
    ensures Validate(receipt, expected).Invalid? ==> Validate(receipt, expected).returned == receipt
  {
    if receipt.Some? {
      CoveredIfNothingMissing(expected.files, receipt.value.files);
      CoveredIfNothingMissing(receipt.value.files, expected.files);
    }
  }

  lemma CoveredIfNothingMissing(wanted: seq<string>, covered: seq<string>)
    ensures Paths(wanted) - Paths(covered) == {} <==> forall f | f in wanted :: f in covered
  {
    var missing := Paths(wanted) - Paths(covered);
    assert forall f | f in wanted :: f in covered || f in missing;
    if missing != {} {
      var f :| f in missing;
      assert f in wanted && f !in covered;
    }
  }

  // ---- the ring

  predicate IsTeam(members: seq<string>) {
    |members| >= 2 && forall i, j | 0 <= i < j < |members| :: members[i] != members[j]
  }

  function IndexOf(members: seq<string>, m: string): (i: nat)
    requires m in members
    ensures i < |members| && members[i] == m
  {
    if members[0] == m then 0 else 1 + IndexOf(members[1..], m)
  }

  /** The member whose candidate m reviews. */
  function Next(members: seq<string>, m: string): string
    requires m in members
  {
    members[(IndexOf(members, m) + 1) % |members|]
  }

  /** The member that reviews m's candidate. */
  function Reviewer(members: seq<string>, m: string): string
    requires m in members
  {
    members[(IndexOf(members, m) + |members| - 1) % |members|]
  }

  lemma IndexIs(members: seq<string>, i: nat)
    requires IsTeam(members) && i < |members|
    ensures IndexOf(members, members[i]) == i
  {
  }

  lemma Wraps(x: nat, n: nat)
    requires x < n
    ensures x % n == x && (x + n) % n == x
  {
    assert x + n == n * 1 + x;
  }

  lemma RingArithmetic(i: nat, n: nat)
    requires i < n && n >= 2
    ensures var next := (i + 1) % n; next < n && next != i && (next + n - 1) % n == i
    ensures var before := (i + n - 1) % n; before < n && before != i && (before + 1) % n == i
  {
    Wraps(i, n);
    Wraps(if i + 1 < n then i + 1 else 0, n);
    Wraps(if i > 0 then i - 1 else n - 1, n);
  }

  /** Nobody reviews their own candidate and every candidate has exactly one reviewer. */
  lemma RingIsPerfect(members: seq<string>, m: string)
    requires IsTeam(members) && m in members
    ensures Next(members, m) in members && Next(members, m) != m && Reviewer(members, Next(members, m)) == m
    ensures Reviewer(members, m) in members && Reviewer(members, m) != m && Next(members, Reviewer(members, m)) == m
  {
    var n := |members|;
    var i := IndexOf(members, m);
    RingArithmetic(i, n);
    IndexIs(members, (i + 1) % n);
    IndexIs(members, (i + n - 1) % n);
  }

  // ---- the group

  datatype Phase = Executing | ExecutionReady | Reviewing | MergeReady | Integrating

  datatype Freeze = Freeze(candidate: string, commit: string, files: seq<string>)
  datatype Reply = Reply(reviewer: string, receipt: Receipt)
  datatype Merge = Merge(candidate: string, commit: string, files: seq<string>, approval: Reply)

  /** targets are the members the last review attempt addressed. The fields from
      freezes on are history: every candidate ever frozen, every receipt ever returned
      and every merge asked for. */
  datatype Group = Group(
    members: seq<string>, phase: Phase, commits: map<string, string>, files: map<string, seq<string>>,
    receipts: map<string, Receipt>, targets: set<string>,
    freezes: set<Freeze>, replies: set<Reply>, merges: seq<Merge>)

  datatype Verified = Same | Drifted | Unknown
  datatype MergeReply = Merged | Conflicted | DriftedNow | Failed

  /** A round of the merge loop: the operation may be lost before or after the merge. */
  datatype Round = LostBefore | Called(reply: MergeReply, lostAfter: bool)

  datatype Event =
    | CrossReview(commits: map<string, string>, files: map<string, seq<string>>)
    | ContinueReview(targets: set<string>)
    | SettleReview(answers: map<string, Option<Receipt>>)
    | Integrate(sameRepo: bool, verified: seq<Verified>, lostVerifying: bool, rounds: seq<Round>, lostLast: bool)
    | Rework
    | Restart(keepReceipts: bool)
    | ExecutionDone

  function FilesOf(g: Group, m: string): seq<string> {
    if m in g.files then g.files[m] else []
  }

  /** What m's receipt must attest; nothing if m's candidate has no frozen commit. */
  function ReviewExpectationFor(g: Group, m: string): Option<Expectation> {
    if m !in g.members then None
    else
      var candidate := Next(g.members, m);
      if candidate !in g.commits || g.commits[candidate] == "" then None
      else Some(Expectation(candidate, g.commits[candidate], FilesOf(g, candidate)))
  }

  /** How the reply of reviewer m is judged when the review settles. */
  function CheckReply(g: Group, m: string, answer: Option<Receipt>): Validation {
    match ReviewExpectationFor(g, m)
    case None => Invalid(NoManifest, None)
    case Some(expected) => Validate(answer, expected)
  }

  function ReceiptsFrom(g: Group, answers: map<string, Option<Receipt>>): map<string, Receipt> {
    map m | m in answers && answers[m].Some? && ReviewExpectationFor(g, m).Some? :: answers[m].value
  }

  function RepliesFrom(answers: map<string, Option<Receipt>>): set<Reply> {
    set m | m in answers && answers[m].Some? :: Reply(m, answers[m].value)
  }

  function FreezesFrom(g: Group, commits: map<string, string>, files: map<string, seq<string>>): set<Freeze> {
    set m | m in commits :: Freeze(m, commits[m], if m in files then files[m] else [])
  }

  /** The first receipt, in member order, that names the candidate. */
  function FindReceipt(members: seq<string>, receipts: map<string, Receipt>, candidate: string): Option<Reply> {
    if members == [] then None
    else if members[0] in receipts && receipts[members[0]].candidate == candidate then Some(Reply(members[0], receipts[members[0]]))
    else FindReceipt(members[1..], receipts, candidate)
  }

  predicate HasCommit(g: Group, m: string) {
    m in g.commits && g.commits[m] != ""
  }

  function GateCheck(g: Group, m: string): Validation
    requires HasCommit(g, m)
  {
    var found := FindReceipt(g.members, g.receipts, m);
    Validate(if found.Some? then Some(found.value.receipt) else None, Expectation(m, g.commits[m], FilesOf(g, m)))
  }

  predicate AllFrozen(g: Group) {
    forall m | m in g.members :: HasCommit(g, m)
  }

  /** Every candidate passes the receipt check. */
  predicate GatePasses(g: Group)
    requires AllFrozen(g)
  {
    forall m | m in g.members :: GateCheck(g, m).Valid?
  }

  function MergeOf(g: Group, m: string): Merge
    requires HasCommit(g, m)
  {
    var found := FindReceipt(g.members, g.receipts, m);
    Merge(m, g.commits[m], FilesOf(g, m),
          if found.Some? then found.value else Reply("", Receipt("", "", Blocked, [], [], [])))
  }

  /** How the merge loop ended. */
  datatype End = Finished | Lost | StoppedDrifted | StoppedFailed

  /** The merges asked for from candidate i on, and how the loop ended. */
  function MergeLoop(g: Group, i: nat, rounds: seq<Round>): (r: (seq<Merge>, End))
    requires AllFrozen(g) && i <= |g.members| && |rounds| == |g.members|
    decreases |g.members| - i
  {
    if i == |g.members| then ([], Finished)
    else if rounds[i].LostBefore? then ([], Lost)
    else
      var call := [MergeOf(g, g.members[i])];
      if rounds[i].lostAfter then (call, Lost)
      else
        match rounds[i].reply
        case Conflicted => (call, Finished)
        case DriftedNow => (call, StoppedDrifted)
        case Failed => (call, StoppedFailed)
        case Merged => var rest := MergeLoop(g, i + 1, rounds); (call + rest.0, rest.1)
  }

  function Unfrozen(g: Group): Group {
    g.(phase := ExecutionReady, commits := map[])
  }

  /** The first verification that did not succeed. */
  function FirstBad(verified: seq<Verified>): Verified {
    if verified == [] then Same else if !verified[0].Same? then verified[0] else FirstBad(verified[1..])
  }

  /** Every candidate is frozen, approved and unchanged, and the operation goes on. */
  predicate Checked(g: Group, e: Event)
    requires e.Integrate?
  {
    && AllFrozen(g) && GatePasses(g) && e.sameRepo && !e.lostVerifying
    && forall i | 0 <= i < |e.verified| :: e.verified[i].Same?
  }

  function IntegrateStep(g: Group, e: Event): Group
    requires e.Integrate? && Enabled(g, e)
  {
    if Checked(g, e) then MergeAll(g, e.rounds, e.lostLast)
    else if !AllFrozen(g) then Unfrozen(g)
    else if !GatePasses(g) then g.(phase := ExecutionReady, receipts := map[])
    else if !e.sameRepo || e.lostVerifying then g
    else if FirstBad(e.verified).Drifted? then Unfrozen(g)
    else g
  }

  function MergeAll(g: Group, rounds: seq<Round>, lostLast: bool): Group
    requires AllFrozen(g) && |rounds| == |g.members|
  {
    var (calls, end) := MergeLoop(g, 0, rounds);
    var g1 := g.(merges := g.merges + calls);
    match end
    case Lost => g1
    case StoppedFailed => g1
    case StoppedDrifted => Unfrozen(g1)
    case Finished => if lostLast then g1 else g1.(phase := Integrating)
  }

  function Members(g: Group): set<string> {
    set m | m in g.members
  }

  predicate Enabled(g: Group, e: Event) {
    match e
    case CrossReview(commits, files) => g.phase.ExecutionReady? && commits.Keys == Members(g) && files.Keys == Members(g)
    case ContinueReview(targets) => g.phase.Reviewing? && targets != {} && targets <= g.targets
    case SettleReview(answers) => g.phase.Reviewing? && answers.Keys == g.targets
    case Integrate(_, verified, _, rounds, _) =>
      g.phase.MergeReady? && |verified| == |g.members| && |rounds| == |g.members|
    case Rework => g.phase.ExecutionReady?
    case Restart(_) => true
    case ExecutionDone => g.phase.Executing?
  }

  function SettleStep(g: Group, answers: map<string, Option<Receipt>>): Group {
    g.(phase := if forall m | m in answers :: CheckReply(g, m, answers[m]).Valid? then MergeReady else ExecutionReady,
       receipts := ReceiptsFrom(g, answers), replies := g.replies + RepliesFrom(answers))
  }

  function Step(g: Group, e: Event): Group
    requires Enabled(g, e)
  {
    match e
    case CrossReview(commits, files) =>
      g.(phase := Reviewing, commits := commits, files := files, receipts := map[], targets := Members(g),
         freezes := g.freezes + FreezesFrom(g, commits, files))
    case ContinueReview(targets) => g.(targets := targets)
    case SettleReview(answers) => SettleStep(g, answers)
    case Integrate(_, _, _, _, _) => IntegrateStep(g, e)
    case Rework => g.(phase := Executing, commits := map[], files := map[], receipts := map[])
    case Restart(keep) =>
      g.(phase := Executing, commits := map[], files := map[], receipts := if keep then g.receipts else map[])
    case ExecutionDone => g.(phase := ExecutionReady)
  }

  function NewGroup(members: seq<string>): Group {
    Group(members, Executing, map[], map[], map[], {}, {}, {}, [])
  }

  ghost predicate IsRun(states: seq<Group>, events: seq<Event>) {
    && |states| == |events| + 1
    && IsTeam(states[0].members) && states[0] == NewGroup(states[0].members)
    && forall i | 0 <= i < |events| :: Enabled(states[i], events[i]) && states[i + 1] == Step(states[i], events[i])
  }
}
