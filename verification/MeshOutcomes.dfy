/** What a review settles to and what integration merges, in terms of the replies alone. */
module MeshOutcomes {
  import opened Options
  import opened MeshReview

  // ---- review

  /** A cross-review freezes one commit and one file list for every member and asks all. */
  lemma ReviewBegins(g: Group, commits: map<string, string>, files: map<string, seq<string>>)
    requires Enabled(g, CrossReview(commits, files))
    ensures var r := Step(g, CrossReview(commits, files));
            && r == g.(phase := Reviewing, commits := commits, files := files, receipts := map[], targets := commits.Keys,
                       freezes := r.freezes)
            && forall f :: f in r.freezes <==>
                 f in g.freezes || (f.candidate in commits && f == Freeze(f.candidate, commits[f.candidate], files[f.candidate]))
  {
  }

  /** Asking for changes forgets what was frozen and reviewed, so that no old receipt can pass
      for a new candidate. */
  lemma ReworkForgets(g: Group)
    requires Enabled(g, Rework)
    ensures Step(g, Rework) == g.(phase := Executing, commits := map[], files := map[], receipts := map[])
    ensures forall m :: !HasCandidate(Step(g, Rework), m)
  {
  }

  /** The candidate that m reviews is frozen. */
  predicate HasCandidate(g: Group, m: string) {
    m in g.members && HasCommit(g, Next(g.members, m))
  }

  /** The receipt attests the candidate that m reviews, with all its files. */
  predicate Approves(g: Group, m: string, r: Receipt) {
    HasCandidate(g, m) && var c := Next(g.members, m);
    Attests(r, Expectation(c, g.commits[c], if c in g.files then g.files[c] else []))
  }

  lemma ApprovesIffValid(g: Group, m: string, answer: Option<Receipt>)
    ensures CheckReply(g, m, answer).Valid? <==> answer.Some? && Approves(g, m, answer.value)
  {
    if HasCandidate(g, m) {
      ValidMeansAttests(answer, ReviewExpectationFor(g, m).value);
    }
  }

  /** A review settles merge-ready if and only if every member asked returned an approval of
      the candidate it reviews; the receipts kept are those returned for frozen candidates. */
  lemma ReviewSettles(g: Group, answers: map<string, Option<Receipt>>)
    requires Enabled(g, SettleReview(answers))
    ensures var r := Step(g, SettleReview(answers));
            && (r.phase.MergeReady? <==> forall m | m in answers :: answers[m].Some? && Approves(g, m, answers[m].value))
            && (!r.phase.MergeReady? ==> r.phase.ExecutionReady?)
            && (forall m :: m in r.receipts <==> m in answers && answers[m].Some? && HasCandidate(g, m))
            && (forall m | m in r.receipts :: r.receipts[m] == answers[m].value)
            && r == g.(phase := r.phase, receipts := r.receipts, replies := r.replies)
  {
    forall m | m in answers
      ensures CheckReply(g, m, answers[m]).Valid? <==> answers[m].Some? && Approves(g, m, answers[m].value)
    {
      ApprovesIffValid(g, m, answers[m]);
    }
  }

  // ---- the merge loop

  /** The operation goes on and the merge succeeded. */
  predicate Plain(round: Round) {
    round == Called(Merged, false)
  }

  /** The first round that is not plain, or |rounds|. */
  ghost predicate IsFirstOther(rounds: seq<Round>, k: nat) {
    && k <= |rounds|
    && (forall i | 0 <= i < k :: Plain(rounds[i]))
    && (k < |rounds| ==> !Plain(rounds[k]))
  }

  /** How many merges are asked for if round k is the first that is not plain. */
  function Asked(rounds: seq<Round>, k: nat): nat
    requires k <= |rounds|
  {
    if k < |rounds| && rounds[k].Called? then k + 1 else k
  }

  lemma {:induction false} LoopAsks(g: Group, i: nat, rounds: seq<Round>, k: nat)
    requires AllFrozen(g) && i <= k && |rounds| == |g.members| && IsFirstOther(rounds, k)
    ensures var calls := MergeLoop(g, i, rounds).0;
            && |calls| == Asked(rounds, k) - i
            && forall j | 0 <= j < |calls| :: calls[j] == MergeOf(g, g.members[i + j])
    decreases |rounds| - i
  {
    if i < k {
      LoopAsks(g, i + 1, rounds, k);
    }
  }

  lemma {:induction false} LoopEnds(g: Group, i: nat, rounds: seq<Round>, k: nat)
    requires AllFrozen(g) && i <= k && |rounds| == |g.members| && IsFirstOther(rounds, k)
    ensures MergeLoop(g, i, rounds).1 ==
            if k == |rounds| || rounds[k] == Called(Conflicted, false) then Finished
            else if rounds[k] == Called(DriftedNow, false) then StoppedDrifted
            else if rounds[k] == Called(Failed, false) then StoppedFailed
            else Lost
    decreases |rounds| - i
  {
    if i < k {
      LoopEnds(g, i + 1, rounds, k);
    }
  }

  // ---- integration

  predicate Frozen(g: Group, m: string) {
    m in g.commits && g.commits[m] != ""
  }

  /** The receipt found for m's candidate attests its frozen commit with all its files. */
  predicate Approved(g: Group, m: string)
    requires Frozen(g, m)
  {
    var found := FindReceipt(g.members, g.receipts, m);
    found.Some? && Attests(found.value.receipt, Expectation(m, g.commits[m], if m in g.files then g.files[m] else []))
  }

  lemma ApprovedIffValid(g: Group, m: string)
    requires HasCommit(g, m)
    ensures GateCheck(g, m).Valid? <==> Approved(g, m)
  {
    var found := FindReceipt(g.members, g.receipts, m);
    ValidMeansAttests(if found.Some? then Some(found.value.receipt) else None, Expectation(m, g.commits[m], FilesOf(g, m)));
  }

  lemma GatePassesIfApproved(g: Group)
    requires AllFrozen(g)
    ensures GatePasses(g) <==> forall m | m in g.members :: Frozen(g, m) && Approved(g, m)
  {
    forall m | m in g.members ensures GateCheck(g, m).Valid? <==> Frozen(g, m) && Approved(g, m) {
      assert HasCommit(g, m);
      ApprovedIffValid(g, m);
    }
  }

  /** Integration merges only when every candidate is frozen, approved and unchanged. */
  lemma CheckedMeans(g: Group, e: Event)
    requires e.Integrate? && Enabled(g, e)
    ensures Checked(g, e) <==>
            && (forall m | m in g.members :: Frozen(g, m) && Approved(g, m))
            && e.sameRepo && !e.lostVerifying && (forall i | 0 <= i < |e.verified| :: e.verified[i].Same?)
  {
    if AllFrozen(g) {
      GatePassesIfApproved(g);
    } else {
      var m :| m in g.members && !HasCommit(g, m);
      assert !Frozen(g, m);
    }
  }

  lemma CallsOf(g: Group, e: Event, k: nat) returns (calls: seq<Merge>)
    requires e.Integrate? && Enabled(g, e) && Checked(g, e) && IsFirstOther(e.rounds, k)
    ensures Step(g, e).merges == g.merges + calls && |calls| == Asked(e.rounds, k) <= |g.members|
    ensures forall j | 0 <= j < |calls| ::
              calls[j].candidate == g.members[j] && g.members[j] in g.commits && calls[j].commit == g.commits[g.members[j]]
  {
    calls := MergeLoop(g, 0, e.rounds).0;
    LoopAsks(g, 0, e.rounds, k);
    forall j | 0 <= j < |calls|
      ensures calls[j].candidate == g.members[j] && g.members[j] in g.commits && calls[j].commit == g.commits[g.members[j]]
    {
      assert HasCommit(g, g.members[j]) && calls[j] == MergeOf(g, g.members[0 + j]);
    }
  }

  /** Once everything is checked, the members' frozen commits are merged in order up to the
      first round that is not a plain success, and that one too if its merge was asked for. */
  lemma IntegrationMerges(g: Group, e: Event, k: nat)
    requires e.Integrate? && Enabled(g, e) && Checked(g, e) && IsFirstOther(e.rounds, k)
    ensures var r := Step(g, e);
            && |r.merges| == |g.merges| + Asked(e.rounds, k) && g.merges <= r.merges
            && forall j | 0 <= j < Asked(e.rounds, k) ::
                 var m := r.merges[|g.merges| + j];
                 m.candidate == g.members[j] && m.candidate in g.commits && m.commit == g.commits[m.candidate]
  {
    var calls := CallsOf(g, e, k);
    var r := Step(g, e);
    forall j | 0 <= j < Asked(e.rounds, k)
      ensures r.merges[|g.merges| + j].candidate == g.members[j] && g.members[j] in g.commits
              && r.merges[|g.merges| + j].commit == g.commits[g.members[j]]
    {
      assert r.merges[|g.merges| + j] == calls[j];
    }
  }

  /** Then the group integrates if and only if all merged or the first other reply is a
      conflict, and the operation was not lost; a candidate that changed sends it back without
      commits; any other end leaves it merge-ready. */
  lemma IntegrationEnds(g: Group, e: Event, k: nat)
    requires e.Integrate? && Enabled(g, e) && Checked(g, e) && IsFirstOther(e.rounds, k)
    ensures var r := Step(g, e);
            && (r.phase.Integrating? <==> (k == |g.members| || e.rounds[k] == Called(Conflicted, false)) && !e.lostLast)
            && (r.phase.ExecutionReady? <==> k < |g.members| && e.rounds[k] == Called(DriftedNow, false))
            && (r.phase.Integrating? || r.phase.ExecutionReady? || r.phase == g.phase)
            && r == g.(merges := r.merges, phase := r.phase, commits := if r.phase.ExecutionReady? then map[] else g.commits)
  {
    LoopEnds(g, 0, e.rounds, k);
  }

  /** A run of the merge loop has a first round that is not plain, or is plain throughout. */
  lemma {:induction false} FirstOther(rounds: seq<Round>) returns (k: nat)
    ensures IsFirstOther(rounds, k)
  {
    k := 0;
    if rounds != [] && Plain(rounds[0]) {
      var n := FirstOther(rounds[1..]);
      k := n + 1;
      assert forall i | 1 <= i < k :: rounds[i] == rounds[1..][i - 1];
    }
  }

  /** If no round goes wrong, everybody's frozen commit is merged, each once and in order. */
  lemma AllAreMerged(g: Group, e: Event)
    requires e.Integrate? && Enabled(g, e) && Checked(g, e) && !e.lostLast && forall i | 0 <= i < |e.rounds| :: Plain(e.rounds[i])
    ensures var r := Step(g, e);
            && r.phase.Integrating? && |r.merges| == |g.merges| + |g.members|
            && forall j | 0 <= j < |g.members| ::
                 var m := r.merges[|g.merges| + j]; m.candidate == g.members[j] && m.candidate in g.commits && m.commit == g.commits[m.candidate]
  {
    var k := |e.rounds|;
    assert IsFirstOther(e.rounds, k) && Asked(e.rounds, k) == |g.members|;
    IntegrationMerges(g, e, k);
    IntegrationEnds(g, e, k);
  }

  /** The first verification that did not succeed. */
  ghost predicate IsFirstBad(verified: seq<Verified>, k: nat) {
    k < |verified| && !verified[k].Same? && forall i | 0 <= i < k :: verified[i].Same?
  }

  lemma {:induction false} FirstBadIs(verified: seq<Verified>, k: nat)
    requires IsFirstBad(verified, k)
    ensures FirstBad(verified) == verified[k]
  {
    if k > 0 {
      FirstBadIs(verified[1..], k - 1);
    }
  }

  /** Without all checks passed nothing is merged. A candidate without a commit, or one found
      changed, sends the group back without commits; a missing approval sends it back without
      receipts; anything else leaves it as it is. */
  lemma IntegrationStops(g: Group, e: Event, k: nat)
    requires e.Integrate? && Enabled(g, e) && !Checked(g, e)
    ensures var r := Step(g, e);
            if exists m :: m in g.members && !Frozen(g, m) then r == g.(phase := ExecutionReady, commits := map[])
            else if exists m :: m in g.members && !Approved(g, m) then r == g.(phase := ExecutionReady, receipts := map[])
            else && (!e.sameRepo || e.lostVerifying ==> r == g)
                 && (e.sameRepo && !e.lostVerifying && IsFirstBad(e.verified, k) ==>
                       r == if e.verified[k].Drifted? then g.(phase := ExecutionReady, commits := map[]) else g)
  {
    if IsFirstBad(e.verified, k) {
      FirstBadIs(e.verified, k);
    }
    if m :| m in g.members && !Frozen(g, m) {
      assert !HasCommit(g, m);
    } else {
      assert forall m | m in g.members :: Frozen(g, m);
      GatePassesIfApproved(g);
    }
  }
}
