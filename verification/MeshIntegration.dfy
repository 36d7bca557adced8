/** Nothing is merged that was not reviewed: what every run of review and integration keeps. */
module MeshIntegration {
  import opened Options
  import opened MeshReview

  /** The reviewer's receipt attests exactly what is expected of it. */
  predicate Reviewed(g: Group, m: string) {
    && m in g.receipts && ReviewExpectationFor(g, m).Some?
    && Attests(g.receipts[m], ReviewExpectationFor(g, m).value)
  }

  /** A merge used a frozen commit that a different member approved. */
  predicate Sound(g: Group, k: Merge) {
    && Freeze(k.candidate, k.commit, k.files) in g.freezes
    && k.approval in g.replies && k.approval.reviewer in g.members && k.approval.reviewer != k.candidate
    && Attests(k.approval.receipt, Expectation(k.candidate, k.commit, k.files))
  }

  ghost predicate FrozenOk(g: Group) {
    && g.targets <= Members(g) && g.commits.Keys == Members(g) && g.files.Keys == Members(g)
    && forall m | m in g.commits :: Freeze(m, g.commits[m], g.files[m]) in g.freezes
  }

  ghost predicate ReceiptsOk(g: Group) {
    && g.receipts.Keys == g.targets
    && forall m | m in g.receipts :: Reviewed(g, m) && Reply(m, g.receipts[m]) in g.replies
  }

  ghost predicate MergesOk(g: Group) {
    forall i | 0 <= i < |g.merges| :: Sound(g, g.merges[i])
  }

  ghost predicate Inv(g: Group) {
    && IsTeam(g.members)
    && (g.phase.Reviewing? || g.phase.MergeReady? ==> FrozenOk(g))
    && (g.phase.MergeReady? ==> ReceiptsOk(g))
    && MergesOk(g)
  }

  /** A merge stays sound as history grows. */
  lemma MergesStay(g: Group, r: Group)
    requires MergesOk(g) && g.freezes <= r.freezes && g.replies <= r.replies && r.members == g.members && r.merges == g.merges
    ensures MergesOk(r)
  {
    forall i | 0 <= i < |r.merges| ensures Sound(r, r.merges[i]) {
      assert Sound(g, g.merges[i]);
    }
  }

  lemma SettledReview(g: Group, answers: map<string, Option<Receipt>>, m: string)
    requires m in answers && CheckReply(g, m, answers[m]).Valid?
    ensures var r := SettleStep(g, answers); m in r.receipts && Reviewed(r, m) && Reply(m, r.receipts[m]) in r.replies
  {
    ValidMeansAttests(answers[m], ReviewExpectationFor(g, m).value);
    assert Reply(m, answers[m].value) in RepliesFrom(answers);
    assert ReviewExpectationFor(SettleStep(g, answers), m) == ReviewExpectationFor(g, m);
  }

  lemma FrozenStays(g: Group, r: Group)
    requires FrozenOk(g) && r.members == g.members && r.targets == g.targets && r.commits == g.commits && r.files == g.files
    requires g.freezes <= r.freezes
    ensures FrozenOk(r)
  {
  }

  lemma ReceiptsStay(g: Group, r: Group)
    requires ReceiptsOk(g) && r.members == g.members && r.targets == g.targets && r.commits == g.commits && r.files == g.files
    requires r.receipts == g.receipts && g.replies <= r.replies
    ensures ReceiptsOk(r)
  {
    forall m | m in r.receipts ensures Reviewed(r, m) && Reply(m, r.receipts[m]) in r.replies {
      assert Reviewed(g, m);
    }
  }

  lemma SettledReceipts(g: Group, answers: map<string, Option<Receipt>>)
    requires answers.Keys == g.targets && SettleStep(g, answers).phase.MergeReady?
    ensures ReceiptsOk(SettleStep(g, answers))
  {
    var r := SettleStep(g, answers);
    forall m | m in g.targets ensures m in r.receipts && Reviewed(r, m) && Reply(m, r.receipts[m]) in r.replies {
      assert m in answers;
      SettledReview(g, answers, m);
    }
    assert r.receipts.Keys == g.targets;
  }

  lemma SettleKeeps(g: Group, answers: map<string, Option<Receipt>>)
    requires Inv(g) && Enabled(g, SettleReview(answers))
    ensures Inv(SettleStep(g, answers))
  {
    var r := SettleStep(g, answers);
    MergesStay(g, r);
    if r.phase.MergeReady? {
      SettledReceipts(g, answers);
      FrozenStays(g, r);
    }
  }

  lemma {:induction false} Found(members: seq<string>, receipts: map<string, Receipt>, c: string)
    ensures var f := FindReceipt(members, receipts, c);
            && (f.Some? ==>
                  && f.value.reviewer in members && f.value.reviewer in receipts
                  && f.value.receipt == receipts[f.value.reviewer] && f.value.receipt.candidate == c)
            && (f.None? ==> forall m | m in members && m in receipts :: receipts[m].candidate != c)
  {
    if members != [] {
      Found(members[1..], receipts, c);
    }
  }

  lemma ReviewedNames(g: Group, m: string)
    requires Inv(g) && g.phase.MergeReady? && m in g.receipts
    ensures m in g.members && Reviewed(g, m) && g.receipts[m].candidate == Next(g.members, m)
  {
    assert Reviewed(g, m);
  }

  /** At the gate: the receipt found for a candidate is its ring reviewer's. */
  lemma FoundIsReviewers(g: Group, c: string)
    requires Inv(g) && g.phase.MergeReady? && c in g.members
    ensures var f := FindReceipt(g.members, g.receipts, c);
            if Reviewer(g.members, c) in g.receipts
            then f == Some(Reply(Reviewer(g.members, c), g.receipts[Reviewer(g.members, c)])) && Reviewed(g, Reviewer(g.members, c))
            else f == None
  {
    var f := FindReceipt(g.members, g.receipts, c);
    var r := Reviewer(g.members, c);
    Found(g.members, g.receipts, c);
    RingIsPerfect(g.members, c);
    if f.Some? {
      ReviewedNames(g, f.value.reviewer);
      RingIsPerfect(g.members, f.value.reviewer);
    }
    if r in g.receipts {
      ReviewedNames(g, r);
    }
  }

  /** A candidate passes the gate exactly if its reviewer was among the last addressed. */
  lemma GateCheckIff(g: Group, c: string)
    requires Inv(g) && g.phase.MergeReady? && c in g.members && HasCommit(g, c)
    ensures GateCheck(g, c).Valid? <==> Reviewer(g.members, c) in g.targets
    ensures GateCheck(g, c).Valid? ==> Sound(g, MergeOf(g, c))
  {
    FoundIsReviewers(g, c);
    RingIsPerfect(g.members, c);
    var r := Reviewer(g.members, c);
    var expected := Expectation(c, g.commits[c], FilesOf(g, c));
    if r in g.receipts {
      ValidMeansAttests(Some(g.receipts[r]), expected);
    }
  }

  lemma AddressedIfPasses(g: Group, m: string)
    requires Inv(g) && g.phase.MergeReady? && AllFrozen(g) && GatePasses(g) && m in g.members
    ensures m in g.targets
  {
    RingIsPerfect(g.members, m);
    var c := Next(g.members, m);
    assert HasCommit(g, c);
    GateCheckIff(g, c);
  }

  lemma PassesIfAddressed(g: Group, c: string)
    requires Inv(g) && g.phase.MergeReady? && HasCommit(g, c) && c in g.members && g.targets == Members(g)
    ensures GateCheck(g, c).Valid?
  {
    RingIsPerfect(g.members, c);
    GateCheckIff(g, c);
  }

  lemma AllAddressedIfPasses(g: Group)
    requires Inv(g) && g.phase.MergeReady? && AllFrozen(g) && GatePasses(g)
    ensures Members(g) <= g.targets
  {
    forall m | m in Members(g) ensures m in g.targets {
      AddressedIfPasses(g, m);
    }
  }

  lemma PassesIfAllAddressed(g: Group)
    requires Inv(g) && g.phase.MergeReady? && AllFrozen(g) && g.targets == Members(g)
    ensures GatePasses(g)
  {
    forall c | c in g.members ensures GateCheck(g, c).Valid? {
      PassesIfAddressed(g, c);
    }
  }

  /** The condition under which integration gets past its receipt check: there is a
      receipt from every member, that is, the last review attempt addressed everybody.
      A Continue that re-asked only some leaves the group merge-ready without ever
      passing. */
  lemma GatePassesIff(g: Group)
    requires Inv(g) && g.phase.MergeReady? && AllFrozen(g)
    ensures GatePasses(g) <==> g.receipts.Keys == Members(g)
    ensures g.receipts.Keys == g.targets
  {
    if GatePasses(g) {
      AllAddressedIfPasses(g);
    } else if g.targets == Members(g) {
      PassesIfAllAddressed(g);
    }
  }

  lemma {:induction false} LoopOrder(g: Group, i: nat, rounds: seq<Round>)
    requires AllFrozen(g) && i <= |g.members| == |rounds|
    ensures var calls := MergeLoop(g, i, rounds).0;
            && |calls| <= |g.members| - i
            && forall k | 0 <= k < |calls| :: calls[k] == MergeOf(g, g.members[i + k])
    decreases |g.members| - i
  {
    if i < |g.members| {
      LoopOrder(g, i + 1, rounds);
    }
  }

  lemma CallIs(g: Group, rounds: seq<Round>, k: nat)
    requires AllFrozen(g) && |rounds| == |g.members| && k < |MergeLoop(g, 0, rounds).0|
    ensures k < |g.members| && HasCommit(g, g.members[k]) && MergeLoop(g, 0, rounds).0[k] == MergeOf(g, g.members[k])
  {
    LoopOrder(g, 0, rounds);
  }

  lemma CallsAreSound(g: Group, rounds: seq<Round>, k: nat)
    requires Inv(g) && g.phase.MergeReady? && AllFrozen(g) && GatePasses(g) && |rounds| == |g.members|
    requires k < |MergeLoop(g, 0, rounds).0|
    ensures Sound(g, MergeLoop(g, 0, rounds).0[k])
  {
    CallIs(g, rounds, k);
    GateCheckIff(g, g.members[k]);
  }

  lemma MergeAllAppends(g: Group, rounds: seq<Round>, lostLast: bool)
    requires AllFrozen(g) && |rounds| == |g.members|
    ensures var r := MergeAll(g, rounds, lostLast);
            && r.merges == g.merges + MergeLoop(g, 0, rounds).0
            && r.members == g.members && r.freezes == g.freezes && r.replies == g.replies
            && r.receipts == g.receipts && r.targets == g.targets && r.files == g.files
            && (r.phase.MergeReady? ==> r.commits == g.commits)
            && (r.phase.Reviewing? ==> g.phase.Reviewing?)
  {
  }

  lemma MergedAreSound(g: Group, rounds: seq<Round>, lostLast: bool)
    requires Inv(g) && g.phase.MergeReady? && AllFrozen(g) && GatePasses(g) && |rounds| == |g.members|
    ensures MergesOk(MergeAll(g, rounds, lostLast))
  {
    var r := MergeAll(g, rounds, lostLast);
    MergeAllAppends(g, rounds, lostLast);
    forall i | 0 <= i < |r.merges| ensures Sound(r, r.merges[i]) {
      if i >= |g.merges| {
        CallsAreSound(g, rounds, i - |g.merges|);
      }
    }
  }

  lemma MergeAllKeeps(g: Group, rounds: seq<Round>, lostLast: bool)
    requires Inv(g) && g.phase.MergeReady? && AllFrozen(g) && GatePasses(g) && |rounds| == |g.members|
    ensures Inv(MergeAll(g, rounds, lostLast))
  {
    var r := MergeAll(g, rounds, lostLast);
    MergedAreSound(g, rounds, lostLast);
    MergeAllAppends(g, rounds, lostLast);
    if r.phase.MergeReady? {
      FrozenStays(g, r);
      ReceiptsStay(g, r);
    }
  }

  lemma IntegrateKeeps(g: Group, e: Event)
    requires Inv(g) && e.Integrate? && Enabled(g, e)
    ensures Inv(IntegrateStep(g, e))
  {
    if Checked(g, e) {
      MergeAllKeeps(g, e.rounds, e.lostLast);
    } else {
      MergesStay(g, IntegrateStep(g, e));
    }
  }

  lemma CrossReviewKeeps(g: Group, commits: map<string, string>, files: map<string, seq<string>>)
    requires Inv(g) && Enabled(g, CrossReview(commits, files))
    ensures Inv(Step(g, CrossReview(commits, files)))
  {
    var r := Step(g, CrossReview(commits, files));
    MergesStay(g, r);
    assert forall m | m in commits :: Freeze(m, commits[m], files[m]) in FreezesFrom(g, commits, files);
  }

  lemma StepKeepsInv(g: Group, e: Event)
    requires Inv(g) && Enabled(g, e)
    ensures Inv(Step(g, e)) && Step(g, e).members == g.members
  {
    match e
    case SettleReview(answers) => SettleKeeps(g, answers);
    case Integrate(_, _, _, _, _) => IntegrateKeeps(g, e);
    case CrossReview(commits, files) => CrossReviewKeeps(g, commits, files);
    case _ => MergesStay(g, Step(g, e));
  }

  lemma {:induction false} RunKeepsInv(states: seq<Group>, events: seq<Event>, i: nat)
    requires IsRun(states, events) && i < |states|
    ensures Inv(states[i])
  {
    if i > 0 {
      RunKeepsInv(states, events, i - 1);
      StepKeepsInv(states[i - 1], events[i - 1]);
    }
  }

  /** In every run, every merge asked for used a commit frozen for its candidate, and
      some other member had returned an approval of exactly that commit and its files. */
  lemma EveryMergeWasApproved(states: seq<Group>, events: seq<Event>, i: nat, k: nat)
    requires IsRun(states, events) && i < |states| && k < |states[i].merges|
    ensures Sound(states[i], states[i].merges[k])
  {
    RunKeepsInv(states, events, i);
  }

  /** No merge starts before every candidate has passed the receipt check and the
      verification of the whole frozen set; the merges follow the members' order and
      use each candidate's frozen commit once. */
  lemma NoMergeBeforeAllChecks(states: seq<Group>, events: seq<Event>, i: nat)
    requires IsRun(states, events) && i < |events| && |states[i + 1].merges| > |states[i].merges|
    ensures var g, e := states[i], events[i];
            && e.Integrate? && AllFrozen(g) && GatePasses(g) && g.targets == Members(g)
            && (forall j | 0 <= j < |g.members| :: e.verified[j].Same?)
            && g.merges <= states[i + 1].merges && |states[i + 1].merges| <= |g.merges| + |g.members|
            && (forall j | 0 <= j < |states[i + 1].merges| - |g.merges| ::
                  states[i + 1].merges[|g.merges| + j] == MergeOf(g, g.members[j]))
  {
    var g, e := states[i], events[i];
    RunKeepsInv(states, events, i);
    MergesOnlyIfChecked(g, e);
  }

  lemma OnlyMergingMerges(g: Group, e: Event)
    requires Enabled(g, e) && |Step(g, e).merges| > |g.merges|
    ensures e.Integrate? && Checked(g, e) && Step(g, e).merges == g.merges + MergeLoop(g, 0, e.rounds).0
  {
  }

  lemma MergesFollowOrder(g: Group, r: Group, rounds: seq<Round>)
    requires AllFrozen(g) && |rounds| == |g.members| && r.merges == g.merges + MergeLoop(g, 0, rounds).0
    ensures g.merges <= r.merges && |r.merges| <= |g.merges| + |g.members|
    ensures forall j | 0 <= j < |r.merges| - |g.merges| :: r.merges[|g.merges| + j] == MergeOf(g, g.members[j])
  {
    LoopOrder(g, 0, rounds);
  }

  lemma MergesOnlyIfChecked(g: Group, e: Event)
    requires Inv(g) && Enabled(g, e) && |Step(g, e).merges| > |g.merges|
    ensures e.Integrate? && Checked(g, e) && g.targets == Members(g)
    ensures var r := Step(g, e);
            && g.merges <= r.merges && |r.merges| <= |g.merges| + |g.members|
            && (forall j | 0 <= j < |r.merges| - |g.merges| :: r.merges[|g.merges| + j] == MergeOf(g, g.members[j]))
  {
    OnlyMergingMerges(g, e);
    GatePassesIff(g);
    MergesFollowOrder(g, Step(g, e), e.rounds);
  }

  // ---- a review that Continue narrowed

  const PartialReceipt := Receipt("b", "2", Approve, [], [], [])
  const PartialCommits := map["a" := "1", "b" := "2"]
  const PartialFiles: map<string, seq<string>> := map["a" := [], "b" := []]

  lemma PartialSettles(g: Group)
    requires g.members == ["a", "b"] && g.phase.Reviewing? && g.targets == {"a"}
    requires g.commits == PartialCommits && g.files == PartialFiles
    ensures var e := SettleReview(map["a" := Some(PartialReceipt)]);
            && Enabled(g, e) && Step(g, e).phase.MergeReady? && Step(g, e).receipts == map["a" := PartialReceipt]
  {
    assert IndexOf(g.members, "a") == 0;
    assert Next(g.members, "a") == "b";
    ValidMeansAttests(Some(PartialReceipt), Expectation("b", "2", []));
  }

  const PartialAnswers: map<string, Option<Receipt>> := map["a" := Some(PartialReceipt)]

  /** The group before it settles, by steps. */
  function PartialState(n: nat): Group
    requires n <= 3
  {
    var s0 := NewGroup(["a", "b"]);
    var s1 := s0.(phase := ExecutionReady);
    var s2 := s1.(phase := Reviewing, commits := PartialCommits, files := PartialFiles, targets := {"a", "b"},
                  freezes := FreezesFrom(s1, PartialCommits, PartialFiles));
    [s0, s1, s2, s2.(targets := {"a"})][n]
  }

  lemma PartialReviewing()
    ensures Enabled(PartialState(1), CrossReview(PartialCommits, PartialFiles))
    ensures Step(PartialState(1), CrossReview(PartialCommits, PartialFiles)) == PartialState(2)
  {
    var s1 := PartialState(1);
    assert Members(s1) == {"a", "b"};
  }

  lemma PartialContinues()
    ensures Enabled(PartialState(0), ExecutionDone) && Step(PartialState(0), ExecutionDone) == PartialState(1)
    ensures Enabled(PartialState(2), ContinueReview({"a"})) && Step(PartialState(2), ContinueReview({"a"})) == PartialState(3)
  {
  }

  lemma PartialEnd(g: Group)
    requires g.members == ["a", "b"] && g.commits == PartialCommits && g.receipts == map["a" := PartialReceipt]
    ensures AllFrozen(g) && FindReceipt(g.members, g.receipts, "a") == None
  {
    Found(g.members, g.receipts, "a");
  }

  function PartialEvents(): seq<Event> {
    [ExecutionDone, CrossReview(PartialCommits, PartialFiles), ContinueReview({"a"}), SettleReview(PartialAnswers)]
  }

  lemma FourSteps(s0: Group, s1: Group, s2: Group, s3: Group, s4: Group, e: seq<Event>)
    requires |e| == 4 && IsTeam(s0.members) && s0 == NewGroup(s0.members)
    requires Enabled(s0, e[0]) && s1 == Step(s0, e[0]) && Enabled(s1, e[1]) && s2 == Step(s1, e[1])
    requires Enabled(s2, e[2]) && s3 == Step(s2, e[2]) && Enabled(s3, e[3]) && s4 == Step(s3, e[3])
    ensures IsRun([s0, s1, s2, s3, s4], e)
  {
  }

  lemma PartialRun(last: Group)
    requires Enabled(PartialState(3), SettleReview(PartialAnswers))
    requires last == Step(PartialState(3), SettleReview(PartialAnswers))
    ensures IsRun([PartialState(0), PartialState(1), PartialState(2), PartialState(3), last], PartialEvents())
  {
    PartialContinues();
    PartialReviewing();
    var e := PartialEvents();
    assert e[0] == ExecutionDone && e[2] == ContinueReview({"a"});
    FourSteps(PartialState(0), PartialState(1), PartialState(2), PartialState(3), last, e);
  }

  /** Merge-ready does not mean that every candidate has a receipt: after one of two
      reviewers alone is asked again, the other's receipt is gone. */
  lemma MergeReadyCanLackReceipts()
    ensures exists states: seq<Group>, events: seq<Event> ::
              && IsRun(states, events) && |states| == 5 && states[4].phase.MergeReady? && AllFrozen(states[4])
              && FindReceipt(states[4].members, states[4].receipts, "a") == None
  {
    PartialSettles(PartialState(3));
    var s4 := Step(PartialState(3), SettleReview(PartialAnswers));
    PartialEnd(s4);
    PartialRun(s4);
    var states := [PartialState(0), PartialState(1), PartialState(2), PartialState(3), s4];
    assert states[4] == s4 && IsRun(states, PartialEvents());
  }
}
