/** The review and integration handlers, updating the group record step by step. */
module ReviewSession {
  import opened Options
  import opened MeshReview

  class Session {
    const members: seq<string>
    var phase: Phase
    var reviewedCommits: map<string, string>
    var changedFiles: map<string, seq<string>>
    var reviewReceipts: map<string, Receipt>
    ghost var model: Group

    /** The session holds the program's part of its model. */
    ghost predicate Valid()
      reads this
    {
      && model.members == members && model.phase == phase && model.commits == reviewedCommits
      && model.files == changedFiles && model.receipts == reviewReceipts
    }

    constructor (members: seq<string>)
      ensures Valid() && model == NewGroup(members) && this.members == members
    {
      this.members := members;
      phase, reviewedCommits, changedFiles, reviewReceipts := Executing, map[], map[], map[];
      model := NewGroup(members);
    }

    /** Judges the reviewers' replies in member order: keeps every receipt returned for
        a frozen candidate and tells whether one was rejected. */
    method CheckReplies(targets: seq<string>, answers: map<string, Option<Receipt>>)
      returns (receipts: map<string, Receipt>, rejected: bool)
      requires Valid() && (set m | m in targets) == answers.Keys
      ensures receipts == ReceiptsFrom(model, answers)
      ensures rejected <==> exists m | m in answers :: !CheckReply(model, m, answers[m]).Valid?
    {
      receipts, rejected := map[], false;
      for i := 0 to |targets|
        invariant forall m :: m in receipts <==>
                    m in targets[..i] && m in answers && answers[m].Some? && ReviewExpectationFor(model, m).Some?
        invariant forall m | m in receipts :: receipts[m] == answers[m].value
        invariant rejected <==> exists m | m in targets[..i] && m in answers :: !CheckReply(model, m, answers[m]).Valid?
      {
        var m := targets[i];
        assert targets[..i + 1] == targets[..i] + [m];
        assert m in set x | x in targets;
        var validation := Judge(m, answers[m]);
        ReturnedIs(m, answers[m]);
        if validation.Valid? {
          receipts := receipts[m := validation.receipt];
        } else {
          rejected := true;
          if validation.returned.Some? {
            receipts := receipts[m := validation.returned.value];
          }
        }
      }
      assert targets[..|targets|] == targets;
      assert forall m | m in answers :: m in set x | x in targets;
      assert receipts.Keys == ReceiptsFrom(model, answers).Keys;
    }

    method Judge(m: string, answer: Option<Receipt>) returns (v: Validation)
      requires Valid()
      ensures v == CheckReply(model, m, answer)
    {
      if m !in members {
        return Invalid(NoManifest, None);
      }
      var candidate := Next(members, m);
      if candidate !in reviewedCommits || reviewedCommits[candidate] == "" {
        return Invalid(NoManifest, None);
      }
      var files := if candidate in changedFiles then changedFiles[candidate] else [];
      v := Validate(answer, Expectation(candidate, reviewedCommits[candidate], files));
    }

    /** A check returns the reply's receipt unless there is nothing to check against. */
    lemma ReturnedIs(m: string, answer: Option<Receipt>)
      requires Valid()
      ensures var v := CheckReply(model, m, answer);
              if ReviewExpectationFor(model, m).None? then v == Invalid(NoManifest, None)
              else (if v.Valid? then Some(v.receipt) else v.returned) == answer
    {
      if ReviewExpectationFor(model, m).Some? {
        ValidMeansAttests(answer, ReviewExpectationFor(model, m).value);
      }
    }

    method SettleReview(targets: seq<string>, answers: map<string, Option<Receipt>>)
      requires Valid() && Enabled(model, MeshReview.SettleReview(answers)) && (set m | m in targets) == answers.Keys
      modifies this
      ensures Valid() && model == Step(old(model), MeshReview.SettleReview(answers))
    {
      var receipts, rejected := CheckReplies(targets, answers);
      model := SettleStep(model, answers);
      reviewReceipts := receipts;
      phase := if rejected then ExecutionReady else MergeReady;
    }

    /** Whether every candidate has a reviewed commit. */
    method NoneMissing() returns (all: bool)
      requires Valid()
      ensures all <==> AllFrozen(model)
    {
      for i := 0 to |members|
        invariant forall k | 0 <= k < i :: HasCommit(model, members[k])
      {
        if members[i] !in reviewedCommits || reviewedCommits[members[i]] == "" {
          assert members[i] in model.members && !HasCommit(model, members[i]);
          return false;
        }
      }
      all := true;
    }

    /** Whether every candidate's receipt attests its frozen commit. */
    method ReceiptsValid() returns (all: bool)
      requires Valid() && AllFrozen(model)
      ensures all <==> GatePasses(model)
    {
      for i := 0 to |members|
        invariant forall k | 0 <= k < i :: GateCheck(model, members[k]).Valid?
      {
        var m := members[i];
        assert HasCommit(model, m);
        var found := FindReceipt(members, reviewReceipts, m);
        var files := if m in changedFiles then changedFiles[m] else [];
        var v := Validate(if found.Some? then Some(found.value.receipt) else None,
                          Expectation(m, reviewedCommits[m], files));
        assert v == GateCheck(model, m);
        if !v.Valid? {
          return false;
        }
      }
      all := true;
    }

    /** The first verification that failed, if any. */
    method Rejected(verified: seq<Verified>) returns (bad: Verified)
      ensures bad == FirstBad(verified)
      ensures bad.Same? <==> forall i | 0 <= i < |verified| :: verified[i].Same?
    {
      ghost var rest := verified;
      for i := 0 to |verified|
        invariant rest == verified[i..] && FirstBad(rest) == FirstBad(verified)
        invariant forall k | 0 <= k < i :: verified[k].Same?
      {
        if !verified[i].Same? {
          return verified[i];
        }
        rest := rest[1..];
      }
      bad := Same;
    }

    /** Merges the candidates one by one, each by its frozen commit, until one is not
        merged. */
    method MergeCandidates(rounds: seq<Round>) returns (ghost calls: seq<Merge>, end: End)
      requires Valid() && AllFrozen(model) && |rounds| == |members|
      ensures calls == MergeLoop(model, 0, rounds).0
      ensures end == MergeLoop(model, 0, rounds).1
    {
      calls := [];
      assert calls + MergeLoop(model, 0, rounds).0 == MergeLoop(model, 0, rounds).0;
      for i := 0 to |members|
        invariant var rest := MergeLoop(model, i, rounds); MergeLoop(model, 0, rounds) == (calls + rest.0, rest.1)
      {
        ghost var rest := MergeLoop(model, i, rounds);
        assert HasCommit(model, members[i]);
        if rounds[i].LostBefore? {
          assert calls + [] == calls;
          return calls, Lost;
        }
        ghost var call := MergeOf(model, members[i]);
        if rounds[i].lostAfter || !rounds[i].reply.Merged? {
          assert rest.0 == [call];
          calls := calls + [call];
          end := if rounds[i].lostAfter then Lost
                 else match rounds[i].reply
                      case DriftedNow => StoppedDrifted
                      case Failed => StoppedFailed
                      case _ => Finished;
          return;
        }
        assert calls + ([call] + MergeLoop(model, i + 1, rounds).0) == calls + [call] + MergeLoop(model, i + 1, rounds).0;
        calls := calls + [call];
      }
      assert calls + [] == calls;
      end := Finished;
    }

    method Integrate(sameRepo: bool, verified: seq<Verified>, lostVerifying: bool, rounds: seq<Round>, lostLast: bool)
      requires Valid() && Enabled(model, MeshReview.Integrate(sameRepo, verified, lostVerifying, rounds, lostLast))
      modifies this
      ensures Valid()
      ensures model == Step(old(model), MeshReview.Integrate(sameRepo, verified, lostVerifying, rounds, lostLast))
    {
      ghost var next := Step(model, MeshReview.Integrate(sameRepo, verified, lostVerifying, rounds, lostLast));
      var frozen := NoneMissing();
      if !frozen {
        phase, reviewedCommits := ExecutionReady, map[];
        model := next;
        return;
      }
      var approved := ReceiptsValid();
      if !approved {
        phase, reviewReceipts := ExecutionReady, map[];
        model := next;
        return;
      }
      if !sameRepo || lostVerifying {
        return;
      }
      var bad := Rejected(verified);
      if !bad.Same? {
        if bad.Drifted? {
          phase, reviewedCommits := ExecutionReady, map[];
          model := next;
        }
        return;
      }
      var calls, end := MergeCandidates(rounds);
      if end.StoppedDrifted? {
        phase, reviewedCommits := ExecutionReady, map[];
      } else if end.Finished? && !lostLast {
        phase := Integrating;
      }
      model := next;
    }
  }
}
