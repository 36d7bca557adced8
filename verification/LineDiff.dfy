/** The line diff: the longest-common-subsequence table, the walk over it, and why
    the walk is a minimum edit script. */
module LineDiff {

  const CELL_LIMIT := 4_000_000

  newtype uint32 = x: int | 0 <= x < 0x1_0000_0000

  datatype Kind = Ctx | Add | Del
  datatype DiffLine = DiffLine(kind: Kind, text: string)

  type Lines = seq<string>
  type Script = seq<DiffLine>

  // ---- lines of a text

  /** text.split('\n') */
  function Split(text: string): (lines: Lines)
    ensures |lines| >= 1
  {
    if text == "" then [""]
    else
      var rest := Split(text[1..]);
      if text[0] == '\n' then [""] + rest else [[text[0]] + rest[0]] + rest[1..]
  }

  function Join(lines: Lines): string
    requires |lines| >= 1
  {
    if |lines| == 1 then lines[0] else lines[0] + "\n" + Join(lines[1..])
  }

  lemma InFront(c: char, first: string, rest: string)
    ensures ([c] + first) + "\n" + rest == [c] + (first + "\n" + rest)
  {
  }

  lemma JoinCons(c: char, lines: Lines)
    requires |lines| >= 1
    ensures Join([[c] + lines[0]] + lines[1..]) == [c] + Join(lines)
  {
    var longer := [[c] + lines[0]] + lines[1..];
    assert longer[0] == [c] + lines[0] && longer[1..] == lines[1..];
    if |lines| > 1 {
      InFront(c, lines[0], Join(lines[1..]));
    }
  }

  lemma {:induction false} JoinSplit(text: string)
    ensures Join(Split(text)) == text
    ensures forall i | 0 <= i < |Split(text)| :: '\n' !in Split(text)[i]
  {
    if text != "" {
      JoinSplit(text[1..]);
      var rest := Split(text[1..]);
      if text[0] == '\n' {
        assert ([""] + rest)[1..] == rest;
      } else {
        JoinCons(text[0], rest);
      }
    }
  }

  // ---- the two texts a script spells

  function OldOf(s: Script): Lines {
    if s == [] then []
    else (if s[0].kind.Add? then [] else [s[0].text]) + OldOf(s[1..])
  }

  function NewOf(s: Script): Lines {
    if s == [] then []
    else (if s[0].kind.Del? then [] else [s[0].text]) + NewOf(s[1..])
  }

  function Count(s: Script, kind: Kind): nat {
    if s == [] then 0 else (if s[0].kind == kind then 1 else 0) + Count(s[1..], kind)
  }

  /** Lines a script adds or deletes. */
  function Cost(s: Script): nat {
    Count(s, Add) + Count(s, Del)
  }

  // ---- the table and the walk

  function Max(x: nat, y: nat): nat {
    if x >= y then x else y
  }

  /** The table's entry at row i and column j. */
  function Lcs(a: Lines, b: Lines, i: nat, j: nat): nat
    requires i <= |a| && j <= |b|
    decreases |a| - i + |b| - j
  {
    if i == |a| || j == |b| then 0
    else if a[i] == b[j] then Lcs(a, b, i + 1, j + 1) + 1
    else Max(Lcs(a, b, i + 1, j), Lcs(a, b, i, j + 1))
  }

  function Walk(a: Lines, b: Lines, i: nat, j: nat): Script
    requires i <= |a| && j <= |b|
    decreases |a| - i + |b| - j
  {
    if i == |a| && j == |b| then []
    else if j == |b| then [DiffLine(Del, a[i])] + Walk(a, b, i + 1, j)
    else if i == |a| then [DiffLine(Add, b[j])] + Walk(a, b, i, j + 1)
    else if a[i] == b[j] then [DiffLine(Ctx, a[i])] + Walk(a, b, i + 1, j + 1)
    else if Lcs(a, b, i + 1, j) >= Lcs(a, b, i, j + 1) then [DiffLine(Del, a[i])] + Walk(a, b, i + 1, j)
    else [DiffLine(Add, b[j])] + Walk(a, b, i, j + 1)
  }

  function All(lines: Lines, kind: Kind): (s: Script)
    ensures |s| == |lines|
  {
    seq(|lines|, i requires 0 <= i < |lines| => DiffLine(kind, lines[i]))
  }

  predicate Small(a: Lines, b: Lines) {
    |a| * |b| <= CELL_LIMIT
  }

  function Diff(a: Lines, b: Lines): Script {
    if Small(a, b) then Walk(a, b, 0, 0) else All(a, Del) + All(b, Add)
  }

  // ---- what the walk spells

  /** The place in the table after the walk's first line. */
  lemma WalkStep(a: Lines, b: Lines, i: nat, j: nat) returns (i2: nat, j2: nat)
    requires i <= |a| && j <= |b| && (i < |a| || j < |b|)
    ensures i <= i2 <= |a| && j <= j2 <= |b| && |a| - i2 + |b| - j2 < |a| - i + |b| - j
    ensures var w := Walk(a, b, i, j);
            && w != [] && w[1..] == Walk(a, b, i2, j2)
            && a[i..] == (if w[0].kind.Add? then [] else [w[0].text]) + a[i2..]
            && b[j..] == (if w[0].kind.Del? then [] else [w[0].text]) + b[j2..]
            && Lcs(a, b, i, j) == Lcs(a, b, i2, j2) + if w[0].kind.Ctx? then 1 else 0
  {
    var w := Walk(a, b, i, j);
    i2 := if w[0].kind.Add? then i else i + 1;
    j2 := if w[0].kind.Del? then j else j + 1;
  }

  lemma {:induction false} WalkSpells(a: Lines, b: Lines, i: nat, j: nat)
    requires i <= |a| && j <= |b|
    ensures OldOf(Walk(a, b, i, j)) == a[i..] && NewOf(Walk(a, b, i, j)) == b[j..]
    ensures Count(Walk(a, b, i, j), Ctx) == Lcs(a, b, i, j)
    decreases |a| - i + |b| - j
  {
    if i < |a| || j < |b| {
      var i2, j2 := WalkStep(a, b, i, j);
      WalkSpells(a, b, i2, j2);
    }
  }

  lemma {:induction false} AllSpells(lines: Lines, kind: Kind)
    ensures OldOf(All(lines, kind)) == if kind.Add? then [] else lines
    ensures NewOf(All(lines, kind)) == if kind.Del? then [] else lines
  {
    if lines != [] {
      AllSpells(lines[1..], kind);
      assert All(lines, kind)[1..] == All(lines[1..], kind);
    }
  }

  lemma Assoc(a: Lines, b: Lines, c: Lines)
    ensures (a + b) + c == a + (b + c)
  {
  }

  lemma FirstOf(l: DiffLine, s: Script)
    ensures OldOf([l] + s) == (if l.kind.Add? then [] else [l.text]) + OldOf(s)
    ensures NewOf([l] + s) == (if l.kind.Del? then [] else [l.text]) + NewOf(s)
  {
    assert ([l] + s)[1..] == s;
  }

  lemma {:induction false} OldConcat(s: Script, t: Script)
    ensures OldOf(s + t) == OldOf(s) + OldOf(t)
  {
    if s == [] {
      assert s + t == t;
    } else {
      OldConcat(s[1..], t);
      assert s + t == [s[0]] + (s[1..] + t);
      FirstOf(s[0], s[1..] + t);
      Assoc(if s[0].kind.Add? then [] else [s[0].text], OldOf(s[1..]), OldOf(t));
    }
  }

  lemma {:induction false} NewConcat(s: Script, t: Script)
    ensures NewOf(s + t) == NewOf(s) + NewOf(t)
  {
    if s == [] {
      assert s + t == t;
    } else {
      NewConcat(s[1..], t);
      assert s + t == [s[0]] + (s[1..] + t);
      FirstOf(s[0], s[1..] + t);
      Assoc(if s[0].kind.Del? then [] else [s[0].text], NewOf(s[1..]), NewOf(t));
    }
  }

  /** On every pair of texts, context and deleted lines spell the old text, context
      and added lines the new one. */
  lemma DiffSpells(a: Lines, b: Lines)
    ensures OldOf(Diff(a, b)) == a && NewOf(Diff(a, b)) == b
  {
    if Small(a, b) {
      WalkSpells(a, b, 0, 0);
    } else {
      AllSpells(a, Del);
      AllSpells(b, Add);
      OldConcat(All(a, Del), All(b, Add));
      NewConcat(All(a, Del), All(b, Add));
    }
  }

  // ---- in which order changes stand

  /** Where the walk starts with an addition, the next line is not a deletion. */
  lemma AddThenNoDel(a: Lines, b: Lines, i: nat, j: nat)
    requires i <= |a| && j <= |b| && (i < |a| || j < |b|) && Walk(a, b, i, j)[0].kind.Add? && |Walk(a, b, i, j)| > 1
    ensures !Walk(a, b, i, j)[1].kind.Del?
  {
    assert Walk(a, b, i, j)[1..] == Walk(a, b, i, j + 1);
    if i < |a| && j + 1 < |b| && a[i] != b[j + 1] {
      LcsShrinks(a, b, i + 1, j);
    }
  }

  lemma {:induction false} WalkDeletesFirst(a: Lines, b: Lines, i: nat, j: nat, k: nat)
    requires i <= |a| && j <= |b| && k + 1 < |Walk(a, b, i, j)|
    ensures !(Walk(a, b, i, j)[k].kind.Add? && Walk(a, b, i, j)[k + 1].kind.Del?)
    decreases |a| - i + |b| - j
  {
    if k > 0 {
      var i2, j2 := WalkStep(a, b, i, j);
      WalkDeletesFirst(a, b, i2, j2, k - 1);
    } else if Walk(a, b, i, j)[0].kind.Add? {
      AddThenNoDel(a, b, i, j);
    }
  }

  /** On every pair of texts, in each run of changed lines the deletions stand before the
      additions. */
  lemma DeletionsComeFirst(a: Lines, b: Lines, k: nat)
    requires k + 1 < |Diff(a, b)|
    ensures !(Diff(a, b)[k].kind.Add? && Diff(a, b)[k + 1].kind.Del?)
  {
    if Small(a, b) {
      WalkDeletesFirst(a, b, 0, 0, k);
    }
  }

  // ---- why it is minimal

  lemma {:induction false} LcsShrinks(a: Lines, b: Lines, i: nat, j: nat)
    requires i <= |a| && j <= |b|
    ensures i < |a| ==> Lcs(a, b, i + 1, j) <= Lcs(a, b, i, j) <= Lcs(a, b, i + 1, j) + 1
    ensures j < |b| ==> Lcs(a, b, i, j + 1) <= Lcs(a, b, i, j) <= Lcs(a, b, i, j + 1) + 1
    decreases |a| - i + |b| - j
  {
    if i < |a| && j < |b| {
      LcsShrinks(a, b, i + 1, j);
      LcsShrinks(a, b, i, j + 1);
    }
  }

  /** No script from the one text to the other keeps more lines than the table says. */
  lemma {:induction false} LcsIsMost(a: Lines, b: Lines, i: nat, j: nat, s: Script)
    requires i <= |a| && j <= |b| && OldOf(s) == a[i..] && NewOf(s) == b[j..]
    ensures Count(s, Ctx) <= Lcs(a, b, i, j)
    decreases |s|
  {
    if s != [] {
      LcsShrinks(a, b, i, j);
      var i2 := if s[0].kind.Add? then i else i + 1;
      var j2 := if s[0].kind.Del? then j else j + 1;
      if !s[0].kind.Add? {
        assert OldOf(s)[0] == a[i];
      }
      if !s[0].kind.Del? {
        assert NewOf(s)[0] == b[j];
      }
      assert OldOf(s[1..]) == a[i2..] && NewOf(s[1..]) == b[j2..];
      LcsIsMost(a, b, i2, j2, s[1..]);
    }
  }

  lemma {:induction false} LengthsOf(s: Script)
    ensures |OldOf(s)| == Count(s, Ctx) + Count(s, Del)
    ensures |NewOf(s)| == Count(s, Ctx) + Count(s, Add)
  {
    if s != [] {
      LengthsOf(s[1..]);
    }
  }

  /** Below the cut-off no edit script adds and deletes fewer lines. */
  lemma DiffIsMinimal(a: Lines, b: Lines, s: Script)
    requires Small(a, b) && OldOf(s) == a && NewOf(s) == b
    ensures Count(s, Ctx) <= Count(Diff(a, b), Ctx)
    ensures Cost(Diff(a, b)) <= Cost(s)
  {
    WalkSpells(a, b, 0, 0);
    LcsIsMost(a, b, 0, 0, s);
    LengthsOf(s);
    LengthsOf(Diff(a, b));
  }

  /** c can be had from a by leaving lines out. */
  predicate IsSubsequence(c: Lines, a: Lines) {
    if c == [] then true
    else if a == [] then false
    else (c[0] == a[0] && IsSubsequence(c[1..], a[1..])) || IsSubsequence(c, a[1..])
  }

  lemma {:induction false} DropFirst(c: Lines, a: Lines)
    requires c != [] && a != [] && IsSubsequence(c, a)
    ensures IsSubsequence(c[1..], a[1..])
  {
    if !(c[0] == a[0] && IsSubsequence(c[1..], a[1..])) {
      DropFirst(c, a[1..]);
    }
  }

  lemma {:induction false} CommonAtMostLcs(a: Lines, b: Lines, i: nat, j: nat, c: Lines)
    requires i <= |a| && j <= |b| && IsSubsequence(c, a[i..]) && IsSubsequence(c, b[j..])
    ensures |c| <= Lcs(a, b, i, j)
    decreases |a| - i + |b| - j
  {
    if c != [] && i < |a| && j < |b| {
      assert a[i..][1..] == a[i + 1..] && b[j..][1..] == b[j + 1..];
      if a[i] == b[j] {
        DropFirst(c, a[i..]);
        DropFirst(c, b[j..]);
        CommonAtMostLcs(a, b, i + 1, j + 1, c[1..]);
      } else if c[0] != a[i] {
        CommonAtMostLcs(a, b, i + 1, j, c);
      } else {
        CommonAtMostLcs(a, b, i, j + 1, c);
      }
    }
  }

  /** The lines a script keeps. */
  function Kept(s: Script): Lines {
    if s == [] then [] else (if s[0].kind.Ctx? then [s[0].text] else []) + Kept(s[1..])
  }

  lemma {:induction false} KeptIsCommon(s: Script)
    ensures IsSubsequence(Kept(s), OldOf(s)) && IsSubsequence(Kept(s), NewOf(s)) && |Kept(s)| == Count(s, Ctx)
  {
    if s != [] {
      KeptIsCommon(s[1..]);
      if s[0].kind.Ctx? {
        assert Kept(s)[1..] == Kept(s[1..]);
        assert OldOf(s)[1..] == OldOf(s[1..]) && NewOf(s)[1..] == NewOf(s[1..]);
      } else if s[0].kind.Del? {
        assert OldOf(s)[1..] == OldOf(s[1..]) && Kept(s) == Kept(s[1..]);
        assert NewOf(s) == NewOf(s[1..]);
      } else {
        assert NewOf(s)[1..] == NewOf(s[1..]) && Kept(s) == Kept(s[1..]);
        assert OldOf(s) == OldOf(s[1..]);
      }
    }
  }

  /** Below the cut-off the kept lines are a longest common subsequence. */
  lemma DiffKeepsMost(a: Lines, b: Lines, c: Lines)
    requires Small(a, b) && IsSubsequence(c, a) && IsSubsequence(c, b)
    ensures |c| <= |Kept(Diff(a, b))|
    ensures IsSubsequence(Kept(Diff(a, b)), a) && IsSubsequence(Kept(Diff(a, b)), b)
  {
    assert a[0..] == a && b[0..] == b;
    CommonAtMostLcs(a, b, 0, 0, c);
    WalkSpells(a, b, 0, 0);
    KeptIsCommon(Diff(a, b));
  }

  // ---- the program

  lemma {:induction false} LcsFits(a: Lines, b: Lines, i: nat, j: nat)
    requires i <= |a| && j <= |b|
    ensures Lcs(a, b, i, j) <= |a| - i
    decreases |a| - i + |b| - j
  {
    if i < |a| && j < |b| {
      LcsFits(a, b, i + 1, j + 1);
      LcsFits(a, b, i + 1, j);
      LcsFits(a, b, i, j + 1);
    }
  }

  ghost predicate RowIs(a: Lines, b: Lines, dp: array2<uint32>, i: nat, from: nat)
    requires i <= |a| < dp.Length0 && dp.Length1 == |b| + 1
    reads dp
  {
    forall j | from <= j <= |b| :: dp[i, j] as int == Lcs(a, b, i, j)
  }

  /** Fills row i from its last column down, from the row below it. */
  method FillRow(a: Lines, b: Lines, dp: array2<uint32>, i: nat)
    requires i < |a| <= CELL_LIMIT && dp.Length0 == |a| + 1 && dp.Length1 == |b| + 1
    requires RowIs(a, b, dp, i + 1, 0) && dp[i, |b|] == 0
    modifies dp
    ensures RowIs(a, b, dp, i, 0)
    ensures forall x, y | 0 <= x <= |a| && x != i && 0 <= y <= |b| :: dp[x, y] == old(dp[x, y])
  {
    var j := |b|;
    while j > 0
      invariant 0 <= j <= |b|
      invariant RowIs(a, b, dp, i, j)
      invariant forall x, y | 0 <= x <= |a| && x != i && 0 <= y <= |b| :: dp[x, y] == old(dp[x, y])
    {
      j := j - 1;
      LcsFits(a, b, i + 1, j + 1);
      assert dp[i + 1, j] as int == Lcs(a, b, i + 1, j) && dp[i + 1, j + 1] as int == Lcs(a, b, i + 1, j + 1);
      dp[i, j] := if a[i] == b[j] then dp[i + 1, j + 1] + 1
                  else if dp[i + 1, j] >= dp[i, j + 1] then dp[i + 1, j] else dp[i, j + 1];
    }
  }

  /** Fills the table from its last row up; its 32-bit entries never wrap. */
  method FillTable(a: Lines, b: Lines) returns (dp: array2<uint32>)
    requires Small(a, b) && |b| >= 1
    ensures fresh(dp) && dp.Length0 == |a| + 1 && dp.Length1 == |b| + 1
    ensures forall i | 0 <= i <= |a| :: RowIs(a, b, dp, i, 0)
  {
    dp := new uint32[|a| + 1, |b| + 1]((i, j) => 0);
    var i := |a|;
    while i > 0
      invariant 0 <= i <= |a|
      invariant forall x | i <= x <= |a| :: RowIs(a, b, dp, x, 0)
      invariant forall x | 0 <= x <= |a| :: dp[x, |b|] == 0
    {
      i := i - 1;
      label below:
      FillRow(a, b, dp, i);
      forall x | i < x <= |a| ensures RowIs(a, b, dp, x, 0) {
        assert old@below(RowIs(a, b, dp, x, 0));
      }
    }
  }

  ghost predicate Emitted(out: Script, rest: Script, whole: Script) {
    out + rest == whole
  }

  lemma EmitNext(out: Script, next: DiffLine, rest: Script, whole: Script)
    requires Emitted(out, [next] + rest, whole)
    ensures Emitted(out + [next], rest, whole)
  {
    assert out + ([next] + rest) == out + [next] + rest;
  }

  /** Walks the table from its first entry to its last. */
  method WalkTable(a: Lines, b: Lines, dp: array2<uint32>) returns (out: Script)
    requires dp.Length0 == |a| + 1 && dp.Length1 == |b| + 1
    requires forall i | 0 <= i <= |a| :: RowIs(a, b, dp, i, 0)
    ensures out == Walk(a, b, 0, 0)
  {
    var n, m := |a|, |b|;
    ghost var whole := Walk(a, b, 0, 0);
    out := [];
    var i, j := 0, 0;
    while i < n && j < m
      invariant i <= n && j <= m && Emitted(out, Walk(a, b, i, j), whole)
      decreases n - i + m - j
    {
      assert RowIs(a, b, dp, i, 0) && RowIs(a, b, dp, i + 1, 0);
      if a[i] == b[j] {
        EmitNext(out, DiffLine(Ctx, a[i]), Walk(a, b, i + 1, j + 1), whole);
        out := out + [DiffLine(Ctx, a[i])];
        i, j := i + 1, j + 1;
      } else if dp[i + 1, j] >= dp[i, j + 1] {
        EmitNext(out, DiffLine(Del, a[i]), Walk(a, b, i + 1, j), whole);
        out := out + [DiffLine(Del, a[i])];
        i := i + 1;
      } else {
        EmitNext(out, DiffLine(Add, b[j]), Walk(a, b, i, j + 1), whole);
        out := out + [DiffLine(Add, b[j])];
        j := j + 1;
      }
    }
    while i < n
      invariant i <= n && j <= m && (i == n || j == m) && Emitted(out, Walk(a, b, i, j), whole)
    {
      EmitNext(out, DiffLine(Del, a[i]), Walk(a, b, i + 1, j), whole);
      out := out + [DiffLine(Del, a[i])];
      i := i + 1;
    }
    while j < m
      invariant j <= m && Emitted(out, Walk(a, b, n, j), whole)
    {
      EmitNext(out, DiffLine(Add, b[j]), Walk(a, b, n, j + 1), whole);
      out := out + [DiffLine(Add, b[j])];
      j := j + 1;
    }
  }

  method DiffLines(oldText: string, newText: string) returns (out: Script)
    ensures out == Diff(Split(oldText), Split(newText))
  {
    var a, b := Split(oldText), Split(newText);
    if |a| * |b| > CELL_LIMIT {
      return All(a, Del) + All(b, Add);
    }
    var dp := FillTable(a, b);
    out := WalkTable(a, b, dp);
  }
}
