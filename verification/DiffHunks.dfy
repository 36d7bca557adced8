/** Hunks of a line diff: which lines are shown, how they are grouped, and what the
    hunks do when they are applied to the old text as a patch. */
module DiffHunks {
  import opened Options
  import opened LineDiff

  /** at is the 1-based old line in the hunk's header. */
  datatype Hunk = Hunk(at: nat, lines: Script)

  // ---- which lines are shown

  predicate Near(lines: Script, context: int, idx: int) {
    exists k | 0 <= k < |lines| :: !lines[k].kind.Ctx? && k - context <= idx <= k + context
  }

  function KeepMarks(lines: Script, context: int): (keep: seq<bool>)
    ensures |keep| == |lines|
  {
    seq(|lines|, i => Near(lines, context, i))
  }

  /** How many of the first n lines are kept. */
  function KeptBefore(keep: seq<bool>, n: nat): nat
    requires n <= |keep|
  {
    if n == 0 then 0 else KeptBefore(keep, n - 1) + (if keep[n - 1] then 1 else 0)
  }

  /** The first maxLines kept lines are shown. */
  function ShownMarks(keep: seq<bool>, maxLines: int): (shown: seq<bool>)
    ensures |shown| == |keep|
  {
    seq(|keep|, i requires 0 <= i < |keep| => keep[i] && KeptBefore(keep, i) < maxLines)
  }

  // ---- grouping

  datatype Grouping = Grouping(hunks: seq<Hunk>, open: bool, oldLine: nat)

  function GroupLine(g: Grouping, l: DiffLine, shown: bool): (r: Grouping)
    requires g.open ==> g.hunks != []
    ensures r.open ==> r.hunks != []
  {
    var last := |g.hunks| - 1;
    var hunks := if !shown then g.hunks
                 else if g.open then g.hunks[last := Hunk(g.hunks[last].at, g.hunks[last].lines + [l])]
                 else g.hunks + [Hunk(g.oldLine, [l])];
    Grouping(hunks, shown, if l.kind.Add? then g.oldLine else g.oldLine + 1)
  }

  /** The grouping after n lines. */
  function Group(lines: Script, shown: seq<bool>, n: nat): (r: Grouping)
    requires n <= |lines| == |shown|
    ensures r.open ==> r.hunks != []
  {
    if n == 0 then Grouping([], false, 1)
    else GroupLine(Group(lines, shown, n - 1), lines[n - 1], shown[n - 1])
  }

  function HunksOf(lines: Script, context: int, maxLines: int): seq<Hunk> {
    Group(lines, ShownMarks(KeepMarks(lines, context), maxLines), |lines|).hunks
  }

  // ---- applying hunks as a patch

  /** The next old line to read, and the text written so far. */
  datatype Cursor = Cursor(pos: nat, out: Lines)

  function PatchLine(base: Lines, c: Cursor, l: DiffLine): Option<Cursor> {
    if l.kind.Add? then Some(Cursor(c.pos, c.out + [l.text]))
    else if c.pos >= |base| || base[c.pos] != l.text then None
    else Some(Cursor(c.pos + 1, if l.kind.Ctx? then c.out + [l.text] else c.out))
  }

  function PatchLines(base: Lines, c: Cursor, lines: Script): Option<Cursor> {
    if lines == [] then Some(c)
    else match PatchLines(base, c, lines[..|lines| - 1])
      case None => None
      case Some(c2) => PatchLine(base, c2, lines[|lines| - 1])
  }

  /** Copies the old lines up to the header's line, then applies the hunk there. */
  function PatchHunk(base: Lines, c: Cursor, h: Hunk): Option<Cursor> {
    if h.at == 0 || !(c.pos <= h.at - 1 <= |base|) then None
    else PatchLines(base, Cursor(h.at - 1, c.out + base[c.pos..h.at - 1]), h.lines)
  }

  function PatchHunks(base: Lines, hunks: seq<Hunk>): Option<Cursor> {
    if hunks == [] then Some(Cursor(0, []))
    else match PatchHunks(base, hunks[..|hunks| - 1])
      case None => None
      case Some(c) => PatchHunk(base, c, hunks[|hunks| - 1])
  }

  /** The patched text, or None if the hunks do not fit the old text. */
  function Patch(base: Lines, hunks: seq<Hunk>): Option<Lines> {
    match PatchHunks(base, hunks)
    case None => None
    case Some(c) => if c.pos <= |base| then Some(c.out + base[c.pos..]) else None
  }

  /** The old text with just the shown changes made, after n lines of the script. */
  function ShownText(lines: Script, shown: seq<bool>, n: nat): Lines
    requires n <= |lines| == |shown|
  {
    if n == 0 then []
    else ShownText(lines, shown, n - 1) + TextOf(lines[n - 1], shown[n - 1])
  }

  lemma {:induction false} LinesFitMore(base: Lines, more: Lines, c: Cursor, lines: Script)
    requires c.pos <= |base| && PatchLines(base, c, lines).Some?
    ensures PatchLines(base + more, c, lines) == PatchLines(base, c, lines)
    ensures PatchLines(base, c, lines).value.pos <= |base|
  {
    if lines != [] {
      LinesFitMore(base, more, c, lines[..|lines| - 1]);
    }
  }

  /** Hunks that fit a text fit it when it grows at the end. */
  lemma {:induction false} HunksFitMore(base: Lines, more: Lines, hunks: seq<Hunk>)
    requires PatchHunks(base, hunks).Some?
    ensures PatchHunks(base + more, hunks) == PatchHunks(base, hunks)
    ensures PatchHunks(base, hunks).value.pos <= |base|
  {
    if hunks != [] {
      HunksFitMore(base, more, hunks[..|hunks| - 1]);
      var c := PatchHunks(base, hunks[..|hunks| - 1]).value;
      var h := hunks[|hunks| - 1];
      assert (base + more)[c.pos..h.at - 1] == base[c.pos..h.at - 1];
      LinesFitMore(base, more, Cursor(h.at - 1, c.out + base[c.pos..h.at - 1]), h.lines);
    }
  }

  lemma OldGrows(lines: Script, n: nat)
    requires n < |lines|
    ensures OldOf(lines[..n + 1]) == OldOf(lines[..n]) + (if lines[n].kind.Add? then [] else [lines[n].text])
    ensures NewOf(lines[..n + 1]) == NewOf(lines[..n]) + (if lines[n].kind.Del? then [] else [lines[n].text])
  {
    assert lines[..n + 1] == lines[..n] + [lines[n]];
    OldConcat(lines[..n], [lines[n]]);
    NewConcat(lines[..n], [lines[n]]);
  }

  ghost predicate CursorOk(base: Lines, g: Grouping) {
    && PatchHunks(base, g.hunks).Some?
    && PatchHunks(base, g.hunks).value.pos <= |base|
    && (g.open ==> g.hunks != [] && PatchHunks(base, g.hunks).value.pos == |base|)
  }

  function OldLineOf(l: DiffLine): Lines {
    if l.kind.Add? then [] else [l.text]
  }

  /** A shown line at the end of the open hunk. */
  lemma PatchGrowsOpen(base: Lines, g: Grouping, l: DiffLine)
    requires CursorOk(base, g) && g.open
    ensures PatchHunks(base + OldLineOf(l), GroupLine(g, l, true).hunks)
            == PatchLine(base + OldLineOf(l), PatchHunks(base, g.hunks).value, l)
  {
    var last := |g.hunks| - 1;
    var h := g.hunks[last];
    var hunks := GroupLine(g, l, true).hunks;
    var longer := base + OldLineOf(l);
    HunksFitMore(base, OldLineOf(l), g.hunks);
    assert hunks[..last] == g.hunks[..last];
    assert (h.lines + [l])[..|h.lines|] == h.lines;
    assert PatchHunks(longer, g.hunks) == PatchHunk(longer, PatchHunks(longer, g.hunks[..last]).value, h);
  }

  lemma PatchOneLine(base: Lines, c: Cursor, at: nat, l: DiffLine)
    requires 0 < at && c.pos <= at - 1 <= |base|
    ensures PatchHunk(base, c, Hunk(at, [l])) == PatchLine(base, Cursor(at - 1, c.out + base[c.pos..at - 1]), l)
  {
    var start := Cursor(at - 1, c.out + base[c.pos..at - 1]);
    assert [l][..|[l]| - 1] == [];
    assert PatchLines(base, start, [l][..|[l]| - 1]) == Some(start);
  }

  /** A shown line that starts a hunk. */
  lemma PatchGrowsNew(base: Lines, g: Grouping, l: DiffLine)
    requires CursorOk(base, g) && !g.open && g.oldLine == |base| + 1
    ensures var c := PatchHunks(base, g.hunks).value;
            PatchHunks(base + OldLineOf(l), GroupLine(g, l, true).hunks)
            == PatchLine(base + OldLineOf(l), Cursor(|base|, c.out + base[c.pos..]), l)
  {
    var c := PatchHunks(base, g.hunks).value;
    var hunks := GroupLine(g, l, true).hunks;
    HunksFitMore(base, OldLineOf(l), g.hunks);
    assert hunks[..|g.hunks|] == g.hunks;
    var longer := base + OldLineOf(l);
    assert longer[c.pos..|base|] == base[c.pos..];
    PatchOneLine(longer, c, g.oldLine, l);
  }

  /** The hunks so far turn the old lines so far into the text. */
  ghost predicate PatchedTo(base: Lines, g: Grouping, text: Lines) {
    && g.oldLine == |base| + 1
    && CursorOk(base, g)
    && var c := PatchHunks(base, g.hunks).value;
       c.out + base[c.pos..] == text
  }

  function TextOf(l: DiffLine, shown: bool): Lines {
    if (if shown then l.kind.Del? else l.kind.Add?) then [] else [l.text]
  }

  lemma GroupLinePatches(base: Lines, g: Grouping, text: Lines, l: DiffLine, shown: bool)
    requires PatchedTo(base, g, text)
    ensures PatchedTo(base + OldLineOf(l), GroupLine(g, l, shown), text + TextOf(l, shown))
  {
    var more := OldLineOf(l);
    var c := PatchHunks(base, g.hunks).value;
    if !shown {
      HunksFitMore(base, more, g.hunks);
      assert (base + more)[c.pos..] == base[c.pos..] + more;
      assert c.out + (base[c.pos..] + more) == (c.out + base[c.pos..]) + more;
    } else {
      if g.open {
        PatchGrowsOpen(base, g, l);
        assert base[c.pos..] == [] && c.out + [] == c.out;
        assert PatchHunks(base + more, GroupLine(g, l, true).hunks) == PatchLine(base + more, Cursor(|base|, text), l);
      } else {
        PatchGrowsNew(base, g, l);
      }
      assert (base + more)[|base + more|..] == [];
    }
  }

  lemma {:induction false} HunksPatchPrefix(lines: Script, shown: seq<bool>, n: nat)
    requires n <= |lines| == |shown|
    ensures PatchedTo(OldOf(lines[..n]), Group(lines, shown, n), ShownText(lines, shown, n))
  {
    if n == 0 {
      assert lines[..0] == [];
    } else {
      HunksPatchPrefix(lines, shown, n - 1);
      OldGrows(lines, n - 1);
      GroupLinePatches(OldOf(lines[..n - 1]), Group(lines, shown, n - 1), ShownText(lines, shown, n - 1),
                       lines[n - 1], shown[n - 1]);
    }
  }

  /** Whatever lines are shown, the hunks fit the old text at their header lines and
      make exactly the shown changes. */
  lemma HunksMakeShownChanges(lines: Script, shown: seq<bool>)
    requires |shown| == |lines|
    ensures Patch(OldOf(lines), Group(lines, shown, |lines|).hunks) == Some(ShownText(lines, shown, |lines|))
  {
    HunksPatchPrefix(lines, shown, |lines|);
    assert lines[..|lines|] == lines;
  }

  // ---- when the patched text is the new text

  predicate AllChangesShown(lines: Script, shown: seq<bool>)
    requires |shown| == |lines|
  {
    forall i | 0 <= i < |lines| :: lines[i].kind.Ctx? || shown[i]
  }

  /** The script that makes just the shown changes of the first n lines. */
  function ShownScript(lines: Script, shown: seq<bool>, n: nat): Script
    requires n <= |lines| == |shown|
  {
    if n == 0 then []
    else ShownScript(lines, shown, n - 1) + ShownLine(lines[n - 1], shown[n - 1])
  }

  /** Changes of one kind among the first n lines that are not shown. */
  function Hidden(lines: Script, shown: seq<bool>, kind: Kind, n: nat): nat
    requires n <= |lines| == |shown|
  {
    if n == 0 then 0
    else Hidden(lines, shown, kind, n - 1) + (if !shown[n - 1] && lines[n - 1].kind == kind then 1 else 0)
  }

  lemma {:induction false} CountGrows(s: Script, l: DiffLine, kind: Kind)
    ensures Count(s + [l], kind) == Count(s, kind) + (if l.kind == kind then 1 else 0)
  {
    if s == [] {
      assert s + [l] == [l];
      assert [l][1..] == [];
    } else {
      CountGrows(s[1..], l, kind);
      assert (s + [l])[0] == s[0] && (s + [l])[1..] == s[1..] + [l];
    }
  }

  lemma SpellsOne(s: Script, l: DiffLine)
    ensures OldOf(s + [l]) == OldOf(s) + (if l.kind.Add? then [] else [l.text])
    ensures NewOf(s + [l]) == NewOf(s) + (if l.kind.Del? then [] else [l.text])
  {
    OldConcat(s, [l]);
    NewConcat(s, [l]);
  }

  lemma {:induction false} ShownScriptOld(lines: Script, shown: seq<bool>, n: nat)
    requires n <= |lines| == |shown|
    ensures OldOf(ShownScript(lines, shown, n)) == OldOf(lines[..n])
  {
    if n == 0 {
      assert lines[..0] == [];
    } else {
      ShownScriptOld(lines, shown, n - 1);
      ShownLineSpells(ShownScript(lines, shown, n - 1), lines[n - 1], shown[n - 1]);
      OldGrows(lines, n - 1);
    }
  }

  lemma ShownScriptGrows(lines: Script, shown: seq<bool>, n: nat)
    requires n < |lines| == |shown|
    ensures ShownScript(lines, shown, n + 1) == ShownScript(lines, shown, n) + ShownLine(lines[n], shown[n])
    ensures ShownText(lines, shown, n + 1) == ShownText(lines, shown, n) + TextOf(lines[n], shown[n])
  {
  }

  lemma ShownNewStep(before: Script, after: Script, text: Lines, text2: Lines, l: DiffLine, shown: bool)
    requires after == before + ShownLine(l, shown) && text2 == text + TextOf(l, shown) && NewOf(before) == text
    ensures NewOf(after) == text2
  {
    ShownLineSpells(before, l, shown);
  }

  lemma {:induction false} ShownScriptNew(lines: Script, shown: seq<bool>, n: nat)
    requires n <= |lines| == |shown|
    ensures NewOf(ShownScript(lines, shown, n)) == ShownText(lines, shown, n)
  {
    if n > 0 {
      ShownScriptNew(lines, shown, n - 1);
      ShownScriptGrows(lines, shown, n - 1);
      ShownNewStep(ShownScript(lines, shown, n - 1), ShownScript(lines, shown, n),
                   ShownText(lines, shown, n - 1), ShownText(lines, shown, n), lines[n - 1], shown[n - 1]);
    }
  }

  function ShownLine(l: DiffLine, shown: bool): Script {
    if shown || l.kind.Ctx? then [l] else if l.kind.Add? then [] else [DiffLine(Ctx, l.text)]
  }

  lemma ShownLineSpells(s: Script, l: DiffLine, shown: bool)
    ensures OldOf(s + ShownLine(l, shown)) == OldOf(s) + OldLineOf(l)
    ensures NewOf(s + ShownLine(l, shown)) == NewOf(s) + TextOf(l, shown)
  {
    if shown || l.kind.Ctx? {
      SpellsOne(s, l);
    } else if l.kind.Add? {
      assert s + [] == s;
    } else {
      SpellsOne(s, DiffLine(Ctx, l.text));
    }
  }

  lemma ShownLineCounts(s: Script, l: DiffLine, shown: bool)
    ensures Count(s + ShownLine(l, shown), Ctx)
            == Count(s, Ctx) + (if l.kind.Ctx? || (!shown && l.kind.Del?) then 1 else 0)
  {
    if shown || l.kind.Ctx? {
      CountGrows(s, l, Ctx);
    } else if l.kind.Add? {
      assert s + [] == s;
    } else {
      CountGrows(s, DiffLine(Ctx, l.text), Ctx);
    }
  }

  lemma CountOneMore(lines: Script, n: nat, kind: Kind)
    requires n < |lines|
    ensures Count(lines[..n + 1], kind) == Count(lines[..n], kind) + (if lines[n].kind == kind then 1 else 0)
  {
    assert lines[..n + 1] == lines[..n] + [lines[n]];
    CountGrows(lines[..n], lines[n], kind);
  }

  lemma {:induction false} ShownScriptCounts(lines: Script, shown: seq<bool>, n: nat)
    requires n <= |lines| == |shown|
    ensures Count(ShownScript(lines, shown, n), Ctx) == Count(lines[..n], Ctx) + Hidden(lines, shown, Del, n)
  {
    if n == 0 {
      assert lines[..0] == [];
    } else {
      ShownScriptCounts(lines, shown, n - 1);
      ShownLineCounts(ShownScript(lines, shown, n - 1), lines[n - 1], shown[n - 1]);
      CountOneMore(lines, n - 1, Ctx);
    }
  }

  lemma {:induction false} ShownTextLength(lines: Script, shown: seq<bool>, n: nat)
    requires n <= |lines| == |shown|
    ensures |NewOf(lines[..n])| + Hidden(lines, shown, Del, n)
            == |ShownText(lines, shown, n)| + Hidden(lines, shown, Add, n)
  {
    if n == 0 {
      assert lines[..0] == [];
    } else {
      ShownTextLength(lines, shown, n - 1);
      OldGrows(lines, n - 1);
    }
  }

  lemma {:induction false} NothingHidden(lines: Script, shown: seq<bool>, n: nat)
    requires n <= |lines| == |shown|
    ensures Hidden(lines, shown, Add, n) == 0 && Hidden(lines, shown, Del, n) == 0
            <==> forall i | 0 <= i < n :: lines[i].kind.Ctx? || shown[i]
  {
    if n > 0 {
      NothingHidden(lines, shown, n - 1);
    }
  }

  lemma {:induction false} AllShownText(lines: Script, shown: seq<bool>, n: nat)
    requires n <= |lines| == |shown| && AllChangesShown(lines, shown)
    ensures ShownText(lines, shown, n) == NewOf(lines[..n])
  {
    if n == 0 {
      assert lines[..0] == [];
    } else {
      AllShownText(lines, shown, n - 1);
      OldGrows(lines, n - 1);
    }
  }

  // ---- above the diff's cut-off, where every line is deleted or added

  /** How many lines of a whole-file replacement may be shown. */
  function Allowance(context: int, maxLines: int): nat {
    if context < 0 || maxLines < 0 then 0 else maxLines
  }

  lemma {:induction false} AllKept(keep: seq<bool>, n: nat)
    requires n <= |keep| && forall i | 0 <= i < n :: keep[i]
    ensures KeptBefore(keep, n) == n
  {
    if n > 0 {
      AllKept(keep, n - 1);
    }
  }

  lemma ReplacementMarks(lines: Script, context: int, maxLines: int, i: nat)
    requires i < |lines| && forall k | 0 <= k < |lines| :: !lines[k].kind.Ctx?
    ensures ShownMarks(KeepMarks(lines, context), maxLines)[i] <==> i < Allowance(context, maxLines)
  {
    var keep := KeepMarks(lines, context);
    if context >= 0 {
      forall k | 0 <= k < |lines| ensures keep[k] {
        assert !lines[k].kind.Ctx? && Near(lines, context, k);
      }
      AllKept(keep, i);
    }
  }

  /** A replacement of a by b of which the first k lines are shown. */
  predicate ShowsFirst(a: Lines, b: Lines, shown: seq<bool>, k: nat) {
    |shown| == |a| + |b| && forall i | 0 <= i < |shown| :: shown[i] <==> i < k
  }

  /** Then k lines of the old text are gone, */
  lemma {:induction false} DeletedText(a: Lines, b: Lines, shown: seq<bool>, k: nat, n: nat)
    requires ShowsFirst(a, b, shown, k) && n <= |a|
    ensures ShownText(All(a, Del) + All(b, Add), shown, n) == if n <= k then [] else a[k..n]
  {
    if n > 0 {
      DeletedText(a, b, shown, k, n - 1);
      assert (All(a, Del) + All(b, Add))[n - 1] == DiffLine(Del, a[n - 1]);
    }
  }

  /** The first n lines of b, but at most so many. */
  function UpTo(b: Lines, n: nat, most: nat): Lines
    requires n <= |b|
  {
    b[..if n <= most then n else most]
  }

  lemma UpToGrows(b: Lines, n: nat, most: nat)
    requires n < |b|
    ensures UpTo(b, n + 1, most) == if n < most then UpTo(b, n, most) + [b[n]] else UpTo(b, n, most)
  {
  }

  lemma AddedStep(a: Lines, b: Lines, shown: seq<bool>, k: nat, n: nat)
    requires ShowsFirst(a, b, shown, k) && n < |b|
    ensures var lines := All(a, Del) + All(b, Add);
            ShownText(lines, shown, |a| + n + 1) == ShownText(lines, shown, |a| + n) + if |a| + n < k then [b[n]] else []
  {
    var lines := All(a, Del) + All(b, Add);
    assert lines[|a| + n] == DiffLine(Add, b[n]);
    ShownScriptGrows(lines, shown, |a| + n);
  }

  /** and of the new text only the lines are there that the k shown ones reach. */
  lemma {:induction false} AddedText(a: Lines, b: Lines, shown: seq<bool>, k: nat, n: nat)
    requires ShowsFirst(a, b, shown, k) && n <= |b|
    ensures ShownText(All(a, Del) + All(b, Add), shown, |a| + n) == if k <= |a| then a[k..] else UpTo(b, n, k - |a|)
  {
    if n == 0 {
      DeletedText(a, b, shown, k, |a|);
    } else {
      AddedText(a, b, shown, k, n - 1);
      AddedStep(a, b, shown, k, n - 1);
      if |a| < k {
        UpToGrows(b, n - 1, k - |a|);
      }
    }
  }

  lemma ReplacementShowsFirst(a: Lines, b: Lines, context: int, maxLines: int)
    ensures var lines, k := All(a, Del) + All(b, Add), Allowance(context, maxLines);
            var shown := ShownMarks(KeepMarks(lines, context), maxLines);
            ShowsFirst(a, b, shown, k) && (AllChangesShown(lines, shown) <==> |a| + |b| <= k)
  {
    var lines, k := All(a, Del) + All(b, Add), Allowance(context, maxLines);
    var shown := ShownMarks(KeepMarks(lines, context), maxLines);
    forall i | 0 <= i < |lines| ensures shown[i] <==> i < k {
      ReplacementMarks(lines, context, maxLines, i);
    }
    if k < |lines| {
      assert !lines[k].kind.Ctx? && !shown[k];
    }
  }

  /** Showing k lines gives the new text exactly if these are all, or the old text is the
      new one behind k more lines. */
  lemma ReplacementText(a: Lines, b: Lines, shown: seq<bool>, k: nat)
    requires ShowsFirst(a, b, shown, k)
    ensures ShownText(All(a, Del) + All(b, Add), shown, |shown|) == b
            <==> |a| + |b| <= k || (k < |a| && a[k..] == b)
  {
    AddedText(a, b, shown, k, |b|);
    if |a| < k < |a| + |b| {
      assert |b[..k - |a|]| < |b|;
    }
  }

  lemma HunksOfReplacement(a: Lines, b: Lines, context: int, maxLines: int)
    requires !Small(a, b)
    ensures var lines, k := Diff(a, b), Allowance(context, maxLines);
            Patch(a, HunksOf(lines, context, maxLines)) == Some(b)
            <==> AllChangesShown(lines, ShownMarks(KeepMarks(lines, context), maxLines)) || (k < |a| && a[k..] == b)
  {
    var lines, k := Diff(a, b), Allowance(context, maxLines);
    var shown := ShownMarks(KeepMarks(lines, context), maxLines);
    DiffSpells(a, b);
    HunksMakeShownChanges(lines, shown);
    ReplacementShowsFirst(a, b, context, maxLines);
    ReplacementText(a, b, shown, k);
  }

  /** Below the cut-off hiding a change never cancels out, because the diff is minimal. */
  lemma HunksOfMinimal(a: Lines, b: Lines, context: int, maxLines: int)
    requires Small(a, b)
    ensures var lines := Diff(a, b);
            Patch(a, HunksOf(lines, context, maxLines)) == Some(b)
            <==> AllChangesShown(lines, ShownMarks(KeepMarks(lines, context), maxLines))
  {
    var lines := Diff(a, b);
    var shown := ShownMarks(KeepMarks(lines, context), maxLines);
    var n := |lines|;
    DiffSpells(a, b);
    HunksMakeShownChanges(lines, shown);
    assert lines[..n] == lines;
    if AllChangesShown(lines, shown) {
      AllShownText(lines, shown, n);
    }
    if ShownText(lines, shown, n) == b {
      ShownScriptOld(lines, shown, n);
      ShownScriptNew(lines, shown, n);
      ShownScriptCounts(lines, shown, n);
      ShownTextLength(lines, shown, n);
      DiffIsMinimal(a, b, ShownScript(lines, shown, n));
      NothingHidden(lines, shown, n);
    }
  }

  /** The hunks turn the old text into the new one exactly if every change is shown, but
      for one case above the cut-off: the deletions shown first already do it, because
      the old text is the new one behind as many lines as may be shown. */
  lemma HunksPatchExactly(a: Lines, b: Lines, context: int, maxLines: int)
    ensures var lines, k := Diff(a, b), Allowance(context, maxLines);
            Patch(a, HunksOf(lines, context, maxLines)) == Some(b)
            <==> AllChangesShown(lines, ShownMarks(KeepMarks(lines, context), maxLines))
                 || (!Small(a, b) && k < |a| && a[k..] == b)
  {
    if Small(a, b) {
      HunksOfMinimal(a, b, context, maxLines);
    } else {
      HunksOfReplacement(a, b, context, maxLines);
    }
  }

  lemma {:induction false} KeptBeforeGrows(keep: seq<bool>, i: nat, n: nat)
    requires i <= n <= |keep|
    ensures KeptBefore(keep, i) <= KeptBefore(keep, n)
    ensures i < n && keep[i] ==> KeptBefore(keep, i) < KeptBefore(keep, n)
  {
    if i < n {
      KeptBeforeGrows(keep, i, n - 1);
    }
  }

  /** When no more than maxLines lines are kept, the hunks patch the old text to the
      new one, and a line left out is context farther than context from any change. */
  lemma UncutHunks(a: Lines, b: Lines, context: nat, maxLines: int)
    requires KeptBefore(KeepMarks(Diff(a, b), context), |Diff(a, b)|) <= maxLines
    ensures Patch(a, HunksOf(Diff(a, b), context, maxLines)) == Some(b)
    ensures var lines := Diff(a, b);
            var shown := ShownMarks(KeepMarks(lines, context), maxLines);
            forall i, k | 0 <= i < |lines| && !shown[i] && 0 <= k < |lines| && !lines[k].kind.Ctx? ::
              lines[i].kind.Ctx? && (i < k - context || k + context < i)
  {
    var lines := Diff(a, b);
    var keep := KeepMarks(lines, context);
    var shown := ShownMarks(keep, maxLines);
    forall i | 0 <= i < |lines| ensures shown[i] == keep[i] && (!lines[i].kind.Ctx? ==> shown[i]) {
      KeptBeforeGrows(keep, i, |lines|);
    }
    forall i, k | 0 <= i < |lines| && !shown[i] && 0 <= k < |lines| && !lines[k].kind.Ctx?
      ensures lines[i].kind.Ctx? && (i < k - context || k + context < i)
    {
      assert !Near(lines, context, i);
    }
    HunksPatchExactly(a, b, context, maxLines);
  }

  // ---- the hunks hold the shown lines, each in a maximal run

  function Flat(hunks: seq<Hunk>): Script {
    if hunks == [] then [] else Flat(hunks[..|hunks| - 1]) + hunks[|hunks| - 1].lines
  }

  /** The lines marked among the first n. */
  function Marked(lines: Script, marks: seq<bool>, n: nat): Script
    requires n <= |lines| == |marks|
  {
    if n == 0 then [] else Marked(lines, marks, n - 1) + (if marks[n - 1] then [lines[n - 1]] else [])
  }

  /** Runs of marks that start among the first n. */
  function Runs(marks: seq<bool>, n: nat): nat
    requires n <= |marks|
  {
    if n == 0 then 0 else Runs(marks, n - 1) + (if marks[n - 1] && (n == 1 || !marks[n - 2]) then 1 else 0)
  }

  lemma {:induction false} HunksHoldMarked(lines: Script, shown: seq<bool>, n: nat)
    requires n <= |lines| == |shown|
    ensures Flat(Group(lines, shown, n).hunks) == Marked(lines, shown, n)
    ensures |Group(lines, shown, n).hunks| == Runs(shown, n)
  {
    if n > 0 {
      HunksHoldMarked(lines, shown, n - 1);
      var g := Group(lines, shown, n - 1);
      var hunks := Group(lines, shown, n).hunks;
      if shown[n - 1] {
        var last := |hunks| - 1;
        assert hunks[..last] == if g.open then g.hunks[..last] else g.hunks;
      }
    }
  }

  /** The first maxLines kept lines, in order, are the lines of the hunks. */
  lemma {:induction false} ShownAreFirstKept(lines: Script, keep: seq<bool>, maxLines: nat, n: nat)
    requires n <= |lines| == |keep|
    ensures var kept := Marked(lines, keep, n);
            && |kept| == KeptBefore(keep, n)
            && Marked(lines, ShownMarks(keep, maxLines), n) == if |kept| <= maxLines then kept else kept[..maxLines]
  {
    if n > 0 {
      ShownAreFirstKept(lines, keep, maxLines, n - 1);
    }
  }

  /** marks are the lines at most context away from a change. */
  ghost predicate MarkNear(lines: Script, context: int, marks: seq<bool>) {
    && |marks| == |lines|
    && forall i | 0 <= i < |lines| ::
         marks[i] <==> exists k | 0 <= k < |lines| :: !lines[k].kind.Ctx? && -context <= i - k <= context
  }

  lemma KeepMarksAre(lines: Script, context: int, marks: seq<bool>)
    requires MarkNear(lines, context, marks)
    ensures KeepMarks(lines, context) == marks
  {
    forall i | 0 <= i < |lines| ensures KeepMarks(lines, context)[i] == marks[i] {
      assert Near(lines, context, i) <==> exists k | 0 <= k < |lines| :: !lines[k].kind.Ctx? && -context <= i - k <= context;
    }
  }

  /** The first n marks; the others are off. */
  function FirstMarks(marks: seq<bool>, n: nat): (r: seq<bool>)
    ensures |r| == |marks|
  {
    if marks == [] then []
    else [marks[0] && n > 0] + FirstMarks(marks[1..], if marks[0] && n > 0 then n - 1 else n)
  }

  lemma {:induction false} FirstMarksAt(marks: seq<bool>, n: nat, i: nat)
    requires i < |marks|
    ensures FirstMarks(marks, n)[i] <==> marks[i] && KeptBefore(marks, i) < n
    decreases marks
  {
    if i > 0 {
      FirstMarksAt(marks[1..], if marks[0] && n > 0 then n - 1 else n, i - 1);
      KeptShift(marks, i);
    }
  }

  lemma {:induction false} KeptShift(marks: seq<bool>, i: nat)
    requires 0 < i <= |marks|
    ensures KeptBefore(marks, i) == KeptBefore(marks[1..], i - 1) + if marks[0] then 1 else 0
    decreases i
  {
    if i > 1 {
      KeptShift(marks, i - 1);
    }
  }

  lemma ShownAreFirst(marks: seq<bool>, maxLines: nat)
    ensures ShownMarks(marks, maxLines) == FirstMarks(marks, maxLines)
  {
    forall i: nat | i < |marks| ensures ShownMarks(marks, maxLines)[i] == FirstMarks(marks, maxLines)[i] {
      FirstMarksAt(marks, maxLines, i);
    }
  }

  /** At any limit the hunks hold, in order, the first maxLines of the lines at most context
      away from a change, one hunk for each unbroken run of them. */
  lemma HunkLines(lines: Script, context: int, maxLines: nat, marks: seq<bool>)
    requires MarkNear(lines, context, marks)
    ensures var near := Marked(lines, marks, |lines|);
            && Flat(HunksOf(lines, context, maxLines)) == (if |near| <= maxLines then near else near[..maxLines])
            && |HunksOf(lines, context, maxLines)| == Runs(FirstMarks(marks, maxLines), |lines|)
  {
    KeepMarksAre(lines, context, marks);
    HunksHoldMarked(lines, ShownMarks(marks, maxLines), |lines|);
    ShownAreFirstKept(lines, marks, maxLines, |lines|);
    ShownAreFirst(marks, maxLines);
  }

  // ---- the program

  function Larger(x: int, y: int): int {
    if x >= y then x else y
  }

  function Smaller(x: int, y: int): int {
    if x <= y then x else y
  }

  /** The nested loop that marks the neighbourhood of every change. */
  method MarkKept(lines: Script, context: int) returns (keep: array<bool>)
    ensures fresh(keep) && keep[..] == KeepMarks(lines, context)
  {
    keep := new bool[|lines|](i => false);
    for idx := 0 to |lines|
      invariant forall i | 0 <= i < |lines| :: keep[i] <==> Near(lines[..idx], context, i)
    {
      ghost var before := keep[..];
      if !lines[idx].kind.Ctx? {
        var k := Larger(0, idx - context);
        while k <= Smaller(|lines| - 1, idx + context)
          invariant Larger(0, idx - context) <= k
          invariant forall i | 0 <= i < |lines| :: keep[i] <==> before[i] || (idx - context <= i < k && i <= idx + context)
        {
          keep[k] := true;
          k := k + 1;
        }
      }
    }
    assert lines[..|lines|] == lines;
  }

  /** A shown line joins the open hunk or begins one. */
  method ShowLine(hunks: seq<Hunk>, current: bool, oldLine: nat, l: DiffLine) returns (r: seq<Hunk>)
    requires current ==> hunks != []
    ensures r == GroupLine(Grouping(hunks, current, oldLine), l, true).hunks
  {
    r := hunks;
    if !current {
      r := r + [Hunk(oldLine, [])];
    }
    var last := |r| - 1;
    assert [] + [l] == [l];
    r := r[last := Hunk(r[last].at, r[last].lines + [l])];
  }

  lemma GroupStep(lines: Script, keep: seq<bool>, maxLines: int, idx: nat)
    requires idx < |lines| == |keep|
    ensures var shown, emitted := ShownMarks(keep, maxLines), Smaller(KeptBefore(keep, idx), Larger(0, maxLines));
            && shown[idx] == (keep[idx] && emitted < maxLines)
            && Smaller(KeptBefore(keep, idx + 1), Larger(0, maxLines)) == emitted + (if shown[idx] then 1 else 0)
            && Group(lines, shown, idx + 1) == GroupLine(Group(lines, shown, idx), lines[idx], shown[idx])
  {
  }

  method DiffHunks(oldText: string, newText: string, context: int := 2, maxLines: int := 160) returns (hunks: seq<Hunk>)
    ensures hunks == HunksOf(Diff(Split(oldText), Split(newText)), context, maxLines)
  {
    var lines := DiffLines(oldText, newText);
    var keep := MarkKept(lines, context);
    ghost var marks := KeepMarks(lines, context);
    ghost var shown := ShownMarks(marks, maxLines);
    hunks := [];
    var current := false;
    var oldLine := 1;
    var emitted := 0;
    for idx := 0 to |lines|
      invariant keep[..] == marks
      invariant Grouping(hunks, current, oldLine) == Group(lines, shown, idx)
      invariant emitted == Smaller(KeptBefore(marks, idx), Larger(0, maxLines))
    {
      var l := lines[idx];
      assert keep[idx] == marks[idx];
      GroupStep(lines, marks, maxLines, idx);
      if keep[idx] && emitted < maxLines {
        hunks := ShowLine(hunks, current, oldLine, l);
        current := true;
        emitted := emitted + 1;
      } else {
        current := false;
      }
      if !l.kind.Add? {
        oldLine := oldLine + 1;
      }
    }
  }
}
