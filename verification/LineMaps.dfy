/** Line maps read off a diff: the old line each new line survived from, and the
    marks of changed places in the new text. */
module LineMaps {
  import opened Options
  import opened LineDiff

  // ---- where new lines come from

  /** The map of a script whose first old line has number oldLine. */
  function MapFrom(s: Script, oldLine: nat): seq<Option<nat>> {
    if s == [] then []
    else match s[0].kind
      case Ctx => [Some(oldLine)] + MapFrom(s[1..], oldLine + 1)
      case Add => [None] + MapFrom(s[1..], oldLine)
      case Del => MapFrom(s[1..], oldLine + 1)
  }

  function Survivors(m: seq<Option<nat>>): nat {
    if m == [] then 0 else (if m[0].Some? then 1 else 0) + Survivors(m[1..])
  }

  /** Entries are numbers of equal old lines, in increasing order. */
  ghost predicate IsLineMap(m: seq<Option<nat>>, a: Lines, b: Lines, oldLine: nat) {
    && |m| == |b|
    && (forall k | 0 <= k < |m| && m[k].Some? ::
          oldLine <= m[k].value < oldLine + |a| && a[m[k].value - oldLine] == b[k])
    && (forall k, l | 0 <= k < l < |m| && m[k].Some? && m[l].Some? :: m[k].value < m[l].value)
  }

  lemma MapSkipsOld(m: seq<Option<nat>>, a: Lines, b: Lines, oldLine: nat, text: string)
    requires IsLineMap(m, a, b, oldLine + 1)
    ensures IsLineMap(m, [text] + a, b, oldLine)
  {
    forall k | 0 <= k < |m| && m[k].Some? ensures ([text] + a)[m[k].value - oldLine] == b[k] {
      assert ([text] + a)[m[k].value - oldLine] == a[m[k].value - (oldLine + 1)];
    }
  }

  lemma MapPrepends(first: Option<nat>, m: seq<Option<nat>>, a: Lines, b: Lines, oldLine: nat, text: string)
    requires IsLineMap(m, a, b, oldLine)
    requires first.Some? ==> first.value == oldLine && a != [] && a[0] == text
    requires first.Some? ==> forall k | 0 <= k < |m| && m[k].Some? :: m[k].value > oldLine
    ensures IsLineMap([first] + m, a, [text] + b, oldLine)
  {
    var m2, b2 := [first] + m, [text] + b;
    forall k | 1 <= k < |m2| ensures m2[k] == m[k - 1] && b2[k] == b[k - 1] {
    }
  }

  lemma {:induction false} MapIsLineMap(s: Script, oldLine: nat)
    ensures IsLineMap(MapFrom(s, oldLine), OldOf(s), NewOf(s), oldLine)
  {
    if s != [] {
      var l := s[0];
      var next := if l.kind.Add? then oldLine else oldLine + 1;
      MapIsLineMap(s[1..], next);
      var rest := MapFrom(s[1..], next);
      var a, b := OldOf(s[1..]), NewOf(s[1..]);
      if l.kind.Add? {
        MapPrepends(None, rest, a, b, oldLine, l.text);
        assert OldOf(s) == a;
      } else {
        MapSkipsOld(rest, a, b, oldLine, l.text);
        if l.kind.Ctx? {
          MapPrepends(Some(oldLine), rest, [l.text] + a, b, oldLine, l.text);
        } else {
          assert NewOf(s) == b;
        }
      }
    }
  }

  lemma {:induction false} SurvivorsAreKept(s: Script, oldLine: nat)
    ensures Survivors(MapFrom(s, oldLine)) == Count(s, Ctx)
  {
    if s != [] {
      SurvivorsAreKept(s[1..], if s[0].kind.Add? then oldLine else oldLine + 1);
      match s[0].kind
      case Ctx => assert MapFrom(s, oldLine)[1..] == MapFrom(s[1..], oldLine + 1);
      case Add => assert MapFrom(s, oldLine)[1..] == MapFrom(s[1..], oldLine);
      case Del =>
    }
  }

  method MapNewToOld(oldText: string, newText: string) returns (out: seq<Option<nat>>)
    ensures out == MapFrom(Diff(Split(oldText), Split(newText)), 1)
  {
    var lines := DiffLines(oldText, newText);
    out := [];
    var oldLine := 1;
    for i := 0 to |lines|
      invariant out + MapFrom(lines[i..], oldLine) == MapFrom(lines, 1)
    {
      var l := lines[i];
      assert lines[i..][0] == l && lines[i..][1..] == lines[i + 1..];
      ghost var before := out;
      if l.kind.Ctx? {
        out := out + [Some(oldLine)];
        assert before + ([Some(oldLine)] + MapFrom(lines[i + 1..], oldLine + 1)) == out + MapFrom(lines[i + 1..], oldLine + 1);
        oldLine := oldLine + 1;
      } else if l.kind.Add? {
        out := out + [None];
        assert before + ([None] + MapFrom(lines[i + 1..], oldLine)) == out + MapFrom(lines[i + 1..], oldLine);
      } else {
        oldLine := oldLine + 1;
      }
    }
    assert lines[|lines|..] == [];
  }

  /** One entry for each new line; the entries name equal old lines, in increasing
      order, and as many as any common subsequence has lines (below the cut-off). */
  lemma MapKeepsMost(a: Lines, b: Lines, c: Lines)
    ensures IsLineMap(MapFrom(Diff(a, b), 1), a, b, 1)
    ensures Small(a, b) && IsSubsequence(c, a) && IsSubsequence(c, b) ==> |c| <= Survivors(MapFrom(Diff(a, b), 1))
  {
    DiffSpells(a, b);
    MapIsLineMap(Diff(a, b), 1);
    if Small(a, b) && IsSubsequence(c, a) && IsSubsequence(c, b) {
      SurvivorsAreKept(Diff(a, b), 1);
      DiffKeepsMost(a, b, c);
      KeptIsCommon(Diff(a, b));
    }
  }

  // ---- changed places

  datatype Mark = Mark(line: nat, added: bool)

  /** The marks of a script whose first new line has number newLine, when the mark
      before it stands at line last (0 if there is none). */
  function MarksFrom(s: Script, newLine: nat, last: nat): seq<Mark> {
    if s == [] then []
    else match s[0].kind
      case Add => [Mark(newLine, true)] + MarksFrom(s[1..], newLine + 1, newLine)
      case Del =>
        if last == newLine then MarksFrom(s[1..], newLine, last)
        else [Mark(newLine, false)] + MarksFrom(s[1..], newLine, newLine)
      case Ctx => MarksFrom(s[1..], newLine + 1, last)
  }

  function MarksOf(s: Script): seq<Mark> {
    MarksFrom(s, 1, 0)
  }

  /** The new-line numbers of the added lines, in order. */
  function AddedFrom(s: Script, newLine: nat): seq<nat> {
    if s == [] then []
    else match s[0].kind
      case Add => [newLine] + AddedFrom(s[1..], newLine + 1)
      case Del => AddedFrom(s[1..], newLine)
      case Ctx => AddedFrom(s[1..], newLine + 1)
  }

  /** A line is deleted just before new line number line. */
  predicate DeletesAt(s: Script, newLine: nat, line: nat) {
    s != [] && match s[0].kind
               case Del => line == newLine || DeletesAt(s[1..], newLine, line)
               case _ => DeletesAt(s[1..], newLine + 1, line)
  }

  function LinesMarked(marks: seq<Mark>, added: bool): seq<nat> {
    if marks == [] then []
    else (if marks[0].added == added then [marks[0].line] else []) + LinesMarked(marks[1..], added)
  }

  ghost predicate Ordered(marks: seq<Mark>, lo: nat, hi: nat) {
    && (forall k | 0 <= k < |marks| :: lo <= marks[k].line <= hi)
    && (forall k, l | 0 <= k < l < |marks| :: marks[k].line <= marks[l].line)
    && (forall k, l | 0 <= k < l < |marks| && !marks[k].added && !marks[l].added :: marks[k].line < marks[l].line)
  }

  ghost predicate NoDeletionAt(marks: seq<Mark>, line: nat) {
    forall k | 0 <= k < |marks| && !marks[k].added :: marks[k].line != line
  }

  lemma OrderedPrepend(first: Mark, marks: seq<Mark>, lo: nat, next: nat, hi: nat)
    requires first.line == lo <= next <= hi && Ordered(marks, next, hi) && NoDeletionAt(marks, lo)
    ensures Ordered([first] + marks, lo, hi)
  {
    var marks2 := [first] + marks;
    forall k | 1 <= k < |marks2| ensures marks2[k] == marks[k - 1] {
    }
  }

  lemma {:induction false} MarksWithin(s: Script, newLine: nat, last: nat)
    requires last <= newLine
    ensures forall m | m in MarksFrom(s, newLine, last) :: newLine <= m.line && (!m.added ==> m.line != last)
    decreases s
  {
    if s != [] {
      match s[0].kind
      case Ctx => MarksWithin(s[1..], newLine + 1, last);
      case Add => MarksWithin(s[1..], newLine + 1, newLine);
      case Del => MarksWithin(s[1..], newLine, if last == newLine then last else newLine);
    }
  }

  lemma {:induction false} MarksOrdered(s: Script, newLine: nat, last: nat)
    requires last <= newLine
    ensures Ordered(MarksFrom(s, newLine, last), newLine, newLine + |NewOf(s)|)
  {
    if s != [] {
      var next := if s[0].kind.Del? then newLine else newLine + 1;
      var last2 := if s[0].kind.Ctx? then last else newLine;
      MarksOrdered(s[1..], next, last2);
      var rest := MarksFrom(s[1..], next, last2);
      var hi := newLine + |NewOf(s)|;
      assert hi == next + |NewOf(s[1..])|;
      if !s[0].kind.Ctx? {
        MarksWithin(s[1..], next, newLine);
        OrderedPrepend(Mark(newLine, s[0].kind.Add?), rest, newLine, next, hi);
      }
    }
  }

  lemma {:induction false} MarksAdded(s: Script, newLine: nat, last: nat)
    ensures LinesMarked(MarksFrom(s, newLine, last), true) == AddedFrom(s, newLine)
  {
    if s != [] {
      var next := if s[0].kind.Del? then newLine else newLine + 1;
      var last2 := if s[0].kind.Ctx? then last else newLine;
      MarksAdded(s[1..], next, last2);
      var marks, rest := MarksFrom(s, newLine, last), MarksFrom(s[1..], next, last2);
      if marks != rest {
        assert marks[1..] == rest;
      }
    }
  }

  lemma {:induction false} MarksDeleted(s: Script, newLine: nat, last: nat, line: nat)
    requires last <= newLine
    ensures line in LinesMarked(MarksFrom(s, newLine, last), false) <==> line != last && DeletesAt(s, newLine, line)
    ensures DeletesAt(s, newLine, line) ==> newLine <= line
  {
    if s != [] {
      var next := if s[0].kind.Del? then newLine else newLine + 1;
      var last2 := if s[0].kind.Ctx? then last else newLine;
      MarksDeleted(s[1..], next, last2, line);
      var marks, rest := MarksFrom(s, newLine, last), MarksFrom(s[1..], next, last2);
      if marks != rest {
        assert marks[1..] == rest;
      }
    }
  }

  /** Uncapped, each added line is marked once and in order, each place where lines
      were deleted is marked once, and the marks climb from 1 to one past the end. */
  lemma MarksShowChanges(a: Lines, b: Lines)
    ensures var s := Diff(a, b);
            && LinesMarked(MarksOf(s), true) == AddedFrom(s, 1)
            && (forall line: nat :: line in LinesMarked(MarksOf(s), false) <==> DeletesAt(s, 1, line))
            && Ordered(MarksOf(s), 1, |b| + 1)
  {
    var s := Diff(a, b);
    DiffSpells(a, b);
    MarksOrdered(s, 1, 0);
    MarksAdded(s, 1, 0);
    forall line: nat ensures line in LinesMarked(MarksOf(s), false) <==> DeletesAt(s, 1, line) {
      MarksDeleted(s, 1, 0, line);
    }
  }

  lemma MarksAt(s: Script, i: nat, newLine: nat, last: nat)
    requires i < |s|
    ensures MarksFrom(s[i..], newLine, last) == match s[i].kind
              case Add => [Mark(newLine, true)] + MarksFrom(s[i + 1..], newLine + 1, newLine)
              case Del =>
                if last == newLine then MarksFrom(s[i + 1..], newLine, last)
                else [Mark(newLine, false)] + MarksFrom(s[i + 1..], newLine, newLine)
              case Ctx => MarksFrom(s[i + 1..], newLine + 1, last)
  {
    assert s[i..][0] == s[i] && s[i..][1..] == s[i + 1..];
  }

  lemma MoveOver(out: seq<Mark>, m: Mark, rest: seq<Mark>)
    ensures out + ([m] + rest) == (out + [m]) + rest
  {
  }

  /** A cap keeps the first marks. */
  method ChangedNewLines(oldText: string, newText: string, cap: nat := 400) returns (out: seq<Mark>)
    ensures var marks := MarksOf(Diff(Split(oldText), Split(newText)));
            out == if |marks| <= cap then marks else marks[..cap]
  {
    var lines := DiffLines(oldText, newText);
    ghost var marks := MarksOf(lines);
    out := [];
    var newLine := 1;
    for i := 0 to |lines|
      invariant newLine >= 1 && |out| <= cap
      invariant out != [] ==> out[|out| - 1].line <= newLine
      invariant marks == out + MarksFrom(lines[i..], newLine, if out == [] then 0 else out[|out| - 1].line)
    {
      if |out| >= cap {
        assert marks[..cap] == out;
        return;
      }
      var l := lines[i];
      MarksAt(lines, i, newLine, if out == [] then 0 else out[|out| - 1].line);
      if l.kind.Add? {
        MoveOver(out, Mark(newLine, true), MarksFrom(lines[i + 1..], newLine + 1, newLine));
        out := out + [Mark(newLine, true)];
        newLine := newLine + 1;
      } else if l.kind.Del? {
        if out == [] || out[|out| - 1].line != newLine {
          MoveOver(out, Mark(newLine, false), MarksFrom(lines[i + 1..], newLine, newLine));
          out := out + [Mark(if newLine >= 1 then newLine else 1, false)];
        }
      } else {
        newLine := newLine + 1;
      }
    }
    assert lines[|lines|..] == [];
  }
}
