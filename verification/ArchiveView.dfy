/** Paging back through the append-only archive of one transcript, in a bounded view. */
module ArchiveView {
  import opened Options

  const ARCHIVE_PAGE_TURNS := 24
  const MAX_ARCHIVE_VIEW_TURNS := 48
  const MAX_ARCHIVE_VIEW_BYTES := 3 * 1024 * 1024

  /** A turn as the view accepts it, with the size of its encoding. */
  datatype Turn = Turn(text: string, bytes: nat)

  datatype Row = Row(turn: Turn, index: nat)

  /** The archive's records; a malformed one has no turn. */
  type Archive = seq<Option<Turn>>

  datatype Bounded = Bounded(rows: seq<Row>, truncated: bool)

  // ---- bounding the view

  /** The rows that fit after count rows of some bytes. */
  function BoundFrom(rows: seq<Row>, count: nat, bytes: nat): (b: Bounded)
    ensures b.rows <= rows
    ensures b.truncated <==> |b.rows| < |rows|
  {
    if rows == [] then Bounded([], false)
    else if count >= MAX_ARCHIVE_VIEW_TURNS || bytes + rows[0].turn.bytes > MAX_ARCHIVE_VIEW_BYTES then Bounded([], true)
    else
      var rest := BoundFrom(rows[1..], count + 1, bytes + rows[0].turn.bytes);
      Bounded([rows[0]] + rest.rows, rest.truncated)
  }

  function Bytes(rows: seq<Row>): nat {
    if rows == [] then 0 else rows[0].turn.bytes + Bytes(rows[1..])
  }

  /** The rows kept are the longest initial run that fits both limits. */
  lemma {:induction false} BoundFits(rows: seq<Row>, count: nat, bytes: nat)
    requires count <= MAX_ARCHIVE_VIEW_TURNS && bytes <= MAX_ARCHIVE_VIEW_BYTES
    ensures var b := BoundFrom(rows, count, bytes);
            && count + |b.rows| <= MAX_ARCHIVE_VIEW_TURNS && bytes + Bytes(b.rows) <= MAX_ARCHIVE_VIEW_BYTES
            && (b.truncated ==> var next := rows[|b.rows|];
                  count + |b.rows| == MAX_ARCHIVE_VIEW_TURNS || bytes + Bytes(b.rows) + next.turn.bytes > MAX_ARCHIVE_VIEW_BYTES)
  {
    if rows != [] && count < MAX_ARCHIVE_VIEW_TURNS && bytes + rows[0].turn.bytes <= MAX_ARCHIVE_VIEW_BYTES {
      BoundFits(rows[1..], count + 1, bytes + rows[0].turn.bytes);
      var b := BoundFrom(rows, count, bytes);
      assert b.rows[1..] == BoundFrom(rows[1..], count + 1, bytes + rows[0].turn.bytes).rows;
    }
  }

  method BoundArchivedView(rows: seq<Row>) returns (kept: seq<Row>, truncated: bool)
    ensures Bounded(kept, truncated) == BoundFrom(rows, 0, 0)
  {
    kept := [];
    var bytes: nat := 0;
    for i := 0 to |rows|
      invariant kept == rows[..i]
      invariant |BoundFrom(rows, 0, 0).rows| == i + |BoundFrom(rows[i..], i, bytes).rows|
    {
      var size := rows[i].turn.bytes;
      if |kept| >= MAX_ARCHIVE_VIEW_TURNS || bytes + size > MAX_ARCHIVE_VIEW_BYTES {
        return kept, true;
      }
      kept := kept + [rows[i]];
      bytes := bytes + size;
    }
    truncated := false;
  }

  // ---- merging an older page in

  predicate Ascending(rows: seq<Row>) {
    forall i, j | 0 <= i < j < |rows| :: rows[i].index < rows[j].index
  }

  /** The row into an ascending list, where its index belongs; a row already there stays. */
  function Insert(rows: seq<Row>, row: Row): seq<Row> {
    if rows == [] || row.index < rows[0].index then [row] + rows
    else if rows[0].index == row.index then rows
    else [rows[0]] + Insert(rows[1..], row)
  }

  function InsertAll(rows: seq<Row>, more: seq<Row>): seq<Row>
    decreases more
  {
    if more == [] then rows else InsertAll(Insert(rows, more[0]), more[1..])
  }

  /** By index, the first row given for an index being kept. */
  function Merge(older: seq<Row>, current: seq<Row>): seq<Row> {
    InsertAll([], older + current)
  }

  lemma {:induction false} InsertMembers(rows: seq<Row>, row: Row)
    ensures forall x | x in Insert(rows, row) :: x in rows || x == row
    ensures forall x | x in rows :: x in Insert(rows, row)
  {
    if rows != [] && row.index > rows[0].index {
      InsertMembers(rows[1..], row);
    }
  }

  lemma {:induction false} InsertAscends(rows: seq<Row>, row: Row)
    requires Ascending(rows)
    ensures Ascending(Insert(rows, row))
  {
    if rows != [] && row.index > rows[0].index {
      var rest := Insert(rows[1..], row);
      InsertAscends(rows[1..], row);
      InsertMembers(rows[1..], row);
      forall j | 0 <= j < |rest| ensures rest[j].index > rows[0].index {
        assert rest[j] in rest;
      }
    }
  }

  lemma {:induction false} InsertAllAscends(rows: seq<Row>, more: seq<Row>)
    requires Ascending(rows)
    ensures Ascending(InsertAll(rows, more))
    decreases more
  {
    if more != [] {
      InsertAscends(rows, more[0]);
      InsertAllAscends(Insert(rows, more[0]), more[1..]);
    }
  }

  /** Any two pages merge into rows of strictly increasing index. */
  lemma MergeAscends(older: seq<Row>, current: seq<Row>)
    ensures Ascending(Merge(older, current))
  {
    InsertAllAscends([], older + current);
  }

  lemma {:induction false} InsertAtEnd(rows: seq<Row>, row: Row)
    requires forall x | x in rows :: x.index < row.index
    ensures Insert(rows, row) == rows + [row]
  {
    if rows != [] {
      assert rows[0] in rows;
      InsertAtEnd(rows[1..], row);
      assert rows == [rows[0]] + rows[1..];
    }
  }

  lemma {:induction false} InsertAllAtEnd(rows: seq<Row>, more: seq<Row>)
    requires Ascending(rows + more)
    ensures InsertAll(rows, more) == rows + more
    decreases more
  {
    if more == [] {
      assert rows + more == rows;
    } else {
      var all := rows + more;
      assert all[|rows|] == more[0];
      forall x | x in rows ensures x.index < more[0].index {
        var k :| 0 <= k < |rows| && rows[k] == x;
        assert all[k] == x;
      }
      InsertAtEnd(rows, more[0]);
      assert rows + [more[0]] + more[1..] == all;
      InsertAllAtEnd(rows + [more[0]], more[1..]);
    }
  }

  /** A page that ends where the rows begin goes in front of them. */
  lemma MergePrepends(older: seq<Row>, current: seq<Row>)
    requires Ascending(older + current)
    ensures Merge(older, current) == older + current
  {
    InsertAllAtEnd([], older + current);
    assert [] + (older + current) == older + current;
  }

  // ---- the view

  /** The rows of the well-formed records from lo to hi, each under its own index. */
  function RowsOf(archive: Archive, lo: nat, hi: nat): seq<Row>
    requires lo <= hi <= |archive|
    decreases hi - lo
  {
    if lo == hi then []
    else (if archive[lo].Some? then [Row(archive[lo].value, lo)] else []) + RowsOf(archive, lo + 1, hi)
  }

  /** before is absent until the first page. The fields from archive on are not the
      view's: the archive itself, where the first page ended and how far the rows reach. */
  datatype View = View(rows: seq<Row>, before: Option<nat>, hasMore: bool, gap: bool, archive: Archive, end: nat, upTo: nat)

  /** A page reply: the records from start to end, at most ARCHIVE_PAGE_TURNS. */
  datatype Event =
    | Grow(records: seq<Option<Turn>>)
    | Load(fromLatest: bool, start: nat, end: nat)
    | NewScope(archive: Archive)

  predicate IsFirst(v: View, fromLatest: bool) {
    fromLatest || v.before.None?
  }

  /** What a page request may be answered with: without a cursor the page ends at some
      end of the archive, otherwise at the cursor; it may be short but is empty only at
      the archive's beginning. */
  predicate Enabled(v: View, e: Event) {
    match e
    case Load(fromLatest, start, end) =>
      && (!fromLatest ==> v.before != Some(0))
      && start <= end <= |v.archive| && end - start <= ARCHIVE_PAGE_TURNS && (end > 0 ==> start < end)
      && (!IsFirst(v, fromLatest) ==> v.before == Some(end))
    case _ => true
  }

  function LoadStep(v: View, fromLatest: bool, start: nat, end: nat): View
    requires start <= end <= |v.archive|
  {
    var incoming := RowsOf(v.archive, start, end);
    var first := IsFirst(v, fromLatest);
    var all := if first then incoming else Merge(incoming, v.rows);
    var b := BoundFrom(all, 0, 0);
    v.(rows := b.rows, before := Some(start), hasMore := start > 0,
       gap := if first then b.truncated else v.gap || b.truncated,
       end := if first then end else v.end,
       upTo := if !b.truncated then (if first then end else v.upTo) else all[|b.rows|].index)
  }

  function Step(v: View, e: Event): View
    requires Enabled(v, e)
  {
    match e
    case Grow(records) => v.(archive := v.archive + records)
    case Load(fromLatest, start, end) => LoadStep(v, fromLatest, start, end)
    case NewScope(archive) => NewView(archive)
  }

  function NewView(archive: Archive): View {
    View([], None, false, false, archive, 0, 0)
  }

  ghost predicate IsRun(states: seq<View>, events: seq<Event>) {
    && |states| == |events| + 1
    && states[0] == NewView(states[0].archive)
    && forall i | 0 <= i < |events| :: Enabled(states[i], events[i]) && states[i + 1] == Step(states[i], events[i])
  }

  // ---- what every load keeps

  function From(v: View): nat {
    if v.before.Some? then v.before.value else 0
  }

  ghost predicate Inv(v: View) {
    && From(v) <= v.upTo <= v.end <= |v.archive|
    && v.rows == RowsOf(v.archive, From(v), v.upTo)
    && (v.before.None? ==> v.rows == [] && !v.gap && v.end == 0)
    && (!v.gap ==> v.upTo == v.end)
    && |v.rows| <= MAX_ARCHIVE_VIEW_TURNS && Bytes(v.rows) <= MAX_ARCHIVE_VIEW_BYTES
  }

  lemma {:induction false} RowAt(archive: Archive, lo: nat, hi: nat, i: nat)
    requires lo <= hi <= |archive| && i < |RowsOf(archive, lo, hi)|
    ensures var row := RowsOf(archive, lo, hi)[i];
            lo <= row.index < hi && archive[row.index] == Some(row.turn)
    decreases hi - lo
  {
    if archive[lo].None? {
      RowAt(archive, lo + 1, hi, i);
    } else if i > 0 {
      RowAt(archive, lo + 1, hi, i - 1);
    }
  }

  lemma {:induction false} RowsAscend(archive: Archive, lo: nat, hi: nat)
    requires lo <= hi <= |archive|
    ensures Ascending(RowsOf(archive, lo, hi))
    decreases hi - lo
  {
    if lo < hi {
      var rest := RowsOf(archive, lo + 1, hi);
      RowsAscend(archive, lo + 1, hi);
      forall j | 0 <= j < |rest| ensures rest[j].index > lo {
        RowAt(archive, lo + 1, hi, j);
      }
    }
  }

  lemma {:induction false} RowsSplit(archive: Archive, lo: nat, mid: nat, hi: nat)
    requires lo <= mid <= hi <= |archive|
    ensures RowsOf(archive, lo, mid) + RowsOf(archive, mid, hi) == RowsOf(archive, lo, hi)
    decreases mid - lo
  {
    if lo < mid {
      RowsSplit(archive, lo + 1, mid, hi);
    }
  }

  lemma {:induction false} RowsGrow(archive: Archive, more: Archive, lo: nat, hi: nat)
    requires lo <= hi <= |archive|
    ensures RowsOf(archive + more, lo, hi) == RowsOf(archive, lo, hi)
    decreases hi - lo
  {
    if lo < hi {
      RowsGrow(archive, more, lo + 1, hi);
    }
  }

  /** The first n rows are those up to the index of the next one. */
  lemma {:induction false} RowsPrefix(archive: Archive, lo: nat, hi: nat, n: nat)
    requires lo <= hi <= |archive| && n < |RowsOf(archive, lo, hi)|
    ensures var upTo := RowsOf(archive, lo, hi)[n].index;
            lo <= upTo < hi && RowsOf(archive, lo, hi)[..n] == RowsOf(archive, lo, upTo)
    decreases hi - lo
  {
    var r := RowsOf(archive, lo, hi);
    var rest := RowsOf(archive, lo + 1, hi);
    if archive[lo].None? {
      RowsPrefix(archive, lo + 1, hi, n);
    } else if n > 0 {
      RowsPrefix(archive, lo + 1, hi, n - 1);
      assert r[..n] == [r[0]] + rest[..n - 1];
    }
  }

  lemma BoundedRows(archive: Archive, lo: nat, hi: nat)
    requires lo <= hi <= |archive|
    ensures var all := RowsOf(archive, lo, hi);
            var b := BoundFrom(all, 0, 0);
            var upTo := if b.truncated then all[|b.rows|].index else hi;
            && lo <= upTo <= hi && b.rows == RowsOf(archive, lo, upTo)
            && |b.rows| <= MAX_ARCHIVE_VIEW_TURNS && Bytes(b.rows) <= MAX_ARCHIVE_VIEW_BYTES
  {
    var all := RowsOf(archive, lo, hi);
    BoundFits(all, 0, 0);
    var b := BoundFrom(all, 0, 0);
    if b.truncated {
      RowsPrefix(archive, lo, hi, |b.rows|);
    } else {
      assert b.rows == all;
    }
  }

  lemma LoadKeeps(v: View, fromLatest: bool, start: nat, end: nat)
    requires Inv(v) && Enabled(v, Load(fromLatest, start, end))
    ensures Inv(LoadStep(v, fromLatest, start, end))
  {
    if IsFirst(v, fromLatest) {
      BoundedRows(v.archive, start, end);
    } else {
      RowsSplit(v.archive, start, end, v.upTo);
      RowsAscend(v.archive, start, v.upTo);
      MergePrepends(RowsOf(v.archive, start, end), v.rows);
      BoundedRows(v.archive, start, v.upTo);
    }
  }

  /** A load shows as many of the rows known from the new cursor on as both limits allow, the
      oldest first; the gap flag is up exactly if some were left out now or before; the cursor
      moves to the page's start and there is more exactly if that is not the beginning. */
  lemma LoadShowsMost(v: View, fromLatest: bool, start: nat, end: nat)
    requires Inv(v) && Enabled(v, Load(fromLatest, start, end))
    ensures var r, first := Step(v, Load(fromLatest, start, end)), fromLatest || v.before.None?;
            var known := RowsOf(v.archive, start, if first then end else v.upTo);
            && r.rows <= known && |r.rows| <= 48 && Bytes(r.rows) <= 3_145_728
            && (|r.rows| < |known| ==> |r.rows| == 48 || Bytes(r.rows) + known[|r.rows|].turn.bytes > 3_145_728)
            && (r.gap <==> r.rows != known || (!first && v.gap))
            && r.before == Some(start) && (r.hasMore <==> start > 0) && r.archive == v.archive
  {
    var first := IsFirst(v, fromLatest);
    var known := RowsOf(v.archive, start, if first then end else v.upTo);
    if !first {
      RowsSplit(v.archive, start, end, v.upTo);
      RowsAscend(v.archive, start, v.upTo);
      MergePrepends(RowsOf(v.archive, start, end), v.rows);
    }
    BoundFits(known, 0, 0);
    assert |BoundFrom(known, 0, 0).rows| == |known| ==> BoundFrom(known, 0, 0).rows == known;
  }

  lemma StepKeepsInv(v: View, e: Event)
    requires Inv(v) && Enabled(v, e)
    ensures Inv(Step(v, e))
  {
    match e
    case Grow(records) => RowsGrow(v.archive, records, From(v), v.upTo);
    case Load(fromLatest, start, end) => LoadKeeps(v, fromLatest, start, end);
    case NewScope(_) =>
  }

  lemma {:induction false} RunKeepsInv(states: seq<View>, events: seq<Event>, i: nat)
    requires IsRun(states, events) && i < |states|
    ensures Inv(states[i])
  {
    if i > 0 {
      RunKeepsInv(states, events, i - 1);
      StepKeepsInv(states[i - 1], events[i - 1]);
    }
  }

  /** In every run each loaded row is the archive's record at its index, the rows
      ascend, start no earlier than the saved cursor, and stay within both limits. */
  lemma RowsAreTheArchives(states: seq<View>, events: seq<Event>, i: nat, k: nat)
    requires IsRun(states, events) && i < |states| && k < |states[i].rows|
    ensures var v := states[i];
            && v.before.Some? && v.before.value <= v.rows[k].index < |v.archive|
            && v.archive[v.rows[k].index] == Some(v.rows[k].turn)
            && Ascending(v.rows) && |v.rows| <= MAX_ARCHIVE_VIEW_TURNS && Bytes(v.rows) <= MAX_ARCHIVE_VIEW_BYTES
  {
    RunKeepsInv(states, events, i);
    var v := states[i];
    RowAt(v.archive, From(v), v.upTo, k);
    RowsAscend(v.archive, From(v), v.upTo);
  }

  lemma {:induction false} RowsHave(archive: Archive, lo: nat, hi: nat, index: nat)
    requires lo <= index < hi <= |archive| && archive[index].Some?
    ensures Row(archive[index].value, index) in RowsOf(archive, lo, hi)
    decreases hi - lo
  {
    if lo < index {
      RowsHave(archive, lo + 1, hi, index);
    }
  }

  lemma {:induction false} RowsAreContiguous(archive: Archive, lo: nat, hi: nat, k: nat)
    requires lo <= hi <= |archive| && forall i | lo <= i < hi :: archive[i].Some?
    ensures |RowsOf(archive, lo, hi)| == hi - lo
    ensures k < hi - lo ==> RowsOf(archive, lo, hi)[k] == Row(archive[lo + k].value, lo + k)
    decreases hi - lo
  {
    if lo < hi {
      RowsAreContiguous(archive, lo + 1, hi, if k > 0 then k - 1 else 0);
    }
  }

  /** The rows of a well-formed archive are one contiguous interval from the saved cursor. */
  lemma RowsFormAnInterval(states: seq<View>, events: seq<Event>, i: nat, k: nat)
    requires IsRun(states, events) && i < |states|
    requires forall x | 0 <= x < |states[i].archive| :: states[i].archive[x].Some?
    ensures var v := states[i];
            && From(v) + |v.rows| == v.upTo <= v.end <= |v.archive|
            && (k < |v.rows| ==> v.rows[k] == Row(v.archive[From(v) + k].value, From(v) + k))
  {
    RunKeepsInv(states, events, i);
    RowsAreContiguous(states[i].archive, From(states[i]), states[i].upTo, k);
  }

  /** While the gap flag is down nothing is missing from the saved cursor to the end of
      the first page, whatever was malformed or appended meanwhile. */
  lemma NoGapNothingMissing(states: seq<View>, events: seq<Event>, i: nat, index: nat)
    requires IsRun(states, events) && i < |states| && !states[i].gap && index < |states[i].archive|
    requires From(states[i]) <= index < states[i].end && states[i].archive[index].Some?
    ensures Row(states[i].archive[index].value, index) in states[i].rows
  {
    RunKeepsInv(states, events, i);
    RowsHave(states[i].archive, From(states[i]), states[i].upTo, index);
  }

  // ---- the main process's page

  const MAX_PAGE_BYTES := 6 * 1024 * 1024

  function Sum(sizes: seq<nat>, lo: nat, hi: nat): nat
    requires lo <= hi <= |sizes|
    decreases hi - lo
  {
    if lo == hi then 0 else Sum(sizes, lo, hi - 1) + sizes[hi - 1]
  }

  lemma {:induction false} SumFront(sizes: seq<nat>, lo: nat, hi: nat)
    requires lo < hi <= |sizes|
    ensures Sum(sizes, lo, hi) == sizes[lo] + Sum(sizes, lo + 1, hi)
    decreases hi - lo
  {
    if lo + 1 < hi {
      SumFront(sizes, lo, hi - 1);
    }
  }

  function Clamp(x: int, lo: int, hi: int): int
    requires lo <= hi
  {
    if x < lo then lo else if x > hi then hi else x
  }

  /** Reads the archive once, keeping a window that ends at the cursor: at most limit
      records, of at most MAX_PAGE_BYTES unless it is a single record, and no shorter
      than those limits demand. */
  method Page(sizes: seq<nat>, before: Option<int>, limit: int) returns (start: nat, end: nat)
    ensures end == if before.Some? then Clamp(before.value, 0, |sizes|) else |sizes|
    ensures start <= end && end - start <= Clamp(limit, 1, 100) && (end > 0 ==> start < end)
    ensures end - start > 1 ==> Sum(sizes, start, end) <= MAX_PAGE_BYTES
    ensures start > 0 && end - start < Clamp(limit, 1, 100) ==> Sum(sizes, start - 1, end) > MAX_PAGE_BYTES
  {
    end := if before.Some? then Clamp(before.value, 0, |sizes|) else |sizes|;
    var take := Clamp(limit, 1, 100);
    var requestedStart: nat := if end > take then end - take else 0;
    start := requestedStart;
    var pageBytes := 0;
    for index := requestedStart to end
      invariant requestedStart <= start <= index && (index > requestedStart ==> start < index)
      invariant pageBytes == Sum(sizes, start, index)
      invariant index - start > 1 ==> pageBytes <= MAX_PAGE_BYTES
      invariant start > requestedStart ==> Sum(sizes, start - 1, index) > MAX_PAGE_BYTES
    {
      pageBytes := pageBytes + sizes[index];
      while index + 1 - start > 1 && pageBytes > MAX_PAGE_BYTES
        invariant requestedStart <= start <= index && pageBytes == Sum(sizes, start, index + 1)
        invariant start > requestedStart ==> Sum(sizes, start - 1, index + 1) > MAX_PAGE_BYTES
      {
        SumFront(sizes, start, index + 1);
        pageBytes := pageBytes - sizes[start];
        start := start + 1;
      }
    }
  }

  // ---- the card that shows the view

  lemma {:induction false} RowsSnoc(archive: Archive, lo: nat, hi: nat)
    requires lo <= hi < |archive|
    ensures RowsOf(archive, lo, hi + 1)
            == RowsOf(archive, lo, hi) + (if archive[hi].Some? then [Row(archive[hi].value, hi)] else [])
    decreases hi - lo
  {
    if lo < hi {
      RowsSnoc(archive, lo + 1, hi);
    }
  }

  class Card {
    var archivedPage: seq<Row>
    var archiveBefore: Option<nat>
    var archiveHasMore: bool
    var archiveGap: bool
    ghost var model: View

    ghost predicate Valid()
      reads this
    {
      && model.rows == archivedPage && model.before == archiveBefore
      && model.hasMore == archiveHasMore && model.gap == archiveGap
    }

    constructor (ghost archive: Archive)
      ensures Valid() && model == NewView(archive)
    {
      archivedPage, archiveBefore, archiveHasMore, archiveGap := [], None, false, false;
      model := NewView(archive);
    }

    /** Numbers the records of a page before rejecting malformed ones. */
    method Incoming(turns: seq<Option<Turn>>, start: nat, ghost archive: Archive) returns (rows: seq<Row>)
      requires start + |turns| <= |archive| && turns == archive[start..start + |turns|]
      ensures rows == RowsOf(archive, start, start + |turns|)
    {
      rows := [];
      for offset := 0 to |turns|
        invariant rows == RowsOf(archive, start, start + offset)
      {
        assert turns[offset] == archive[start + offset];
        RowsSnoc(archive, start, start + offset);
        if turns[offset].Some? {
          rows := rows + [Row(turns[offset].value, start + offset)];
        }
      }
    }

    /** Shows the rows that fit, of a page that reaches back to start. */
    method Show(all: seq<Row>, replace: bool, start: nat)
      modifies `archivedPage, `archiveGap, `archiveBefore, `archiveHasMore
      ensures var b := BoundFrom(all, 0, 0);
              archivedPage == b.rows && archiveGap == if replace then b.truncated else old(archiveGap) || b.truncated
      ensures archiveBefore == Some(start) && archiveHasMore == (start > 0)
    {
      var kept, truncated := BoundArchivedView(all);
      archivedPage := kept;
      archiveGap := if replace then truncated else archiveGap || truncated;
      archiveBefore, archiveHasMore := Some(start), start > 0;
    }

    method LoadOlderTurns(fromLatest: bool, turns: seq<Option<Turn>>, start: nat)
      requires Valid() && Enabled(model, Load(fromLatest, start, start + |turns|))
      requires turns == model.archive[start..start + |turns|]
      modifies this
      ensures Valid() && model == Step(old(model), Load(fromLatest, start, start + |turns|))
    {
      var incoming := Incoming(turns, start, model.archive);
      var replace := fromLatest || archiveBefore.None?;
      var all := if replace then incoming else Merge(incoming, archivedPage);
      Show(all, replace, start);
      model := Step(model, Load(fromLatest, start, start + |turns|));
    }
  }
}
