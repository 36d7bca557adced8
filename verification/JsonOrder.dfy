/** Which nodes go short when the preview reaches its node limit: the newest are expanded
    first, so of two that lack room the older shows nothing, unless the newer is its child. */
module JsonOrder {
  import opened JsonPreview

  /** Node x is expanded but lacks room for members that it may show. */
  predicate Starved(s: State, x: nat)
    requires x < |s.items|
  {
    && x !in s.work && s.items[x].depth < DEPTH_LIMIT
    && |s.items[x].kids| < Shown(s.items[x].source)
  }

  ghost predicate Ascending(work: seq<nat>) {
    forall j, k | 0 <= j < k < |work| :: work[j] < work[k]
  }

  /** w is older than x, or its child. */
  predicate OlderOrChild(s: State, w: nat, x: nat)
    requires w < |s.items|
  {
    w < x || (w > 0 && s.items[w].parent == x)
  }

  ghost predicate NewestFirst(s: State) {
    && Stackable(s) && Ascending(s.work)
    && (forall j | 0 <= j < |s.work| :: s.items[s.work[j]].kids == [])
    && (forall x: nat | x < |s.items| && Starved(s, x) ::
          |s.items| == NODE_LIMIT && forall j | 0 <= j < |s.work| :: OlderOrChild(s, s.work[j], x))
    && (forall x: nat, y: nat | x < y < |s.items| && Starved(s, x) && Starved(s, y) ::
          s.items[x].kids == [] || s.items[y].parent == x)
  }

  // ---- expanding one node

  /** r is s with more children of node i, each waiting if it has members. */
  ghost predicate Grown(s: State, r: State, i: nat)
    requires i < |s.items|
  {
    && |s.items| <= |r.items| <= NODE_LIMIT
    && (forall x | 0 <= x < |s.items| && x != i :: r.items[x] == s.items[x])
    && r.items[i].source == s.items[i].source && r.items[i].depth == s.items[i].depth && r.items[i].parent == s.items[i].parent
    && (forall x | |s.items| <= x < |r.items| :: r.items[x].parent == i && r.items[x].kids == [])
    && s.work <= r.work && (|r.items| == |s.items| ==> r.work == s.work)
    && (forall j | |s.work| <= j < |r.work| :: |s.items| <= r.work[j] < |r.items|)
    && (forall j, k | |s.work| <= j < k < |r.work| :: r.work[j] < r.work[k])
    && (forall x | |s.items| <= x < |r.items| && !r.items[x].source.Scalar? :: x in r.work)
  }

  lemma AddKidGrows(s: State, i: nat)
    requires Stackable(s) && i < |s.items| < NODE_LIMIT && |s.items[i].kids| < Total(s.items[i].source)
    ensures Grown(s, AddKid(s, i), i)
  {
    var r := AddKid(s, i);
    if !r.items[|s.items|].source.Scalar? {
      assert r.work[|s.work|] == |s.items|;
    }
  }

  lemma MarkGrows(s: State, i: nat)
    requires Stackable(s) && i < |s.items|
    ensures Grown(s, Mark(s, i), i)
  {
  }

  lemma GrownTwice(s: State, m: State, r: State, i: nat)
    requires i < |s.items| && Grown(s, m, i) && Grown(m, r, i)
    ensures Grown(s, r, i)
  {
    forall x | |s.items| <= x < |r.items| && !r.items[x].source.Scalar? ensures x in r.work {
      if x < |m.items| {
        assert m.items[x] == r.items[x] && x in m.work;
      }
    }
    forall j | |s.work| <= j < |r.work| ensures |s.items| <= r.work[j] < |r.items| {
      assert j < |m.work| ==> r.work[j] == m.work[j];
    }
    forall j, k | |s.work| <= j < k < |r.work| ensures r.work[j] < r.work[k] {
      assert j < |m.work| ==> r.work[j] == m.work[j];
      assert k < |m.work| ==> r.work[k] == m.work[k];
    }
  }

  lemma {:induction false} ExpandGrows(s: State, i: nat)
    requires Stackable(s) && i < |s.items|
    ensures Grown(s, Expand(s, i), i)
    ensures |Expand(s, i).items| < NODE_LIMIT ==> |Expand(s, i).items[i].kids| >= Shown(s.items[i].source)
    decreases NODE_LIMIT - |s.items|
  {
    if |s.items[i].kids| < Shown(s.items[i].source) {
      if |s.items| >= NODE_LIMIT {
        MarkGrows(s, i);
      } else {
        AddKidGrows(s, i);
        ExpandGrows(AddKid(s, i), i);
        GrownTwice(s, AddKid(s, i), Expand(s, i), i);
      }
    }
  }

  // ---- every turn

  lemma TurnGrows(s: State)
    requires Stackable(s) && s.work != []
    ensures Grown(Pop(s), Turn(s), Top(s))
    ensures |Turn(s).items| < NODE_LIMIT && s.items[Top(s)].depth < DEPTH_LIMIT ==>
              |Turn(s).items[Top(s)].kids| >= Shown(s.items[Top(s)].source)
    ensures |s.items| == NODE_LIMIT ==> Turn(s).items[Top(s)].kids == s.items[Top(s)].kids
  {
    var i, s1 := Top(s), Pop(s);
    MarkGrows(s1, i);
    if s.items[i].depth < DEPTH_LIMIT {
      var s2 := Expand(s1, i);
      ExpandGrows(s1, i);
      MarkedAfter(s1, s2, i);
    }
  }

  lemma MarkedAfter(s: State, s2: State, i: nat)
    requires i < |s.items| && Grown(s, s2, i) && Stackable(s2)
    ensures Grown(s, Mark(s2, i), i)
  {
    MarkGrows(s2, i);
    GrownTwice(s, s2, Mark(s2, i), i);
  }

  lemma PoppedWork(s: State)
    requires s.work != [] && Ascending(s.work)
    ensures Top(s) !in Pop(s).work && forall j | 0 <= j < |Pop(s).work| :: Pop(s).work[j] == s.work[j] < Top(s)
  {
  }

  /** What waits after a turn is older than the node expanded, or its child, in order. */
  lemma WorkAfterTurn(s: State)
    requires NewestFirst(s) && s.work != []
    ensures var r := Turn(s);
            && Stackable(r) && Ascending(r.work)
            && forall j | 0 <= j < |r.work| :: r.items[r.work[j]].kids == [] && OlderOrChild(r, r.work[j], Top(s))
  {
    var i, s1, r := Top(s), Pop(s), Turn(s);
    TurnGrows(s);
    PoppedWork(s);
    forall j | 0 <= j < |r.work| ensures r.items[r.work[j]].kids == [] && OlderOrChild(r, r.work[j], i) {
      if j < |s1.work| {
        assert r.work[j] == s1.work[j] == s.work[j];
      }
    }
    forall j, k | 0 <= j < k < |r.work| ensures r.work[j] < r.work[k] {
      assert j < |s1.work| ==> r.work[j] == s1.work[j] == s.work[j];
      assert k < |s1.work| ==> r.work[k] == s1.work[k] == s.work[k];
    }
  }

  /** Whoever lacks room after a turn did so before, but for the node expanded. */
  lemma StarvedBefore(s: State, x: nat)
    requires NewestFirst(s) && s.work != [] && x < |Turn(s).items| && Starved(Turn(s), x) && x != Top(s)
    ensures x < |s.items| && Starved(s, x) && Turn(s).items[x] == s.items[x]
  {
    var r := Turn(s);
    TurnGrows(s);
    if x < |s.items| {
      if x in s.work {
        StillWaiting(s, r, x);
      }
    }
  }

  lemma StillWaiting(s: State, r: State, x: nat)
    requires s.work != [] && x in s.work && x != Top(s) && Pop(s).work <= r.work
    ensures x in r.work
  {
    var j :| 0 <= j < |s.work| && s.work[j] == x;
    assert r.work[j] == Pop(s).work[j] == x;
  }

  /** With room left nobody was starved before, so at most the node expanded is now. */
  lemma RoomyTurn(s: State)
    requires NewestFirst(s) && s.work != [] && |s.items| < NODE_LIMIT
    ensures NewestFirst(Turn(s))
  {
    var i, r := Top(s), Turn(s);
    TurnGrows(s);
    WorkAfterTurn(s);
    forall x: nat | x < |r.items| && Starved(r, x) ensures x == i && |r.items| == NODE_LIMIT {
      if x != i {
        StarvedBefore(s, x);
      }
    }
  }

  /** Without room nothing is added: the node taken shows nothing. */
  lemma FullTurn(s: State)
    requires NewestFirst(s) && s.work != [] && |s.items| == NODE_LIMIT
    ensures NewestFirst(Turn(s))
  {
    var i, last, r := Top(s), |s.work| - 1, Turn(s);
    TurnGrows(s);
    WorkAfterTurn(s);
    forall x: nat | x < |r.items| && Starved(r, x) && x != i
      ensures Starved(s, x) && r.items[x] == s.items[x] && OlderOrChild(s, i, x)
      ensures forall j | 0 <= j < |r.work| :: OlderOrChild(r, r.work[j], x)
    {
      StarvedBefore(s, x);
      assert OlderOrChild(s, s.work[last], x);
      forall j | 0 <= j < |r.work| ensures OlderOrChild(r, r.work[j], x) {
        assert r.work[j] == Pop(s).work[j] == s.work[j] && OlderOrChild(s, s.work[j], x);
      }
    }
    assert r.items[i].kids == [] && s.work[last] == i;
  }

  lemma {:induction false} FinishNewestFirst(s: State)
    requires NewestFirst(s)
    ensures NewestFirst(Finish(s)) && Finish(s).work == []
    decreases NODE_LIMIT - |s.items|, |s.work|
  {
    if s.work != [] {
      if |s.items| < NODE_LIMIT {
        RoomyTurn(s);
      } else {
        FullTurn(s);
      }
      FinishNewestFirst(Turn(s));
    }
  }

  /** In the projection of any value: of two nodes that the node limit leaves without all the
      children they may show, the older has none at all, unless the newer is its child. */
  lemma OlderGoShort(v: Json, x: nat, y: nat)
    requires x < y < |Build(v).items| && Starved(Build(v), x) && Starved(Build(v), y)
    ensures Build(v).items[x].kids == [] || Build(v).items[y].parent == x
  {
    assert NewestFirst(Init(v));
    FinishNewestFirst(Init(v));
  }
}
