/** The bounded projection of a JSON value that the document preview shows. */
module JsonPreview {

  const NODE_LIMIT := 5_000
  const DEPTH_LIMIT := 32
  const CHILD_LIMIT := 200

  /** A JSON value; a record lists its fields in the order of its keys. */
  datatype Json = Scalar(text: string) | List(items: seq<Json>) | Record(fields: seq<Field>)
  datatype Field = Field(name: string, value: Json)

  /** The name of a list member is its index. */
  datatype Name = Index(i: nat) | Key(name: string)

  function Total(v: Json): nat {
    match v
    case Scalar(_) => 0
    case List(items) => |items|
    case Record(fields) => |fields|
  }

  function Member(v: Json, k: nat): (m: Json)
    requires k < Total(v)
    ensures m < v
  {
    if v.List? then v.items[k] else v.fields[k].value
  }

  function MemberName(v: Json, k: nat): Name
    requires k < Total(v)
  {
    if v.List? then Index(k) else Key(v.fields[k].name)
  }

  // ---- the measures of a value

  /** Values in v, itself included. */
  function Size(v: Json): (n: nat)
    ensures n >= 1
    decreases v, Total(v) + 1
  {
    1 + SizeFrom(v, 0)
  }

  function SizeFrom(v: Json, k: nat): nat
    requires k <= Total(v)
    decreases v, Total(v) - k
  {
    if k == Total(v) then 0 else Size(Member(v, k)) + SizeFrom(v, k + 1)
  }

  function Max(a: nat, b: nat): nat {
    if a >= b then a else b
  }

  /** Levels of members below v. */
  function Height(v: Json): nat
    decreases v, Total(v) + 1
  {
    HeightFrom(v, 0)
  }

  function HeightFrom(v: Json, k: nat): nat
    requires k <= Total(v)
    decreases v, Total(v) - k
  {
    if k == Total(v) then 0 else Max(1 + Height(Member(v, k)), HeightFrom(v, k + 1))
  }

  /** The most members any value in v has. */
  function Fan(v: Json): nat
    decreases v, Total(v) + 1
  {
    Max(Total(v), FanFrom(v, 0))
  }

  function FanFrom(v: Json, k: nat): nat
    requires k <= Total(v)
    decreases v, Total(v) - k
  {
    if k == Total(v) then 0 else Max(Fan(Member(v, k)), FanFrom(v, k + 1))
  }

  predicate Fits(v: Json) {
    Size(v) <= NODE_LIMIT && Height(v) <= DEPTH_LIMIT && Fan(v) <= CHILD_LIMIT
  }

  lemma {:induction false} MemberMeasures(v: Json, k: nat, from: nat)
    requires from <= k < Total(v)
    ensures 1 + Height(Member(v, k)) <= HeightFrom(v, from) && Fan(Member(v, k)) <= FanFrom(v, from)
    decreases k - from
  {
    if from < k {
      MemberMeasures(v, k, from + 1);
    }
  }

  // ---- the projection, as a list of nodes in order of creation

  /** A node: the value it shows, where it hangs, its children, its mark. */
  datatype Item = Item(source: Json, depth: nat, parent: nat, slot: nat, kids: seq<nat>, truncated: bool)

  /** work is the stack of nodes to expand. */
  datatype State = State(items: seq<Item>, work: seq<nat>, truncated: bool)

  function Shown(v: Json): nat {
    if Total(v) <= CHILD_LIMIT then Total(v) else CHILD_LIMIT
  }

  function AddKid(s: State, i: nat): (r: State)
    requires i < |s.items| && |s.items[i].kids| < Total(s.items[i].source)
  {
    var item := s.items[i];
    var k := |item.kids|;
    var kid := Item(Member(item.source, k), item.depth + 1, i, k, [], false);
    State(s.items[i := item.(kids := item.kids + [|s.items|])] + [kid],
          if kid.source.Scalar? then s.work else s.work + [|s.items|],
          s.truncated)
  }

  function Mark(s: State, i: nat): State
    requires i < |s.items|
  {
    s.(items := s.items[i := s.items[i].(truncated := true)], truncated := true)
  }

  predicate Stackable(s: State) {
    |s.items| <= NODE_LIMIT && forall j | 0 <= j < |s.work| :: s.work[j] < |s.items|
  }

  /** Adds children to node i until a limit stops it. */
  function Expand(s: State, i: nat): (r: State)
    requires Stackable(s) && i < |s.items|
    ensures Stackable(r) && |s.items| <= |r.items|
    ensures |r.items| == |s.items| ==> r.work == s.work
    decreases NODE_LIMIT - |s.items|
  {
    if |s.items[i].kids| >= Shown(s.items[i].source) then s
    else if |s.items| >= NODE_LIMIT then Mark(s, i)
    else Expand(AddKid(s, i), i)
  }

  function Top(s: State): nat
    requires s.work != []
  {
    s.work[|s.work| - 1]
  }

  function Pop(s: State): State
    requires s.work != []
  {
    s.(work := s.work[..|s.work| - 1])
  }

  /** One turn of the worklist. */
  function Turn(s: State): (r: State)
    requires s.work != [] && Stackable(s)
    ensures Stackable(r) && |s.items| <= |r.items|
    ensures |r.items| == |s.items| ==> |r.work| < |s.work|
  {
    var i := Top(s);
    var s1 := Pop(s);
    var source := s.items[i].source;
    if source.Scalar? then s1
    else if s.items[i].depth >= DEPTH_LIMIT then (if Total(source) > 0 then Mark(s1, i) else s1)
    else
      var s2 := Expand(s1, i);
      if |s2.items[i].kids| < Total(source) then Mark(s2, i) else s2
  }

  function Init(v: Json): State {
    State([Item(v, 0, 0, 0, [], false)], [0], false)
  }

  function Finish(s: State): (r: State)
    requires Stackable(s)
    decreases NODE_LIMIT - |s.items|, |s.work|
  {
    if s.work == [] then s else Finish(Turn(s))
  }

  function Build(v: Json): State {
    Finish(Init(v))
  }

  // ---- what every turn keeps

  /** Node i shows an initial run of its value's members. */
  predicate Wired(items: seq<Item>, i: nat)
    requires i < |items|
  {
    var item := items[i];
    && item.depth <= DEPTH_LIMIT
    && |item.kids| <= Shown(item.source)
    && (forall k | 0 <= k < |item.kids| ::
          && i < item.kids[k] < |items|
          && items[item.kids[k]].source == Member(item.source, k)
          && items[item.kids[k]].depth == item.depth + 1
          && items[item.kids[k]].parent == i && items[item.kids[k]].slot == k)
    && (i > 0 ==> item.parent < i && item.slot < |items[item.parent].kids| && items[item.parent].kids[item.slot] == i)
    && (item.kids != [] ==> item.depth < DEPTH_LIMIT)
  }

  /** A node that was expanded: marked exactly when children are missing, and then a
      limit is the reason. */
  predicate Settled(items: seq<Item>, i: nat)
    requires i < |items|
  {
    var item := items[i];
    && (item.truncated <==> |item.kids| < Total(item.source))
    && (item.truncated ==>
          item.depth == DEPTH_LIMIT || |item.kids| == CHILD_LIMIT || |items| == NODE_LIMIT)
  }

  predicate Untouched(item: Item) {
    item.kids == [] && !item.truncated
  }

  /** Values still to be shown below the nodes on the stack. */
  function Pending(items: seq<Item>, work: seq<nat>): nat
    requires forall j | 0 <= j < |work| :: work[j] < |items|
  {
    if work == [] then 0
    else Size(items[work[|work| - 1]].source) - 1 + Pending(items, work[..|work| - 1])
  }

  /** busy is the node being expanded, or |items|; the stack's nodes are untouched
      and all others settled. */
  ghost predicate Shape(s: State, v: Json, busy: nat) {
    && 0 < |s.items| && Stackable(s)
    && s.items[0].source == v && s.items[0].depth == 0
    && (forall i | 0 <= i < |s.items| :: Wired(s.items, i))
    && (forall j | 0 <= j < |s.work| :: Untouched(s.items[s.work[j]]) && s.work[j] != busy)
    && (forall j, k | 0 <= j < k < |s.work| :: s.work[j] != s.work[k])
    && (forall i | 0 <= i < |s.items| && i !in s.work && i != busy :: Settled(s.items, i))
    && (s.truncated <==> exists i | 0 <= i < |s.items| :: s.items[i].truncated)
  }

  ghost predicate Within(items: seq<Item>, v: Json) {
    forall i | 0 <= i < |items| :: items[i].depth + Height(items[i].source) <= Height(v) && Fan(items[i].source) <= Fan(v)
  }

  /** Until something is marked every value is shown or pending; whatever is marked
      shows that the value does not fit. rest counts what the busy node lacks. */
  ghost predicate Counted(s: State, v: Json, rest: nat)
    requires Stackable(s)
  {
    && Within(s.items, v)
    && (!s.truncated ==> |s.items| + Pending(s.items, s.work) + rest == Size(v))
    && (s.truncated ==> !Fits(v))
  }

  lemma {:induction false} PendingSame(items: seq<Item>, items2: seq<Item>, work: seq<nat>)
    requires forall j | 0 <= j < |work| :: work[j] < |items| && work[j] < |items2|
                                           && items2[work[j]].source == items[work[j]].source
    ensures Pending(items2, work) == Pending(items, work)
  {
    if work != [] {
      PendingSame(items, items2, work[..|work| - 1]);
    }
  }

  lemma AddKidWired(s: State, i: nat, x: nat)
    requires i < |s.items| && |s.items[i].kids| < Shown(s.items[i].source) && s.items[i].depth < DEPTH_LIMIT
    requires forall y | 0 <= y < |s.items| :: Wired(s.items, y)
    requires x <= |s.items|
    ensures Wired(AddKid(s, i).items, x)
  {
    if x < |s.items| {
      assert Wired(s.items, x);
      assert forall k | 0 <= k < |s.items[x].kids| :: s.items[x].kids[k] < |s.items|;
    }
  }

  lemma AddKidSettled(s: State, i: nat, x: nat)
    requires i < |s.items| < NODE_LIMIT && |s.items[i].kids| < Total(s.items[i].source)
    requires x < |s.items| && x != i && Settled(s.items, x)
    ensures Settled(AddKid(s, i).items, x)
  {
  }

  lemma AddKidStack(s: State, v: Json, i: nat)
    requires Shape(s, v, i) && i < |s.items| < NODE_LIMIT && i !in s.work
    requires |s.items[i].kids| < Total(s.items[i].source)
    ensures var r := AddKid(s, i);
            && Stackable(r) && i !in r.work
            && (forall j | 0 <= j < |r.work| :: Untouched(r.items[r.work[j]]) && r.work[j] != i)
            && (forall j, k | 0 <= j < k < |r.work| :: r.work[j] != r.work[k])
            && (forall x | 0 <= x < |s.items| && x !in r.work :: x !in s.work)
            && (!r.items[|s.items|].source.Scalar? ==> |s.items| in r.work)
  {
    var r := AddKid(s, i);
    assert s.work <= r.work;
    if !r.items[|s.items|].source.Scalar? {
      assert r.work[|s.work|] == |s.items|;
    }
  }

  lemma AddKidFlag(s: State, i: nat)
    requires i < |s.items| && |s.items[i].kids| < Total(s.items[i].source)
    requires s.truncated <==> exists x | 0 <= x < |s.items| :: s.items[x].truncated
    ensures var r := AddKid(s, i); r.truncated <==> exists x | 0 <= x < |r.items| :: r.items[x].truncated
  {
    var r := AddKid(s, i);
    if s.truncated {
      var x :| 0 <= x < |s.items| && s.items[x].truncated;
      assert r.items[x].truncated;
    }
    assert forall x | 0 <= x < |s.items| :: r.items[x].truncated == s.items[x].truncated;
  }

  lemma AddKidShape(s: State, v: Json, i: nat)
    requires Shape(s, v, i) && i < |s.items| < NODE_LIMIT && i !in s.work
    requires |s.items[i].kids| < Shown(s.items[i].source) && s.items[i].depth < DEPTH_LIMIT
    ensures Shape(AddKid(s, i), v, i) && i !in AddKid(s, i).work
  {
    var r := AddKid(s, i);
    AddKidStack(s, v, i);
    AddKidFlag(s, i);
    forall x | 0 <= x < |r.items| ensures Wired(r.items, x) {
      AddKidWired(s, i, x);
    }
    forall x | 0 <= x < |r.items| && x !in r.work && x != i ensures Settled(r.items, x) {
      if x < |s.items| {
        AddKidSettled(s, i, x);
      }
    }
  }

  lemma AddKidCounted(s: State, v: Json, i: nat)
    requires Stackable(s) && i < |s.items| < NODE_LIMIT && i !in s.work
    requires |s.items[i].kids| < Total(s.items[i].source)
    requires Counted(s, v, SizeFrom(s.items[i].source, |s.items[i].kids|))
    ensures Stackable(AddKid(s, i))
    ensures Counted(AddKid(s, i), v, SizeFrom(s.items[i].source, |s.items[i].kids| + 1))
  {
    var r := AddKid(s, i);
    var n := |s.items|;
    var k := |s.items[i].kids|;
    var kid := r.items[n].source;
    MemberMeasures(s.items[i].source, k, 0);
    PendingSame(s.items, r.items, s.work);
    if !kid.Scalar? {
      assert r.work[..|s.work|] == s.work;
    } else {
      assert Size(kid) == 1;
    }
  }

  lemma MarkCounted(s: State, v: Json, i: nat, rest: nat, rest2: nat)
    requires Stackable(s) && i < |s.items| && Counted(s, v, rest) && !Fits(v)
    ensures Stackable(Mark(s, i)) && Counted(Mark(s, i), v, rest2)
  {
  }

  /** Expanding node i to the end: it is settled, but for the last mark. */
  lemma {:induction false} ExpandKeeps(s: State, v: Json, i: nat)
    requires Shape(s, v, i) && i < |s.items| && i !in s.work && s.items[i].depth < DEPTH_LIMIT
    requires |s.items[i].kids| <= Total(s.items[i].source) && !s.items[i].truncated
    requires Counted(s, v, SizeFrom(s.items[i].source, |s.items[i].kids|))
    ensures var r := Expand(s, i);
            && Shape(r, v, i) && i !in r.work
            && r.items[i].source == s.items[i].source && r.items[i].depth == s.items[i].depth
            && |r.items[i].kids| <= Total(r.items[i].source)
            && Counted(r, v, SizeFrom(r.items[i].source, |r.items[i].kids|))
            && (r.items[i].truncated ==> |r.items| == NODE_LIMIT && |r.items[i].kids| < Total(r.items[i].source))
            && (|r.items[i].kids| == Shown(r.items[i].source) || r.items[i].truncated)
    decreases NODE_LIMIT - |s.items|
  {
    var item := s.items[i];
    assert Wired(s.items, i);
    if |item.kids| < Shown(item.source) {
      if |s.items| < NODE_LIMIT {
        AddKidShape(s, v, i);
        AddKidCounted(s, v, i);
        ExpandKeeps(AddKid(s, i), v, i);
      } else {
        assert SizeFrom(item.source, |item.kids|) >= 1;
        assert !Fits(v);
        MarkShape(s, v, i);
        MarkCounted(s, v, i, SizeFrom(item.source, |item.kids|), SizeFrom(item.source, |item.kids|));
      }
    }
  }

  lemma MarkShape(s: State, v: Json, i: nat)
    requires Shape(s, v, i) && i < |s.items| && i !in s.work
    ensures Shape(Mark(s, i), v, i)
  {
    var r := Mark(s, i);
    forall x | 0 <= x < |r.items| ensures Wired(r.items, x) {
      assert Wired(s.items, x);
    }
    forall x | 0 <= x < |r.items| && x !in r.work && x != i ensures Settled(r.items, x) {
      assert Settled(s.items, x);
    }
    assert r.items[i].truncated;
  }

  ghost predicate Inv(s: State, v: Json) {
    Shape(s, v, |s.items|) && Counted(s, v, 0)
  }

  lemma PopKeeps(s: State, v: Json)
    requires Inv(s, v) && s.work != []
    ensures var i := Top(s);
            && Shape(Pop(s), v, i) && i !in Pop(s).work && Untouched(s.items[i])
            && Counted(Pop(s), v, Size(s.items[i].source) - 1)
  {
    var i := Top(s);
    var r := Pop(s);
    assert s.work == r.work + [i];
    forall j | 0 <= j < |r.work| ensures r.work[j] == s.work[j] && r.work[j] != i {
    }
    forall x | 0 <= x < |r.items| && x !in r.work && x != i ensures Settled(r.items, x) {
      assert x !in s.work;
    }
  }

  lemma SettleTop(s: State, v: Json, i: nat)
    requires Shape(s, v, i) && i < |s.items| && i !in s.work && Settled(s.items, i)
    ensures Shape(s, v, |s.items|)
  {
  }

  lemma TurnKeeps(s: State, v: Json)
    requires Inv(s, v) && s.work != []
    ensures Inv(Turn(s), v)
  {
    var i := Top(s);
    var s1 := Pop(s);
    var source := s.items[i].source;
    PopKeeps(s, v);
    assert Wired(s1.items, i);
    if source.Scalar? {
      SettleTop(s1, v, i);
    } else if s.items[i].depth >= DEPTH_LIMIT {
      if Total(source) > 0 {
        MemberMeasures(source, 0, 0);
        assert !Fits(v);
        MarkShape(s1, v, i);
        MarkCounted(s1, v, i, Size(source) - 1, 0);
        SettleTop(Mark(s1, i), v, i);
      } else {
        SettleTop(s1, v, i);
      }
    } else {
      ExpandKeeps(s1, v, i);
      var s2 := Expand(s1, i);
      if |s2.items[i].kids| < Total(source) {
        if !s2.items[i].truncated {
          assert Fan(source) > CHILD_LIMIT;
        }
        MarkShape(s2, v, i);
        MarkCounted(s2, v, i, SizeFrom(source, |s2.items[i].kids|), 0);
        SettleTop(Mark(s2, i), v, i);
      } else {
        SettleTop(s2, v, i);
      }
    }
  }

  lemma InitInv(v: Json)
    ensures Inv(Init(v), v)
  {
    var s := Init(v);
    assert s.work[..0] == [];
    assert Pending(s.items, s.work[..0]) == 0;
    assert s.items[0] == Item(v, 0, 0, 0, [], false);
  }

  lemma {:induction false} FinishInv(s: State, v: Json)
    requires Inv(s, v)
    ensures Inv(Finish(s), v) && Finish(s).work == []
    decreases NODE_LIMIT - |s.items|, |s.work|
  {
    if s.work != [] {
      TurnKeeps(s, v);
      FinishInv(Turn(s), v);
    }
  }

  /** The projection of any value: at most 5,000 nodes, 32 levels and 200 children,
      each node showing an initial run of its value's members in order, marked exactly
      when members are missing, and only for a limit; and the overall flag is up
      exactly when the value is too large, too deep or too broad to fit. */
  lemma BuildIsFaithful(v: Json)
    ensures var s := Build(v);
            && s.work == [] && 0 < |s.items| <= NODE_LIMIT
            && s.items[0].source == v && s.items[0].depth == 0
            && (forall i | 0 <= i < |s.items| :: Wired(s.items, i) && Settled(s.items, i))
            && (s.truncated <==> exists i | 0 <= i < |s.items| :: s.items[i].truncated)
            && (s.truncated <==> !Fits(v))
            && (!s.truncated ==> |s.items| == Size(v))
  {
    InitInv(v);
    FinishInv(Init(v), v);
    var s := Build(v);
    if !s.truncated {
      NothingMissing(s, v);
    }
  }

  lemma NothingMissing(s: State, v: Json)
    requires Inv(s, v) && s.work == [] && !s.truncated
    ensures Fits(v) && |s.items| == Size(v)
  {
    forall i | 0 <= i < |s.items| ensures |s.items[i].kids| == Total(s.items[i].source) {
      assert Settled(s.items, i) && Wired(s.items, i);
    }
    WholeMeasures(s.items, 0);
  }

  /** In a projection with nothing missing the measures of node i's value show. */
  lemma {:induction false} WholeMeasures(items: seq<Item>, i: nat)
    requires i < |items|
    requires forall x | 0 <= x < |items| :: Wired(items, x) && |items[x].kids| == Total(items[x].source)
    ensures items[i].depth + Height(items[i].source) <= DEPTH_LIMIT && Fan(items[i].source) <= CHILD_LIMIT
    decreases |items| - i, Total(items[i].source) + 1
  {
    WholeMembers(items, i, 0);
  }

  lemma {:induction false} WholeMembers(items: seq<Item>, i: nat, k: nat)
    requires i < |items| && k <= Total(items[i].source)
    requires forall x | 0 <= x < |items| :: Wired(items, x) && |items[x].kids| == Total(items[x].source)
    ensures items[i].depth + HeightFrom(items[i].source, k) <= DEPTH_LIMIT
    ensures FanFrom(items[i].source, k) <= CHILD_LIMIT && Total(items[i].source) <= CHILD_LIMIT
    decreases |items| - i, Total(items[i].source) - k
  {
    assert Wired(items, i);
    if k < Total(items[i].source) {
      WholeMeasures(items, items[i].kids[k]);
      WholeMembers(items, i, k + 1);
    }
  }

  // ---- the linked nodes the code builds

  datatype Kind = Leaf(text: string) | Array | Object
  datatype Child = Child(name: Name, node: PreviewNode)
  datatype Job = Job(source: Json, node: PreviewNode, depth: nat)

  function KindOf(v: Json): Kind {
    match v
    case Scalar(text) => Leaf(text)
    case List(_) => Array
    case Record(_) => Object
  }

  class PreviewNode {
    const kind: Kind
    const total: nat
    var children: seq<Child>
    var truncated: bool

    constructor (item: Json)
      ensures kind == KindOf(item) && total == Total(item) && children == [] && !truncated
    {
      kind := KindOf(item);
      total := Total(item);
      children := [];
      truncated := false;
    }
  }

  /** Linked node i shows item i. */
  ghost predicate MirrorsAt(all: seq<PreviewNode>, items: seq<Item>, i: nat)
    requires i < |items| == |all|
    reads all[i]
  {
    var node, item := all[i], items[i];
    && node.kind == KindOf(item.source) && node.total == Total(item.source)
    && node.truncated == item.truncated
    && |node.children| == |item.kids| <= Total(item.source)
    && forall k | 0 <= k < |item.kids| ::
         item.kids[k] < |all| && node.children[k] == Child(MemberName(item.source, k), all[item.kids[k]])
  }

  ghost predicate Mirrors(all: seq<PreviewNode>, items: seq<Item>)
    reads all
  {
    && |all| == |items|
    && (forall i, j | 0 <= i < j < |all| :: all[i] != all[j])
    && (forall i | 0 <= i < |all| :: MirrorsAt(all, items, i))
  }

  /** The code's stack stands for the stack of node numbers. */
  ghost predicate Stacked(work: seq<Job>, all: seq<PreviewNode>, s: State) {
    && |work| == |s.work| && |all| == |s.items|
    && (forall j | 0 <= j < |work| :: s.work[j] < |s.items|
          && work[j] == Job(s.items[s.work[j]].source, all[s.work[j]], s.items[s.work[j]].depth))
  }

  /** Node i is being given its children. */
  ghost predicate Busy(s: State, v: Json, i: nat) {
    && Shape(s, v, i) && i < |s.items| && i !in s.work
    && !s.items[i].truncated && s.items[i].depth < DEPTH_LIMIT
    && |s.items[i].kids| <= Total(s.items[i].source)
    && Counted(s, v, SizeFrom(s.items[i].source, |s.items[i].kids|))
  }

  lemma AddKidBusy(s: State, v: Json, i: nat)
    requires Busy(s, v, i) && |s.items| < NODE_LIMIT && |s.items[i].kids| < Shown(s.items[i].source)
    ensures Busy(AddKid(s, i), v, i) && Expand(s, i) == Expand(AddKid(s, i), i)
  {
    AddKidShape(s, v, i);
    AddKidCounted(s, v, i);
  }

  /** Gives node i its next child. */
  method AddChild(current: Job, name: Name, child: PreviewNode, ghost all: seq<PreviewNode>, ghost s: State, ghost i: nat)
    requires i < |s.items| && |s.items[i].kids| < Total(s.items[i].source)
    requires Mirrors(all, s.items) && current.node == all[i]
    requires name == MemberName(s.items[i].source, |s.items[i].kids|) && child !in all
    requires child.kind == KindOf(AddKid(s, i).items[|all|].source) && child.total == Total(AddKid(s, i).items[|all|].source)
    requires child.children == [] && !child.truncated
    modifies current.node`children
    ensures Mirrors(all + [child], AddKid(s, i).items)
  {
    ghost var r := AddKid(s, i);
    ghost var next := all + [child];
    current.node.children := current.node.children + [Child(name, child)];
    forall x | 0 <= x < |next| ensures MirrorsAt(next, r.items, x) {
      assert x < |all| ==> old(MirrorsAt(all, s.items, x));
    }
  }

  lemma AddKidStacked(s: State, i: nat, work: seq<Job>, all: seq<PreviewNode>, child: PreviewNode)
    requires i < |s.items| && |s.items[i].kids| < Total(s.items[i].source) && Stacked(work, all, s)
    ensures var kid := AddKid(s, i).items[|all|];
            Stacked(if kid.source.Scalar? then work else work + [Job(kid.source, child, kid.depth)],
                    all + [child], AddKid(s, i))
  {
  }

  /** Marks node i. */
  method MarkNode(node: PreviewNode, ghost all: seq<PreviewNode>, ghost s: State, ghost i: nat)
    requires i < |s.items| && Mirrors(all, s.items) && node == all[i]
    modifies node`truncated
    ensures Mirrors(all, Mark(s, i).items)
  {
    node.truncated := true;
    ghost var r := Mark(s, i);
    forall x | 0 <= x < |all| ensures MirrorsAt(all, r.items, x) {
      assert old(MirrorsAt(all, s.items, x));
    }
  }

  /** One member: makes its node, hangs it below node i and stacks it if it has members. */
  method PushMember(current: Job, k: nat, work0: seq<Job>, ghost all: seq<PreviewNode>, ghost s: State, ghost i: nat)
    returns (work: seq<Job>, child: PreviewNode)
    requires i < |s.items| && |s.items[i].kids| == k < Total(s.items[i].source)
    requires Mirrors(all, s.items) && Stacked(work0, all, s)
    requires current == Job(s.items[i].source, all[i], s.items[i].depth)
    modifies current.node`children
    ensures Mirrors(all + [child], AddKid(s, i).items) && Stacked(work, all + [child], AddKid(s, i))
    ensures fresh(child)
  {
    var childValue := Member(current.source, k);
    child := new PreviewNode(childValue);
    AddChild(current, MemberName(current.source, k), child, all, s, i);
    AddKidStacked(s, i, work0, all, child);
    work := if childValue.Scalar? then work0 else work0 + [Job(childValue, child, current.depth + 1)];
  }

  /** The inner loop: gives the node of the job taken from the stack its children. */
  method AddChildren(current: Job, work0: seq<Job>, nodes0: nat, truncated0: bool,
                     ghost all0: seq<PreviewNode>, ghost s: State, ghost v: Json, ghost i: nat)
    returns (work: seq<Job>, nodes: nat, truncated: bool, ghost all: seq<PreviewNode>)
    requires Busy(s, v, i) && s.items[i].kids == []
    requires Mirrors(all0, s.items) && Stacked(work0, all0, s)
    requires nodes0 == |all0| && truncated0 == s.truncated
    requires current == Job(s.items[i].source, all0[i], s.items[i].depth)
    modifies current.node
    ensures Mirrors(all, Expand(s, i).items) && Stacked(work, all, Expand(s, i))
    ensures all0 <= all && forall x | |all0| <= x < |all| :: fresh(all[x])
    ensures nodes == |all| && truncated == Expand(s, i).truncated
  {
    work, nodes, truncated, all := work0, nodes0, truncated0, all0;
    ghost var g := s;
    var names := Shown(current.source);
    var k := 0;
    while k < names
      invariant 0 <= k <= names
      invariant Busy(g, v, i) && Expand(g, i) == Expand(s, i)
      invariant |g.items[i].kids| == k && g.items[i].source == current.source && g.items[i].depth == current.depth
      invariant Mirrors(all, g.items) && Stacked(work, all, g)
      invariant all0 <= all && forall x | |all0| <= x < |all| :: fresh(all[x])
      invariant nodes == |all| && truncated == g.truncated
    {
      if nodes >= NODE_LIMIT {
        MarkNode(current.node, all, g, i);
        truncated := true;
        assert Expand(g, i) == Mark(g, i);
        return;
      }
      AddKidBusy(g, v, i);
      var child;
      work, child := PushMember(current, k, work, all, g, i);
      assert forall x | |all0| <= x < |all| + 1 :: fresh((all + [child])[x]);
      all, g := all + [child], AddKid(g, i);
      nodes := nodes + 1;
      k := k + 1;
    }
  }

  lemma PopBusy(s: State, v: Json)
    requires Inv(s, v) && s.work != [] && s.items[Top(s)].depth < DEPTH_LIMIT
    ensures Busy(Pop(s), v, Top(s)) && Pop(s).items == s.items && s.items[Top(s)].kids == []
  {
    PopKeeps(s, v);
  }

  lemma ExpandBounds(s: State, v: Json, i: nat)
    requires Busy(s, v, i)
    ensures i < |Expand(s, i).items| && |Expand(s, i).items[i].kids| <= Total(s.items[i].source)
    ensures Expand(s, i).items[i].source == s.items[i].source
  {
    ExpandKeeps(s, v, i);
  }

  /** One round of the outer loop. */
  method TakeJob(work0: seq<Job>, nodes0: nat, truncated0: bool, ghost all0: seq<PreviewNode>, ghost s: State, ghost v: Json)
    returns (work: seq<Job>, nodes: nat, truncated: bool, ghost all: seq<PreviewNode>)
    requires Inv(s, v) && work0 != []
    requires Mirrors(all0, s.items) && Stacked(work0, all0, s)
    requires nodes0 == |all0| && truncated0 == s.truncated
    modifies all0
    ensures Mirrors(all, Turn(s).items) && Stacked(work, all, Turn(s))
    ensures all0 <= all && forall x | |all0| <= x < |all| :: fresh(all[x])
    ensures nodes == |all| && truncated == Turn(s).truncated
  {
    var current := work0[|work0| - 1];
    work, nodes, truncated, all := work0[..|work0| - 1], nodes0, truncated0, all0;
    ghost var i, s1 := Top(s), Pop(s);
    assert MirrorsAt(all, s.items, i);
    if current.node.kind.Leaf? {
      return;
    }
    if current.depth >= DEPTH_LIMIT {
      if current.node.total > 0 {
        MarkNode(current.node, all, s1, i);
        truncated := true;
      }
      return;
    }
    PopBusy(s, v);
    ExpandBounds(s1, v, i);
    work, nodes, truncated, all := AddChildren(current, work, nodes, truncated, all, s1, v, i);
    ghost var s2 := Expand(s1, i);
    assert MirrorsAt(all, s2.items, i);
    if |current.node.children| < current.node.total {
      MarkNode(current.node, all, s2, i);
      truncated := true;
    }
  }

  /** n and the nodes below it show all of v. */
  ghost predicate Image(n: PreviewNode, v: Json)
    reads *
    decreases v
  {
    && n.kind == KindOf(v) && |n.children| == Total(v)
    && forall k | 0 <= k < Total(v) :: n.children[k].name == MemberName(v, k) && Image(n.children[k].node, Member(v, k))
  }

  lemma {:induction false} WholeIsImage(all: seq<PreviewNode>, s: State, v: Json, i: nat)
    requires Inv(s, v) && s.work == [] && !s.truncated && Mirrors(all, s.items) && i < |all|
    ensures Image(all[i], s.items[i].source)
    decreases |all| - i
  {
    var item := s.items[i];
    assert Wired(s.items, i) && Settled(s.items, i) && MirrorsAt(all, s.items, i);
    forall k | 0 <= k < Total(item.source) ensures Image(all[i].children[k].node, Member(item.source, k)) {
      WholeIsImage(all, s, v, item.kids[k]);
    }
  }

  lemma {:induction false} ImageReaches(all: seq<PreviewNode>, s: State, v: Json, i: nat)
    requires Inv(s, v) && s.work == [] && Mirrors(all, s.items) && i < |all| && Image(all[0], v)
    ensures Image(all[i], s.items[i].source)
  {
    if i > 0 {
      assert Wired(s.items, i);
      var p, k := s.items[i].parent, s.items[i].slot;
      ImageReaches(all, s, v, p);
      assert Wired(s.items, p) && MirrorsAt(all, s.items, p);
      assert all[p].children[k].node == all[i];
    }
  }

  lemma TruncatedNotImage(all: seq<PreviewNode>, s: State, v: Json, i: nat)
    requires Inv(s, v) && s.work == [] && Mirrors(all, s.items) && i < |all| && s.items[i].truncated
    ensures !Image(all[0], v)
  {
    assert Settled(s.items, i) && MirrorsAt(all, s.items, i);
    if Image(all[0], v) {
      ImageReaches(all, s, v, i);
    }
  }

  lemma WholeExactlyIfImage(all: seq<PreviewNode>, s: State, v: Json)
    requires Inv(s, v) && s.work == [] && Mirrors(all, s.items) && all != []
    ensures !s.truncated <==> Image(all[0], v)
  {
    if s.truncated {
      var i :| 0 <= i < |s.items| && s.items[i].truncated;
      TruncatedNotImage(all, s, v, i);
    } else {
      WholeIsImage(all, s, v, 0);
    }
  }

  /** The linked projection: a distinct node for each item of Build(value); it is
      reported whole exactly when the root shows all of the value. */
  method BuildPreviewJsonTree(value: Json)
    returns (root: PreviewNode, truncated: bool, nodes: nat, ghost all: seq<PreviewNode>)
    ensures Mirrors(all, Build(value).items) && forall x | 0 <= x < |all| :: fresh(all[x])
    ensures all != [] && root == all[0] && nodes == |all|
    ensures truncated == Build(value).truncated
    ensures !truncated <==> Image(root, value)
  {
    root := new PreviewNode(value);
    var work := [Job(value, root, 0)];
    nodes, truncated, all := 1, false, [root];
    ghost var s := Init(value);
    InitInv(value);
    while work != []
      invariant Inv(s, value) && Finish(s) == Build(value)
      invariant Mirrors(all, s.items) && Stacked(work, all, s) && forall x | 0 <= x < |all| :: fresh(all[x])
      invariant all != [] && root == all[0] && nodes == |all| && truncated == s.truncated
      decreases NODE_LIMIT - |s.items|, |s.work|
    {
      TurnKeeps(s, value);
      work, nodes, truncated, all := TakeJob(work, nodes, truncated, all, s, value);
      s := Turn(s);
    }
    WholeExactlyIfImage(all, s, value);
  }
}
