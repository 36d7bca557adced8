/** The room's seats: how many ids may be connected, and one open socket for each. */
module RelaySeats {
  import opened RelayRoom

  function SeatId(role: Role): string {
    if role.Desktop? then role.desktopId else role.deviceId
  }

  /** The ids of the listed desktops, or of the listed devices. */
  function ListedIds(ks: seq<Socket>, desktops: bool): set<string> {
    set i | 0 <= i < |ks| && Listed(ks[i]) && ks[i].role.Desktop? == desktops :: SeatId(ks[i].role)
  }

  ghost predicate UniqueOpen(ks: seq<Socket>) {
    forall i, j | 0 <= i < |ks| && 0 <= j < |ks| && i != j && ks[i].phase.Open? && ks[j].phase.Open? ::
      !SameSeat(ks[i].role, ks[j].role)
  }

  ghost predicate DistinctChannels(ks: seq<Socket>) {
    forall i, j | 0 <= i < |ks| && 0 <= j < |ks| && i != j && ks[i].role.Device? && ks[j].role.Device? ::
      ks[i].channel != ks[j].channel
  }

  /** The invariant behind the visible checks: it counts distinct listed ids, since
      a replacement is not counted and a replaced socket stays listed. */
  ghost predicate Seats(ks: seq<Socket>) {
    && UniqueOpen(ks)
    && DistinctChannels(ks)
    && |ListedIds(ks, true)| <= MAX_DESKTOPS_PER_ACCOUNT
    && |ListedIds(ks, false)| <= MAX_DEVICES_PER_ACCOUNT
  }

  /** k2 is k at a later time and k has not been unlisted. */
  ghost predicate Kept(k: Socket, k2: Socket) {
    && k2.role == k.role && k2.channel == k.channel
    && Listed(k2) == Listed(k)
    && (k2.phase.Open? ==> k.phase.Open?)
    && k.accepted <= k2.accepted
  }

  ghost predicate AllKept(ks: seq<Socket>, ks2: seq<Socket>) {
    |ks2| == |ks| && forall i | 0 <= i < |ks| :: Kept(ks[i], ks2[i])
  }

  lemma KeptSeats(ks: seq<Socket>, ks2: seq<Socket>)
    requires Seats(ks) && AllKept(ks, ks2)
    ensures Seats(ks2)
  {
    SameIds(ks, ks2, true);
    SameIds(ks, ks2, false);
  }

  lemma SameIds(ks: seq<Socket>, ks2: seq<Socket>, desktops: bool)
    requires AllKept(ks, ks2)
    ensures ListedIds(ks2, desktops) == ListedIds(ks, desktops)
  {
    forall id | id in ListedIds(ks, desktops) ensures id in ListedIds(ks2, desktops) {
      var i :| 0 <= i < |ks| && Listed(ks[i]) && ks[i].role.Desktop? == desktops && SeatId(ks[i].role) == id;
      assert Kept(ks[i], ks2[i]);
    }
    forall id | id in ListedIds(ks2, desktops) ensures id in ListedIds(ks, desktops) {
      var i :| 0 <= i < |ks2| && Listed(ks2[i]) && ks2[i].role.Desktop? == desktops && SeatId(ks2[i].role) == id;
      assert Kept(ks[i], ks2[i]);
    }
  }

  /** Unlisting a socket keeps the seats. */
  lemma GoneSeats(ks: seq<Socket>, i: nat)
    requires Seats(ks) && i < |ks|
    ensures Seats(ks[i := ks[i].(phase := Gone)])
  {
    var ks2 := ks[i := ks[i].(phase := Gone)];
    forall desktops: bool ensures |ListedIds(ks2, desktops)| <= |ListedIds(ks, desktops)| {
      forall id | id in ListedIds(ks2, desktops) ensures id in ListedIds(ks, desktops) {
        var j :| 0 <= j < |ks2| && Listed(ks2[j]) && ks2[j].role.Desktop? == desktops && SeatId(ks2[j].role) == id;
        assert j != i && ks2[j] == ks[j];
      }
      Fewer(ListedIds(ks2, desktops), ListedIds(ks, desktops));
    }
  }

  lemma {:induction false} Fewer(a: set<string>, b: set<string>)
    requires a <= b
    ensures |a| <= |b|
  {
    if a != {} {
      var x :| x in a;
      Fewer(a - {x}, b - {x});
    }
  }

  lemma {:induction false} IdsAtMostCount(ks: seq<Socket>, desktops: bool)
    ensures |ListedIds(ks, desktops)| <= CountListed(ks, desktops)
  {
    if |ks| > 0 {
      var most := ks[..|ks| - 1];
      IdsAtMostCount(most, desktops);
      var added := if Listed(Last(ks)) && Last(ks).role.Desktop? == desktops then {SeatId(Last(ks).role)} else {};
      assert ListedIds(ks, desktops) <= ListedIds(most, desktops) + added by {
        forall id | id in ListedIds(ks, desktops) ensures id in ListedIds(most, desktops) + added {
          var i :| 0 <= i < |ks| && Listed(ks[i]) && ks[i].role.Desktop? == desktops && SeatId(ks[i].role) == id;
          if i < |most| {
            assert most[i] == ks[i];
          }
        }
      }
      Fewer(ListedIds(ks, desktops), ListedIds(most, desktops) + added);
    }
  }

  /** The id of an accepted socket joins the listed ids; nothing else changes them. */
  lemma AcceptIds(ks: seq<Socket>, entering: Socket, desktops: bool)
    requires entering.phase.Open?
    ensures ListedIds(CloseOthers(ks + [entering], |ks|), desktops)
            == ListedIds(ks, desktops) + (if entering.role.Desktop? == desktops then {SeatId(entering.role)} else {})
  {
    var ks2 := CloseOthers(ks + [entering], |ks|);
    var joined := if entering.role.Desktop? == desktops then {SeatId(entering.role)} else {};
    forall id | id in ListedIds(ks2, desktops) ensures id in ListedIds(ks, desktops) + joined {
      var i :| 0 <= i < |ks2| && Listed(ks2[i]) && ks2[i].role.Desktop? == desktops && SeatId(ks2[i].role) == id;
      if i < |ks| {
        assert Listed(ks[i]) && ks[i].role == ks2[i].role;
      }
    }
    forall id | id in ListedIds(ks, desktops) ensures id in ListedIds(ks2, desktops) {
      var i :| 0 <= i < |ks| && Listed(ks[i]) && ks[i].role.Desktop? == desktops && SeatId(ks[i].role) == id;
      assert Listed(ks2[i]) && ks2[i].role == ks[i].role;
    }
    if entering.role.Desktop? == desktops {
      assert ks2[|ks|] == entering;
    }
  }

  lemma AcceptCaps(ks: seq<Socket>, entering: Socket, desktops: bool)
    requires entering.phase.Open? && !Refused(ks, entering.role)
    requires |ListedIds(ks, desktops)| <= if desktops then MAX_DESKTOPS_PER_ACCOUNT else MAX_DEVICES_PER_ACCOUNT
    ensures |ListedIds(CloseOthers(ks + [entering], |ks|), desktops)|
            <= if desktops then MAX_DESKTOPS_PER_ACCOUNT else MAX_DEVICES_PER_ACCOUNT
  {
    var role := entering.role;
    var ids := ListedIds(ks, desktops);
    AcceptIds(ks, entering, desktops);
    if role.Desktop? != desktops {
      assert ids + {} == ids;
    } else if Replaces(ks, role) {
      var i :| 0 <= i < |ks| && Listed(ks[i]) && SameSeat(role, ks[i].role);
      assert SeatId(ks[i].role) == SeatId(role);
      assert SeatId(role) in ids;
      assert ids + {SeatId(role)} == ids;
    } else {
      IdsAtMostCount(ks, desktops);
    }
  }

  /** Accepting a socket that is not refused, once its predecessors are closing. */
  lemma AcceptSeats(ks: seq<Socket>, entering: Socket)
    requires Seats(ks) && entering.phase.Open? && !Refused(ks, entering.role)
    requires entering.role.Device? ==> forall i | 0 <= i < |ks| :: ks[i].channel != entering.channel
    ensures Seats(CloseOthers(ks + [entering], |ks|))
  {
    AcceptCaps(ks, entering, true);
    AcceptCaps(ks, entering, false);
    var ks2 := CloseOthers(ks + [entering], |ks|);
    forall i | 0 <= i < |ks2| ensures ks2[i].role == (ks + [entering])[i].role && ks2[i].channel == (ks + [entering])[i].channel {
    }
    assert DistinctChannels(ks2);
  }

  // ---- what the invariant says of open sockets

  predicate IsOpen(k: Socket, desktops: bool) {
    k.phase.Open? && k.role.Desktop? == desktops
  }

  /** How many of the first n sockets are open sockets of one kind. */
  function CountOpen(ks: seq<Socket>, desktops: bool, n: nat): nat
    requires n <= |ks|
  {
    if n == 0 then 0 else CountOpen(ks, desktops, n - 1) + (if IsOpen(ks[n - 1], desktops) then 1 else 0)
  }

  function OpenIds(ks: seq<Socket>, desktops: bool, n: nat): set<string>
    requires n <= |ks|
  {
    if n == 0 then {}
    else OpenIds(ks, desktops, n - 1) + (if IsOpen(ks[n - 1], desktops) then {SeatId(ks[n - 1].role)} else {})
  }

  lemma {:induction false} OpenIdSource(ks: seq<Socket>, desktops: bool, n: nat, id: string) returns (i: nat)
    requires n <= |ks| && id in OpenIds(ks, desktops, n)
    ensures i < n && IsOpen(ks[i], desktops) && SeatId(ks[i].role) == id
  {
    if IsOpen(ks[n - 1], desktops) && SeatId(ks[n - 1].role) == id {
      i := n - 1;
    } else {
      i := OpenIdSource(ks, desktops, n - 1, id);
    }
  }

  lemma OpenIdIsNew(ks: seq<Socket>, desktops: bool, n: nat)
    requires UniqueOpen(ks) && n < |ks| && IsOpen(ks[n], desktops)
    ensures SeatId(ks[n].role) !in OpenIds(ks, desktops, n)
  {
    if SeatId(ks[n].role) in OpenIds(ks, desktops, n) {
      var i := OpenIdSource(ks, desktops, n, SeatId(ks[n].role));
      assert SameSeat(ks[i].role, ks[n].role);
    }
  }

  /** Open sockets of one kind have distinct ids, so they are no more than the ids. */
  lemma {:induction false} OpenAtMostIds(ks: seq<Socket>, desktops: bool, n: nat)
    requires UniqueOpen(ks) && n <= |ks|
    ensures CountOpen(ks, desktops, n) == |OpenIds(ks, desktops, n)|
  {
    if n > 0 {
      OpenAtMostIds(ks, desktops, n - 1);
      if IsOpen(ks[n - 1], desktops) {
        OpenIdIsNew(ks, desktops, n - 1);
      }
    }
  }

  /** Never more than 8 open desktops and 16 open devices. */
  lemma OpenCaps(ks: seq<Socket>)
    requires Seats(ks)
    ensures CountOpen(ks, true, |ks|) <= MAX_DESKTOPS_PER_ACCOUNT
    ensures CountOpen(ks, false, |ks|) <= MAX_DEVICES_PER_ACCOUNT
  {
    forall desktops: bool ensures CountOpen(ks, desktops, |ks|) <= |ListedIds(ks, desktops)| {
      OpenAtMostIds(ks, desktops, |ks|);
      forall id | id in OpenIds(ks, desktops, |ks|) ensures id in ListedIds(ks, desktops) {
        var i := OpenIdSource(ks, desktops, |ks|, id);
        assert Listed(ks[i]);
      }
      Fewer(OpenIds(ks, desktops, |ks|), ListedIds(ks, desktops));
    }
    assert CountOpen(ks, true, |ks|) <= |ListedIds(ks, true)|;
    assert CountOpen(ks, false, |ks|) <= |ListedIds(ks, false)|;
  }
}
