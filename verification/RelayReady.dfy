/** What a device was last told: ready or waiting. */
module RelayReady {
  import opened Options
  import opened MuxFrame
  import opened RelayRoom
  import opened RelaySeats
  import opened RelayLinks

  /** The last ready or waiting note among the messages sent to a device. */
  function LastNote(sent: seq<Message>): Option<Control> {
    if |sent| == 0 then None
    else
      var m := sent[|sent| - 1];
      if m == Note(DeviceReady) || m == Note(Waiting) then Some(m.control) else LastNote(sent[..|sent| - 1])
  }

  lemma LastNoteAppend(sent: seq<Message>, m: Message)
    ensures LastNote(sent + [m])
            == if m == Note(DeviceReady) || m == Note(Waiting) then Some(m.control) else LastNote(sent)
  {
    assert (sent + [m])[..|sent|] == sent;
  }

  ghost predicate HasListedDesktop(ks: seq<Socket>, id: string) {
    exists d :: IsDesktop(ks, d) && Listed(ks[d]) && ks[d].role.desktopId == id
  }

  ghost predicate HasOpenDesktop(ks: seq<Socket>, id: string) {
    exists d :: IsDesktop(ks, d) && ServesOpen(ks[d], id)
  }

  /** An open device that missed no note was told ready only if a desktop of its id
      is listed, and was told ready if one is open. */
  ghost predicate ReadyOk(ks: seq<Socket>, v: Socket)
    requires v.role.Device?
  {
    v.phase.Open? && !v.missedNote ==>
      && LastNote(v.sent).Some?
      && (LastNote(v.sent) == Some(DeviceReady) ==> HasListedDesktop(ks, v.role.desktopId))
      && (HasOpenDesktop(ks, v.role.desktopId) ==> LastNote(v.sent) == Some(DeviceReady))
  }

  /** ReadyOk for all devices but those of the given id from n on. */
  ghost predicate ReadyBut(ks: seq<Socket>, id: string, n: nat) {
    forall v | IsDevice(ks, v) && !(v >= n && ks[v].role.desktopId == id) :: ReadyOk(ks, ks[v])
  }

  ghost predicate AllReady(ks: seq<Socket>) {
    forall v | IsDevice(ks, v) :: ReadyOk(ks, ks[v])
  }

  /** k2 is k after a step that told it neither ready nor waiting. */
  ghost predicate Untold(k: Socket, k2: Socket) {
    && Kept(k, k2) && LastNote(k2.sent) == LastNote(k.sent) && (k.missedNote ==> k2.missedNote)
  }

  lemma UntoldSend(k: Socket, m: Message)
    requires m != Note(DeviceReady) && m != Note(Waiting)
    ensures Untold(k, Send(k, m))
  {
    LastNoteAppend(k.sent, m);
  }

  /** Desktops only leave: those listed stay listed, none opens. */
  lemma SameDesktops(ks: seq<Socket>, ks2: seq<Socket>, id: string)
    requires AllKept(ks, ks2)
    ensures HasListedDesktop(ks, id) ==> HasListedDesktop(ks2, id)
    ensures HasOpenDesktop(ks2, id) ==> HasOpenDesktop(ks, id)
  {
    if HasListedDesktop(ks, id) {
      var d :| IsDesktop(ks, d) && Listed(ks[d]) && ks[d].role.desktopId == id;
      assert Kept(ks[d], ks2[d]);
      assert IsDesktop(ks2, d) && Listed(ks2[d]) && ks2[d].role.desktopId == id;
    }
    if HasOpenDesktop(ks2, id) {
      var d :| IsDesktop(ks2, d) && ServesOpen(ks2[d], id);
      assert Kept(ks[d], ks2[d]);
      assert IsDesktop(ks, d) && ServesOpen(ks[d], id);
    }
  }

  lemma UntoldReady(ks: seq<Socket>, ks2: seq<Socket>, v: nat)
    requires IsDevice(ks, v) && ReadyOk(ks, ks[v]) && AllKept(ks, ks2) && Untold(ks[v], ks2[v])
    ensures ReadyOk(ks2, ks2[v])
  {
    SameDesktops(ks, ks2, ks[v].role.desktopId);
  }

  lemma UntoldKeepsReady(ks: seq<Socket>, ks2: seq<Socket>)
    requires AllReady(ks) && |ks2| == |ks| && forall i | 0 <= i < |ks| :: Untold(ks[i], ks2[i])
    ensures AllReady(ks2)
  {
    assert AllKept(ks, ks2) by {
      forall i | 0 <= i < |ks| ensures Kept(ks[i], ks2[i]) {
        assert Untold(ks[i], ks2[i]);
      }
    }
    forall v | IsDevice(ks2, v) ensures ReadyOk(ks2, ks2[v]) {
      assert Untold(ks[v], ks2[v]) && IsDevice(ks, v);
      UntoldReady(ks, ks2, v);
    }
  }

  lemma OneUntold(ks: seq<Socket>, i: nat, k2: Socket)
    requires AllReady(ks) && i < |ks| && Untold(ks[i], k2)
    ensures AllReady(ks[i := k2])
  {
    UntoldKeepsReady(ks, ks[i := k2]);
  }

  // ---- opening

  lemma OpenDeviceReady(ks: seq<Socket>, v: nat, d: nat)
    requires CanOpen(ks, v, d) && Listed(ks[d])
    ensures AllKept(ks, OpenDevice(ks, v, d))
    ensures ReadyOk(OpenDevice(ks, v, d), OpenDevice(ks, v, d)[v])
    ensures forall i | 0 <= i < |ks| && i != v :: Untold(ks[i], OpenDevice(ks, v, d)[i])
  {
    var ks2 := OpenDevice(ks, v, d);
    UntoldSend(ks[d], Mux(OpenFrame(ks[v])));
    var id := ks[v].role.desktopId;
    if CanSend(ks[d], Mux(OpenFrame(ks[v]))) {
      assert IsDesktop(ks2, d) && Listed(ks2[d]) && ks2[d].role.desktopId == id;
    } else {
      forall e | IsDesktop(ks2, e) ensures !ServesOpen(ks2[e], id) {
        assert IsDesktop(ks, e);
      }
    }
  }

  lemma OpenNextReady(ks: seq<Socket>, n: nat, d: nat)
    requires n < |ks| && IsDesktop(ks, d) && Listed(ks[d]) && LinksBut(ks, d, n) && OnlyServer(ks, d)
    requires ReadyBut(ks, ks[d].role.desktopId, n)
    ensures ReadyBut(OpenNext(ks, n, d), ks[d].role.desktopId, n + 1) && Listed(OpenNext(ks, n, d)[d])
  {
    var id := ks[d].role.desktopId;
    var ks2 := OpenNext(ks, n, d);
    if Targets(ks[n], id) {
      assert CanOpen(ks, n, d);
      OpenDeviceReady(ks, n, d);
      forall v | IsDevice(ks2, v) && !(v >= n + 1 && ks2[v].role.desktopId == id) ensures ReadyOk(ks2, ks2[v]) {
        if v != n {
          assert Untold(ks[v], ks2[v]) && IsDevice(ks, v);
          UntoldReady(ks, ks2, v);
        }
      }
      assert Untold(ks[d], ks2[d]);
    }
  }

  /** What holds before the opening loop visits socket n. */
  ghost predicate Opening(ks: seq<Socket>, n: nat, d: nat) {
    && OpenedTo(ks, n, d) && Listed(ks[d])
    && ReadyBut(ks, ks[d].role.desktopId, n)
  }

  lemma OpeningEnds(ks: seq<Socket>, d: nat)
    requires Opening(ks, |ks|, d)
    ensures AllReady(OpenAll(ks, |ks|, d))
  {
    var id := ks[d].role.desktopId;
    assert ReadyBut(ks, id, |ks|);
  }

  lemma {:induction false} OpenAllReady(ks: seq<Socket>, n: nat, d: nat)
    requires n <= |ks| && Opening(ks, n, d)
    ensures AllReady(OpenAll(ks, n, d))
    decreases |ks| - n
  {
    if n == |ks| {
      OpeningEnds(ks, d);
    } else {
      OpenedNext(ks, n, d);
      OpenNextReady(ks, n, d);
      OpenAllReady(OpenNext(ks, n, d), n + 1, d);
    }
  }

  // ---- accepting

  lemma EnteringReady(ks: seq<Socket>, entering: Socket)
    requires AllReady(ks) && IsFresh(ks, entering)
    ensures ReadyBut(CloseOthers(ks + [entering], |ks|), entering.role.desktopId,
                     if entering.role.Desktop? then 0 else |ks|)
  {
    var n := |ks|;
    var ks2 := CloseOthers(ks + [entering], n);
    forall v | IsDevice(ks2, v) && v < n && (entering.role.Desktop? ==> ks2[v].role.desktopId != entering.role.desktopId)
      ensures ReadyOk(ks2, ks2[v])
    {
      var id := ks2[v].role.desktopId;
      assert IsDevice(ks, v) && ReadyOk(ks, ks[v]);
      if HasListedDesktop(ks, id) {
        var d :| IsDesktop(ks, d) && Listed(ks[d]) && ks[d].role.desktopId == id;
        assert IsDesktop(ks2, d) && Listed(ks2[d]) && ks2[d].role.desktopId == id;
      }
      if HasOpenDesktop(ks2, id) {
        var d :| IsDesktop(ks2, d) && ServesOpen(ks2[d], id);
        assert IsDesktop(ks, d) && ServesOpen(ks[d], id);
      }
    }
  }

  lemma GreetReady(ks: seq<Socket>, entering: Socket)
    requires Links(ks) && AllReady(ks) && !Refused(ks, entering.role) && IsFresh(ks, entering)
    ensures AllReady(Greet(CloseOthers(ks + [entering], |ks|), |ks|))
  {
    AcceptSeats(ks, entering);
    EnteringKnown(ks, entering);
    EnteringLinked(ks, entering);
    EnteringReady(ks, entering);
    var ks2 := CloseOthers(ks + [entering], |ks|);
    if entering.role.Desktop? {
      GreetDesktopReady(ks2, |ks|);
    } else {
      GreetDeviceReady(ks2, |ks|);
    }
  }

  lemma GreetDesktopReady(ks: seq<Socket>, n: nat)
    requires IsDesktop(ks, n) && ks[n].phase.Open? && LinksBut(ks, n, 0) && ReadyBut(ks, ks[n].role.desktopId, 0)
    ensures AllReady(Greet(ks, n))
  {
    var ks2 := ks[n := Send(ks[n], Note(DesktopReady))];
    forall i | 0 <= i < |ks| ensures Quiet(ks[i], ks2[i]) && Untold(ks[i], ks2[i]) {
      QuietSend(ks[i], Note(DesktopReady));
      UntoldSend(ks[i], Note(DesktopReady));
    }
    QuietKeepsLinks(ks, ks2, n, 0);
    forall e | IsDesktop(ks2, e) && e != n ensures !ServesOpen(ks2[e], ks2[n].role.desktopId) {
      assert ks[e].phase.Open? ==> !SameSeat(ks[n].role, ks[e].role);
    }
    forall v | IsDevice(ks2, v) && ks2[v].role.desktopId != ks[n].role.desktopId ensures ReadyOk(ks2, ks2[v]) {
      assert IsDevice(ks, v);
      UntoldReady(ks, ks2, v);
    }
    OpenAllReady(ks2, 0, n);
  }

  lemma GreetDeviceReady(ks: seq<Socket>, n: nat)
    requires IsDevice(ks, n) && ks[n].phase.Open? && n == |ks| - 1 && UniqueOpen(ks)
    requires forall e | IsDesktop(ks, e) :: ks[n].channel !in ks[e].openedAt
    requires ReadyBut(ks, ks[n].role.desktopId, n)
    ensures AllReady(Greet(ks, n))
  {
    var id := ks[n].role.desktopId;
    var d := FindDesktop(ks, id);
    var ks2 := Greet(ks, n);
    if d < |ks| {
      forall e | IsDesktop(ks, e) && e != d ensures !ServesOpen(ks[e], id) {
        if ServesOpen(ks[e], id) {
          OnlyOpenDesktop(ks, id, e);
        }
      }
      assert CanOpen(ks, n, d);
      OpenDeviceReady(ks, n, d);
    } else {
      forall e | IsDesktop(ks2, e) ensures !ServesOpen(ks2[e], id) {
        assert e != n ==> ks2[e] == ks[e];
      }
    }
    forall v | IsDevice(ks2, v) && v != n ensures ReadyOk(ks2, ks2[v]) {
      assert IsDevice(ks, v) && Untold(ks[v], ks2[v]);
      UntoldReady(ks, ks2, v);
    }
  }

  // ---- messages and close events

  lemma UntoldFromDesktop(ks: seq<Socket>, d: nat, bytes: Bytes, j: nat)
    requires d < |ks| && ks[d].role.Desktop? && j < |ks|
    ensures Untold(ks[j], FromDesktop(ks, d, bytes)[j])
  {
    var decoded := Decode(bytes);
    if decoded.Some? {
      UntoldSend(ks[j], Raw(decoded.value.payload));
    }
  }

  /** One socket closed, or sent something that is not a note of readiness. */
  lemma UntoldReceive(ks: seq<Socket>, i: nat, m: Inbound, j: nat)
    requires i < |ks| && j < |ks|
    requires !(m.Binary? && 1 <= |m.bytes| <= MaxInbound(ks[i].role) && ks[i].role.Device?)
    ensures Untold(ks[j], Receive(ks, i, m)[j])
  {
    if m.Text? {
      UntoldSend(ks[j], Note(Pong));
    } else if 1 <= |m.bytes| <= MaxInbound(ks[i].role) {
      UntoldFromDesktop(ks, i, m.bytes, j);
    }
  }

  lemma ReceiveReady(ks: seq<Socket>, i: nat, m: Inbound)
    requires AllReady(ks) && UniqueOpen(ks) && i < |ks| && Listed(ks[i])
    ensures AllReady(Receive(ks, i, m))
  {
    if m.Binary? && 1 <= |m.bytes| <= MaxInbound(ks[i].role) && ks[i].role.Device? {
      FromDeviceReady(ks, i, m.bytes);
    } else {
      var ks2 := Receive(ks, i, m);
      forall j | 0 <= j < |ks| ensures Untold(ks[j], ks2[j]) {
        UntoldReceive(ks, i, m, j);
      }
      UntoldKeepsReady(ks, ks2);
    }
  }

  predicate Undelivered(ks: seq<Socket>, v: nat, payload: Bytes) {
    && IsDevice(ks, v)
    && var d := FindDesktop(ks, ks[v].role.desktopId);
       d < |ks| ==> !CanSend(ks[d], Mux(Frame(MUX_DATA, ks[v].channel, payload)))
  }

  lemma UndeliveredKept(ks: seq<Socket>, v: nat, payload: Bytes)
    requires Undelivered(ks, v, payload)
    ensures AllKept(ks, FromDevice(ks, v, payload))
  {
    var ks2 := FromDevice(ks, v, payload);
    forall i | 0 <= i < |ks| ensures Kept(ks[i], ks2[i]) {
    }
  }

  lemma NoDesktopReady(ks: seq<Socket>, v: nat, payload: Bytes)
    requires AllReady(ks) && UniqueOpen(ks) && Undelivered(ks, v, payload)
    ensures AllReady(FromDevice(ks, v, payload))
  {
    var ks2 := FromDevice(ks, v, payload);
    UndeliveredKept(ks, v, payload);
    forall w | IsDevice(ks2, w) && w != v ensures ReadyOk(ks2, ks2[w]) {
      assert IsDevice(ks, w);
      UntoldReady(ks, ks2, w);
    }
  }

  lemma FromDeviceReady(ks: seq<Socket>, v: nat, payload: Bytes)
    requires AllReady(ks) && UniqueOpen(ks) && IsDevice(ks, v) && Listed(ks[v])
    ensures AllReady(FromDevice(ks, v, payload))
  {
    var d := FindDesktop(ks, ks[v].role.desktopId);
    var data := Mux(Frame(MUX_DATA, ks[v].channel, payload));
    if d < |ks| && CanSend(ks[d], data) {
      UntoldSend(ks[d], data);
      UntoldKeepsReady(ks, FromDevice(ks, v, payload));
    } else {
      NoDesktopReady(ks, v, payload);
    }
  }

  lemma HandleClosedReady(ks: seq<Socket>, i: nat)
    requires AllReady(ks) && UniqueOpen(ks) && i < |ks| && Listed(ks[i])
    ensures AllReady(HandleClosed(ks, i))
  {
    var told := OnClosed(ks, i);
    var id := ks[i].role.desktopId;
    var d := FindDesktop(ks, id);
    if ks[i].role.Device? {
      UntoldSend(if d < |ks| then ks[d] else ks[i], Mux(Frame(MUX_CLOSE, ks[i].channel, [])));
      UntoldKeepsReady(ks, told);
      GoneReady(told, i);
    } else if d == |ks| || d == i {
      DesktopsGone(ks, i);
    } else {
      GoneReady(ks, i);
    }
  }

  /** Unlisting a socket whose id still has another open desktop, or a device. */
  lemma GoneReady(ks: seq<Socket>, i: nat)
    requires AllReady(ks) && i < |ks|
    requires ks[i].role.Desktop? ==> exists e :: e != i && IsDesktop(ks, e) && ServesOpen(ks[e], ks[i].role.desktopId)
    ensures AllReady(ks[i := ks[i].(phase := Gone)])
  {
    var ks2 := ks[i := ks[i].(phase := Gone)];
    forall v | IsDevice(ks2, v) ensures ReadyOk(ks2, ks2[v]) {
      assert IsDevice(ks, v) && ReadyOk(ks, ks[v]);
      var id := ks[v].role.desktopId;
      if HasListedDesktop(ks, id) {
        var e :| IsDesktop(ks, e) && Listed(ks[e]) && ks[e].role.desktopId == id;
        if e == i {
          var e2 :| e2 != i && IsDesktop(ks, e2) && ServesOpen(ks[e2], id);
          assert IsDesktop(ks2, e2) && Listed(ks2[e2]);
        } else {
          assert IsDesktop(ks2, e) && Listed(ks2[e]);
        }
      }
      if HasOpenDesktop(ks2, id) {
        var e :| IsDesktop(ks2, e) && ServesOpen(ks2[e], id);
        assert IsDesktop(ks, e) && ServesOpen(ks[e], id);
      }
    }
  }

  /** The last desktop of an id that could be open goes: its devices are told. */
  lemma ToldToWait(ks: seq<Socket>, i: nat, v: nat)
    requires IsDesktop(ks, i) && IsDevice(ks, v) && ks[v].role.desktopId == ks[i].role.desktopId
    requires UniqueOpen(ks) && Listed(ks[i])
    requires var d := FindDesktop(ks, ks[i].role.desktopId); d == |ks| || d == i
    ensures ReadyOk(HandleClosed(ks, i), HandleClosed(ks, i)[v])
  {
    NoneLeft(ks, i);
  }

  lemma LastGoneAt(ks: seq<Socket>, i: nat, e: nat)
    requires IsDesktop(ks, i) && Listed(ks[i]) && e < |ks|
    requires var d := FindDesktop(ks, ks[i].role.desktopId); d == |ks| || d == i
    ensures HandleClosed(ks, i)[e] ==
            if e == i then ks[i].(phase := Gone)
            else if Targets(ks[e], ks[i].role.desktopId) then Send(ks[e], Note(Waiting)) else ks[e]
  {
  }

  lemma ElsewhereAfterGone(ks: seq<Socket>, i: nat, id: string)
    requires IsDesktop(ks, i) && Listed(ks[i]) && id != ks[i].role.desktopId
    requires var d := FindDesktop(ks, ks[i].role.desktopId); d == |ks| || d == i
    ensures HasListedDesktop(ks, id) ==> HasListedDesktop(HandleClosed(ks, i), id)
    ensures HasOpenDesktop(HandleClosed(ks, i), id) ==> HasOpenDesktop(ks, id)
  {
    var ks2 := HandleClosed(ks, i);
    forall e | 0 <= e < |ks| ensures ks2[e].role == ks[e].role && (e != i && ks[e].role.Desktop? ==> ks2[e] == ks[e]) {
      LastGoneAt(ks, i, e);
    }
  }

  lemma DeviceAfterGone(ks: seq<Socket>, i: nat, v: nat)
    requires UniqueOpen(ks) && IsDesktop(ks, i) && Listed(ks[i]) && IsDevice(ks, v) && ReadyOk(ks, ks[v])
    requires var d := FindDesktop(ks, ks[i].role.desktopId); d == |ks| || d == i
    ensures HandleClosed(ks, i)[v].role.Device? && ReadyOk(HandleClosed(ks, i), HandleClosed(ks, i)[v])
  {
    LastGoneAt(ks, i, v);
    if ks[v].role.desktopId == ks[i].role.desktopId {
      ToldToWait(ks, i, v);
    } else {
      ElsewhereAfterGone(ks, i, ks[v].role.desktopId);
    }
  }

  lemma DesktopsGone(ks: seq<Socket>, i: nat)
    requires AllReady(ks) && UniqueOpen(ks) && IsDesktop(ks, i) && Listed(ks[i])
    requires var d := FindDesktop(ks, ks[i].role.desktopId); d == |ks| || d == i
    ensures AllReady(HandleClosed(ks, i))
  {
    var ks2 := HandleClosed(ks, i);
    forall v | IsDevice(ks2, v) ensures ReadyOk(ks2, ks2[v]) {
      LastGoneAt(ks, i, v);
      assert IsDevice(ks, v) && ReadyOk(ks, ks[v]);
      DeviceAfterGone(ks, i, v);
    }
  }

  lemma NoneLeft(ks: seq<Socket>, i: nat)
    requires UniqueOpen(ks) && IsDesktop(ks, i) && Listed(ks[i])
    requires var d := FindDesktop(ks, ks[i].role.desktopId); d == |ks| || d == i
    ensures !HasOpenDesktop(HandleClosed(ks, i), ks[i].role.desktopId)
  {
    var id := ks[i].role.desktopId;
    var ks2 := HandleClosed(ks, i);
    forall e | IsDesktop(ks2, e) ensures !ServesOpen(ks2[e], id) {
      if e != i && ServesOpen(ks[e], id) {
        OnlyOpenDesktop(ks, id, e);
      }
    }
  }

}
