/** What holds of the relay room in every reachable state. */
module RelayRuns {
  import opened Options
  import opened MuxFrame
  import opened RelayRoom
  import opened RelaySeats
  import opened RelayLinks
  import opened RelayReady
  import opened RelayTickets

  // ---- one socket's bounds

  ghost predicate Bounded(k: Socket) {
    && k.buffered <= MAX_BUFFERED_BYTES
    && ShortIds(k.role)
    && (k.role.Device? ==> IsChannel(k.channel))
    && (forall p | p in k.accepted :: 1 <= |p| <= MAX_RELAY_DEVICE_PAYLOAD_BYTES)
  }

  ghost predicate AllBounded(ks: seq<Socket>) {
    forall i | 0 <= i < |ks| :: Bounded(ks[i])
  }

  /** k2 is within bounds if k is. */
  ghost predicate StaysBounded(k: Socket, k2: Socket) {
    Bounded(k) ==> Bounded(k2)
  }

  lemma SendBounded(k: Socket, m: Message)
    ensures StaysBounded(k, Send(k, m))
  {
  }

  lemma OpenDeviceBounded(ks: seq<Socket>, v: nat, d: nat)
    requires v < |ks| && d < |ks| && ks[v].role.Device? && ks[d].role.Desktop? && AllBounded(ks)
    ensures AllBounded(OpenDevice(ks, v, d))
  {
    forall i | 0 <= i < |ks| ensures Bounded(OpenDevice(ks, v, d)[i]) {
      assert Bounded(ks[i]);
      SendBounded(ks[i], Note(DeviceReady));
      SendBounded(ks[i], Note(Waiting));
      SendBounded(ks[i], Mux(OpenFrame(ks[v])));
    }
  }

  lemma {:induction false} OpenAllBounded(ks: seq<Socket>, n: nat, d: nat)
    requires n <= |ks| && d < |ks| && ks[d].role.Desktop? && AllBounded(ks)
    ensures AllBounded(OpenAll(ks, n, d))
    decreases |ks| - n
  {
    if n < |ks| {
      if Targets(ks[n], ks[d].role.desktopId) {
        OpenDeviceBounded(ks, n, d);
      }
      OpenAllBounded(OpenNext(ks, n, d), n + 1, d);
    }
  }

  lemma GreetBounded(ks: seq<Socket>, n: nat)
    requires n < |ks| && AllBounded(ks)
    ensures AllBounded(Greet(ks, n))
  {
    SendBounded(ks[n], Note(DesktopReady));
    SendBounded(ks[n], Note(Waiting));
    var d := FindDesktop(ks, ks[n].role.desktopId);
    if ks[n].role.Desktop? {
      OpenAllBounded(ks[n := Send(ks[n], Note(DesktopReady))], 0, n);
    } else if d < |ks| {
      OpenDeviceBounded(ks, n, d);
    }
  }

  lemma AcceptBounded(r: Room, ticket: string, channel: string, faulty: bool)
    requires AllBounded(r.sockets) && ticket in r.claimed && ShortIds(r.claimed[ticket]) && IsChannel(channel)
    ensures AllBounded(Accept(r, ticket, channel, faulty).sockets)
  {
    var role := r.claimed[ticket];
    var n := |r.sockets|;
    var entering := Fresh(ticket, role, channel, faulty);
    var ks := CloseOthers(r.sockets + [entering], n);
    forall i | 0 <= i < |ks| ensures Bounded(ks[i]) {
      assert Bounded(entering);
      assert i < n ==> Bounded(r.sockets[i]);
    }
    GreetBounded(ks, n);
  }

  lemma FromDeviceBounded(ks: seq<Socket>, v: nat, payload: Bytes)
    requires v < |ks| && ks[v].role.Device? && AllBounded(ks) && 1 <= |payload| <= MAX_RELAY_DEVICE_PAYLOAD_BYTES
    ensures AllBounded(FromDevice(ks, v, payload))
  {
    var taken := ks[v].(accepted := ks[v].accepted + [payload]);
    var d := FindDesktop(ks, ks[v].role.desktopId);
    assert Bounded(ks[v]) && Bounded(taken);
    SendBounded(taken, Note(Waiting));
    if d < |ks| {
      assert Bounded(ks[d]);
      SendBounded(ks[d], Mux(Frame(MUX_DATA, ks[v].channel, payload)));
    }
  }

  lemma FromDesktopBounded(ks: seq<Socket>, d: nat, bytes: Bytes)
    requires d < |ks| && ks[d].role.Desktop? && AllBounded(ks)
    ensures AllBounded(FromDesktop(ks, d, bytes))
  {
    var ks2 := FromDesktop(ks, d, bytes);
    forall j | 0 <= j < |ks| ensures Bounded(ks2[j]) {
      assert Bounded(ks[j]);
      if Decode(bytes).Some? {
        SendBounded(ks[j], Raw(Decode(bytes).value.payload));
      }
    }
  }

  lemma ReceiveBounded(ks: seq<Socket>, i: nat, m: Inbound)
    requires i < |ks| && AllBounded(ks)
    ensures AllBounded(Receive(ks, i, m))
  {
    assert Bounded(ks[i]);
    match m
    case Text(_) => SendBounded(ks[i], Note(Pong));
    case Binary(bytes) =>
      if 1 <= |bytes| <= MaxInbound(ks[i].role) {
        if ks[i].role.Device? {
          FromDeviceBounded(ks, i, bytes);
        } else {
          FromDesktopBounded(ks, i, bytes);
        }
      }
  }

  lemma FromDesktopBearers(ks: seq<Socket>, d: nat, bytes: Bytes)
    requires d < |ks| && ks[d].role.Desktop?
    ensures SameBearers(ks, FromDesktop(ks, d, bytes))
  {
    var ks2 := FromDesktop(ks, d, bytes);
    forall j | 0 <= j < |ks| ensures ks2[j].ticket == ks[j].ticket && ks2[j].role == ks[j].role {
    }
  }

  lemma FromDeviceBearers(ks: seq<Socket>, v: nat, payload: Bytes)
    requires v < |ks| && ks[v].role.Device?
    ensures SameBearers(ks, FromDevice(ks, v, payload))
  {
    var ks2 := FromDevice(ks, v, payload);
    forall j | 0 <= j < |ks| ensures ks2[j].ticket == ks[j].ticket && ks2[j].role == ks[j].role {
    }
  }

  lemma ReceiveBearers(ks: seq<Socket>, i: nat, m: Inbound)
    requires i < |ks|
    ensures SameBearers(ks, Receive(ks, i, m))
  {
    match m
    case Text(_) =>
    case Binary(bytes) =>
      if ks[i].role.Device? {
        FromDeviceBearers(ks, i, bytes);
      } else {
        FromDesktopBearers(ks, i, bytes);
      }
  }

  lemma OnClosedBounded(ks: seq<Socket>, i: nat)
    requires i < |ks| && AllBounded(ks)
    ensures AllBounded(OnClosed(ks, i)) && SameBearers(ks, OnClosed(ks, i))
  {
    var ks2 := OnClosed(ks, i);
    forall j | 0 <= j < |ks2| ensures Bounded(ks2[j]) && ks2[j].ticket == ks[j].ticket && ks2[j].role == ks[j].role {
      assert Bounded(ks[j]);
      SendBounded(ks[j], Note(Waiting));
      SendBounded(ks[j], Mux(Frame(MUX_CLOSE, ks[i].channel, [])));
    }
  }

  lemma ClosedBounded(ks: seq<Socket>, i: nat)
    requires i < |ks| && AllBounded(ks)
    ensures AllBounded(HandleClosed(ks, i)) && SameBearers(ks, HandleClosed(ks, i))
  {
    OnClosedBounded(ks, i);
    var told := OnClosed(ks, i);
    forall j | 0 <= j < |told| ensures Bounded(HandleClosed(ks, i)[j]) {
      assert Bounded(told[j]);
    }
  }

  // ---- the invariant and its steps

  ghost predicate Inv(r: Room) {
    Links(r.sockets) && AllReady(r.sockets) && Tickets(r) && AllBounded(r.sockets)
  }

  lemma AcceptKeepsInv(r: Room, ticket: string, channel: string, faulty: bool)
    requires Inv(r) && Enabled(r, AcceptSocket(ticket, channel, faulty))
    ensures Inv(Accept(r, ticket, channel, faulty))
  {
    AcceptKeepsTickets(r, ticket, channel, faulty);
    AcceptBounded(r, ticket, channel, faulty);
    var role := r.claimed[ticket];
    if !Refused(r.sockets, role) {
      var entering := Fresh(ticket, role, channel, faulty);
      GreetKeepsLinks(r.sockets, entering);
      GreetReady(r.sockets, entering);
    }
  }

  lemma DeliverKeepsInv(r: Room, i: nat, m: Inbound)
    requires Inv(r) && Usable(r, i)
    ensures Inv(r.(sockets := Receive(r.sockets, i, m)))
  {
    ReceiveKeepsLinks(r.sockets, i, m);
    ReceiveReady(r.sockets, i, m);
    ReceiveBounded(r.sockets, i, m);
    ReceiveBearers(r.sockets, i, m);
    BearersKeepTickets(r, Receive(r.sockets, i, m));
  }

  /** A socket starts closing, drains or changes its fault. */
  lemma RuntimeKeepsInv(r: Room, i: nat, k2: Socket)
    requires Inv(r) && Usable(r, i)
    requires Quiet(r.sockets[i], k2) && Untold(r.sockets[i], k2) && StaysBounded(r.sockets[i], k2)
    requires k2.ticket == r.sockets[i].ticket
    ensures Inv(r.(sockets := r.sockets[i := k2]))
  {
    QuietChange(r.sockets, i, k2);
    OneUntold(r.sockets, i, k2);
    assert Bounded(r.sockets[i]);
    BearersKeepTickets(r, r.sockets[i := k2]);
  }

  lemma StepKeepsInv(r: Room, e: Event)
    requires Inv(r) && Enabled(r, e)
    ensures Inv(Step(r, e))
  {
    match e
    case IssueTicket(role, ticket, now, listing) => IssueKeepsTickets(r, role, ticket, now, listing);
    case ConsumeTicket(ticket, now) => ConsumeKeepsTickets(r, ticket, now);
    case AcceptSocket(ticket, channel, faulty) => AcceptKeepsInv(r, ticket, channel, faulty);
    case Deliver(i, m) => DeliverKeepsInv(r, i, m);
    case CloseEvent(i) =>
      HandleClosedKeepsLinks(r.sockets, i);
      HandleClosedReady(r.sockets, i);
      ClosedBounded(r.sockets, i);
      BearersKeepTickets(r, HandleClosed(r.sockets, i));
    case PeerCloses(i) => RuntimeKeepsInv(r, i, Close(r.sockets[i]));
    case Drain(i, b) => RuntimeKeepsInv(r, i, r.sockets[i].(buffered := b));
    case Fault(i, b) => RuntimeKeepsInv(r, i, r.sockets[i].(faulty := b));
  }

  lemma {:induction false} RunKeepsInv(states: seq<Room>, events: seq<Event>, k: nat)
    requires IsRun(states, events) && k <= |events|
    ensures Inv(states[k])
  {
    if k > 0 {
      RunKeepsInv(states, events, k - 1);
      StepKeepsInv(states[k - 1], events[k - 1]);
    } else {
      assert EmptyRoom.sockets == [];
    }
  }

  lemma ReachableInv(r: Room)
    requires Reachable(r)
    ensures Inv(r)
  {
    var states: seq<Room>, events: seq<Event> :| IsRun(states, events) && states[|events|] == r;
    RunKeepsInv(states, events, |events|);
  }

  // ---- the theorems

  /** At most one socket is open for a desktop id or a device id, and at most 8
      desktops and 16 devices are open. */
  lemma SeatsInEveryRun(r: Room)
    requires Reachable(r)
    ensures forall i, j | 0 <= i < |r.sockets| && 0 <= j < |r.sockets| && i != j
                          && r.sockets[i].phase.Open? && r.sockets[j].phase.Open? ::
              !SameSeat(r.sockets[i].role, r.sockets[j].role)
    ensures CountOpen(r.sockets, true, |r.sockets|) <= MAX_DESKTOPS_PER_ACCOUNT
    ensures CountOpen(r.sockets, false, |r.sockets|) <= MAX_DEVICES_PER_ACCOUNT
  {
    ReachableInv(r);
    OpenCaps(r.sockets);
  }

  /** What a desktop heard of a device is nothing, or OPEN, then an unbroken run of the
      device's payloads that starts at the OPEN, then CLOSE or nothing. While both are
      connected the run is complete. */
  ghost predicate HearsSession(desktop: Socket, device: Socket)
    requires device.role.Device?
  {
    var heard := FramesOn(desktop.sent, device.channel);
    && (heard == [] || (
          && desktop.role.desktopId == device.role.desktopId
          && device.channel in desktop.openedAt
          && exists to: nat, closed: bool ::
               && desktop.openedAt[device.channel] <= to <= |device.accepted|
               && heard == Session(device, desktop.openedAt[device.channel], to, closed)
               && (closed ==> device.phase.Gone?)))
    && (ServesOpen(desktop, device.role.desktopId) && Listed(device) ==>
          && device.channel in desktop.openedAt && desktop.openedAt[device.channel] <= |device.accepted|
          && heard == Session(device, desktop.openedAt[device.channel], |device.accepted|, false))
  }

  /** A desktop hears one such session of every device, and nothing on any channel that
      is not of a device of its own desktop id. */
  lemma SessionsInEveryRun(r: Room, d: nat)
    requires Reachable(r) && IsDesktop(r.sockets, d)
    ensures forall c | IsDevice(r.sockets, c) :: HearsSession(r.sockets[d], r.sockets[c])
    ensures forall channel | FramesOn(r.sockets[d].sent, channel) != [] ::
              exists c :: IsDevice(r.sockets, c) && r.sockets[c].channel == channel
                          && r.sockets[c].role.desktopId == r.sockets[d].role.desktopId
  {
    ReachableInv(r);
    assert KnownTo(r.sockets, r.sockets[d]);
    forall c | IsDevice(r.sockets, c) ensures HearsSession(r.sockets[d], r.sockets[c]) {
      assert LinkOk(r.sockets[d], r.sockets[c]) && LiveOk(r.sockets[d], r.sockets[c]);
    }
    forall channel | FramesOn(r.sockets[d].sent, channel) != []
      ensures exists c :: IsDevice(r.sockets, c) && r.sockets[c].channel == channel
                          && r.sockets[c].role.desktopId == r.sockets[d].role.desktopId
    {
      var c :| IsDevice(r.sockets, c) && r.sockets[c].channel == channel;
      assert LinkOk(r.sockets[d], r.sockets[c]);
    }
  }

  /** With no close event pending, an open device that missed no note was last told
      ready exactly when an open desktop has its desktop id. */
  lemma ReadyInEveryRun(r: Room, v: nat)
    requires Reachable(r) && IsDevice(r.sockets, v) && r.sockets[v].phase.Open? && !r.sockets[v].missedNote
    requires forall i | 0 <= i < |r.sockets| :: !r.sockets[i].phase.Closing?
    ensures LastNote(r.sockets[v].sent) == Some(DeviceReady) <==> HasOpenDesktop(r.sockets, r.sockets[v].role.desktopId)
    ensures LastNote(r.sockets[v].sent) == Some(Waiting) <==> !HasOpenDesktop(r.sockets, r.sockets[v].role.desktopId)
  {
    ReachableInv(r);
    var id := r.sockets[v].role.desktopId;
    assert ReadyOk(r.sockets, r.sockets[v]);
    OnlyRoutingNotes(r.sockets[v].sent);
    if HasListedDesktop(r.sockets, id) {
      var d :| IsDesktop(r.sockets, d) && Listed(r.sockets[d]) && r.sockets[d].role.desktopId == id;
      assert ServesOpen(r.sockets[d], id);
    }
  }

  lemma {:induction false} OnlyRoutingNotes(sent: seq<Message>)
    ensures LastNote(sent).Some? ==> LastNote(sent).value == DeviceReady || LastNote(sent).value == Waiting
  {
    if |sent| > 0 {
      OnlyRoutingNotes(sent[..|sent| - 1]);
    }
  }

  /** A ticket admits at most one socket, redeemed less than 60 seconds after it was
      issued and with the role it was issued for; at most 64 tickets are stored. */
  lemma TicketsInEveryRun(r: Room)
    requires Reachable(r)
    ensures forall i, j | 0 <= i < j < |r.sockets| :: r.sockets[i].ticket != r.sockets[j].ticket
    ensures forall i | 0 <= i < |r.sockets| ::
              var t := r.sockets[i].ticket;
              && t in r.issued && t in r.redeemedAt && t !in r.tickets && t !in r.claimed
              && r.sockets[i].role == r.issued[t].role
              && r.redeemedAt[t] < r.issued[t].at + TICKET_TTL_MS
    ensures |r.tickets.Keys| <= MAX_ACTIVE_TICKETS
  {
    ReachableInv(r);
  }

  /** No socket ever has more than 4 MiB buffered. */
  lemma BuffersInEveryRun(r: Room, i: nat)
    requires Reachable(r) && i < |r.sockets|
    ensures r.sockets[i].buffered <= MAX_BUFFERED_BYTES
  {
    ReachableInv(r);
  }

  lemma {:induction false} SentIsHeard(sent: seq<Message>, m: Message)
    requires m in sent && m.Mux?
    ensures m.frame in FramesOn(sent, m.frame.channel)
  {
    if m != sent[|sent| - 1] {
      SentIsHeard(sent[..|sent| - 1], m);
    }
  }

  /** Every frame the room sends can be encoded, and the desktop decodes it back. */
  lemma FramesDecodeInEveryRun(r: Room, d: nat, m: Message)
    requires Reachable(r) && IsDesktop(r.sockets, d) && m in r.sockets[d].sent && m.Mux?
    ensures Encode(m.frame.kind, m.frame.channel, m.frame.payload).Some?
    ensures Decode(Encode(m.frame.kind, m.frame.channel, m.frame.payload).value) == Some(m.frame)
  {
    ReachableInv(r);
    var f := m.frame;
    var k := r.sockets[d];
    SentIsHeard(k.sent, m);
    assert KnownTo(r.sockets, k);
    var c :| IsDevice(r.sockets, c) && r.sockets[c].channel == f.channel;
    var v := r.sockets[c];
    assert LinkOk(k, v) && Bounded(v);
    var to: nat, closed: bool :| k.openedAt[v.channel] <= to <= |v.accepted|
      && FramesOn(k.sent, v.channel) == Session(v, k.openedAt[v.channel], to, closed) && (closed ==> v.phase.Gone?);
    SessionFits(v, k.openedAt[v.channel], to, closed, f);
    DecodeInvertsEncode(f.kind, f.channel, f.payload);
  }

  lemma SessionFits(v: Socket, from: nat, to: nat, closed: bool, f: Frame)
    requires v.role.Device? && Bounded(v) && from <= to <= |v.accepted| && f in Session(v, from, to, closed)
    ensures Encode(f.kind, f.channel, f.payload).Some?
  {
    var i :| 0 <= i < |Session(v, from, to, closed)| && Session(v, from, to, closed)[i] == f;
    if 1 <= i <= to - from {
      assert f.payload == v.accepted[from + i - 1];
      assert f.payload in v.accepted;
    }
  }
}
