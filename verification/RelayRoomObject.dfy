/** The room as the relay runs it: an object whose handlers update the ticket store
    and the sockets one at a time. Each handler computes the step of RelayRoom. */
module RelayRoomObject {
  import opened MuxFrame
  import opened RelayRoom
  import opened RelayRuns

  class KaisolaLinkRoom {
    var tickets: map<string, TicketRecord>
    var claimed: map<string, Role>
    var sockets: seq<Socket>
    ghost var issued: map<string, Issuance>
    ghost var redeemedAt: map<string, int>

    ghost function State(): Room
      reads this
    {
      Room(tickets, claimed, sockets, issued, redeemedAt)
    }

    constructor ()
      ensures State() == EmptyRoom && Reachable(State())
    {
      tickets, claimed, sockets := map[], map[], [];
      issued, redeemedAt := map[], map[];
      new;
      ghost var none: seq<Event> := [];
      assert IsRun([EmptyRoom], none) && [EmptyRoom][|none|] == State();
    }

    // ---- tickets

    /** Deletes the expired tickets of the listing and counts those that are left. */
    method ClearExpiredTickets(now: int, listing: map<string, TicketRecord>) returns (active: int)
      modifies this`tickets
      ensures tickets == old(tickets) - Stale(listing, now)
      ensures active == ActiveTickets(listing, now)
    {
      var stale: set<string> := {};
      var rest := listing.Keys;
      while rest != {}
        invariant rest <= listing.Keys
        invariant stale == Stale(listing, now) - rest
        decreases |rest|
      {
        var t :| t in rest;
        rest := rest - {t};
        if listing[t].expiresAt <= now {
          stale := stale + {t};
        }
      }
      if stale != {} {
        tickets := tickets - stale;
      }
      active := |listing.Keys| - |stale|;
    }

    method Issue(role: Role, ticket: string, now: int, listing: map<string, TicketRecord>) returns (ok: bool)
      requires Enabled(State(), IssueTicket(role, ticket, now, listing))
      modifies this
      ensures State() == Step(old(State()), IssueTicket(role, ticket, now, listing))
      ensures ok <==> ActiveTickets(listing, now) < MAX_ACTIVE_TICKETS
    {
      var active := ClearExpiredTickets(now, listing);
      if active >= MAX_ACTIVE_TICKETS {
        return false;
      }
      tickets := tickets[ticket := TicketRecord(role, now + TICKET_TTL_MS)];
      issued := issued[ticket := Issuance(role, now)];
      return true;
    }

    method Consume(ticket: string, now: int) returns (ok: bool)
      modifies this
      ensures State() == Step(old(State()), ConsumeTicket(ticket, now))
      ensures ok ==> ticket in claimed && ticket !in tickets
    {
      if ticket !in tickets {
        return false;
      }
      var record := tickets[ticket];
      tickets := tickets - {ticket};
      if record.expiresAt <= now {
        return false;
      }
      claimed := claimed[ticket := record.role];
      redeemedAt := redeemedAt[ticket := now];
      return true;
    }

    // ---- sockets

    method SendTo(i: nat, m: Message) returns (ok: bool)
      requires i < |sockets|
      modifies this`sockets
      ensures sockets == old(sockets)[i := RelayRoom.Send(old(sockets)[i], m)]
      ensures ok <==> CanSend(old(sockets)[i], m)
    {
      ok := CanSend(sockets[i], m);
      sockets := sockets[i := RelayRoom.Send(sockets[i], m)];
    }

    method CloseSocket(i: nat)
      requires i < |sockets|
      modifies this`sockets
      ensures sockets == old(sockets)[i := RelayRoom.Close(old(sockets)[i])]
    {
      sockets := sockets[i := RelayRoom.Close(sockets[i])];
    }

    /** The open desktop of an id: the first among the sockets with its tag. */
    method DesktopOf(desktopId: string) returns (d: nat)
      ensures d == FindDesktop(sockets, desktopId)
    {
      d := 0;
      while d < |sockets| && !ServesOpen(sockets[d], desktopId)
        invariant d <= |sockets|
        invariant FindDesktop(sockets, desktopId, d) == FindDesktop(sockets, desktopId)
      {
        d := d + 1;
      }
    }

    method DeviceOn(channel: string) returns (v: nat)
      ensures v == FindDevice(sockets, channel)
    {
      v := 0;
      while v < |sockets| && !CarriesOpen(sockets[v], channel)
        invariant v <= |sockets|
        invariant FindDevice(sockets, channel, v) == FindDevice(sockets, channel)
      {
        v := v + 1;
      }
    }

    method CountRole(desktops: bool) returns (n: nat)
      ensures n == CountListed(sockets, desktops)
    {
      n := 0;
      for i := 0 to |sockets|
        invariant n == CountListed(sockets[..i], desktops)
      {
        assert sockets[..i + 1][..i] == sockets[..i];
        if Listed(sockets[i]) && sockets[i].role.Desktop? == desktops {
          n := n + 1;
        }
      }
      assert sockets[..|sockets|] == sockets;
    }

    method OpenDevice(v: nat, d: nat)
      requires v < |sockets| && d < |sockets| && sockets[v].role.Device? && sockets[d].role.Desktop?
      modifies this`sockets
      ensures sockets == RelayRoom.OpenDevice(old(sockets), v, d)
    {
      var sent := SendTo(d, Mux(OpenFrame(sockets[v])));
      if !sent {
        CloseSocket(d);
        var _ := SendTo(v, Note(Waiting));
        return;
      }
      sockets := sockets[d := sockets[d].(openedAt := sockets[d].openedAt[sockets[v].channel := |sockets[v].accepted|])];
      var _ := SendTo(v, Note(DeviceReady));
    }

    /** Closes the sockets that socket n replaces. */
    method CloseReplaced(n: nat)
      requires n < |sockets|
      modifies this`sockets
      ensures sockets == CloseOthers(old(sockets), n)
    {
      ghost var before := sockets;
      for i := 0 to |sockets|
        invariant |sockets| == |before|
        invariant forall j | 0 <= j < i :: sockets[j] == CloseOthers(before, n)[j]
        invariant forall j | i <= j < |before| :: sockets[j] == before[j]
        invariant sockets[n] == before[n]
      {
        if i != n && SameSeat(sockets[n].role, sockets[i].role) {
          CloseSocket(i);
        }
      }
    }

    /** Announces every listed device of desktop n to it. */
    method OpenDevices(n: nat)
      requires n < |sockets| && sockets[n].role.Desktop?
      modifies this`sockets
      ensures sockets == OpenAll(old(sockets), 0, n)
    {
      ghost var before := sockets;
      for i := 0 to |sockets|
        invariant |sockets| == |before| && sockets[n].role == before[n].role
        invariant OpenAll(sockets, i, n) == OpenAll(before, 0, n)
      {
        if Targets(sockets[i], sockets[n].role.desktopId) {
          OpenDevice(i, n);
        }
      }
    }

    /** Tells the listed devices of an id to wait, unless the id has an open desktop
        other than the closing socket i. */
    method TellDevices(i: nat, desktop: nat)
      requires i < |sockets| && sockets[i].role.Desktop?
      modifies this`sockets
      ensures sockets == if desktop == |old(sockets)| || desktop == i
                         then TellWaiting(old(sockets), old(sockets)[i].role.desktopId) else old(sockets)
    {
      var id := sockets[i].role.desktopId;
      ghost var before := sockets;
      ghost var told := if desktop == |before| || desktop == i then TellWaiting(before, id) else before;
      for v := 0 to |sockets|
        invariant |sockets| == |before|
        invariant forall j | 0 <= j < v :: sockets[j] == told[j]
        invariant forall j | v <= j < |before| :: sockets[j] == before[j]
      {
        if Targets(sockets[v], id) && (desktop == |sockets| || desktop == i) {
          var _ := SendTo(v, Note(Waiting));
        }
      }
    }

    /** The rest of #connect once the ticket was consumed. */
    method Connect(ticket: string, channel: string, faulty: bool) returns (ok: bool)
      requires Enabled(State(), AcceptSocket(ticket, channel, faulty))
      modifies this
      ensures State() == Step(old(State()), AcceptSocket(ticket, channel, faulty))
      ensures ok <==> !Refused(old(sockets), old(claimed)[ticket])
    {
      var role := claimed[ticket];
      claimed := claimed - {ticket};
      var desktops := CountRole(true);
      var devices := CountRole(false);
      var replacing := exists i | 0 <= i < |sockets| :: Listed(sockets[i]) && SameSeat(role, sockets[i].role);
      if !replacing && ((role.Desktop? && desktops >= MAX_DESKTOPS_PER_ACCOUNT)
                        || (role.Device? && devices >= MAX_DEVICES_PER_ACCOUNT)) {
        return false;
      }
      var n := |sockets|;
      sockets := sockets + [Fresh(ticket, role, channel, faulty)];
      CloseReplaced(n);
      GreetSocket(n);
      return true;
    }

    /** The notes and channel openings that follow an accepted socket. */
    method GreetSocket(n: nat)
      requires n < |sockets|
      modifies this`sockets
      ensures sockets == Greet(old(sockets), n)
    {
      if sockets[n].role.Desktop? {
        var _ := SendTo(n, Note(DesktopReady));
        OpenDevices(n);
      } else {
        var d := DesktopOf(sockets[n].role.desktopId);
        if d < |sockets| {
          OpenDevice(n, d);
        } else {
          var _ := SendTo(n, Note(Waiting));
        }
      }
    }

    method WebSocketMessage(i: nat, m: Inbound)
      requires Enabled(State(), Deliver(i, m))
      modifies this`sockets
      ensures State() == Step(old(State()), Deliver(i, m))
    {
      if m.Text? {
        if m.ping {
          var _ := SendTo(i, Note(Pong));
        } else {
          CloseSocket(i);
        }
        return;
      }
      var bytes := m.bytes;
      if |bytes| < 1 || |bytes| > MaxInbound(sockets[i].role) {
        CloseSocket(i);
        return;
      }
      if sockets[i].role.Device? {
        var desktop := DesktopOf(sockets[i].role.desktopId);
        sockets := sockets[i := sockets[i].(accepted := sockets[i].accepted + [bytes])];
        if desktop == |sockets| {
          var _ := SendTo(i, Note(Waiting));
          return;
        }
        var sent := SendTo(desktop, Mux(Frame(MUX_DATA, sockets[i].channel, bytes)));
        if !sent {
          CloseSocket(desktop);
          var _ := SendTo(i, Note(Waiting));
        }
        assert sockets == FromDevice(old(sockets), i, bytes);
        return;
      }
      var decoded := Decode(bytes);
      if decoded.None? || (decoded.value.kind != MUX_DATA && decoded.value.kind != MUX_CLOSE) {
        CloseSocket(i);
        return;
      }
      var frame := decoded.value;
      var device := DeviceOn(frame.channel);
      if device == |sockets| || sockets[device].role.desktopId != sockets[i].role.desktopId {
        return;
      }
      if frame.kind == MUX_CLOSE {
        CloseSocket(device);
      } else {
        var sent := SendTo(device, Raw(frame.payload));
        if !sent {
          CloseSocket(device);
        }
      }
    }

    /** The handler of a socket's close or error event; then the socket is unlisted. */
    method HandleClosed(i: nat)
      requires Enabled(State(), CloseEvent(i))
      modifies this`sockets
      ensures State() == Step(old(State()), CloseEvent(i))
    {
      var id := sockets[i].role.desktopId;
      var desktop := DesktopOf(id);
      if sockets[i].role.Desktop? {
        TellDevices(i, desktop);
      } else if desktop < |sockets| {
        var _ := SendTo(desktop, Mux(Frame(MUX_CLOSE, sockets[i].channel, [])));
      }
      sockets := sockets[i := sockets[i].(phase := Gone)];
    }
  }
}
