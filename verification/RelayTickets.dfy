/** Tickets: used once, in time, for the role they were issued for, and few. */
module RelayTickets {
  import opened RelayRoom
  import opened RelaySeats

  type Records = map<string, TicketRecord>
  type Issuances = map<string, Issuance>

  /** Stored tickets are as issued, and not redeemed yet. */
  ghost predicate StoreOk(tickets: Records, issued: Issuances, redeemedAt: map<string, int>) {
    && (forall t | t in tickets :: t in issued && t !in redeemedAt
          && tickets[t] == TicketRecord(issued[t].role, issued[t].at + TICKET_TTL_MS))
    && |tickets.Keys| <= MAX_ACTIVE_TICKETS
  }

  predicate ShortIds(role: Role) {
    |role.desktopId| <= 160 && (role.Device? ==> |role.deviceId| <= 160)
  }

  /** Redeemed tickets were issued less than 60 seconds before. */
  ghost predicate RedeemedOk(issued: Issuances, redeemedAt: map<string, int>) {
    && (forall t | t in issued :: ShortIds(issued[t].role))
    && (forall t | t in redeemedAt :: t in issued && redeemedAt[t] < issued[t].at + TICKET_TTL_MS)
  }

  /** Claims are redeemed tickets with the role that was issued. */
  ghost predicate ClaimsOk(claimed: map<string, Role>, issued: Issuances, redeemedAt: map<string, int>) {
    forall t | t in claimed :: t in redeemedAt && t in issued && claimed[t] == issued[t].role
  }

  /** Each socket has a redeemed ticket of its own, and the role that was issued. */
  ghost predicate BearersOk(ks: seq<Socket>, claimed: map<string, Role>, issued: Issuances, redeemedAt: map<string, int>) {
    && (forall i | 0 <= i < |ks| ::
          ks[i].ticket in redeemedAt && ks[i].ticket !in claimed && ks[i].ticket in issued
          && ks[i].role == issued[ks[i].ticket].role)
    && (forall i, j | 0 <= i < j < |ks| :: ks[i].ticket != ks[j].ticket)
  }

  ghost predicate Tickets(r: Room) {
    && StoreOk(r.tickets, r.issued, r.redeemedAt)
    && RedeemedOk(r.issued, r.redeemedAt)
    && ClaimsOk(r.claimed, r.issued, r.redeemedAt)
    && BearersOk(r.sockets, r.claimed, r.issued, r.redeemedAt)
  }

  lemma FullListing(listing: map<string, TicketRecord>, tickets: map<string, TicketRecord>, limit: nat)
    requires IsListing(listing, tickets, limit) && |tickets.Keys| <= limit
    ensures listing == tickets
  {
    SubsetOfSameSize(listing.Keys, tickets.Keys);
  }

  lemma {:induction false} SubsetOfSameSize(a: set<string>, b: set<string>)
    requires a <= b && |a| == |b|
    ensures a == b
  {
    if b != {} {
      var x :| x in b;
      if x !in a {
        Fewer(a, b - {x});
      } else {
        SubsetOfSameSize(a - {x}, b - {x});
      }
    }
  }

  /** The store never holds more than 64 tickets, because the sweep sees them all. */
  lemma IssueKeepsTickets(r: Room, role: Role, ticket: string, now: int, listing: Records)
    requires Tickets(r) && Enabled(r, IssueTicket(role, ticket, now, listing))
    ensures Tickets(Issue(r, role, ticket, now, listing))
  {
    FullListing(listing, r.tickets, MAX_ACTIVE_TICKETS);
    var swept := r.tickets - Stale(listing, now);
    Fewer(swept.Keys, r.tickets.Keys);
    assert Tickets(r.(tickets := swept));
    if ActiveTickets(listing, now) < MAX_ACTIVE_TICKETS {
      StoreTicket(r.(tickets := swept), role, ticket, now);
    }
  }

  lemma StoreTicket(r: Room, role: Role, ticket: string, now: int)
    requires Tickets(r) && ticket !in r.issued && ShortIds(role) && |r.tickets.Keys| < MAX_ACTIVE_TICKETS
    ensures Tickets(r.(tickets := r.tickets[ticket := TicketRecord(role, now + TICKET_TTL_MS)],
                       issued := r.issued[ticket := Issuance(role, now)]))
  {
    var record := TicketRecord(role, now + TICKET_TTL_MS);
    var issued := r.issued[ticket := Issuance(role, now)];
    assert ticket !in r.redeemedAt && ticket !in r.claimed;
    assert StoreOk(r.tickets[ticket := record], issued, r.redeemedAt);
    assert RedeemedOk(issued, r.redeemedAt);
    assert BearersOk(r.sockets, r.claimed, issued, r.redeemedAt);
  }

  // ---- why the sweep must list as many tickets as may be stored

  /** Tickets issued one after the other, each after a sweep that lists at most limit. */
  ghost predicate IsIssueRun(rooms: seq<Room>, events: seq<Event>, limit: nat) {
    && |rooms| == |events| + 1
    && rooms[0] == EmptyRoom
    && forall k | 0 <= k < |events| :: IsIssue(rooms[k], events[k], limit) && rooms[k + 1] == IssueOf(rooms[k], events[k])
  }

  predicate IsIssue(r: Room, e: Event, limit: nat) {
    e.IssueTicket? && ValidRole(e.role) && e.ticket !in r.issued && IsListing(e.listing, r.tickets, limit)
  }

  function IssueOf(r: Room, e: Event): Room
    requires e.IssueTicket?
  {
    Issue(r, e.role, e.ticket, e.now, e.listing)
  }

  lemma StoreSize(tickets: Records, ticket: string, record: TicketRecord)
    ensures |tickets[ticket := record].Keys| == |tickets.Keys| + if ticket in tickets then 0 else 1
  {
    assert tickets[ticket := record].Keys == tickets.Keys + {ticket};
  }

  lemma SweptSize(tickets: Records, stale: set<string>)
    requires stale <= tickets.Keys
    ensures |(tickets - stale).Keys| == |tickets.Keys| - |stale|
  {
    assert (tickets - stale).Keys == tickets.Keys - stale;
  }

  lemma IssueStaysWithin(r: Room, e: Event, limit: nat)
    requires IsIssue(r, e, limit) && |r.tickets.Keys| <= MAX_ACTIVE_TICKETS <= limit
    ensures |IssueOf(r, e).tickets.Keys| <= MAX_ACTIVE_TICKETS
  {
    FullListing(e.listing, r.tickets, limit);
    SweptSize(r.tickets, Stale(r.tickets, e.now));
    StoreSize(r.tickets - Stale(r.tickets, e.now), e.ticket, TicketRecord(e.role, e.now + TICKET_TTL_MS));
  }

  lemma {:induction false} IssueRunStaysWithin(rooms: seq<Room>, events: seq<Event>, limit: nat, k: nat)
    requires IsIssueRun(rooms, events, limit) && limit >= MAX_ACTIVE_TICKETS && k <= |events|
    ensures |rooms[k].tickets.Keys| <= MAX_ACTIVE_TICKETS
  {
    if k > 0 {
      IssueRunStaysWithin(rooms, events, limit, k - 1);
      IssueStaysWithin(rooms[k - 1], events[k - 1], limit);
    }
  }

  const Phone := Device("p", "d")

  function Name(n: nat): (s: string)
    ensures |s| == n
  {
    seq(n, _ => 't')
  }

  /** The room after n tickets issued at time 0. */
  function Filled(n: nat): Room {
    if n == 0 then EmptyRoom
    else
      var r := Filled(n - 1);
      r.(tickets := r.tickets[Name(n - 1) := TicketRecord(Phone, TICKET_TTL_MS)],
         issued := r.issued[Name(n - 1) := Issuance(Phone, 0)])
  }

  lemma {:induction false} FilledHas(n: nat)
    ensures |Filled(n).tickets.Keys| == n && Filled(n).issued.Keys == Filled(n).tickets.Keys
    ensures forall t | t in Filled(n).tickets :: |t| < n && Filled(n).tickets[t] == TicketRecord(Phone, TICKET_TTL_MS)
  {
    if n > 0 {
      FilledHas(n - 1);
      assert Name(n - 1) !in Filled(n - 1).tickets;
      StoreSize(Filled(n - 1).tickets, Name(n - 1), TicketRecord(Phone, TICKET_TTL_MS));
    }
  }

  lemma {:induction false} FilledGrows(k: nat, n: nat)
    requires k <= n
    ensures Filled(k).tickets.Keys <= Filled(n).tickets.Keys
  {
    if k < n {
      FilledGrows(k, n - 1);
    }
  }

  function FilledEvent(n: nat, limit: nat): Event {
    IssueTicket(Phone, Name(n), 0, Filled(if n <= limit then n else limit).tickets)
  }

  lemma FilledIssues(n: nat, limit: nat)
    ensures IsIssue(Filled(n), FilledEvent(n, limit), limit)
  {
    var k := if n <= limit then n else limit;
    FilledHas(n);
    FilledHas(k);
    FilledGrows(k, n);
  }

  lemma FilledStep(n: nat, limit: nat)
    requires limit < MAX_ACTIVE_TICKETS
    ensures IssueOf(Filled(n), FilledEvent(n, limit)) == Filled(n + 1)
  {
    var k := if n <= limit then n else limit;
    FilledHas(k);
    assert Stale(Filled(k).tickets, 0) == {};
    assert Filled(n).tickets - {} == Filled(n).tickets;
  }

  /** With a sweep that lists fewer tickets than the cap, any number can be stored. */
  lemma ShorterSweepOverfills(limit: nat, n: nat)
    requires limit < MAX_ACTIVE_TICKETS
    ensures exists rooms: seq<Room>, events: seq<Event> ::
              IsIssueRun(rooms, events, limit) && |events| == n && |rooms[n].tickets.Keys| == n
  {
    var rooms := seq(n + 1, k requires 0 <= k => Filled(k));
    var events := seq(n, k requires 0 <= k => FilledEvent(k, limit));
    forall k | 0 <= k < n ensures IsIssue(rooms[k], events[k], limit) && rooms[k + 1] == IssueOf(rooms[k], events[k]) {
      FilledIssues(k, limit);
      FilledStep(k, limit);
    }
    FilledHas(n);
    assert IsIssueRun(rooms, events, limit) && rooms[n] == Filled(n);
  }

  /** The cap of 64 holds in every run exactly if the sweep may list that many. */
  lemma SweepLimitDecides(limit: nat)
    ensures (forall rooms: seq<Room>, events: seq<Event> | IsIssueRun(rooms, events, limit) ::
               |rooms[|events|].tickets.Keys| <= MAX_ACTIVE_TICKETS) <==> limit >= MAX_ACTIVE_TICKETS
  {
    if limit >= MAX_ACTIVE_TICKETS {
      forall rooms: seq<Room>, events: seq<Event> | IsIssueRun(rooms, events, limit)
        ensures |rooms[|events|].tickets.Keys| <= MAX_ACTIVE_TICKETS
      {
        IssueRunStaysWithin(rooms, events, limit, |events|);
      }
    } else {
      ShorterSweepOverfills(limit, MAX_ACTIVE_TICKETS + 1);
    }
  }

  lemma ConsumeKeepsTickets(r: Room, ticket: string, now: int)
    requires Tickets(r)
    ensures Tickets(Consume(r, ticket, now))
  {
    if ticket in r.tickets {
      var record := r.tickets[ticket];
      var left := r.tickets - {ticket};
      Fewer(left.Keys, r.tickets.Keys);
      assert StoreOk(left, r.issued, r.redeemedAt);
      if record.expiresAt > now {
        var redeemedAt := r.redeemedAt[ticket := now];
        assert StoreOk(left, r.issued, redeemedAt);
        assert RedeemedOk(r.issued, redeemedAt);
        assert BearersOk(r.sockets, r.claimed[ticket := record.role], r.issued, redeemedAt) by {
          assert forall i | 0 <= i < |r.sockets| :: r.sockets[i].ticket != ticket;
        }
      }
    }
  }

  /** Handlers change neither the ticket nor the role of a socket. */
  ghost predicate SameBearers(ks: seq<Socket>, ks2: seq<Socket>) {
    |ks2| == |ks| && forall i | 0 <= i < |ks| :: ks2[i].ticket == ks[i].ticket && ks2[i].role == ks[i].role
  }

  lemma BearersKeepTickets(r: Room, ks2: seq<Socket>)
    requires Tickets(r) && SameBearers(r.sockets, ks2)
    ensures Tickets(r.(sockets := ks2))
  {
    forall i | 0 <= i < |ks2| ensures ks2[i].ticket == r.sockets[i].ticket && ks2[i].role == r.sockets[i].role {
    }
  }

  lemma OpenNextBearers(ks: seq<Socket>, n: nat, d: nat)
    requires n < |ks| && d < |ks| && ks[d].role.Desktop?
    ensures SameBearers(ks, OpenNext(ks, n, d))
  {
  }

  lemma {:induction false} OpenAllBearers(ks: seq<Socket>, n: nat, d: nat)
    requires n <= |ks| && d < |ks| && ks[d].role.Desktop?
    ensures SameBearers(ks, OpenAll(ks, n, d))
    decreases |ks| - n
  {
    if n < |ks| {
      OpenNextBearers(ks, n, d);
      OpenAllBearers(OpenNext(ks, n, d), n + 1, d);
    }
  }

  lemma GreetBearers(ks: seq<Socket>, n: nat)
    requires n < |ks|
    ensures SameBearers(ks, Greet(ks, n))
  {
    if ks[n].role.Desktop? {
      OpenAllBearers(ks[n := Send(ks[n], Note(DesktopReady))], 0, n);
    }
  }

  lemma EnteringBearers(r: Room, ticket: string, channel: string, faulty: bool)
    requires Tickets(r) && ticket in r.claimed
    ensures Tickets(r.(claimed := r.claimed - {ticket},
                       sockets := r.sockets + [Fresh(ticket, r.claimed[ticket], channel, faulty)]))
  {
    var claimed := r.claimed - {ticket};
    var entered := r.sockets + [Fresh(ticket, r.claimed[ticket], channel, faulty)];
    assert ClaimsOk(claimed, r.issued, r.redeemedAt);
    assert forall i | 0 <= i < |r.sockets| :: entered[i] == r.sockets[i] && entered[i].ticket != ticket;
    assert BearersOk(entered, claimed, r.issued, r.redeemedAt);
  }

  lemma AcceptKeepsTickets(r: Room, ticket: string, channel: string, faulty: bool)
    requires Tickets(r) && ticket in r.claimed
    ensures Tickets(Accept(r, ticket, channel, faulty))
  {
    var role := r.claimed[ticket];
    var claimed := r.claimed - {ticket};
    if Refused(r.sockets, role) {
      assert ClaimsOk(claimed, r.issued, r.redeemedAt) && BearersOk(r.sockets, claimed, r.issued, r.redeemedAt);
    } else {
      var entered := r.sockets + [Fresh(ticket, role, channel, faulty)];
      EnteringBearers(r, ticket, channel, faulty);
      GreetBearers(CloseOthers(entered, |r.sockets|), |r.sockets|);
      BearersKeepTickets(r.(claimed := claimed, sockets := entered), Greet(CloseOthers(entered, |r.sockets|), |r.sockets|));
    }
  }
}
