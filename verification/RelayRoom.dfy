/** The relay room's state and its handlers, as functions from state to state.
    A socket stays in the list after it has begun to close; it is unlisted (Gone)
    when its one close event has been handled. */
module RelayRoom {
  import opened Options
  import opened MuxFrame

  const MAX_BUFFERED_BYTES := 4 * 1024 * 1024
  const MAX_DESKTOPS_PER_ACCOUNT := 8
  const MAX_DEVICES_PER_ACCOUNT := 16
  const MAX_ACTIVE_TICKETS := 64
  const TICKET_TTL_MS := 60_000

  datatype Role =
    | Desktop(desktopId: string)
    | Device(deviceId: string, desktopId: string)

  datatype Control = DesktopReady | DeviceReady | Waiting | Pong

  /** What the relay hands to socket.send. */
  datatype Message = Note(control: Control) | Mux(frame: Frame) | Raw(payload: Bytes)

  datatype Phase = Open | Closing | Gone

  /** A server socket. The fields from sent on are its history: everything sent to
      it, the well-sized payloads taken from it, for each channel opened on it the
      number of payloads its device had sent by then, and whether a ready or
      waiting note to it was ever dropped. */
  datatype Socket = Socket(
    ticket: string, role: Role, channel: string, phase: Phase, buffered: nat, faulty: bool,
    sent: seq<Message>, accepted: seq<Bytes>, openedAt: map<string, nat>, missedNote: bool)

  datatype TicketRecord = TicketRecord(role: Role, expiresAt: int)

  datatype Issuance = Issuance(role: Role, at: int)

  /** tickets is the room's storage and sockets its sockets, oldest first. claimed
      holds the roles between consuming a ticket and accepting its socket. issued
      and redeemedAt are history. */
  datatype Room = Room(
    tickets: map<string, TicketRecord>, claimed: map<string, Role>, sockets: seq<Socket>,
    issued: map<string, Issuance>, redeemedAt: map<string, int>)

  const EmptyRoom := Room(map[], map[], [], map[], map[])

  // ---- ticket requests

  predicate IsIdentifierChar(c: char) {
    IsChannelPoint(c as int) || c == '.' || c == ':' || c == '@'
  }

  /** 1 to 160 characters, the first a letter or a digit. */
  predicate IsIdentifier(s: string) {
    && 1 <= |s| <= 160
    && (forall i | 0 <= i < |s| :: IsIdentifierChar(s[i]))
    && IsChannelPoint(s[0] as int) && s[0] != '_' && s[0] != '-'
  }

  predicate ValidRole(role: Role) {
    IsIdentifier(role.desktopId) && (role.Device? ==> IsIdentifier(role.deviceId))
  }

  // ---- sending and closing

  /** Bytes of the control note's JSON text. */
  function NoteSize(c: Control): nat {
    match c
    case DesktopReady => 30
    case DeviceReady => 22
    case Waiting => 24
    case Pong => 21
  }

  function Size(m: Message): nat {
    match m
    case Note(c) => NoteSize(c)
    case Mux(f) => 3 + |f.channel| + |f.payload|
    case Raw(p) => |p|
  }

  predicate CanSend(k: Socket, m: Message) {
    k.phase.Open? && !k.faulty && k.buffered + Size(m) <= MAX_BUFFERED_BYTES
  }

  function Send(k: Socket, m: Message): Socket {
    if CanSend(k, m) then k.(sent := k.sent + [m], buffered := k.buffered + Size(m))
    else if m == Note(DeviceReady) || m == Note(Waiting) then k.(missedNote := true)
    else k
  }

  function Close(k: Socket): Socket {
    if k.phase.Open? then k.(phase := Closing) else k
  }

  // ---- looking sockets up

  predicate Listed(k: Socket) {
    !k.phase.Gone?
  }

  /** Two sockets that carry the same desktop tag, or the same device tag. */
  predicate SameSeat(a: Role, b: Role) {
    match a
    case Desktop(id) => b.Desktop? && b.desktopId == id
    case Device(id, _) => b.Device? && b.deviceId == id
  }

  predicate Targets(k: Socket, desktopId: string) {
    Listed(k) && k.role.Device? && k.role.desktopId == desktopId
  }

  predicate ServesOpen(k: Socket, desktopId: string) {
    k.role.Desktop? && k.phase.Open? && k.role.desktopId == desktopId
  }

  /** The first open desktop with the id, or |ks|. */
  function FindDesktop(ks: seq<Socket>, desktopId: string, from: nat := 0): (d: nat)
    requires from <= |ks|
    ensures from <= d <= |ks|
    ensures d < |ks| ==> ServesOpen(ks[d], desktopId)
    ensures forall i | from <= i < d :: !ServesOpen(ks[i], desktopId)
    decreases |ks| - from
  {
    if from == |ks| || ServesOpen(ks[from], desktopId) then from
    else FindDesktop(ks, desktopId, from + 1)
  }

  predicate CarriesOpen(k: Socket, channel: string) {
    k.role.Device? && k.phase.Open? && k.channel == channel
  }

  /** The first open device on the channel, or |ks|. */
  function FindDevice(ks: seq<Socket>, channel: string, from: nat := 0): (v: nat)
    requires from <= |ks|
    ensures from <= v <= |ks|
    ensures v < |ks| ==> CarriesOpen(ks[v], channel)
    ensures forall i | from <= i < v :: !CarriesOpen(ks[i], channel)
    decreases |ks| - from
  {
    if from == |ks| || CarriesOpen(ks[from], channel) then from
    else FindDevice(ks, channel, from + 1)
  }

  function CountListed(ks: seq<Socket>, desktops: bool): (n: nat)
    ensures n <= |ks|
  {
    if |ks| == 0 then 0
    else CountListed(ks[..|ks| - 1], desktops)
         + (if Listed(Last(ks)) && Last(ks).role.Desktop? == desktops then 1 else 0)
  }

  function Last(ks: seq<Socket>): Socket
    requires |ks| > 0
  {
    ks[|ks| - 1]
  }

  // ---- opening channels

  /** The OPEN frame's payload: the JSON text that names the device, whose id is
      ASCII and needs no escape. */
  function OpenDetails(deviceId: string): Bytes {
    var text := "{\"deviceId\":\"" + deviceId + "\"}";
    seq(|text|, i requires 0 <= i < |text| => text[i] as int % 256)
  }

  function OpenFrame(v: Socket): Frame
    requires v.role.Device?
  {
    Frame(MUX_OPEN, v.channel, OpenDetails(v.role.deviceId))
  }

  /** Announces device v to desktop d: ready when it fits, else d is closed as a
      slow consumer and v waits. */
  function OpenDevice(ks: seq<Socket>, v: nat, d: nat): (r: seq<Socket>)
    requires v < |ks| && d < |ks| && ks[v].role.Device? && ks[d].role.Desktop?
    ensures |r| == |ks|
  {
    var open := Mux(OpenFrame(ks[v]));
    if CanSend(ks[d], open) then
      ks[d := Send(ks[d], open).(openedAt := ks[d].openedAt[ks[v].channel := |ks[v].accepted|])]
        [v := Send(ks[v], Note(DeviceReady))]
    else
      ks[d := Close(ks[d])][v := Send(ks[v], Note(Waiting))]
  }

  /** OpenDevice for every listed device, from index n on, that targets desktop d. */
  function OpenAll(ks: seq<Socket>, n: nat, d: nat): (r: seq<Socket>)
    requires n <= |ks| && d < |ks| && ks[d].role.Desktop?
    ensures |r| == |ks|
    decreases |ks| - n
  {
    if n == |ks| then ks
    else OpenAll(OpenNext(ks, n, d), n + 1, d)
  }

  function OpenNext(ks: seq<Socket>, n: nat, d: nat): (r: seq<Socket>)
    requires n < |ks| && d < |ks| && ks[d].role.Desktop?
    ensures |r| == |ks| && r[d].role == ks[d].role
  {
    if Targets(ks[n], ks[d].role.desktopId) then OpenDevice(ks, n, d) else ks
  }

  // ---- tickets

  function Stale(listing: map<string, TicketRecord>, now: int): set<string> {
    set t | t in listing && listing[t].expiresAt <= now
  }

  /** A storage listing with a limit returns that many records, or all of them. */
  predicate IsListing(listing: map<string, TicketRecord>, tickets: map<string, TicketRecord>, limit: nat) {
    && listing.Keys <= tickets.Keys
    && (forall t | t in listing :: listing[t] == tickets[t])
    && |listing.Keys| == if |tickets.Keys| <= limit then |tickets.Keys| else limit
  }

  /** Tickets left after the sweep, as the sweep counts them. */
  function ActiveTickets(listing: map<string, TicketRecord>, now: int): int {
    |listing.Keys| - |Stale(listing, now)|
  }

  function Issue(r: Room, role: Role, ticket: string, now: int, listing: map<string, TicketRecord>): Room {
    var swept := r.(tickets := r.tickets - Stale(listing, now));
    if ActiveTickets(listing, now) >= MAX_ACTIVE_TICKETS then swept
    else
      swept.(tickets := swept.tickets[ticket := TicketRecord(role, now + TICKET_TTL_MS)],
             issued := r.issued[ticket := Issuance(role, now)])
  }

  function Consume(r: Room, ticket: string, now: int): Room {
    if ticket !in r.tickets then r
    else
      var record := r.tickets[ticket];
      var spent := r.(tickets := r.tickets - {ticket});
      if record.expiresAt <= now then spent
      else spent.(claimed := r.claimed[ticket := record.role], redeemedAt := r.redeemedAt[ticket := now])
  }

  // ---- accepting a socket

  predicate Replaces(ks: seq<Socket>, role: Role) {
    exists i | 0 <= i < |ks| :: Listed(ks[i]) && SameSeat(role, ks[i].role)
  }

  predicate Refused(ks: seq<Socket>, role: Role) {
    && !Replaces(ks, role)
    && (role.Desktop? ==> CountListed(ks, true) >= MAX_DESKTOPS_PER_ACCOUNT)
    && (role.Device? ==> CountListed(ks, false) >= MAX_DEVICES_PER_ACCOUNT)
  }

  function Fresh(ticket: string, role: Role, channel: string, faulty: bool): Socket {
    Socket(ticket, role, if role.Desktop? then "" else channel, Open, 0, faulty, [], [], map[], false)
  }

  /** Closes every other listed socket in the seat of socket n. */
  function CloseOthers(ks: seq<Socket>, n: nat): (r: seq<Socket>)
    requires n < |ks|
    ensures |r| == |ks|
  {
    seq(|ks|, i requires 0 <= i < |ks| =>
      if i != n && SameSeat(ks[n].role, ks[i].role) then Close(ks[i]) else ks[i])
  }

  /** What the accepted socket n is told, and for a desktop its devices. */
  function Greet(ks: seq<Socket>, n: nat): (r: seq<Socket>)
    requires n < |ks|
    ensures |r| == |ks|
  {
    if ks[n].role.Desktop? then
      OpenAll(ks[n := Send(ks[n], Note(DesktopReady))], 0, n)
    else
      var d := FindDesktop(ks, ks[n].role.desktopId);
      if d < |ks| then OpenDevice(ks, n, d) else ks[n := Send(ks[n], Note(Waiting))]
  }

  function Accept(r: Room, ticket: string, channel: string, faulty: bool): Room
    requires ticket in r.claimed
  {
    var role := r.claimed[ticket];
    var unclaimed := r.(claimed := r.claimed - {ticket});
    if Refused(r.sockets, role) then unclaimed
    else
      var n := |r.sockets|;
      unclaimed.(sockets := Greet(CloseOthers(r.sockets + [Fresh(ticket, role, channel, faulty)], n), n))
  }

  // ---- messages

  datatype Inbound = Text(ping: bool) | Binary(bytes: Bytes)

  function MaxInbound(role: Role): nat {
    if role.Device? then MAX_RELAY_DEVICE_PAYLOAD_BYTES else MAX_RELAY_MESSAGE_BYTES
  }

  function FromDevice(ks: seq<Socket>, v: nat, payload: Bytes): (r: seq<Socket>)
    requires v < |ks| && ks[v].role.Device?
    ensures |r| == |ks|
  {
    var d := FindDesktop(ks, ks[v].role.desktopId);
    var taken := ks[v].(accepted := ks[v].accepted + [payload]);
    if d == |ks| then ks[v := Send(taken, Note(Waiting))]
    else
      var data := Mux(Frame(MUX_DATA, ks[v].channel, payload));
      if CanSend(ks[d], data) then ks[d := Send(ks[d], data)][v := taken]
      else ks[d := Close(ks[d])][v := Send(taken, Note(Waiting))]
  }

  function FromDesktop(ks: seq<Socket>, d: nat, bytes: Bytes): (r: seq<Socket>)
    requires d < |ks| && ks[d].role.Desktop?
    ensures |r| == |ks|
  {
    match Decode(bytes)
    case None => ks[d := Close(ks[d])]
    case Some(frame) =>
      if frame.kind != MUX_DATA && frame.kind != MUX_CLOSE then ks[d := Close(ks[d])]
      else
        var v := FindDevice(ks, frame.channel);
        if v == |ks| || ks[v].role.desktopId != ks[d].role.desktopId then ks
        else if frame.kind == MUX_CLOSE then ks[v := Close(ks[v])]
        else if CanSend(ks[v], Raw(frame.payload)) then ks[v := Send(ks[v], Raw(frame.payload))]
        else ks[v := Close(ks[v])]
  }

  function Receive(ks: seq<Socket>, i: nat, m: Inbound): (r: seq<Socket>)
    requires i < |ks|
    ensures |r| == |ks|
  {
    match m
    case Text(ping) => ks[i := if ping then Send(ks[i], Note(Pong)) else Close(ks[i])]
    case Binary(bytes) =>
      if |bytes| < 1 || |bytes| > MaxInbound(ks[i].role) then ks[i := Close(ks[i])]
      else if ks[i].role.Device? then FromDevice(ks, i, bytes)
      else FromDesktop(ks, i, bytes)
  }

  // ---- close events

  /** A waiting note to every listed device of the desktop id. */
  function TellWaiting(ks: seq<Socket>, desktopId: string): (r: seq<Socket>)
    ensures |r| == |ks|
  {
    seq(|ks|, i requires 0 <= i < |ks| =>
      if Targets(ks[i], desktopId) then Send(ks[i], Note(Waiting)) else ks[i])
  }

  function OnClosed(ks: seq<Socket>, i: nat): (r: seq<Socket>)
    requires i < |ks|
    ensures |r| == |ks|
  {
    var d := FindDesktop(ks, ks[i].role.desktopId);
    if ks[i].role.Desktop? then
      if d == |ks| || d == i then TellWaiting(ks, ks[i].role.desktopId) else ks
    else if d < |ks| then ks[d := Send(ks[d], Mux(Frame(MUX_CLOSE, ks[i].channel, [])))]
    else ks
  }

  /** The handler runs while the socket is still listed; then it is gone. */
  function HandleClosed(ks: seq<Socket>, i: nat): (r: seq<Socket>)
    requires i < |ks|
    ensures |r| == |ks|
  {
    var told := OnClosed(ks, i);
    told[i := told[i].(phase := Gone)]
  }

  // ---- runs

  /** The last three events are the runtime's: a peer starts closing, a buffer
      drains, a socket starts or stops throwing from send. */
  datatype Event =
    | IssueTicket(role: Role, ticket: string, now: int, listing: map<string, TicketRecord>)
    | ConsumeTicket(ticket: string, now: int)
    | AcceptSocket(ticket: string, channel: string, faulty: bool)
    | Deliver(socket: nat, message: Inbound)
    | CloseEvent(socket: nat)
    | PeerCloses(socket: nat)
    | Drain(socket: nat, buffered: nat)
    | Fault(socket: nat, faulty: bool)

  predicate Usable(r: Room, i: nat) {
    i < |r.sockets| && Listed(r.sockets[i])
  }

  /** A malformed ticket request changes nothing, so events carry valid roles.
      Tickets and channel ids are fresh random tokens; the runtime delivers only to
      listed sockets, and one close event for each. */
  ghost predicate Enabled(r: Room, e: Event) {
    match e
    case IssueTicket(role, ticket, _, listing) =>
      ValidRole(role) && ticket !in r.issued && IsListing(listing, r.tickets, MAX_ACTIVE_TICKETS)
    case ConsumeTicket(_, _) => true
    case AcceptSocket(ticket, channel, _) =>
      && ticket in r.claimed
      && IsChannel(channel)
      && forall i | 0 <= i < |r.sockets| :: r.sockets[i].channel != channel
    case Drain(i, buffered) => Usable(r, i) && buffered <= r.sockets[i].buffered
    case _ => Usable(r, e.socket)
  }

  function Step(r: Room, e: Event): Room
    requires Enabled(r, e)
  {
    match e
    case IssueTicket(role, ticket, now, listing) => Issue(r, role, ticket, now, listing)
    case ConsumeTicket(ticket, now) => Consume(r, ticket, now)
    case AcceptSocket(ticket, channel, faulty) => Accept(r, ticket, channel, faulty)
    case Deliver(i, m) => r.(sockets := Receive(r.sockets, i, m))
    case CloseEvent(i) => r.(sockets := HandleClosed(r.sockets, i))
    case PeerCloses(i) => r.(sockets := r.sockets[i := Close(r.sockets[i])])
    case Drain(i, b) => r.(sockets := r.sockets[i := r.sockets[i].(buffered := b)])
    case Fault(i, b) => r.(sockets := r.sockets[i := r.sockets[i].(faulty := b)])
  }

  /** states is a run of the room: it starts empty and each event was enabled. */
  ghost predicate IsRun(states: seq<Room>, events: seq<Event>) {
    && |states| == |events| + 1
    && states[0] == EmptyRoom
    && forall k | 0 <= k < |events| :: Enabled(states[k], events[k]) && states[k + 1] == Step(states[k], events[k])
  }

  ghost predicate Reachable(r: Room) {
    exists states: seq<Room>, events: seq<Event> :: IsRun(states, events) && states[|events|] == r
  }
}
