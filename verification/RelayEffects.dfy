/** What each message and each close event does, socket by socket, and what a device hears
    of its desktops in every run. */
module RelayEffects {
  import opened Options
  import opened MuxFrame
  import opened RelayRoom
  import opened RelaySeats
  import opened RelayLinks
  import opened RelayTickets
  import opened RelayRuns

  // ---- one socket

  /** The socket is open, does not throw and has room for size more bytes. */
  predicate Takes(k: Socket, size: nat) {
    k.phase.Open? && !k.faulty && k.buffered + size <= 4_194_304
  }

  function Told(k: Socket, m: Message, size: nat): Socket {
    k.(sent := k.sent + [m], buffered := k.buffered + size)
  }

  /** A readiness note that cannot be sent is missed. */
  function Noted(k: Socket, note: Control, size: nat): Socket {
    if Takes(k, size) then Told(k, Note(note), size) else k.(missedNote := true)
  }

  function Shut(k: Socket): Socket {
    k.(phase := if k.phase.Open? then Closing else k.phase)
  }

  // ---- messages of a desktop

  /** The bytes hold this frame. */
  predicate Spells(bytes: Bytes, kind: byte, channel: string, p: Bytes) {
    Encode(kind, channel, p) == Some(bytes) || Decode(bytes) == Some(Frame(kind, channel, p))
  }

  lemma SpelledDecodes(bytes: Bytes, kind: byte, channel: string, p: Bytes)
    requires Spells(bytes, kind, channel, p)
    ensures Decode(bytes) == Some(Frame(kind, channel, p))
  {
    if Encode(kind, channel, p) == Some(bytes) {
      DecodeInvertsEncode(kind, channel, p);
    }
  }

  lemma OnlyOnChannel(ks: seq<Socket>, v: nat)
    requires DistinctChannels(ks) && IsDevice(ks, v) && ks[v].phase.Open?
    ensures FindDevice(ks, ks[v].channel) == v
  {
    assert CarriesOpen(ks[v], ks[v].channel);
  }

  /** A DATA frame for an open device of the desktop's own id arrives as its bare payload,
      or closes the device if that has no room. */
  lemma DataArrives(ks: seq<Socket>, d: nat, v: nat, p: Bytes, bytes: Bytes)
    requires DistinctChannels(ks) && IsDesktop(ks, d) && IsDevice(ks, v) && ks[v].phase.Open?
    requires ks[v].role.desktopId == ks[d].role.desktopId && Spells(bytes, MUX_DATA, ks[v].channel, p)
    ensures Receive(ks, d, Binary(bytes)) == ks[v := if Takes(ks[v], |p|) then Told(ks[v], Raw(p), |p|) else Shut(ks[v])]
  {
    SpelledDecodes(bytes, MUX_DATA, ks[v].channel, p);
    OnlyOnChannel(ks, v);
  }

  /** A CLOSE frame closes the device and sends nothing. */
  lemma CloseArrives(ks: seq<Socket>, d: nat, v: nat, p: Bytes, bytes: Bytes)
    requires DistinctChannels(ks) && IsDesktop(ks, d) && IsDevice(ks, v) && ks[v].phase.Open?
    requires ks[v].role.desktopId == ks[d].role.desktopId && Spells(bytes, MUX_CLOSE, ks[v].channel, p)
    ensures Receive(ks, d, Binary(bytes)) == ks[v := Shut(ks[v])]
  {
    SpelledDecodes(bytes, MUX_CLOSE, ks[v].channel, p);
    OnlyOnChannel(ks, v);
  }

  /** A frame for a channel on which no open device has the desktop's id changes nothing. */
  lemma ForeignFrameIsDropped(ks: seq<Socket>, d: nat, kind: byte, channel: string, p: Bytes, bytes: Bytes)
    requires IsDesktop(ks, d) && (kind == MUX_DATA || kind == MUX_CLOSE) && Spells(bytes, kind, channel, p)
    requires forall v | IsDevice(ks, v) && ks[v].phase.Open? && ks[v].channel == channel ::
               ks[v].role.desktopId != ks[d].role.desktopId
    ensures Receive(ks, d, Binary(bytes)) == ks
  {
    SpelledDecodes(bytes, kind, channel, p);
    var v := FindDevice(ks, channel);
    assert v < |ks| ==> IsDevice(ks, v);
  }

  /** Bytes that hold no frame, and an OPEN frame, close the desktop and nothing else. */
  lemma BadFrameCloses(ks: seq<Socket>, d: nat, bytes: Bytes)
    requires IsDesktop(ks, d) && (Decode(bytes).None? || Decode(bytes).value.kind == MUX_OPEN)
    ensures Receive(ks, d, Binary(bytes)) == ks[d := Shut(ks[d])]
  {
  }

  // ---- messages of a device

  lemma OnlyServing(ks: seq<Socket>, d: nat)
    requires UniqueOpen(ks) && IsDesktop(ks, d) && ks[d].phase.Open?
    ensures FindDesktop(ks, ks[d].role.desktopId) == d
  {
    assert ServesOpen(ks[d], ks[d].role.desktopId);
    OnlyOpenDesktop(ks, ks[d].role.desktopId, d);
  }

  /** A payload is taken from the device and reaches the open desktop of its id as DATA on
      its channel; without room the desktop is closed and the device told to wait. */
  lemma PayloadArrives(ks: seq<Socket>, v: nat, d: nat, p: Bytes)
    requires UniqueOpen(ks) && IsDevice(ks, v) && IsDesktop(ks, d) && ks[d].phase.Open?
    requires ks[d].role.desktopId == ks[v].role.desktopId && 1 <= |p| <= MAX_RELAY_DEVICE_PAYLOAD_BYTES
    ensures var taken, size := ks[v].(accepted := ks[v].accepted + [p]), 3 + |ks[v].channel| + |p|;
            Receive(ks, v, Binary(p)) ==
            if Takes(ks[d], size) then ks[d := Told(ks[d], Mux(Frame(MUX_DATA, ks[v].channel, p)), size)][v := taken]
            else ks[d := Shut(ks[d])][v := Noted(taken, Waiting, 24)]
  {
    OnlyServing(ks, d);
  }

  /** Without an open desktop of its id the device is told to wait. */
  lemma PayloadWaits(ks: seq<Socket>, v: nat, p: Bytes)
    requires IsDevice(ks, v) && 1 <= |p| <= MAX_RELAY_DEVICE_PAYLOAD_BYTES
    requires forall d | IsDesktop(ks, d) && ks[d].phase.Open? :: ks[d].role.desktopId != ks[v].role.desktopId
    ensures Receive(ks, v, Binary(p)) == ks[v := Noted(ks[v].(accepted := ks[v].accepted + [p]), Waiting, 24)]
  {
    var d := FindDesktop(ks, ks[v].role.desktopId);
    assert d < |ks| ==> IsDesktop(ks, d);
  }

  /** Any other message: a ping is answered if there is room; other text and messages of
      a size not allowed close the socket. */
  lemma OtherMessages(ks: seq<Socket>, i: nat, m: Inbound)
    requires i < |ks|
    requires m.Binary? ==> |m.bytes| == 0
                           || |m.bytes| > if ks[i].role.Device? then MAX_RELAY_DEVICE_PAYLOAD_BYTES else MAX_RELAY_MESSAGE_BYTES
    ensures Receive(ks, i, m) == ks[i := if m.Binary? || !m.ping then Shut(ks[i])
                                         else if Takes(ks[i], 21) then Told(ks[i], Note(Pong), 21) else ks[i]]
  {
  }

  // ---- close events

  /** The open desktop of a closed device's id hears CLOSE as the last frame of the
      channel if it has room; nobody else hears of it. */
  lemma DeviceCloseIsHeard(ks: seq<Socket>, v: nat, d: nat)
    requires UniqueOpen(ks) && IsDevice(ks, v) && IsDesktop(ks, d) && ks[d].phase.Open?
    requires ks[d].role.desktopId == ks[v].role.desktopId
    ensures var frame, size := Frame(MUX_CLOSE, ks[v].channel, []), 3 + |ks[v].channel|;
            var ks2 := HandleClosed(ks, v);
            && ks2 == ks[d := if Takes(ks[d], size) then Told(ks[d], Mux(frame), size) else ks[d]][v := ks[v].(phase := Gone)]
            && (Takes(ks[d], size) ==>
                  FramesOn(ks2[d].sent, ks[v].channel) == FramesOn(ks[d].sent, ks[v].channel) + [frame])
  {
    OnlyServing(ks, d);
    FramesOnAppend(ks[d].sent, Mux(Frame(MUX_CLOSE, ks[v].channel, [])), ks[v].channel);
  }

  /** A closed device whose id has no open desktop is unlisted, and that is all. */
  lemma DeviceCloseUnheard(ks: seq<Socket>, v: nat)
    requires IsDevice(ks, v)
    requires forall d | IsDesktop(ks, d) && ks[d].phase.Open? :: ks[d].role.desktopId != ks[v].role.desktopId
    ensures HandleClosed(ks, v) == ks[v := ks[v].(phase := Gone)]
  {
    var d := FindDesktop(ks, ks[v].role.desktopId);
    assert d < |ks| ==> IsDesktop(ks, d);
  }

  /** A closed desktop's listed devices are told to wait unless another desktop of the id
      is open; no other socket changes. */
  lemma DesktopCloseIsHeard(ks: seq<Socket>, d: nat, i: nat)
    requires UniqueOpen(ks) && IsDesktop(ks, d) && i < |ks|
    ensures var replaced := exists e :: IsDesktop(ks, e) && e != d && ks[e].phase.Open? && ks[e].role.desktopId == ks[d].role.desktopId;
            HandleClosed(ks, d)[i] ==
            if i == d then ks[d].(phase := Gone)
            else if !replaced && ks[i].role.Device? && !ks[i].phase.Gone? && ks[i].role.desktopId == ks[d].role.desktopId
            then Noted(ks[i], Waiting, 24) else ks[i]
  {
    var id := ks[d].role.desktopId;
    var f := FindDesktop(ks, id);
    if f < |ks| && f != d {
      assert IsDesktop(ks, f) && ks[f].phase.Open? && ks[f].role.desktopId == id;
    }
    if e :| IsDesktop(ks, e) && e != d && ks[e].phase.Open? && ks[e].role.desktopId == id {
      OnlyServing(ks, e);
    }
  }

  // ---- accepting

  predicate SharesSeat(a: Role, b: Role) {
    a.Desktop? == b.Desktop? && if a.Desktop? then a.desktopId == b.desktopId else a.deviceId == b.deviceId
  }

  /** The listed sockets of one kind. */
  function ListedOf(ks: seq<Socket>, desktops: bool): set<nat> {
    set i: nat | i < |ks| && !ks[i].phase.Gone? && ks[i].role.Desktop? == desktops
  }

  lemma ListedSnoc(ks: seq<Socket>, n: nat, desktops: bool)
    requires |ks| == n + 1
    ensures ListedOf(ks, desktops)
            == ListedOf(ks[..n], desktops) + if !ks[n].phase.Gone? && ks[n].role.Desktop? == desktops then {n} else {}
  {
    assert forall i: nat | i < n :: ks[..n][i] == ks[i];
  }

  lemma {:induction false} CountIsSize(ks: seq<Socket>, desktops: bool)
    ensures CountListed(ks, desktops) == |ListedOf(ks, desktops)|
  {
    if |ks| > 0 {
      var n := |ks| - 1;
      CountIsSize(ks[..n], desktops);
      ListedSnoc(ks, n, desktops);
      assert n !in ListedOf(ks[..n], desktops);
    }
  }

  /** A socket is refused exactly if no listed socket has its seat and as many sockets of
      its kind are listed as may be. */
  lemma RefusedExactly(ks: seq<Socket>, role: Role)
    ensures Refused(ks, role) <==>
            && (forall i | 0 <= i < |ks| && SharesSeat(role, ks[i].role) :: ks[i].phase.Gone?)
            && |ListedOf(ks, role.Desktop?)| >= if role.Desktop? then 8 else 16
  {
    CountIsSize(ks, role.Desktop?);
  }

  /** The accepted socket, before anything was sent. */
  function Entering(ticket: string, role: Role, channel: string, faulty: bool): Socket {
    Socket(ticket, role, if role.Desktop? then "" else channel, Open, 0, faulty, [], [], map[], false)
  }

  /** A refused socket leaves only its ticket behind. */
  lemma RefusedChangesNothing(r: Room, ticket: string, channel: string, faulty: bool)
    requires ticket in r.claimed && Refused(r.sockets, r.claimed[ticket])
    ensures Accept(r, ticket, channel, faulty) == r.(claimed := r.claimed - {ticket})
  {
  }

  lemma ClosedOthers(ks: seq<Socket>, entering: Socket, i: nat)
    requires i <= |ks| && entering.phase.Open?
    ensures CloseOthers(ks + [entering], |ks|)[i] ==
            if i == |ks| then entering else if SharesSeat(entering.role, ks[i].role) then Shut(ks[i]) else ks[i]
  {
  }

  /** The OPEN message that names a device. */
  function OpenOf(v: Socket): Message
    requires v.role.Device?
  {
    Mux(Frame(MUX_OPEN, v.channel, OpenDetails(v.role.deviceId)))
  }

  function OpenSize(v: Socket): nat
    requires v.role.Device?
  {
    3 + |v.channel| + 15 + |v.role.deviceId|
  }

  /** An OPEN payload is the JSON text with the device's id. */
  lemma OpenNamesDevice(id: string)
    requires forall i | 0 <= i < |id| :: id[i] < 128 as char
    ensures var p := OpenDetails(id);
            seq(|p|, i requires 0 <= i < |p| => p[i] as char) == "{\"deviceId\":\"" + id + "\"}"
  {
    var text := "{\"deviceId\":\"" + id + "\"}";
    forall i | 0 <= i < |text| ensures text[i] < 128 as char {
    }
  }

  /** Announcing a device: the desktop hears OPEN and the device is told ready, or the
      desktop is closed and the device told to wait. */
  lemma OpenDeviceTells(ks: seq<Socket>, v: nat, d: nat)
    requires IsDevice(ks, v) && IsDesktop(ks, d)
    ensures var device := ks[v];
            var heard := Told(ks[d], OpenOf(device), OpenSize(device)).(openedAt := ks[d].openedAt[device.channel := |device.accepted|]);
            OpenDevice(ks, v, d) ==
            if Takes(ks[d], OpenSize(device)) then ks[d := heard][v := Noted(device, DeviceReady, 22)]
            else ks[d := Shut(ks[d])][v := Noted(device, Waiting, 24)]
  {
  }

  /** What a new device does to the listed sockets. */
  ghost predicate Entered(ks: seq<Socket>, role: Role, d: nat, ks2: seq<Socket>) {
    && |ks2| == |ks| + 1
    && forall i | 0 <= i < |ks| && i != d :: ks2[i] == if SharesSeat(role, ks[i].role) then Shut(ks[i]) else ks[i]
  }

  /** A new device closes those in its seat and is announced to the open desktop of its
      id. */
  lemma DeviceEnters(r: Room, ticket: string, channel: string, faulty: bool, d: nat)
    requires UniqueOpen(r.sockets) && ticket in r.claimed && r.claimed[ticket].Device? && !Refused(r.sockets, r.claimed[ticket])
    requires IsDesktop(r.sockets, d) && r.sockets[d].phase.Open? && r.sockets[d].role.desktopId == r.claimed[ticket].desktopId
    ensures var ks, ks2 := r.sockets, Accept(r, ticket, channel, faulty).sockets;
            var e := Entering(ticket, r.claimed[ticket], channel, faulty);
            var fits := Takes(ks[d], OpenSize(e));
            && Entered(ks, e.role, d, ks2)
            && ks2[d] == (if fits then Told(ks[d], OpenOf(e), OpenSize(e)).(openedAt := ks[d].openedAt[channel := 0])
                          else Shut(ks[d]))
            && ks2[|ks|] == if fits then Noted(e, DeviceReady, 22) else Noted(e, Waiting, 24)
  {
    var ks, e := r.sockets, Entering(ticket, r.claimed[ticket], channel, faulty);
    var closed := CloseOthers(ks + [e], |ks|);
    forall i: nat | i <= |ks|
      ensures closed[i] == if i == |ks| then e else if SharesSeat(e.role, ks[i].role) then Shut(ks[i]) else ks[i]
    {
      ClosedOthers(ks, e, i);
    }
    StillServing(ks, closed, d);
    OpenDeviceTells(closed, |ks|, d);
  }

  /** Closing others leaves the open desktop of an id where it is. */
  lemma StillServing(ks: seq<Socket>, closed: seq<Socket>, d: nat)
    requires UniqueOpen(ks) && IsDesktop(ks, d) && ks[d].phase.Open? && |closed| == |ks| + 1
    requires closed[d] == ks[d] && closed[|ks|].role.Device?
    requires forall i | 0 <= i < |ks| :: closed[i] == ks[i] || closed[i] == Shut(ks[i])
    ensures FindDesktop(closed, ks[d].role.desktopId) == d
  {
    var f := FindDesktop(closed, ks[d].role.desktopId);
    assert ServesOpen(closed[d], ks[d].role.desktopId);
    assert f < |ks| && ks[f].phase.Open? && ks[f].role == closed[f].role;
  }

  /** Without an open desktop of its id a new device is told to wait. */
  lemma DeviceWaits(r: Room, ticket: string, channel: string, faulty: bool)
    requires ticket in r.claimed && r.claimed[ticket].Device? && !Refused(r.sockets, r.claimed[ticket])
    requires forall d | IsDesktop(r.sockets, d) && r.sockets[d].phase.Open? ::
               r.sockets[d].role.desktopId != r.claimed[ticket].desktopId
    ensures var ks, ks2 := r.sockets, Accept(r, ticket, channel, faulty).sockets;
            var e := Entering(ticket, r.claimed[ticket], channel, faulty);
            Entered(ks, e.role, |ks|, ks2) && ks2[|ks|] == Noted(e, Waiting, 24)
  {
    var ks, e := r.sockets, Entering(ticket, r.claimed[ticket], channel, faulty);
    var closed := CloseOthers(ks + [e], |ks|);
    forall i: nat | i <= |ks|
      ensures closed[i] == if i == |ks| then e else if SharesSeat(e.role, ks[i].role) then Shut(ks[i]) else ks[i]
    {
      ClosedOthers(ks, e, i);
    }
    var f := FindDesktop(closed, e.role.desktopId);
    if f < |closed| {
      assert f < |ks| && closed[f] == ks[f];
      assert IsDesktop(ks, f);
    }
  }

  // ---- a new desktop

  /** Listed devices of a desktop id. */
  predicate IsTarget(k: Socket, id: string) {
    k.role.Device? && !k.phase.Gone? && k.role.desktopId == id
  }

  /** One OPEN for each listed device of the id from index n on, in order. */
  function OpensFrom(ks: seq<Socket>, n: nat, id: string): seq<Message>
    requires n <= |ks|
    decreases |ks| - n
  {
    if n == |ks| then [] else (if IsTarget(ks[n], id) then [OpenOf(ks[n])] else []) + OpensFrom(ks, n + 1, id)
  }

  function OpensSize(ks: seq<Socket>, n: nat, id: string): nat
    requires n <= |ks|
    decreases |ks| - n
  {
    if n == |ks| then 0 else (if IsTarget(ks[n], id) then OpenSize(ks[n]) else 0) + OpensSize(ks, n + 1, id)
  }

  lemma {:induction false} SameOpens(ks: seq<Socket>, ks2: seq<Socket>, n: nat, id: string)
    requires n <= |ks| == |ks2| && forall i | n <= i < |ks| ::
               ks2[i].role == ks[i].role && ks2[i].channel == ks[i].channel && ks2[i].phase.Gone? == ks[i].phase.Gone?
    ensures OpensFrom(ks2, n, id) == OpensFrom(ks, n, id) && OpensSize(ks2, n, id) == OpensSize(ks, n, id)
    decreases |ks| - n
  {
    if n < |ks| {
      SameOpens(ks, ks2, n + 1, id);
    }
  }

  /** What is left of the opening loop, told socket by socket. */
  ghost predicate Opened(ks: seq<Socket>, n: nat, d: nat, ks2: seq<Socket>, note: Control, size: nat)
    requires n <= |ks| && d < |ks|
  {
    && |ks2| == |ks|
    && forall i | 0 <= i < |ks| && i != d ::
         ks2[i] == if i >= n && IsTarget(ks[i], ks[d].role.desktopId) then Noted(ks[i], note, size) else ks[i]
  }

  /** The sockets once the loop has announced device n. */
  function Announced(ks: seq<Socket>, n: nat, d: nat): (next: seq<Socket>)
    requires IsDevice(ks, n) && IsDesktop(ks, d)
    ensures |next| == |ks|
  {
    ks[d := Told(ks[d], OpenOf(ks[n]), OpenSize(ks[n])).(openedAt := ks[d].openedAt[ks[n].channel := |ks[n].accepted|])]
      [n := Noted(ks[n], DeviceReady, 22)]
  }

  lemma AnnouncedRest(ks: seq<Socket>, n: nat, d: nat)
    requires n < |ks| && IsDesktop(ks, d) && IsTarget(ks[n], ks[d].role.desktopId)
    ensures var next, id := Announced(ks, n, d), ks[d].role.desktopId;
            && OpensFrom(next, n + 1, id) == OpensFrom(ks, n + 1, id) && OpensSize(next, n + 1, id) == OpensSize(ks, n + 1, id)
            && next[d].sent + OpensFrom(next, n + 1, id) == ks[d].sent + OpensFrom(ks, n, id)
  {
    SameOpens(ks, Announced(ks, n, d), n + 1, ks[d].role.desktopId);
  }

  lemma OpenNextTells(ks: seq<Socket>, n: nat, d: nat)
    requires n < |ks| && IsDesktop(ks, d) && Takes(ks[d], OpensSize(ks, n, ks[d].role.desktopId))
    requires IsTarget(ks[n], ks[d].role.desktopId)
    ensures OpenNext(ks, n, d) == Announced(ks, n, d)
    ensures Takes(Announced(ks, n, d)[d], OpensSize(ks, n + 1, ks[d].role.desktopId))
  {
    assert OpensSize(ks, n, ks[d].role.desktopId) == OpenSize(ks[n]) + OpensSize(ks, n + 1, ks[d].role.desktopId);
    OpenDeviceTells(ks, n, d);
  }

  /** A desktop that has room for all its OPEN frames hears them all, in order, and each
      listed device of its id is told ready. */
  lemma {:induction false} OpenAllTells(ks: seq<Socket>, n: nat, d: nat)
    requires n <= |ks| && IsDesktop(ks, d) && Takes(ks[d], OpensSize(ks, n, ks[d].role.desktopId))
    ensures var ks2, id := OpenAll(ks, n, d), ks[d].role.desktopId;
            && Opened(ks, n, d, ks2, DeviceReady, 22) && ks2[d].phase.Open?
            && ks2[d].sent == ks[d].sent + OpensFrom(ks, n, id)
    decreases |ks| - n
  {
    if n < |ks| {
      if IsTarget(ks[n], ks[d].role.desktopId) {
        OpenNextTells(ks, n, d);
        AnnouncedRest(ks, n, d);
        OpenAllTells(Announced(ks, n, d), n + 1, d);
      } else {
        OpenAllTells(ks, n + 1, d);
      }
    }
  }

  /** A desktop that has begun to close or throws hears nothing, and each listed device of
      its id is told to wait. */
  lemma {:induction false} OpenAllFails(ks: seq<Socket>, n: nat, d: nat)
    requires n <= |ks| && IsDesktop(ks, d) && (!ks[d].phase.Open? || ks[d].faulty)
    ensures var ks2, id := OpenAll(ks, n, d), ks[d].role.desktopId;
            && Opened(ks, n, d, ks2, Waiting, 24)
            && ks2[d] == if exists i :: n <= i < |ks| && IsTarget(ks[i], id) then Shut(ks[d]) else ks[d]
    decreases |ks| - n
  {
    if n < |ks| {
      var next, id := OpenNext(ks, n, d), ks[d].role.desktopId;
      if IsTarget(ks[n], id) {
        OpenDeviceTells(ks, n, d);
      }
      OpenAllFails(next, n + 1, d);
    }
  }

  lemma DesktopTold(ks: seq<Socket>, e: Socket) returns (told: seq<Socket>)
    requires e.role.Desktop? && e.phase.Open? && e.buffered == 0
    ensures |told| == |ks| + 1 && told[|ks|] == if e.faulty then e else Told(e, Note(DesktopReady), 30)
    ensures Greet(CloseOthers(ks + [e], |ks|), |ks|) == OpenAll(told, 0, |ks|)
    ensures forall i | 0 <= i < |ks| :: told[i] == if SharesSeat(e.role, ks[i].role) then Shut(ks[i]) else ks[i]
  {
    var closed := CloseOthers(ks + [e], |ks|);
    forall i: nat | i <= |ks|
      ensures closed[i] == if i == |ks| then e else if SharesSeat(e.role, ks[i].role) then Shut(ks[i]) else ks[i]
    {
      ClosedOthers(ks, e, i);
    }
    told := closed[|ks| := Send(e, Note(DesktopReady))];
  }

  /** A new desktop closes those in its seat and is told that it is ready; then it hears one
      OPEN for each listed device of its id, and these are told ready. */
  lemma DesktopEnters(r: Room, ticket: string, channel: string, i: nat)
    requires ticket in r.claimed && r.claimed[ticket].Desktop? && !Refused(r.sockets, r.claimed[ticket])
    requires i < |r.sockets| && 30 + OpensSize(r.sockets, 0, r.claimed[ticket].desktopId) <= 4_194_304
    ensures var ks, ks2, role := r.sockets, Accept(r, ticket, channel, false).sockets, r.claimed[ticket];
            && |ks2| == |ks| + 1 && ks2[|ks|].phase.Open?
            && ks2[|ks|].sent == [Note(DesktopReady)] + OpensFrom(ks, 0, role.desktopId)
            && ks2[i] == if SharesSeat(role, ks[i].role) then Shut(ks[i])
                         else if IsTarget(ks[i], role.desktopId) then Noted(ks[i], DeviceReady, 22) else ks[i]
  {
    var ks, role := r.sockets, r.claimed[ticket];
    var told := DesktopTold(ks, Entering(ticket, role, channel, false));
    OpensOfEntered(ks, told, 0, role.desktopId);
    OpenAllTells(told, 0, |ks|);
  }

  /** A new desktop that throws hears nothing, is closed as soon as there is a device, and
      the devices are told to wait. */
  lemma FaultyDesktopEnters(r: Room, ticket: string, channel: string, i: nat)
    requires ticket in r.claimed && r.claimed[ticket].Desktop? && !Refused(r.sockets, r.claimed[ticket])
    requires i < |r.sockets|
    ensures var ks, ks2, role := r.sockets, Accept(r, ticket, channel, true).sockets, r.claimed[ticket];
            && |ks2| == |ks| + 1 && ks2[|ks|].sent == []
            && (IsTarget(ks[i], role.desktopId) ==> ks2[|ks|].phase.Closing?)
            && ks2[i] == if SharesSeat(role, ks[i].role) then Shut(ks[i])
                         else if IsTarget(ks[i], role.desktopId) then Noted(ks[i], Waiting, 24) else ks[i]
  {
    var ks, role := r.sockets, r.claimed[ticket];
    var told := DesktopTold(ks, Entering(ticket, role, channel, true));
    OpenAllFails(told, 0, |ks|);
    assert told[i].role == ks[i].role;
  }

  lemma {:induction false} OpensOfEntered(ks: seq<Socket>, told: seq<Socket>, n: nat, id: string)
    requires |told| == |ks| + 1 && told[|ks|].role.Desktop? && n <= |ks|
    requires forall i | 0 <= i < |ks| :: told[i] == ks[i] || told[i] == Shut(ks[i])
    ensures OpensFrom(told, n, id) == OpensFrom(ks, n, id) && OpensSize(told, n, id) == OpensSize(ks, n, id)
    decreases |ks| - n
  {
    if n < |ks| {
      OpensOfEntered(ks, told, n + 1, id);
    } else {
      assert OpensFrom(told, n + 1, id) == [];
    }
  }

  // ---- tickets

  lemma StoredAreFew(r: Room)
    requires Reachable(r)
    ensures |r.tickets.Keys| <= MAX_ACTIVE_TICKETS
  {
    ReachableInv(r);
  }

  /** The tickets that have not expired. */
  function Live(tickets: map<string, TicketRecord>, now: int): map<string, TicketRecord> {
    map t | t in tickets && tickets[t].expiresAt > now :: tickets[t]
  }

  lemma SweptIsLive(tickets: map<string, TicketRecord>, now: int)
    ensures tickets - Stale(tickets, now) == Live(tickets, now)
    ensures ActiveTickets(tickets, now) == |Live(tickets, now).Keys|
  {
    SweptSize(tickets, Stale(tickets, now));
  }

  /** While fewer than 64 tickets are live a request stores a new one for 60 seconds, and
      otherwise none; expired tickets go in either case. */
  lemma IssueStores(r: Room, role: Role, ticket: string, now: int, listing: map<string, TicketRecord>)
    requires Reachable(r) && Enabled(r, IssueTicket(role, ticket, now, listing))
    ensures var live := Live(r.tickets, now);
            Issue(r, role, ticket, now, listing) ==
            if |live.Keys| >= 64 then r.(tickets := live)
            else r.(tickets := live[ticket := TicketRecord(role, now + 60_000)], issued := r.issued[ticket := Issuance(role, now)])
  {
    StoredAreFew(r);
    FullListing(listing, r.tickets, MAX_ACTIVE_TICKETS);
    SweptIsLive(r.tickets, now);
  }

  /** A stored ticket redeemed within 60 seconds admits a socket with the role it was issued
      for; later it is only removed. An unknown ticket changes nothing. */
  lemma RedeemAdmits(r: Room, ticket: string, now: int)
    requires Reachable(r)
    ensures ticket !in r.tickets ==> Consume(r, ticket, now) == r
    ensures ticket in r.tickets ==>
              && ticket in r.issued
              && var left := r.(tickets := r.tickets - {ticket});
                 Consume(r, ticket, now) ==
                 if now < r.issued[ticket].at + 60_000
                 then left.(claimed := r.claimed[ticket := r.issued[ticket].role], redeemedAt := r.redeemedAt[ticket := now])
                 else left
  {
    ReachableInv(r);
  }

  // ---- what a device hears of its desktops, and what is taken from it

  /** The bare payloads sent to a socket. */
  function Raws(sent: seq<Message>): seq<Bytes> {
    if |sent| == 0 then []
    else
      var m := sent[|sent| - 1];
      Raws(sent[..|sent| - 1]) + if m.Raw? then [m.payload] else []
  }

  lemma RawsAppend(sent: seq<Message>, m: Message)
    ensures Raws(sent + [m]) == Raws(sent) + if m.Raw? then [m.payload] else []
  {
    assert (sent + [m])[..|sent|] == sent;
  }

  /** The DATA frame for open device v that an event delivers from a desktop of its id. */
  ghost function NewData(ks: seq<Socket>, e: Event, v: nat): seq<Bytes>
    requires v < |ks|
  {
    if !e.Deliver? || !e.message.Binary? || !IsDevice(ks, v) || !IsDesktop(ks, e.socket) then []
    else
      match Decode(e.message.bytes)
      case None => []
      case Some(f) =>
        if f.kind == MUX_DATA && f.channel == ks[v].channel && ks[e.socket].role.desktopId == ks[v].role.desktopId
           && Takes(ks[v], |f.payload|) then [f.payload] else []
  }

  /** The payload of allowed size that an event delivers from device v. */
  function NewPayload(ks: seq<Socket>, e: Event, v: nat): seq<Bytes>
    requires v < |ks|
  {
    if e.Deliver? && e.socket == v && ks[v].role.Device? && e.message.Binary?
       && 1 <= |e.message.bytes| <= MAX_RELAY_DEVICE_PAYLOAD_BYTES
    then [e.message.bytes] else []
  }

  /** No payload passed between k and k2. */
  ghost predicate NoData(k: Socket, k2: Socket) {
    Raws(k2.sent) == Raws(k.sent) && k2.accepted == k.accepted
  }

  lemma SendNoData(k: Socket, m: Message)
    requires !m.Raw?
    ensures NoData(k, Send(k, m))
  {
    RawsAppend(k.sent, m);
  }

  ghost predicate AllNoData(ks: seq<Socket>, ks2: seq<Socket>) {
    |ks2| == |ks| && forall i | 0 <= i < |ks| :: NoData(ks[i], ks2[i])
  }

  lemma OpenDeviceNoData(ks: seq<Socket>, v: nat, d: nat)
    requires IsDevice(ks, v) && IsDesktop(ks, d)
    ensures AllNoData(ks, OpenDevice(ks, v, d))
  {
    SendNoData(ks[d], Mux(OpenFrame(ks[v])));
    SendNoData(ks[v], Note(DeviceReady));
    SendNoData(ks[v], Note(Waiting));
  }

  lemma {:induction false} OpenAllNoData(ks: seq<Socket>, n: nat, d: nat)
    requires n <= |ks| && IsDesktop(ks, d)
    ensures AllNoData(ks, OpenAll(ks, n, d))
    decreases |ks| - n
  {
    if n < |ks| {
      if Targets(ks[n], ks[d].role.desktopId) {
        OpenDeviceNoData(ks, n, d);
      }
      OpenAllNoData(OpenNext(ks, n, d), n + 1, d);
    }
  }

  lemma GreetNoData(ks: seq<Socket>, n: nat)
    requires n < |ks|
    ensures AllNoData(ks, Greet(ks, n))
  {
    SendNoData(ks[n], Note(DesktopReady));
    SendNoData(ks[n], Note(Waiting));
    var d := FindDesktop(ks, ks[n].role.desktopId);
    if ks[n].role.Desktop? {
      OpenAllNoData(ks[n := Send(ks[n], Note(DesktopReady))], 0, n);
    } else if d < |ks| {
      OpenDeviceNoData(ks, n, d);
    }
  }

  lemma AcceptNoData(r: Room, ticket: string, channel: string, faulty: bool, v: nat)
    requires ticket in r.claimed && v < |Accept(r, ticket, channel, faulty).sockets|
    ensures var k2 := Accept(r, ticket, channel, faulty).sockets[v];
            if v < |r.sockets| then NoData(r.sockets[v], k2) else Raws(k2.sent) == [] && k2.accepted == []
  {
    var role := r.claimed[ticket];
    if !Refused(r.sockets, role) {
      var closed := CloseOthers(r.sockets + [Fresh(ticket, role, channel, faulty)], |r.sockets|);
      GreetNoData(closed, |r.sockets|);
      assert NoData(closed[v], Greet(closed, |r.sockets|)[v]);
    }
  }

  lemma HandleClosedNoData(ks: seq<Socket>, i: nat, v: nat)
    requires i < |ks| && v < |ks|
    ensures NoData(ks[v], HandleClosed(ks, i)[v])
  {
    SendNoData(ks[v], Note(Waiting));
    SendNoData(ks[v], Mux(Frame(MUX_CLOSE, ks[i].channel, [])));
  }

  lemma FromDeviceData(ks: seq<Socket>, i: nat, p: Bytes, v: nat)
    requires IsDevice(ks, i) && v < |ks|
    ensures Raws(FromDevice(ks, i, p)[v].sent) == Raws(ks[v].sent)
    ensures FromDevice(ks, i, p)[v].accepted == ks[v].accepted + if v == i then [p] else []
  {
    var k, k2 := if v == i then ks[i].(accepted := ks[i].accepted + [p]) else ks[v], FromDevice(ks, i, p)[v];
    var data := Mux(Frame(MUX_DATA, ks[i].channel, p));
    assert k2 == k || k2 == Send(k, Note(Waiting)) || k2 == Send(k, data) || k2 == Close(k);
    SendNoData(k, Note(Waiting));
    SendNoData(k, data);
  }

  lemma FromDesktopData(ks: seq<Socket>, d: nat, f: Frame, bytes: Bytes, v: nat)
    requires DistinctChannels(ks) && IsDesktop(ks, d) && v < |ks| && Decode(bytes) == Some(f)
    ensures var k2 := Receive(ks, d, Binary(bytes))[v];
            Raws(k2.sent) == Raws(ks[v].sent) + NewData(ks, Deliver(d, Binary(bytes)), v) && k2.accepted == ks[v].accepted
  {
    var w := FindDevice(ks, f.channel);
    if f.kind == MUX_OPEN {
      BadFrameCloses(ks, d, bytes);
    } else if w == |ks| || ks[w].role.desktopId != ks[d].role.desktopId {
      if IsDevice(ks, v) && ks[v].phase.Open? && ks[v].channel == f.channel {
        OnlyOnChannel(ks, v);
      }
    } else {
      HeardByOne(ks, d, w, f, bytes, v);
    }
  }

  lemma HeardByOne(ks: seq<Socket>, d: nat, w: nat, f: Frame, bytes: Bytes, v: nat)
    requires DistinctChannels(ks) && IsDesktop(ks, d) && IsDevice(ks, w) && ks[w].phase.Open? && v < |ks|
    requires ks[w].channel == f.channel && ks[w].role.desktopId == ks[d].role.desktopId
    requires Decode(bytes) == Some(f) && f.kind != MUX_OPEN
    ensures var k2 := Receive(ks, d, Binary(bytes))[v];
            Raws(k2.sent) == Raws(ks[v].sent) + NewData(ks, Deliver(d, Binary(bytes)), v) && k2.accepted == ks[v].accepted
  {
    if f.kind == MUX_DATA {
      DataArrives(ks, d, w, f.payload, bytes);
      RawsAppend(ks[w].sent, Raw(f.payload));
      if v != w && IsDevice(ks, v) {
        assert ks[v].channel != ks[w].channel;
      }
    } else {
      CloseArrives(ks, d, w, f.payload, bytes);
    }
  }

  lemma DesktopData(ks: seq<Socket>, d: nat, bytes: Bytes, v: nat)
    requires DistinctChannels(ks) && IsDesktop(ks, d) && v < |ks|
    ensures var k2 := Receive(ks, d, Binary(bytes))[v];
            Raws(k2.sent) == Raws(ks[v].sent) + NewData(ks, Deliver(d, Binary(bytes)), v) && k2.accepted == ks[v].accepted
  {
    if Decode(bytes).Some? {
      FromDesktopData(ks, d, Decode(bytes).value, bytes, v);
    } else {
      BadFrameCloses(ks, d, bytes);
    }
  }

  lemma ReceiveData(ks: seq<Socket>, i: nat, m: Inbound, v: nat)
    requires DistinctChannels(ks) && i < |ks| && v < |ks|
    ensures var r, e := Receive(ks, i, m), Deliver(i, m);
            && Raws(r[v].sent) == Raws(ks[v].sent) + NewData(ks, e, v)
            && r[v].accepted == ks[v].accepted + NewPayload(ks, e, v)
  {
    if m.Text? {
      SendNoData(ks[i], Note(Pong));
    } else if 1 <= |m.bytes| <= MaxInbound(ks[i].role) {
      if ks[i].role.Device? {
        FromDeviceData(ks, i, m.bytes, v);
      } else {
        DesktopData(ks, i, m.bytes, v);
      }
    }
  }

  lemma StepData(r: Room, e: Event, v: nat)
    requires DistinctChannels(r.sockets) && Enabled(r, e) && v < |Step(r, e).sockets|
    ensures var k2 := Step(r, e).sockets[v];
            if v < |r.sockets|
            then Raws(k2.sent) == Raws(r.sockets[v].sent) + NewData(r.sockets, e, v)
                 && k2.accepted == r.sockets[v].accepted + NewPayload(r.sockets, e, v)
            else Raws(k2.sent) == [] && k2.accepted == []
  {
    match e
    case AcceptSocket(ticket, channel, faulty) => AcceptNoData(r, ticket, channel, faulty, v);
    case Deliver(i, m) => ReceiveData(r.sockets, i, m, v);
    case CloseEvent(i) => HandleClosedNoData(r.sockets, i, v);
    case _ => OtherData(r, e, v);
  }

  lemma OtherData(r: Room, e: Event, v: nat)
    requires Enabled(r, e) && !e.AcceptSocket? && !e.Deliver? && !e.CloseEvent?
    ensures |Step(r, e).sockets| == |r.sockets| && (v < |r.sockets| ==> NoData(r.sockets[v], Step(r, e).sockets[v]))
  {
  }

  /** The payloads of the DATA frames that desktops of the device's id delivered for
      socket v in the first k events, while it was open with room for them. */
  ghost function DataFor(states: seq<Room>, events: seq<Event>, v: nat, k: nat): seq<Bytes>
    requires |states| == |events| + 1 && k <= |events|
  {
    if k == 0 || v >= |states[k - 1].sockets| then []
    else DataFor(states, events, v, k - 1) + NewData(states[k - 1].sockets, events[k - 1], v)
  }

  /** The payloads of allowed size that device v delivered in the first k events. */
  ghost function PayloadsOf(states: seq<Room>, events: seq<Event>, v: nat, k: nat): seq<Bytes>
    requires |states| == |events| + 1 && k <= |events|
  {
    if k == 0 || v >= |states[k - 1].sockets| then []
    else PayloadsOf(states, events, v, k - 1) + NewPayload(states[k - 1].sockets, events[k - 1], v)
  }

  lemma ChannelsAreDistinct(states: seq<Room>, events: seq<Event>, k: nat)
    requires IsRun(states, events) && k <= |events|
    ensures DistinctChannels(states[k].sockets)
  {
    RunKeepsInv(states, events, k);
  }

  /** In every run, what was sent to a device as bare payloads is exactly, in order and
      unaltered, the payloads of the DATA frames that its id's desktops sent on its channel
      while it was open with room; and what was taken from it is exactly what it sent. */
  lemma {:induction false} DataInEveryRun(states: seq<Room>, events: seq<Event>, v: nat, k: nat)
    requires IsRun(states, events) && k <= |events| && v < |states[k].sockets|
    ensures Raws(states[k].sockets[v].sent) == DataFor(states, events, v, k)
    ensures states[k].sockets[v].accepted == PayloadsOf(states, events, v, k)
  {
    if k > 0 {
      ChannelsAreDistinct(states, events, k - 1);
      StepData(states[k - 1], events[k - 1], v);
      if v < |states[k - 1].sockets| {
        DataInEveryRun(states, events, v, k - 1);
      }
    }
  }
}
