/** What each desktop hears of each device's channel: OPEN, then the device's
    payloads from that point on, then CLOSE. */
module RelayLinks {
  import opened MuxFrame
  import opened RelayRoom
  import opened RelaySeats

  /** The frames of one channel among the messages sent to a socket. */
  function FramesOn(sent: seq<Message>, channel: string): seq<Frame> {
    if |sent| == 0 then []
    else
      var m := sent[|sent| - 1];
      FramesOn(sent[..|sent| - 1], channel) + (if m.Mux? && m.frame.channel == channel then [m.frame] else [])
  }

  lemma FramesOnAppend(sent: seq<Message>, m: Message, channel: string)
    ensures FramesOn(sent + [m], channel)
            == FramesOn(sent, channel) + (if m.Mux? && m.frame.channel == channel then [m.frame] else [])
  {
    assert (sent + [m])[..|sent|] == sent;
  }

  /** OPEN, the device's payloads from one position to another, and CLOSE or not. */
  function Session(c: Socket, from: nat, to: nat, closed: bool): seq<Frame>
    requires c.role.Device? && from <= to <= |c.accepted|
  {
    [OpenFrame(c)]
    + seq(to - from, i requires 0 <= i < to - from => Frame(MUX_DATA, c.channel, c.accepted[from + i]))
    + (if closed then [Frame(MUX_CLOSE, c.channel, [])] else [])
  }

  /** On a channel that was opened, the desktop heard a session that begins at the
      OPEN; CLOSE came only if the device is gone. */
  ghost predicate LinkOk(d: Socket, c: Socket)
    requires c.role.Device?
  {
    c.channel in d.openedAt ==>
      && d.role.desktopId == c.role.desktopId
      && exists to: nat, closed: bool ::
           && d.openedAt[c.channel] <= to <= |c.accepted|
           && FramesOn(d.sent, c.channel) == Session(c, d.openedAt[c.channel], to, closed)
           && (closed ==> c.phase.Gone?)
  }

  /** An open desktop has heard all that its listed devices sent since their OPEN. */
  ghost predicate LiveOk(d: Socket, c: Socket)
    requires c.role.Device?
  {
    ServesOpen(d, c.role.desktopId) && Listed(c) ==>
      && c.channel in d.openedAt && d.openedAt[c.channel] <= |c.accepted|
      && FramesOn(d.sent, c.channel) == Session(c, d.openedAt[c.channel], |c.accepted|, false)
  }

  predicate IsDesktop(ks: seq<Socket>, d: int) {
    0 <= d < |ks| && ks[d].role.Desktop?
  }

  predicate IsDevice(ks: seq<Socket>, c: int) {
    0 <= c < |ks| && ks[c].role.Device?
  }

  ghost predicate HasChannel(ks: seq<Socket>, channel: string) {
    exists c :: IsDevice(ks, c) && ks[c].channel == channel
  }

  /** A desktop heard only channels that were opened on it, and those have a device. */
  ghost predicate Known(ks: seq<Socket>) {
    forall d | IsDesktop(ks, d) :: KnownTo(ks, ks[d])
  }

  ghost predicate KnownTo(ks: seq<Socket>, k: Socket) {
    && (forall channel | channel in k.openedAt :: HasChannel(ks, channel))
    && (forall channel | FramesOn(k.sent, channel) != [] :: channel in k.openedAt)
  }

  ghost predicate AllLinked(ks: seq<Socket>) {
    forall d, c | IsDesktop(ks, d) && IsDevice(ks, c) :: LinkOk(ks[d], ks[c])
  }

  /** LiveOk for all pairs except desktop d with the devices from n on: these are
      the ones the opening loop has still to visit. */
  ghost predicate LiveBut(ks: seq<Socket>, d: int, n: int) {
    && (forall e, c | IsDesktop(ks, e) && IsDevice(ks, c) && !(e == d && c >= n) :: LiveOk(ks[e], ks[c]))
    && (forall c | IsDesktop(ks, d) && IsDevice(ks, c) && c >= n :: ks[c].channel !in ks[d].openedAt)
  }

  ghost predicate Links(ks: seq<Socket>) {
    Seats(ks) && Known(ks) && AllLinked(ks) && LiveBut(ks, -1, 0)
  }

  ghost predicate LinksBut(ks: seq<Socket>, d: int, n: int) {
    Seats(ks) && Known(ks) && AllLinked(ks) && LiveBut(ks, d, n)
  }

  // ---- steps that send no frame

  /** k2 is k after a step that framed nothing to it and took no payload from it. */
  ghost predicate Quiet(k: Socket, k2: Socket) {
    && Kept(k, k2)
    && k2.accepted == k.accepted && k2.openedAt == k.openedAt
    && forall channel :: FramesOn(k2.sent, channel) == FramesOn(k.sent, channel)
  }

  ghost predicate AllQuiet(ks: seq<Socket>, ks2: seq<Socket>) {
    |ks2| == |ks| && forall i | 0 <= i < |ks| :: Quiet(ks[i], ks2[i])
  }

  lemma QuietSend(k: Socket, m: Message)
    requires !m.Mux?
    ensures Quiet(k, Send(k, m))
  {
    forall channel ensures FramesOn(Send(k, m).sent, channel) == FramesOn(k.sent, channel) {
      FramesOnAppend(k.sent, m, channel);
    }
  }

  lemma QuietPair(d: Socket, c: Socket, d2: Socket, c2: Socket)
    requires c.role.Device? && LinkOk(d, c) && Quiet(d, d2) && Quiet(c, c2)
    ensures LinkOk(d2, c2) && (LiveOk(d, c) ==> LiveOk(d2, c2))
  {
    assert FramesOn(d2.sent, c.channel) == FramesOn(d.sent, c.channel);
    if c.channel in d.openedAt {
      var from := d.openedAt[c.channel];
      var to: nat, closed: bool :| from <= to <= |c.accepted|
        && FramesOn(d.sent, c.channel) == Session(c, from, to, closed) && (closed ==> c.phase.Gone?);
      assert Session(c2, from, to, closed) == Session(c, from, to, closed);
      if from <= |c.accepted| {
        assert Session(c2, from, |c.accepted|, false) == Session(c, from, |c.accepted|, false);
      }
    }
  }

  lemma SameChannels(ks: seq<Socket>, ks2: seq<Socket>)
    requires |ks| <= |ks2|
    requires forall i | 0 <= i < |ks| :: ks2[i].role == ks[i].role && ks2[i].channel == ks[i].channel
    ensures forall channel | HasChannel(ks, channel) :: HasChannel(ks2, channel)
  {
    forall channel | HasChannel(ks, channel) ensures HasChannel(ks2, channel) {
      var c :| IsDevice(ks, c) && ks[c].channel == channel;
      assert IsDevice(ks2, c) && ks2[c].channel == channel;
    }
  }

  lemma QuietKnown(ks: seq<Socket>, ks2: seq<Socket>, k: Socket, k2: Socket)
    requires KnownTo(ks, k) && Quiet(k, k2)
    requires forall channel | HasChannel(ks, channel) :: HasChannel(ks2, channel)
    ensures KnownTo(ks2, k2)
  {
    forall channel | FramesOn(k2.sent, channel) != [] ensures channel in k2.openedAt {
      assert FramesOn(k2.sent, channel) == FramesOn(k.sent, channel);
    }
  }

  lemma QuietKeepsLinks(ks: seq<Socket>, ks2: seq<Socket>, d: int, n: int)
    requires LinksBut(ks, d, n) && AllQuiet(ks, ks2)
    ensures LinksBut(ks2, d, n)
  {
    assert AllKept(ks, ks2) by {
      forall i | 0 <= i < |ks| ensures Kept(ks[i], ks2[i]) {
        assert Quiet(ks[i], ks2[i]);
      }
    }
    KeptSeats(ks, ks2);
    SameChannels(ks, ks2);
    forall e | IsDesktop(ks2, e) ensures KnownTo(ks2, ks2[e]) {
      assert Quiet(ks[e], ks2[e]) && IsDesktop(ks, e);
      QuietKnown(ks, ks2, ks[e], ks2[e]);
    }
    forall e, c | IsDesktop(ks2, e) && IsDevice(ks2, c)
      ensures LinkOk(ks2[e], ks2[c])
      ensures !(e == d && c >= n) ==> LiveOk(ks2[e], ks2[c])
      ensures e == d && c >= n ==> ks2[c].channel !in ks2[e].openedAt
    {
      assert Quiet(ks[e], ks2[e]) && Quiet(ks[c], ks2[c]) && IsDesktop(ks, e) && IsDevice(ks, c);
      QuietPair(ks[e], ks[c], ks2[e], ks2[c]);
    }
  }

  // ---- steps that frame something to one desktop about one device

  /** The step from ks to ks2 is quiet but for desktop d and device v, where it
      concerns only the channel of v. */
  ghost predicate About(ks: seq<Socket>, ks2: seq<Socket>, d: nat, v: nat) {
    && |ks2| == |ks| && IsDesktop(ks, d) && IsDevice(ks, v)
    && (forall i | 0 <= i < |ks| && i != d && i != v :: Quiet(ks[i], ks2[i]))
    && Kept(ks[d], ks2[d]) && Kept(ks[v], ks2[v])
    && ks2[d].openedAt.Keys <= ks[d].openedAt.Keys + {ks[v].channel}
    && (forall channel | channel != ks[v].channel ::
          && (channel in ks[d].openedAt ==> channel in ks2[d].openedAt && ks2[d].openedAt[channel] == ks[d].openedAt[channel])
          && FramesOn(ks2[d].sent, channel) == FramesOn(ks[d].sent, channel))
  }

  lemma AboutKept(ks: seq<Socket>, ks2: seq<Socket>, d: nat, v: nat)
    requires About(ks, ks2, d, v)
    ensures AllKept(ks, ks2)
  {
    forall i | 0 <= i < |ks| ensures Kept(ks[i], ks2[i]) {
      assert i != d && i != v ==> Quiet(ks[i], ks2[i]);
    }
  }

  lemma AboutKnown(ks: seq<Socket>, ks2: seq<Socket>, d: nat, v: nat, e: nat)
    requires Known(ks) && About(ks, ks2, d, v) && IsDesktop(ks, e)
    requires FramesOn(ks2[d].sent, ks[v].channel) != [] ==> ks[v].channel in ks2[d].openedAt
    ensures KnownTo(ks2, ks2[e])
  {
    AboutKept(ks, ks2, d, v);
    SameChannels(ks, ks2);
    assert KnownTo(ks, ks[e]);
    if e == d {
      assert Kept(ks[v], ks2[v]);
      assert IsDevice(ks2, v) && ks2[v].channel == ks[v].channel;
    } else {
      assert Quiet(ks[e], ks2[e]);
      QuietKnown(ks, ks2, ks[e], ks2[e]);
    }
  }

  lemma AboutPair(ks: seq<Socket>, ks2: seq<Socket>, d: nat, v: nat, e: nat, c: nat)
    requires Seats(ks) && About(ks, ks2, d, v) && IsDesktop(ks, e) && IsDevice(ks, c) && c != v
    requires LinkOk(ks[e], ks[c])
    ensures ks2[c].role.Device? && LinkOk(ks2[e], ks2[c]) && (LiveOk(ks[e], ks[c]) ==> LiveOk(ks2[e], ks2[c]))
    ensures ks2[c].channel in ks2[e].openedAt <==> ks[c].channel in ks[e].openedAt
  {
    assert Quiet(ks[c], ks2[c]);
    if e == d {
      assert ks[c].channel != ks[v].channel;
      OtherChannelPair(ks[e], ks[c], ks2[e], ks2[c]);
    } else {
      assert Quiet(ks[e], ks2[e]);
      QuietPair(ks[e], ks[c], ks2[e], ks2[c]);
    }
  }

  /** Such a step keeps the links if it keeps those that concern v. */
  lemma AboutKeepsLinks(ks: seq<Socket>, ks2: seq<Socket>, d: nat, v: nat, e0: int, n: int, n2: int)
    requires LinksBut(ks, e0, n) && About(ks, ks2, d, v) && n <= n2 <= v + 1 && (n < n2 ==> e0 == d && n == v)
    requires FramesOn(ks2[d].sent, ks[v].channel) != [] ==> ks[v].channel in ks2[d].openedAt
    requires forall e | IsDesktop(ks, e) ::
               && LinkOk(ks2[e], ks2[v])
               && (!(e == e0 && v >= n2) ==> LiveOk(ks2[e], ks2[v]))
               && (e == e0 && v >= n2 ==> ks2[v].channel !in ks2[e].openedAt)
    ensures LinksBut(ks2, e0, n2)
  {
    AboutKept(ks, ks2, d, v);
    KeptSeats(ks, ks2);
    forall e | IsDesktop(ks2, e) ensures KnownTo(ks2, ks2[e]) {
      assert Kept(ks[e], ks2[e]);
      AboutKnown(ks, ks2, d, v, e);
    }
    forall e, c | IsDesktop(ks2, e) && IsDevice(ks2, c)
      ensures LinkOk(ks2[e], ks2[c])
      ensures !(e == e0 && c >= n2) ==> LiveOk(ks2[e], ks2[c])
      ensures e == e0 && c >= n2 ==> ks2[c].channel !in ks2[e].openedAt
    {
      assert Kept(ks[e], ks2[e]) && Kept(ks[c], ks2[c]);
      assert IsDesktop(ks, e) && IsDevice(ks, c);
      if c != v {
        AboutPair(ks, ks2, d, v, e, c);
      }
    }
  }

  /** Such a step, when no other desktop changes. */
  lemma OnePairChanges(ks: seq<Socket>, ks2: seq<Socket>, d: nat, v: nat)
    requires Links(ks) && About(ks, ks2, d, v) && ks[v].channel in ks2[d].openedAt
    requires LinkOk(ks2[d], ks2[v]) && LiveOk(ks2[d], ks2[v])
    requires forall e | IsDesktop(ks, e) && e != d :: ks2[e] == ks[e] && LinkOk(ks[e], ks2[v]) && LiveOk(ks[e], ks2[v])
    ensures Links(ks2)
  {
    forall e | IsDesktop(ks, e) ensures LinkOk(ks2[e], ks2[v]) && LiveOk(ks2[e], ks2[v]) {
      assert e != d ==> ks2[e] == ks[e];
    }
    AboutKeepsLinks(ks, ks2, d, v, -1, 0, 0);
  }

  lemma OtherChannelPair(d: Socket, c: Socket, d2: Socket, c2: Socket)
    requires c.role.Device? && LinkOk(d, c) && Kept(d, d2) && Quiet(c, c2)
    requires c.channel in d2.openedAt <==> c.channel in d.openedAt
    requires c.channel in d.openedAt ==> d2.openedAt[c.channel] == d.openedAt[c.channel]
    requires FramesOn(d2.sent, c.channel) == FramesOn(d.sent, c.channel)
    ensures LinkOk(d2, c2) && (LiveOk(d, c) ==> LiveOk(d2, c2))
  {
    if c.channel in d.openedAt {
      var from := d.openedAt[c.channel];
      var to: nat, closed: bool :| from <= to <= |c.accepted|
        && FramesOn(d.sent, c.channel) == Session(c, from, to, closed) && (closed ==> c.phase.Gone?);
      assert Session(c2, from, to, closed) == Session(c, from, to, closed);
      if from <= |c.accepted| {
        assert Session(c2, from, |c.accepted|, false) == Session(c, from, |c.accepted|, false);
      }
    }
  }

  /** More payloads from a device leave what a desktop already heard a session. */
  lemma MorePayloads(d: Socket, c: Socket, c2: Socket)
    requires c.role.Device? && LinkOk(d, c) && Kept(c, c2)
    ensures LinkOk(d, c2)
  {
    if c.channel in d.openedAt {
      var from := d.openedAt[c.channel];
      var to: nat, closed: bool :| from <= to <= |c.accepted|
        && FramesOn(d.sent, c.channel) == Session(c, from, to, closed) && (closed ==> c.phase.Gone?);
      assert Session(c2, from, to, closed) == Session(c, from, to, closed);
    }
  }

  // ---- the handlers

  /** OPEN starts the pair's session, with nothing forwarded yet. */
  lemma OpenPair(d: Socket, c: Socket, d2: Socket, c2: Socket)
    requires d.role.Desktop? && c.role.Device? && d.role.desktopId == c.role.desktopId
    requires CanSend(d, Mux(OpenFrame(c))) && FramesOn(d.sent, c.channel) == []
    requires d2 == Send(d, Mux(OpenFrame(c))).(openedAt := d.openedAt[c.channel := |c.accepted|])
    requires Quiet(c, c2)
    ensures LinkOk(d2, c2) && LiveOk(d2, c2)
    ensures forall channel | channel != c.channel :: FramesOn(d2.sent, channel) == FramesOn(d.sent, channel)
  {
    forall channel ensures FramesOn(d2.sent, channel)
                           == FramesOn(d.sent, channel) + (if channel == c.channel then [OpenFrame(c)] else [])
    {
      FramesOnAppend(d.sent, Mux(OpenFrame(c)), channel);
    }
    assert FramesOn(d2.sent, c.channel) == Session(c2, |c.accepted|, |c.accepted|, false);
  }

  /** What both outcomes of opening device v on desktop d, the only open one of its
      id, have in common. */
  ghost predicate CanOpen(ks: seq<Socket>, v: nat, d: nat) {
    && IsDevice(ks, v) && IsDesktop(ks, d)
    && ks[v].role.desktopId == ks[d].role.desktopId && Listed(ks[v])
    && ks[v].channel !in ks[d].openedAt
    && forall e | IsDesktop(ks, e) && e != d :: !ServesOpen(ks[e], ks[v].role.desktopId)
  }

  /** The pair that is opened, and what the step is otherwise about. */
  lemma OpenDeviceAbout(ks: seq<Socket>, v: nat, d: nat)
    requires CanOpen(ks, v, d) && KnownTo(ks, ks[d]) && LinkOk(ks[d], ks[v])
    ensures var ks2 := OpenDevice(ks, v, d);
            && About(ks, ks2, d, v) && Quiet(ks[v], ks2[v]) && LinkOk(ks2[d], ks2[v]) && LiveOk(ks2[d], ks2[v])
            && (FramesOn(ks2[d].sent, ks[v].channel) != [] ==> ks[v].channel in ks2[d].openedAt)
  {
    var ks2 := OpenDevice(ks, v, d);
    QuietSend(ks[v], Note(DeviceReady));
    QuietSend(ks[v], Note(Waiting));
    if CanSend(ks[d], Mux(OpenFrame(ks[v]))) {
      OpenPair(ks[d], ks[v], ks2[d], ks2[v]);
    }
  }

  lemma OpenDeviceKeepsLinks(ks: seq<Socket>, v: nat, d: nat, e0: int, n: int, n2: int)
    requires LinksBut(ks, e0, n) && CanOpen(ks, v, d)
    requires n <= n2 <= v + 1 && (n < n2 ==> e0 == d && n == v)
    requires e0 == d ==> v < n2
    ensures LinksBut(OpenDevice(ks, v, d), e0, n2)
  {
    var ks2 := OpenDevice(ks, v, d);
    assert KnownTo(ks, ks[d]);
    OpenDeviceAbout(ks, v, d);
    forall e | IsDesktop(ks, e) ensures LinkOk(ks2[e], ks2[v]) && LiveOk(ks2[e], ks2[v]) {
      if e != d {
        assert Quiet(ks[e], ks2[e]);
        QuietPair(ks[e], ks[v], ks2[e], ks2[v]);
      }
    }
    AboutKeepsLinks(ks, ks2, d, v, e0, n, n2);
  }

  ghost predicate OnlyServer(ks: seq<Socket>, d: nat)
    requires d < |ks|
  {
    forall e | IsDesktop(ks, e) && e != d :: !ServesOpen(ks[e], ks[d].role.desktopId)
  }

  lemma StillOnlyServer(ks: seq<Socket>, n: nat, d: nat)
    requires n < |ks| && IsDesktop(ks, d) && OnlyServer(ks, d)
    ensures OnlyServer(OpenNext(ks, n, d), d)
  {
    var ks2 := OpenNext(ks, n, d);
    forall e | IsDesktop(ks2, e) && e != d ensures !ServesOpen(ks2[e], ks2[d].role.desktopId) {
      assert IsDesktop(ks, e);
    }
  }

  /** What the opening loop keeps up to socket n. */
  ghost predicate OpenedTo(ks: seq<Socket>, n: nat, d: nat) {
    IsDesktop(ks, d) && LinksBut(ks, d, n) && OnlyServer(ks, d)
  }

  lemma OpenedNext(ks: seq<Socket>, n: nat, d: nat)
    requires n < |ks| && OpenedTo(ks, n, d)
    ensures OpenedTo(OpenNext(ks, n, d), n + 1, d)
  {
    StillOnlyServer(ks, n, d);
    if Targets(ks[n], ks[d].role.desktopId) {
      assert CanOpen(ks, n, d);
      OpenDeviceKeepsLinks(ks, n, d, d, n, n + 1);
    } else {
      assert LiveBut(ks, d, n + 1);
    }
  }

  lemma OpenedAll(ks: seq<Socket>, d: nat)
    requires OpenedTo(ks, |ks|, d)
    ensures Links(OpenAll(ks, |ks|, d))
  {
    assert LiveBut(ks, -1, 0);
  }

  lemma {:induction false} OpenAllKeepsLinks(ks: seq<Socket>, n: nat, d: nat)
    requires n <= |ks| && OpenedTo(ks, n, d)
    ensures Links(OpenAll(ks, n, d))
    decreases |ks| - n
  {
    if n == |ks| {
      OpenedAll(ks, d);
    } else {
      OpenedNext(ks, n, d);
      OpenAllKeepsLinks(OpenNext(ks, n, d), n + 1, d);
    }
  }

  predicate IsFresh(ks: seq<Socket>, k: Socket) {
    && k == Fresh(k.ticket, k.role, k.channel, k.faulty)
    && (k.role.Device? ==> forall i | 0 <= i < |ks| :: ks[i].channel != k.channel)
  }

  /** The accepted socket, before it is greeted: nothing was sent to it or for it. */
  lemma EnteringKnown(ks: seq<Socket>, entering: Socket)
    requires Known(ks) && IsFresh(ks, entering)
    ensures Known(CloseOthers(ks + [entering], |ks|))
    ensures entering.role.Device? ==>
              forall e | IsDesktop(CloseOthers(ks + [entering], |ks|), e) ::
                entering.channel !in CloseOthers(ks + [entering], |ks|)[e].openedAt
  {
    var n := |ks|;
    var ks2 := CloseOthers(ks + [entering], n);
    SameChannels(ks, ks2);
    forall e | IsDesktop(ks2, e)
      ensures KnownTo(ks2, ks2[e]) && (entering.role.Device? ==> entering.channel !in ks2[e].openedAt)
    {
      if e < n {
        assert IsDesktop(ks, e) && KnownTo(ks, ks[e]) && Quiet(ks[e], ks2[e]);
        QuietKnown(ks, ks2, ks[e], ks2[e]);
        assert entering.channel in ks[e].openedAt ==> HasChannel(ks, entering.channel);
      }
    }
  }

  lemma EnteringLinked(ks: seq<Socket>, entering: Socket)
    requires Links(ks) && IsFresh(ks, entering)
    ensures var ks2 := CloseOthers(ks + [entering], |ks|);
            && AllLinked(ks2)
            && (forall e, c | IsDesktop(ks2, e) && IsDevice(ks2, c) && e != |ks| && c != |ks| :: LiveOk(ks2[e], ks2[c]))
  {
    var n := |ks|;
    var ks2 := CloseOthers(ks + [entering], n);
    EnteringKnown(ks, entering);
    forall e, c | IsDesktop(ks2, e) && IsDevice(ks2, c)
      ensures LinkOk(ks2[e], ks2[c])
      ensures e < n && c < n ==> LiveOk(ks2[e], ks2[c])
    {
      if e < n && c < n {
        assert IsDesktop(ks, e) && IsDevice(ks, c);
        assert Quiet(ks[e], ks2[e]) && Quiet(ks[c], ks2[c]);
        QuietPair(ks[e], ks[c], ks2[e], ks2[c]);
      }
    }
  }

  lemma GreetKeepsLinks(ks: seq<Socket>, entering: Socket)
    requires Links(ks) && !Refused(ks, entering.role) && IsFresh(ks, entering)
    ensures Links(Greet(CloseOthers(ks + [entering], |ks|), |ks|))
  {
    AcceptSeats(ks, entering);
    EnteringKnown(ks, entering);
    EnteringLinked(ks, entering);
    if entering.role.Desktop? {
      GreetDesktop(CloseOthers(ks + [entering], |ks|), |ks|);
    } else {
      GreetDevice(CloseOthers(ks + [entering], |ks|), |ks|);
    }
  }

  lemma GreetDesktop(ks: seq<Socket>, n: nat)
    requires IsDesktop(ks, n) && ks[n].phase.Open? && LinksBut(ks, n, 0)
    ensures Links(Greet(ks, n))
  {
    var ks2 := ks[n := Send(ks[n], Note(DesktopReady))];
    forall i | 0 <= i < |ks| ensures Quiet(ks[i], ks2[i]) {
      QuietSend(ks[i], Note(DesktopReady));
    }
    QuietKeepsLinks(ks, ks2, n, 0);
    forall e | IsDesktop(ks2, e) && e != n ensures !ServesOpen(ks2[e], ks2[n].role.desktopId) {
      assert ks[e].phase.Open? ==> !SameSeat(ks[n].role, ks[e].role);
    }
    OpenAllKeepsLinks(ks2, 0, n);
  }

  lemma GreetDevice(ks: seq<Socket>, n: nat)
    requires IsDevice(ks, n) && ks[n].phase.Open? && Seats(ks) && Known(ks) && AllLinked(ks)
    requires forall e, c | IsDesktop(ks, e) && IsDevice(ks, c) && c != n :: LiveOk(ks[e], ks[c])
    requires forall e | IsDesktop(ks, e) :: ks[n].channel !in ks[e].openedAt
    requires n == |ks| - 1
    ensures Links(Greet(ks, n))
  {
    var id := ks[n].role.desktopId;
    var d := FindDesktop(ks, id);
    forall e | IsDesktop(ks, e) && e != d ensures !ServesOpen(ks[e], id) {
      if ServesOpen(ks[e], id) {
        OnlyOpenDesktop(ks, id, e);
      }
    }
    if d < |ks| {
      assert LinksBut(ks, d, n);
      OpenDeviceKeepsLinks(ks, n, d, d, n, n + 1);
      assert LiveBut(Greet(ks, n), -1, 0);
    } else {
      var ks2 := Greet(ks, n);
      assert Links(ks);
      forall i | 0 <= i < |ks| ensures Quiet(ks[i], ks2[i]) {
        QuietSend(ks[i], Note(Waiting));
      }
      QuietKeepsLinks(ks, ks2, -1, 0);
    }
  }

  lemma OnlyOpenDesktop(ks: seq<Socket>, desktopId: string, e: nat)
    requires UniqueOpen(ks) && e < |ks| && ServesOpen(ks[e], desktopId)
    ensures e == FindDesktop(ks, desktopId)
  {
    var d := FindDesktop(ks, desktopId);
    assert d < |ks|;
    assert d != e ==> !SameSeat(ks[d].role, ks[e].role);
  }

  /** DATA extends the pair's session by the payload. */
  lemma DataPair(d: Socket, c: Socket, payload: Bytes)
    requires c.role.Device? && LiveOk(d, c) && ServesOpen(d, c.role.desktopId) && Listed(c)
    requires CanSend(d, Mux(Frame(MUX_DATA, c.channel, payload)))
    ensures var d2 := Send(d, Mux(Frame(MUX_DATA, c.channel, payload)));
            var c2 := c.(accepted := c.accepted + [payload]);
            && LinkOk(d2, c2) && LiveOk(d2, c2)
            && forall channel | channel != c.channel :: FramesOn(d2.sent, channel) == FramesOn(d.sent, channel)
  {
    var frame := Frame(MUX_DATA, c.channel, payload);
    var d2 := Send(d, Mux(frame));
    var c2 := c.(accepted := c.accepted + [payload]);
    var from := d.openedAt[c.channel];
    forall channel ensures FramesOn(d2.sent, channel)
                           == FramesOn(d.sent, channel) + (if channel == c.channel then [frame] else [])
    {
      FramesOnAppend(d.sent, Mux(frame), channel);
    }
    assert Session(c, from, |c.accepted|, false) + [frame] == Session(c2, from, |c2.accepted|, false);
  }

  lemma PayloadAbout(ks: seq<Socket>, ks2: seq<Socket>, v: nat, d: nat, payload: Bytes)
    requires IsDevice(ks, v) && IsDesktop(ks, d) && Listed(ks[v]) && ServesOpen(ks[d], ks[v].role.desktopId)
    requires LiveOk(ks[d], ks[v]) && CanSend(ks[d], Mux(Frame(MUX_DATA, ks[v].channel, payload)))
    requires ks2 == ks[d := Send(ks[d], Mux(Frame(MUX_DATA, ks[v].channel, payload)))]
                      [v := ks[v].(accepted := ks[v].accepted + [payload])]
    ensures About(ks, ks2, d, v) && LinkOk(ks2[d], ks2[v]) && LiveOk(ks2[d], ks2[v])
    ensures ks[v].channel in ks2[d].openedAt
  {
    DataPair(ks[d], ks[v], payload);
  }

  lemma PayloadForwarded(ks: seq<Socket>, v: nat, d: nat, payload: Bytes)
    requires Links(ks) && IsDevice(ks, v) && Listed(ks[v]) && d == FindDesktop(ks, ks[v].role.desktopId) < |ks|
    requires CanSend(ks[d], Mux(Frame(MUX_DATA, ks[v].channel, payload)))
    ensures Links(FromDevice(ks, v, payload))
  {
    var ks2 := FromDevice(ks, v, payload);
    assert LiveOk(ks[d], ks[v]);
    PayloadAbout(ks, ks2, v, d, payload);
    forall e | IsDesktop(ks, e) && e != d ensures ks2[e] == ks[e] && LinkOk(ks[e], ks2[v]) && LiveOk(ks[e], ks2[v]) {
      PayloadElsewhere(ks, v, d, e, ks2[v]);
    }
    OnePairChanges(ks, ks2, d, v);
  }

  lemma PayloadElsewhere(ks: seq<Socket>, v: nat, d: nat, e: nat, taken: Socket)
    requires UniqueOpen(ks) && IsDevice(ks, v) && d == FindDesktop(ks, ks[v].role.desktopId)
    requires IsDesktop(ks, e) && e != d && LinkOk(ks[e], ks[v]) && Kept(ks[v], taken)
    ensures LinkOk(ks[e], taken) && LiveOk(ks[e], taken)
  {
    MorePayloads(ks[e], ks[v], taken);
    if ServesOpen(ks[e], ks[v].role.desktopId) {
      OnlyOpenDesktop(ks, ks[v].role.desktopId, e);
    }
  }

  lemma FromDeviceKeepsLinks(ks: seq<Socket>, v: nat, payload: Bytes)
    requires Links(ks) && IsDevice(ks, v) && Listed(ks[v])
    ensures Links(FromDevice(ks, v, payload))
  {
    var d := FindDesktop(ks, ks[v].role.desktopId);
    if d < |ks| && CanSend(ks[d], Mux(Frame(MUX_DATA, ks[v].channel, payload))) {
      PayloadForwarded(ks, v, d, payload);
    } else {
      PayloadDropped(ks, v, payload);
    }
  }

  lemma PayloadDropped(ks: seq<Socket>, v: nat, payload: Bytes)
    requires Links(ks) && IsDevice(ks, v) && Listed(ks[v])
    requires var d := FindDesktop(ks, ks[v].role.desktopId);
             d < |ks| ==> !CanSend(ks[d], Mux(Frame(MUX_DATA, ks[v].channel, payload)))
    ensures Links(FromDevice(ks, v, payload))
  {
    var d := FindDesktop(ks, ks[v].role.desktopId);
    var taken := Send(ks[v].(accepted := ks[v].accepted + [payload]), Note(Waiting));
    if d < |ks| {
      QuietChange(ks, d, Close(ks[d]));
      NoneServes(ks, d, ks[d := Close(ks[d])]);
      PayloadsTaken(ks[d := Close(ks[d])], v, taken);
    } else {
      PayloadsTaken(ks, v, taken);
    }
  }

  lemma NoneServes(ks: seq<Socket>, d: nat, closed: seq<Socket>)
    requires UniqueOpen(ks) && d < |ks| && ks[d].role.Desktop? && ks[d].phase.Open?
    requires closed == ks[d := Close(ks[d])]
    ensures forall e | IsDesktop(closed, e) :: !ServesOpen(closed[e], ks[d].role.desktopId)
  {
    forall e | IsDesktop(ks, e) && e != d ensures !ServesOpen(ks[e], ks[d].role.desktopId) {
      assert ks[e].phase.Open? ==> !SameSeat(ks[d].role, ks[e].role);
    }
  }

  /** One socket closes, drains, faults or is sent something unframed. */
  lemma QuietChange(ks: seq<Socket>, i: nat, k2: Socket)
    requires Links(ks) && i < |ks| && Quiet(ks[i], k2)
    ensures Links(ks[i := k2])
  {
    forall j | 0 <= j < |ks| ensures Quiet(ks[j], ks[i := k2][j]) {
    }
    QuietKeepsLinks(ks, ks[i := k2], -1, 0);
  }

  /** A payload taken while no open desktop of the id is left changes no link. */
  lemma PayloadsTaken(ks: seq<Socket>, v: nat, taken: Socket)
    requires Links(ks) && IsDevice(ks, v) && Kept(ks[v], taken)
    requires forall e | IsDesktop(ks, e) :: !ServesOpen(ks[e], ks[v].role.desktopId)
    ensures Links(ks[v := taken])
  {
    var ks2 := ks[v := taken];
    forall e | IsDesktop(ks, e) ensures LinkOk(ks2[e], ks2[v]) && LiveOk(ks2[e], ks2[v]) {
      MorePayloads(ks[e], ks[v], taken);
    }
    if d :| IsDesktop(ks, d) {
      assert KnownTo(ks, ks[d]);
      assert About(ks, ks2, d, v);
      AboutKeepsLinks(ks, ks2, d, v, -1, 0, 0);
    } else {
      KeptSeats(ks, ks2);
      forall e ensures !IsDesktop(ks2, e) {
        assert IsDesktop(ks2, e) ==> IsDesktop(ks, e);
      }
    }
  }

  lemma ReceiveKeepsLinks(ks: seq<Socket>, i: nat, m: Inbound)
    requires Links(ks) && i < |ks| && Listed(ks[i])
    ensures Links(Receive(ks, i, m))
  {
    if m.Binary? && 1 <= |m.bytes| <= MaxInbound(ks[i].role) && ks[i].role.Device? {
      FromDeviceKeepsLinks(ks, i, m.bytes);
    } else {
      QuietReceive(ks, i, m);
      QuietKeepsLinks(ks, Receive(ks, i, m), -1, 0);
    }
  }

  lemma QuietReceive(ks: seq<Socket>, i: nat, m: Inbound)
    requires i < |ks|
    requires m.Binary? && 1 <= |m.bytes| <= MaxInbound(ks[i].role) ==> ks[i].role.Desktop?
    ensures AllQuiet(ks, Receive(ks, i, m))
  {
    var ks2 := Receive(ks, i, m);
    forall j | 0 <= j < |ks| ensures Quiet(ks[j], ks2[j]) {
      QuietSend(ks[j], Note(Pong));
      if m.Binary? && Decode(m.bytes).Some? {
        QuietSend(ks[j], Raw(Decode(m.bytes).value.payload));
      }
    }
  }

  lemma HandleClosedKeepsLinks(ks: seq<Socket>, i: nat)
    requires Links(ks) && i < |ks| && Listed(ks[i])
    ensures Links(HandleClosed(ks, i))
  {
    var told := OnClosed(ks, i);
    var d := FindDesktop(ks, ks[i].role.desktopId);
    if ks[i].role.Desktop? || d == |ks| {
      forall j | 0 <= j < |ks| ensures Quiet(ks[j], told[j]) {
        QuietSend(ks[j], Note(Waiting));
      }
      QuietKeepsLinks(ks, told, -1, 0);
      GoneKeepsLinks(told, i);
    } else {
      DeviceClosedKeepsLinks(ks, i, d);
    }
  }

  lemma GoneKeepsLinks(ks: seq<Socket>, i: nat)
    requires Links(ks) && i < |ks|
    ensures Links(ks[i := ks[i].(phase := Gone)])
  {
    var ks2 := ks[i := ks[i].(phase := Gone)];
    GoneSeats(ks, i);
    SameChannels(ks, ks2);
    forall e | IsDesktop(ks2, e) ensures KnownTo(ks2, ks2[e]) {
      assert IsDesktop(ks, e) && KnownTo(ks, ks[e]);
    }
    forall e, c | IsDesktop(ks2, e) && IsDevice(ks2, c) ensures LinkOk(ks2[e], ks2[c]) && LiveOk(ks2[e], ks2[c]) {
      assert IsDesktop(ks, e) && IsDevice(ks, c);
      GonePair(ks[e], ks[c], ks2[e], ks2[c]);
    }
  }

  lemma GonePair(d: Socket, c: Socket, d2: Socket, c2: Socket)
    requires c.role.Device? && LinkOk(d, c) && LiveOk(d, c)
    requires d2 == d || d2 == d.(phase := Gone)
    requires c2 == c || c2 == c.(phase := Gone)
    ensures LinkOk(d2, c2) && LiveOk(d2, c2)
  {
    if c.channel in d.openedAt {
      var from := d.openedAt[c.channel];
      var to: nat, closed: bool :| from <= to <= |c.accepted|
        && FramesOn(d.sent, c.channel) == Session(c, from, to, closed) && (closed ==> c.phase.Gone?);
      assert Session(c2, from, to, closed) == Session(c, from, to, closed);
      if from <= |c.accepted| {
        assert Session(c2, from, |c.accepted|, false) == Session(c, from, |c.accepted|, false);
      }
    }
  }

  /** CLOSE ends the pair's session once the device is gone. */
  lemma ClosePair(d: Socket, c: Socket)
    requires c.role.Device? && LiveOk(d, c) && ServesOpen(d, c.role.desktopId) && Listed(c)
    requires CanSend(d, Mux(Frame(MUX_CLOSE, c.channel, [])))
    ensures var d2 := Send(d, Mux(Frame(MUX_CLOSE, c.channel, [])));
            && LinkOk(d2, c.(phase := Gone))
            && forall channel | channel != c.channel :: FramesOn(d2.sent, channel) == FramesOn(d.sent, channel)
  {
    var frame := Frame(MUX_CLOSE, c.channel, []);
    var d2 := Send(d, Mux(frame));
    var c2 := c.(phase := Gone);
    var from := d.openedAt[c.channel];
    forall channel ensures FramesOn(d2.sent, channel)
                           == FramesOn(d.sent, channel) + (if channel == c.channel then [frame] else [])
    {
      FramesOnAppend(d.sent, Mux(frame), channel);
    }
    assert Session(c, from, |c.accepted|, false) + [frame] == Session(c2, from, |c.accepted|, true);
  }

  lemma HandleClosedIs(ks: seq<Socket>, v: nat, d: nat)
    requires IsDevice(ks, v) && Listed(ks[v]) && d == FindDesktop(ks, ks[v].role.desktopId) < |ks|
    ensures var frame := Mux(Frame(MUX_CLOSE, ks[v].channel, []));
            var gone := ks[v := ks[v].(phase := Gone)];
            HandleClosed(ks, v) == if CanSend(ks[d], frame) then gone[d := Send(ks[d], frame)] else gone
  {
  }

  lemma DeviceClosedKeepsLinks(ks: seq<Socket>, v: nat, d: nat)
    requires Links(ks) && IsDevice(ks, v) && Listed(ks[v])
    requires d == FindDesktop(ks, ks[v].role.desktopId) < |ks|
    ensures Links(HandleClosed(ks, v))
  {
    var frame := Mux(Frame(MUX_CLOSE, ks[v].channel, []));
    GoneKeepsLinks(ks, v);
    HandleClosedIs(ks, v, d);
    assert LiveOk(ks[d], ks[v]);
    if CanSend(ks[d], frame) {
      ClosePair(ks[d], ks[v]);
      CloseSent(ks[v := ks[v].(phase := Gone)], v, d, Send(ks[d], frame));
    }
  }

  lemma CloseSent(ks: seq<Socket>, v: nat, d: nat, d2: Socket)
    requires Links(ks) && IsDevice(ks, v) && ks[v].phase.Gone? && IsDesktop(ks, d)
    requires Kept(ks[d], d2) && d2.openedAt == ks[d].openedAt && ks[v].channel in d2.openedAt && LinkOk(d2, ks[v])
    requires forall channel | channel != ks[v].channel :: FramesOn(d2.sent, channel) == FramesOn(ks[d].sent, channel)
    ensures Links(ks[d := d2])
  {
    CloseAbout(ks, v, d, d2);
    forall e | IsDesktop(ks, e) && e != d ensures LinkOk(ks[e], ks[v]) && LiveOk(ks[e], ks[v]) {
    }
    OnePairChanges(ks, ks[d := d2], d, v);
  }

  lemma CloseAbout(ks: seq<Socket>, v: nat, d: nat, d2: Socket)
    requires IsDevice(ks, v) && IsDesktop(ks, d) && Kept(ks[d], d2) && d2.openedAt == ks[d].openedAt
    requires forall channel | channel != ks[v].channel :: FramesOn(d2.sent, channel) == FramesOn(ks[d].sent, channel)
    ensures About(ks, ks[d := d2], d, v)
  {
  }
}
