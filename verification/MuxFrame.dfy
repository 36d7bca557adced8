/** The multiplexing frame between the relay and a desktop: one version byte, one
    kind byte, one length byte, the channel id, the payload. */
module MuxFrame {
  import opened Options

  type byte = x: int | 0 <= x < 256
  type Bytes = seq<byte>

  const MAX_RELAY_MESSAGE_BYTES := 2 * 1024 * 1024
  const MUX_FRAME_OVERHEAD := 64
  const MAX_RELAY_DEVICE_PAYLOAD_BYTES := MAX_RELAY_MESSAGE_BYTES - MUX_FRAME_OVERHEAD
  const MUX_VERSION: byte := 1
  const MUX_OPEN: byte := 1
  const MUX_DATA: byte := 2
  const MUX_CLOSE: byte := 3

  datatype Frame = Frame(kind: byte, channel: string, payload: Bytes)

  predicate IsKind(kind: int) {
    kind == MUX_OPEN || kind == MUX_DATA || kind == MUX_CLOSE
  }

  predicate IsChannelPoint(p: int) {
    || 'A' as int <= p <= 'Z' as int
    || 'a' as int <= p <= 'z' as int
    || '0' as int <= p <= '9' as int
    || p == '_' as int
    || p == '-' as int
  }

  /** A channel id is exactly 22 base64url characters. */
  predicate IsChannel(s: string) {
    |s| == 22 && forall i | 0 <= i < |s| :: IsChannelPoint(s[i] as int)
  }

  /** The UTF-8 bytes of a channel id, which is ASCII. */
  function ChannelBytes(s: string): (b: Bytes)
    requires IsChannel(s)
    ensures |b| == |s| && forall i | 0 <= i < |s| :: b[i] == s[i] as int && b[i] < 128
  {
    seq(|s|, i requires 0 <= i < |s| =>
      assert IsChannelPoint(s[i] as int);
      s[i] as int)
  }

  function Encode(kind: int, channel: string, payload: Bytes): Option<Bytes> {
    if !IsKind(kind) || !IsChannel(channel) then None
    else if 3 + 22 + |payload| > MAX_RELAY_MESSAGE_BYTES then None
    else Some([MUX_VERSION, kind as byte, 22] + ChannelBytes(channel) + payload)
  }

  // ---- UTF-8, as TextDecoder with fatal: true reads it

  predicate Continues(b: Bytes, i: int) {
    0 <= i < |b| && 0x80 <= b[i] <= 0xBF
  }

  /** The number of bytes of the well-formed sequence that starts b, or 0. */
  function SequenceLength(b: Bytes): (n: nat)
    ensures n <= |b| && n <= 4
    ensures n == 1 <==> (|b| > 0 && b[0] < 0x80)
  {
    if |b| == 0 then 0
    else if b[0] < 0x80 then 1
    else if 0xC2 <= b[0] <= 0xDF && Continues(b, 1) then 2
    else if 0xE0 <= b[0] <= 0xEF && Continues(b, 1) && Continues(b, 2)
         && (b[0] == 0xE0 ==> b[1] >= 0xA0) && (b[0] == 0xED ==> b[1] <= 0x9F) then 3
    else if 0xF0 <= b[0] <= 0xF4 && Continues(b, 1) && Continues(b, 2) && Continues(b, 3)
         && (b[0] == 0xF0 ==> b[1] >= 0x90) && (b[0] == 0xF4 ==> b[1] <= 0x8F) then 4
    else 0
  }

  /** The six bits a continuation byte carries. */
  function Tail(b: Bytes, i: nat): int
    requires i < |b|
  {
    var c: int := b[i];
    c - 0x80
  }

  function CodePoint(b: Bytes, n: nat): (p: int)
    requires 1 <= n == SequenceLength(b)
    ensures if n == 1 then p == b[0] else p >= 128
  {
    var lead: int := b[0];
    if n == 1 then lead
    else if n == 2 then (lead - 0xC0) * 0x40 + Tail(b, 1)
    else if n == 3 then (lead - 0xE0) * 0x1000 + Tail(b, 1) * 0x40 + Tail(b, 2)
    else (lead - 0xF0) * 0x40000 + Tail(b, 1) * 0x1000 + Tail(b, 2) * 0x40 + Tail(b, 3)
  }

  function CodePoints(b: Bytes): Option<seq<int>>
    decreases |b|
  {
    if |b| == 0 then Some([])
    else
      var n := SequenceLength(b);
      if n == 0 then None
      else match CodePoints(b[n..])
        case None => None
        case Some(rest) => Some([CodePoint(b, n)] + rest)
  }

  predicate StartsWithBom(b: Bytes) {
    |b| >= 3 && b[0] == 0xEF && b[1] == 0xBB && b[2] == 0xBF
  }

  /** TextDecoder drops one leading byte-order mark. */
  function DecodeText(b: Bytes): Option<seq<int>> {
    CodePoints(if StartsWithBom(b) then b[3..] else b)
  }

  function AsChannel(points: seq<int>): Option<string> {
    if |points| == 22 && forall i | 0 <= i < |points| :: IsChannelPoint(points[i])
    then Some(seq(22, i requires 0 <= i < 22 => assert IsChannelPoint(points[i]); points[i] as char))
    else None
  }

  function Decode(bytes: Bytes): Option<Frame> {
    if |bytes| < 4 || |bytes| > MAX_RELAY_MESSAGE_BYTES then None
    else
      var n := bytes[2];
      if bytes[0] != MUX_VERSION || !IsKind(bytes[1]) || n < 1 || 3 + n > |bytes| then None
      else match DecodeText(bytes[3..3 + n])
        case None => None
        case Some(points) =>
          match AsChannel(points)
          case None => None
          case Some(channel) => Some(Frame(bytes[1], channel, bytes[3 + n..]))
  }

  // ---- properties

  /** ASCII text decodes to itself. */
  lemma {:induction false} AsciiDecodes(b: Bytes)
    requires forall i | 0 <= i < |b| :: b[i] < 128
    ensures CodePoints(b) == Some(b)
    decreases |b|
  {
    if |b| > 0 {
      AsciiDecodes(b[1..]);
      assert SequenceLength(b) == 1;
      assert [b[0]] + b[1..] == b;
    }
  }

  /** Bytes that decode to ASCII text are those ASCII bytes: no overlong form exists. */
  lemma {:induction false} OnlyAsciiDecodesToAscii(b: Bytes, points: seq<int>)
    requires CodePoints(b) == Some(points)
    requires forall i | 0 <= i < |points| :: points[i] < 128
    ensures b == points
    decreases |b|
  {
    if |b| > 0 {
      var n := SequenceLength(b);
      var rest := CodePoints(b[n..]).value;
      assert points[0] == CodePoint(b, n);
      assert n == 1;
      assert rest == points[1..];
      OnlyAsciiDecodesToAscii(b[1..], rest);
      assert b == [b[0]] + b[1..];
    }
  }

  /** Whatever is encoded decodes to the same kind, channel and payload. */
  lemma DecodeInvertsEncode(kind: int, channel: string, payload: Bytes)
    requires Encode(kind, channel, payload).Some?
    ensures Decode(Encode(kind, channel, payload).value) == Some(Frame(kind, channel, payload))
  {
    var bytes := Encode(kind, channel, payload).value;
    var head := ChannelBytes(channel);
    assert bytes[3..25] == head;
    assert bytes[25..] == payload;
    AsciiDecodes(head);
    assert AsChannel(head).value == channel;
  }

  /** A channel's bytes without a byte-order mark. */
  function Core(text: Bytes): Bytes {
    if StartsWithBom(text) then text[3..] else text
  }

  lemma DecodedChannel(bytes: Bytes)
    requires Decode(bytes).Some?
    ensures var channel := Decode(bytes).value.channel;
            && IsChannel(channel) && ChannelBytes(channel) == Core(bytes[3..3 + bytes[2]])
            && |ChannelBytes(channel)| == 22
  {
    var core := Core(bytes[3..3 + bytes[2]]);
    var channel := Decode(bytes).value.channel;
    var points := DecodeText(bytes[3..3 + bytes[2]]).value;
    forall i | 0 <= i < |points| ensures points[i] < 128 {
      assert IsChannelPoint(points[i]);
    }
    OnlyAsciiDecodesToAscii(core, points);
    forall i | 0 <= i < 22 ensures IsChannelPoint(channel[i] as int) {
      assert IsChannelPoint(points[i]);
    }
  }

  /** An accepted frame encodes to the very bytes it came from exactly when its
      channel bytes do not start with a byte-order mark. */
  lemma EncodeInvertsDecode(bytes: Bytes)
    requires Decode(bytes).Some?
    ensures var f := Decode(bytes).value;
            && Encode(f.kind, f.channel, f.payload).Some?
            && (Encode(f.kind, f.channel, f.payload).value == bytes
                <==> !StartsWithBom(bytes[3..3 + bytes[2]]))
  {
    var n := bytes[2];
    var text := bytes[3..3 + n];
    var f := Decode(bytes).value;
    DecodedChannel(bytes);
    if !StartsWithBom(text) {
      assert bytes == bytes[..3] + text + f.payload;
      assert bytes[..3] == [MUX_VERSION, f.kind, 22];
    } else {
      assert n == 25;
      assert Encode(f.kind, f.channel, f.payload).value[2] == 22;
    }
  }

  /** Every payload the relay takes from a device still fits once it is wrapped. */
  lemma DevicePayloadFits(channel: string, payload: Bytes)
    requires IsChannel(channel) && |payload| <= MAX_RELAY_DEVICE_PAYLOAD_BYTES
    ensures Encode(MUX_DATA, channel, payload).Some?
  {
  }

  /** The encoder as the relay writes it: a fresh byte array filled part by part. */
  method EncodeMuxFrame(kind: int, channelId: string, payload: Bytes) returns (r: Option<array<byte>>)
    ensures r.None? <==> Encode(kind, channelId, payload).None?
    ensures r.Some? ==> fresh(r.value) && Encode(kind, channelId, payload) == Some(r.value[..])
  {
    if !IsKind(kind) || !IsChannel(channelId) {
      return None;
    }
    var channel := ChannelBytes(channelId);
    if 3 + |channel| + |payload| > MAX_RELAY_MESSAGE_BYTES {
      return None;
    }
    var result := new byte[3 + |channel| + |payload|];
    result[0] := MUX_VERSION;
    result[1] := kind;
    result[2] := |channel|;
    SetFrom(result, channel, 3);
    assert forall i | 0 <= i < 22 :: result[3 + i] == result[3..25][i];
    SetFrom(result, payload, 3 + |channel|);
    assert result[..3] == [MUX_VERSION, kind as byte, 22];
    assert result[3..25] == channel;
    assert result[25..] == payload;
    assert result[..] == result[..3] + result[3..25] + result[25..];
    return Some(result);
  }

  /** Copies a run of bytes to an offset and leaves the rest alone. */
  method SetFrom(target: array<byte>, source: Bytes, offset: nat)
    requires offset + |source| <= target.Length
    modifies target
    ensures target[offset..offset + |source|] == source
    ensures forall k | 0 <= k < target.Length && !(offset <= k < offset + |source|) :: target[k] == old(target[k])
  {
    for i := 0 to |source|
      invariant target[offset..offset + i] == source[..i]
      invariant forall k | 0 <= k < target.Length && !(offset <= k < offset + i) :: target[k] == old(target[k])
    {
      target[offset + i] := source[i];
      assert target[offset..offset + i + 1] == target[offset..offset + i] + [source[i]];
    }
  }
}
