/** Packet building and the resynchronising frame scanner of ble/framing.py. */
module Frames {
  import opened Basics
  import opened Crc

  // ------------------------------------------------------------------
  // Numbers and bit patterns
  // ------------------------------------------------------------------

  function Bits(data: seq<byte>): (r: seq<bv8>)
    ensures |r| == |data| && forall i :: 0 <= i < |r| ==> r[i] == BitsOf(data[i])
  {
    seq(|data|, i requires 0 <= i < |data| => BitsOf(data[i]))
  }

  function BitsOf(b: byte): bv8 { b as bv8 }

  function ValueOf(b: bv8): byte { b as int }

  lemma BitsOfValue(b: bv8)
    ensures BitsOf(ValueOf(b)) == b
  {
  }

  /** crc16 on a packet. */
  function PacketChecksum(data: seq<byte>): bv16 {
    Checksum(Bits(data))
  }

  /** The two checksum bytes, low byte first. */
  function Seal(data: seq<byte>): seq<byte> {
    [ValueOf(LowByte(PacketChecksum(data))), ValueOf(HighByte(PacketChecksum(data)))]
  }

  lemma SealBits(data: seq<byte>)
    ensures Bits(data + Seal(data)) == Bits(data) + Trailer(Bits(data))
  {
    BitsOfValue(LowByte(PacketChecksum(data)));
    BitsOfValue(HighByte(PacketChecksum(data)));
  }

  // ------------------------------------------------------------------
  // Little-endian numbers
  // ------------------------------------------------------------------

  function Le16(n: int): seq<byte>
    requires 0 <= n < 0x1_0000
  {
    [n % 256, n / 256]
  }

  function Le32(n: int): seq<byte>
    requires 0 <= n < 0x1_0000_0000
  {
    [n % 256, n / 0x100 % 256, n / 0x1_0000 % 256, n / 0x100_0000]
  }

  function Read16(b0: byte, b1: byte): int {
    b0 + 0x100 * b1
  }

  function Read32(b0: byte, b1: byte, b2: byte, b3: byte): nat {
    b0 + 0x100 * b1 + 0x1_0000 * b2 + 0x100_0000 * b3
  }

  lemma SplitDigits(n: int)
    requires 0 <= n
    ensures n == n % 256 + 0x100 * (n / 0x100 % 256) + 0x1_0000 * (n / 0x1_0000 % 256) + 0x100_0000 * (n / 0x100_0000)
  {
    assert n / 0x1_0000 == n / 0x100 / 0x100;
    assert n / 0x100_0000 == n / 0x1_0000 / 0x100;
  }

  lemma Read32Le32(n: int)
    requires 0 <= n < 0x1_0000_0000
    ensures Read32(Le32(n)[0], Le32(n)[1], Le32(n)[2], Le32(n)[3]) == n
  {
    SplitDigits(n);
  }

  // ------------------------------------------------------------------
  // Packets
  // ------------------------------------------------------------------

  const PREAMBLE := 10
  const OVERHEAD := 12

  /** Everything of a packet but its two checksum bytes. */
  function Unsealed(command: int, data: seq<byte>, device: byte, kind: byte): seq<byte>
    requires 0 <= command < 0x1_0000 && OVERHEAD + |data| < 0x1_0000_0000
  {
    [0x58, device, kind] + Le16(command) + Le32(OVERHEAD + |data|) + [0x01] + data
  }

  /** build_packet_raw; `None` stands for the struct.error of an unpackable field. */
  method BuildPacketRaw(command: int, data: seq<byte>, device: byte, kind: byte)
    returns (packet: Option<seq<byte>>)
    ensures packet.Some? <==> 0 <= command < 0x1_0000 && OVERHEAD + |data| < 0x1_0000_0000
    ensures packet.Some? ==> packet.value == Unsealed(command, data, device, kind)
                                             + Seal(Unsealed(command, data, device, kind))
  {
    var totalLength := OVERHEAD + |data|;
    if command < 0 || command >= 0x1_0000 || totalLength >= 0x1_0000_0000 {
      return None;
    }
    var bytes: seq<byte> := [0x58];
    bytes := bytes + [device];
    bytes := bytes + [kind];
    bytes := bytes + Le16(command);
    bytes := bytes + Le32(totalLength);
    bytes := bytes + [0x01];
    bytes := bytes + data;
    assert bytes == Unsealed(command, data, device, kind);
    var crc := Crc16(Bits(bytes));
    packet := Some(bytes + [ValueOf(LowByte(crc)), ValueOf(HighByte(crc))]);
  }

  /** frame_command: bytes 3 and 4; `None` stands for the struct.error of a short frame. */
  function FrameCommand(frame: seq<byte>): Option<int> {
    if |frame| < 5 then None else Some(Read16(frame[3], frame[4]))
  }

  function FramePayload(frame: seq<byte>): seq<byte> {
    if |frame| > OVERHEAD then frame[PREAMBLE..|frame| - 2] else []
  }

  /** The declared total length, bytes 5 to 8. */
  function DeclaredLength(frame: seq<byte>): int
    requires |frame| >= 9
  {
    Read32(frame[5], frame[6], frame[7], frame[8])
  }

  lemma BodyLayout(command: int, data: seq<byte>, device: byte, kind: byte)
    requires 0 <= command < 0x1_0000 && OVERHEAD + |data| < 0x1_0000_0000
    ensures var body := Unsealed(command, data, device, kind);
            && |body| == PREAMBLE + |data|
            && body[3] == command % 256 && body[4] == command / 256
            && body[5..9] == Le32(OVERHEAD + |data|)
            && body[PREAMBLE..] == data
  {
  }

  /** Parsing inverts building, the declared length is the real one, and the sealed packet has
      residue zero. */
  lemma PacketRoundTrip(command: int, data: seq<byte>, device: byte, kind: byte)
    requires 0 <= command < 0x1_0000 && OVERHEAD + |data| < 0x1_0000_0000
    ensures var body := Unsealed(command, data, device, kind);
            var packet := body + Seal(body);
            && FrameCommand(packet) == Some(command)
            && FramePayload(packet) == data
            && |packet| == OVERHEAD + |data|
            && DeclaredLength(packet) == |packet|
            && PacketChecksum(packet) == 0
  {
    var body := Unsealed(command, data, device, kind);
    var total := OVERHEAD + |data|;
    BodyLayout(command, data, device, kind);
    ParsePreamble(body, Seal(body), command, total);
    SealBits(body);
    ResidueZero(Bits(body));
  }

  /** The number a field holds, its lowest byte first. */
  function Number(digits: seq<byte>): int {
    if digits == [] then 0 else digits[0] as int + 256 * Number(digits[1..])
  }

  lemma NumberOfTwo(a: byte, b: byte)
    ensures Number([a, b]) == a as int + 256 * (b as int)
  {
    assert [a, b][1..] == [b] && [b][1..] == [];
    assert Number([b]) == b as int;
  }

  lemma NumberOfFour(a: byte, b: byte, c: byte, d: byte)
    ensures Number([a, b, c, d]) == a as int + 256 * (b as int) + 65536 * (c as int) + 16777216 * (d as int)
    ensures Number([a, b, c, d]) == Read32(a, b, c, d)
  {
    NumberOfTwo(c, d);
    assert [a, b, c, d][1..] == [b, c, d] && [b, c, d][1..] == [c, d];
    assert Number([b, c, d]) == b as int + 256 * Number([c, d]);
  }

  /** Field by field: 0x58, the device, the kind, the command in two bytes, the total length in four,
      0x01, the data, and the checksum of all of these in two bytes, all numbers lowest byte
      first. */
  lemma PacketLayout(command: int, data: seq<byte>, device: byte, kind: byte)
    requires 0 <= command < 0x1_0000 && OVERHEAD + |data| < 0x1_0000_0000
    ensures var body := Unsealed(command, data, device, kind);
            var packet := body + Seal(body);
            var n := |data|;
            && |packet| == 12 + n
            && packet[0] == 0x58 && packet[1] == device && packet[2] == kind
            && Number(packet[3..5]) == command
            && Number(packet[5..9]) == 12 + n
            && packet[9] == 0x01
            && packet[10..10 + n] == data
            && Number(packet[10 + n..]) == PacketChecksum(packet[..10 + n]) as int
  {
    var body := Unsealed(command, data, device, kind);
    var packet := body + Seal(body);
    var n := |data|;
    BodyLayout(command, data, device, kind);
    assert packet[3..5] == [command % 256, command / 256];
    NumberOfTwo(command % 256, command / 256);
    var le := Le32(OVERHEAD + n);
    assert packet[5..9] == body[5..9] == [le[0], le[1], le[2], le[3]];
    Read32Le32(OVERHEAD + n);
    NumberOfFour(le[0], le[1], le[2], le[3]);
    assert packet[10..10 + n] == body[PREAMBLE..];
    assert packet[..10 + n] == body && packet[10 + n..] == Seal(body);
    SealValue(PacketChecksum(body));
  }

  lemma SealValue(c: bv16)
    ensures Number([ValueOf(LowByte(c)), ValueOf(HighByte(c))]) == c as int
  {
    NumberOfTwo(ValueOf(LowByte(c)), ValueOf(HighByte(c)));
    SealDigits(c);
  }

  lemma SealDigits(c: bv16)
    ensures ValueOf(LowByte(c)) as int + 256 * (ValueOf(HighByte(c)) as int) == c as int
  {
  }

  lemma ParsePreamble(body: seq<byte>, seal: seq<byte>, command: int, total: int)
    requires 0 <= command < 0x1_0000 && 0 <= total < 0x1_0000_0000
    requires |body| >= PREAMBLE && |seal| == 2 && total == |body| + 2
    requires body[3] == command % 256 && body[4] == command / 256 && body[5..9] == Le32(total)
    ensures FrameCommand(body + seal) == Some(command)
    ensures FramePayload(body + seal) == body[PREAMBLE..]
    ensures DeclaredLength(body + seal) == total
  {
    Read32Le32(total);
    assert forall i :: 0 <= i < 4 ==> body[5 + i] == body[5..9][i];
    assert (body + seal)[PREAMBLE..total - 2] == body[PREAMBLE..];
  }

  /** Damage to a sealed packet that is confined to two adjacent bytes always shows as a
      non-zero residue. */
  lemma DamagedPacketDetected(packet: seq<byte>, received: seq<bv8>, i: nat)
    requires PacketChecksum(packet) == 0
    requires |packet| == |received| && i + 1 < |packet|
    requires forall k :: 0 <= k < |packet| && k != i && k != i + 1 ==> received[k] == Bits(packet)[k]
    ensures Checksum(received) == 0 <==> received == Bits(packet)
  {
    BurstDetected(Bits(packet), received, i);
  }

  // ------------------------------------------------------------------
  // Scanning a notification buffer
  // ------------------------------------------------------------------

  const MAX_PACKET_LEN := 256

  predicate IsHeader(b: byte) { b == 0x58 || b == 0x02 }
  predicate IsMarker(b: byte) { b == 0xC1 || b == 0xC2 }

  /** What the scanner makes of a buffer: the frames it yields and, if it never returns, that
      it hangs. A candidate that passes every check and declares length zero is yielded for
      ever, because the offset does not move. */
  datatype Scan = Scan(frames: seq<seq<byte>>, hangs: bool)

  /** The three checks that make a position a frame start. */
  predicate Candidate(buffer: seq<byte>) {
    && |buffer| >= PREAMBLE
    && IsHeader(buffer[0])
    && DeclaredLength(buffer) <= MAX_PACKET_LEN
    && IsMarker(buffer[9])
  }

  /** In literal bytes: a header 0x58 or 0x02, a declared length of at most 256, and a marker 0xC1 or
      0xC2 at the tenth byte. */
  lemma CandidateBytes(buffer: seq<byte>)
    ensures Candidate(buffer) <==>
            && |buffer| >= 10 && (buffer[0] == 0x58 || buffer[0] == 0x02)
            && Number(buffer[5..9]) <= 256
            && (buffer[9] == 0xC1 || buffer[9] == 0xC2)
    ensures |buffer| >= 10 ==> DeclaredLength(buffer) == Number(buffer[5..9])
  {
    if |buffer| >= 10 {
      assert buffer[5..9] == [buffer[5], buffer[6], buffer[7], buffer[8]];
      NumberOfFour(buffer[5], buffer[6], buffer[7], buffer[8]);
    }
  }

  function ScanAll(buffer: seq<byte>): Scan
    decreases |buffer|
  {
    if buffer == [] then Scan([], false)
    else if !IsHeader(buffer[0]) then ScanAll(buffer[1..])
    else if |buffer| < PREAMBLE then Scan([], false)
    else if !Candidate(buffer) then ScanAll(buffer[1..])
    else
      var len := DeclaredLength(buffer);
      if len > |buffer| then Scan([], false)
      else if len == 0 then Scan([], true)
      else
        var rest := ScanAll(buffer[len..]);
        Scan([buffer[..len]] + rest.frames, rest.hangs)
  }

  /** iter_frames. */
  method IterFrames(raw: seq<byte>) returns (frames: seq<seq<byte>>, hangs: bool)
    ensures Scan(frames, hangs) == ScanAll(raw)
  {
    frames, hangs := [], false;
    var offset := 0;
    var n := |raw|;
    while offset < n
      invariant 0 <= offset <= n == |raw|
      invariant !hangs
      invariant frames + ScanAll(raw[offset..]).frames == ScanAll(raw).frames
      invariant ScanAll(raw[offset..]).hangs == ScanAll(raw).hangs
    {
      ghost var rest := raw[offset..];
      assert rest[1..] == raw[offset + 1..];
      if !IsHeader(raw[offset]) {
        offset := offset + 1;
        continue;
      }
      if n - offset < PREAMBLE {
        break;
      }
      var totalLen := Read32(raw[offset + 5], raw[offset + 6], raw[offset + 7], raw[offset + 8]);
      if totalLen > MAX_PACKET_LEN {
        offset := offset + 1;
        continue;
      }
      if !IsMarker(raw[offset + 9]) {
        offset := offset + 1;
        continue;
      }
      if offset + totalLen > n {
        break;
      }
      if totalLen == 0 {
        hangs := true;
        break;
      }
      assert totalLen == DeclaredLength(rest) && Candidate(rest);
      assert raw[offset..offset + totalLen] == rest[..totalLen];
      assert rest[totalLen..] == raw[offset + totalLen..];
      frames := frames + [raw[offset..offset + totalLen]];
      offset := offset + totalLen;
    }
    assert raw[n..] == [];
  }

  /** A non-empty in-bounds slice that passes the header, length and marker checks. */
  ghost predicate YieldedSlice(raw: seq<byte>, start: nat, frame: seq<byte>) {
    && 0 < |frame| && start + |frame| <= |raw|
    && frame == raw[start..start + |frame|]
    && Candidate(raw[start..])
    && DeclaredLength(raw[start..]) == |frame|
  }

  ghost predicate AllSlices(raw: seq<byte>, starts: seq<nat>, frames: seq<seq<byte>>) {
    |starts| == |frames| && forall i :: 0 <= i < |frames| ==> YieldedSlice(raw, starts[i], frames[i])
  }

  ghost predicate Disjoint(starts: seq<nat>, frames: seq<seq<byte>>) {
    |starts| == |frames| && forall i, j :: 0 <= i < j < |frames| ==> starts[i] + |frames[i]| <= starts[j]
  }

  /** The yields are slices, in order, and none overlaps the next. */
  ghost predicate InOrder(raw: seq<byte>, starts: seq<nat>, frames: seq<seq<byte>>) {
    AllSlices(raw, starts, frames) && Disjoint(starts, frames)
  }

  lemma ShiftSlice(raw: seq<byte>, k: nat, start: nat, frame: seq<byte>)
    requires k <= |raw| && YieldedSlice(raw[k..], start, frame)
    ensures YieldedSlice(raw, k + start, frame)
  {
    assert raw[k..][start..] == raw[k + start..];
    assert raw[k..][start..start + |frame|] == raw[k + start..k + start + |frame|];
  }

  lemma ShiftInOrder(raw: seq<byte>, k: nat, starts: seq<nat>, frames: seq<seq<byte>>) returns (shifted: seq<nat>)
    requires k <= |raw| && InOrder(raw[k..], starts, frames)
    ensures InOrder(raw, shifted, frames)
    ensures forall i :: 0 <= i < |shifted| ==> shifted[i] == k + starts[i]
  {
    shifted := seq(|starts|, i requires 0 <= i < |starts| => k + starts[i]);
    forall i | 0 <= i < |frames|
      ensures YieldedSlice(raw, shifted[i], frames[i])
    {
      ShiftSlice(raw, k, starts[i], frames[i]);
    }
  }

  lemma FirstSlice(raw: seq<byte>)
    requires Candidate(raw) && 0 < DeclaredLength(raw) <= |raw|
    ensures YieldedSlice(raw, 0, raw[..DeclaredLength(raw)])
  {
    assert raw[0..] == raw && raw[0..DeclaredLength(raw)] == raw[..DeclaredLength(raw)];
  }

  lemma OneMoreSlice(raw: seq<byte>, start: nat, frame: seq<byte>, starts: seq<nat>, frames: seq<seq<byte>>)
    requires YieldedSlice(raw, start, frame) && AllSlices(raw, starts, frames)
    ensures AllSlices(raw, [start] + starts, [frame] + frames)
  {
    var ss, fs := [start] + starts, [frame] + frames;
    forall i | 0 <= i < |fs|
      ensures YieldedSlice(raw, ss[i], fs[i])
    {
      assert i > 0 ==> ss[i] == starts[i - 1] && fs[i] == frames[i - 1];
    }
  }

  lemma OneMoreDisjoint(start: nat, frame: seq<byte>, starts: seq<nat>, frames: seq<seq<byte>>)
    requires Disjoint(starts, frames) && forall i :: 0 <= i < |starts| ==> start + |frame| <= starts[i]
    ensures Disjoint([start] + starts, [frame] + frames)
  {
    var ss, fs := [start] + starts, [frame] + frames;
    assert forall i :: 1 <= i < |fs| ==> ss[i] == starts[i - 1] && fs[i] == frames[i - 1];
  }

  lemma FirstInOrder(raw: seq<byte>, starts: seq<nat>, frames: seq<seq<byte>>)
    requires Candidate(raw) && 0 < DeclaredLength(raw) <= |raw| && InOrder(raw, starts, frames)
    requires forall i :: 0 <= i < |starts| ==> DeclaredLength(raw) <= starts[i]
    ensures InOrder(raw, [0] + starts, [raw[..DeclaredLength(raw)]] + frames)
  {
    FirstSlice(raw);
    OneMoreSlice(raw, 0, raw[..DeclaredLength(raw)], starts, frames);
    OneMoreDisjoint(0, raw[..DeclaredLength(raw)], starts, frames);
  }

  /** A frame as the machine sends it. */
  predicate WellFormed(f: seq<byte>) {
    Candidate(f) && DeclaredLength(f) == |f|
  }

  predicate HeaderFree(noise: seq<byte>) {
    forall i :: 0 <= i < |noise| ==> !IsHeader(noise[i])
  }

  lemma {:induction false} SkipNoise(noise: seq<byte>, rest: seq<byte>)
    requires HeaderFree(noise)
    ensures ScanAll(noise + rest) == ScanAll(rest)
    decreases |noise|
  {
    if noise == [] {
      assert noise + rest == rest;
    } else {
      assert (noise + rest)[1..] == noise[1..] + rest;
      SkipNoise(noise[1..], rest);
    }
  }

  lemma YieldFrame(f: seq<byte>, rest: seq<byte>)
    requires WellFormed(f)
    ensures ScanAll(f + rest) == Scan([f] + ScanAll(rest).frames, ScanAll(rest).hangs)
  {
    var buffer := f + rest;
    assert forall i :: 0 <= i < PREAMBLE ==> buffer[i] == f[i];
    assert buffer[..|f|] == f && buffer[|f|..] == rest;
  }

  lemma CutFrameYieldsNothing(f: seq<byte>, cut: nat)
    requires WellFormed(f) && cut < |f|
    ensures ScanAll(f[..cut]) == Scan([], false)
  {
    var buffer := f[..cut];
    if cut >= PREAMBLE {
      assert forall i :: 0 <= i < PREAMBLE ==> buffer[i] == f[i];
    }
  }

  /** A buffer made of frames, each with noise before it. */
  datatype Burst = Burst(noise: seq<byte>, frame: seq<byte>)

  ghost predicate ValidBursts(bursts: seq<Burst>) {
    forall i :: 0 <= i < |bursts| ==> HeaderFree(bursts[i].noise) && WellFormed(bursts[i].frame)
  }

  function Flatten(bursts: seq<Burst>): seq<byte> {
    if bursts == [] then [] else bursts[0].noise + bursts[0].frame + Flatten(bursts[1..])
  }

  function FramesOf(bursts: seq<Burst>): (r: seq<seq<byte>>)
    ensures |r| == |bursts| && forall i :: 0 <= i < |r| ==> r[i] == bursts[i].frame
  {
    seq(|bursts|, i requires 0 <= i < |bursts| => bursts[i].frame)
  }

  lemma FlattenFirst(bursts: seq<Burst>, rest: seq<byte>)
    requires bursts != []
    ensures Flatten(bursts) + rest == bursts[0].noise + (bursts[0].frame + (Flatten(bursts[1..]) + rest))
  {
  }

  lemma FramesFirst(bursts: seq<Burst>, more: seq<seq<byte>>)
    requires bursts != []
    ensures FramesOf(bursts) + more == [bursts[0].frame] + (FramesOf(bursts[1..]) + more)
  {
    assert FramesOf(bursts) == [bursts[0].frame] + FramesOf(bursts[1..]);
  }

  lemma {:induction false} YieldBursts(bursts: seq<Burst>, rest: seq<byte>)
    requires ValidBursts(bursts)
    ensures ScanAll(Flatten(bursts) + rest)
         == Scan(FramesOf(bursts) + ScanAll(rest).frames, ScanAll(rest).hangs)
    decreases |bursts|
  {
    if bursts == [] {
      assert Flatten(bursts) + rest == rest;
      assert FramesOf(bursts) == [];
    } else {
      var b := bursts[0];
      var more := Flatten(bursts[1..]) + rest;
      FlattenFirst(bursts, rest);
      SkipNoise(b.noise, b.frame + more);
      YieldFrame(b.frame, more);
      YieldBursts(bursts[1..], rest);
      FramesFirst(bursts, ScanAll(rest).frames);
    }
  }

  /** Noise, then frames with noise between them, then more noise, then a frame cut short: the
      scanner returns, and yields exactly the whole frames, in order. */
  lemma ScannerRecoversFrames(bursts: seq<Burst>, noise: seq<byte>, f: seq<byte>, cut: nat)
    requires ValidBursts(bursts) && HeaderFree(noise) && WellFormed(f) && cut < |f|
    ensures ScanAll(Flatten(bursts) + (noise + f[..cut])) == Scan(FramesOf(bursts), false)
  {
    YieldBursts(bursts, noise + f[..cut]);
    SkipNoise(noise, f[..cut]);
    CutFrameYieldsNothing(f, cut);
  }

  // ------------------------------------------------------------------
  // Exactly what the scanner finds, and when it returns
  // ------------------------------------------------------------------

  predicate ZeroCandidate(buffer: seq<byte>) { Candidate(buffer) && DeclaredLength(buffer) == 0 }

  /** Where the scanner stops for good: the end, a header too close to the end to be judged, a
      frame that is not all there, or a candidate of length zero. */
  predicate StopsAt(buffer: seq<byte>) {
    || buffer == []
    || (IsHeader(buffer[0]) && |buffer| < PREAMBLE)
    || (Candidate(buffer) && DeclaredLength(buffer) > |buffer|)
    || ZeroCandidate(buffer)
  }

  ghost predicate Inside(p: nat, starts: seq<nat>, frames: seq<seq<byte>>) {
    |starts| == |frames| && exists i :: 0 <= i < |starts| && starts[i] <= p < starts[i] + |frames[i]|
  }

  /** Every position before the stop belongs to a yielded slice or starts no frame. */
  ghost predicate Complete(raw: seq<byte>, stop: nat, starts: seq<nat>, frames: seq<seq<byte>>)
    requires stop <= |raw|
  {
    forall p :: 0 <= p < stop ==> Inside(p, starts, frames) || !Candidate(raw[p..])
  }

  ghost predicate EndBefore(stop: nat, starts: seq<nat>, frames: seq<seq<byte>>) {
    |starts| == |frames| && forall i :: 0 <= i < |starts| ==> starts[i] + |frames[i]| <= stop
  }

  lemma ShiftComplete(raw: seq<byte>, k: nat, stop: nat, starts: seq<nat>, shifted: seq<nat>, frames: seq<seq<byte>>)
    requires k <= |raw| && stop <= |raw| - k && |starts| == |frames| == |shifted|
    requires forall i :: 0 <= i < |starts| ==> shifted[i] == k + starts[i]
    requires Complete(raw[k..], stop, starts, frames)
    ensures forall p :: k <= p < k + stop ==> Inside(p, shifted, frames) || !Candidate(raw[p..])
  {
    forall p | k <= p < k + stop
      ensures Inside(p, shifted, frames) || !Candidate(raw[p..])
    {
      assert raw[k..][p - k..] == raw[p..];
      if Inside(p - k, starts, frames) {
        var i :| 0 <= i < |starts| && starts[i] <= p - k < starts[i] + |frames[i]|;
        assert shifted[i] <= p < shifted[i] + |frames[i]|;
      }
    }
  }

  /** The scan of `raw` yields the slices at `starts`, misses nothing before `stop`, stops there,
      and hangs exactly if a candidate of length zero stands there. */
  ghost predicate Found(raw: seq<byte>, scan: Scan, starts: seq<nat>, stop: nat) {
    && InOrder(raw, starts, scan.frames)
    && stop <= |raw| && StopsAt(raw[stop..])
    && EndBefore(stop, starts, scan.frames) && Complete(raw, stop, starts, scan.frames)
    && (scan.hangs <==> ZeroCandidate(raw[stop..]))
  }

  lemma FoundLater(raw: seq<byte>, k: nat, scan: Scan, more: seq<nat>, rest: nat) returns (shifted: seq<nat>)
    requires 0 < k <= |raw| && Found(raw[k..], scan, more, rest)
    ensures InOrder(raw, shifted, scan.frames) && EndBefore(k + rest, shifted, scan.frames)
    ensures forall i :: 0 <= i < |shifted| ==> k <= shifted[i]
    ensures forall p :: k <= p < k + rest ==> Inside(p, shifted, scan.frames) || !Candidate(raw[p..])
    ensures raw[k + rest..] == raw[k..][rest..]
  {
    shifted := ShiftInOrder(raw, k, more, scan.frames);
    ShiftComplete(raw, k, rest, more, shifted, scan.frames);
  }

  lemma OneMoreEnd(stop: nat, start: nat, frame: seq<byte>, starts: seq<nat>, frames: seq<seq<byte>>)
    requires start + |frame| <= stop && EndBefore(stop, starts, frames)
    ensures EndBefore(stop, [start] + starts, [frame] + frames)
  {
    var ss, fs := [start] + starts, [frame] + frames;
    assert forall i :: 1 <= i < |fs| ==> ss[i] == starts[i - 1] && fs[i] == frames[i - 1];
  }

  /** A byte that starts no frame is passed over. */
  lemma FoundPastByte(raw: seq<byte>, scan: Scan, more: seq<nat>, rest: nat) returns (starts: seq<nat>)
    requires raw != [] && !Candidate(raw) && Found(raw[1..], scan, more, rest)
    ensures Found(raw, scan, starts, 1 + rest)
  {
    starts := FoundLater(raw, 1, scan, more, rest);
    assert raw[0..] == raw;
  }

  /** A whole frame is yielded and passed over. */
  lemma FoundPastFrame(raw: seq<byte>, scan: Scan, more: seq<nat>, rest: nat) returns (starts: seq<nat>)
    requires Candidate(raw) && 0 < DeclaredLength(raw) <= |raw| && Found(raw[DeclaredLength(raw)..], scan, more, rest)
    ensures Found(raw, Scan([raw[..DeclaredLength(raw)]] + scan.frames, scan.hangs), starts, DeclaredLength(raw) + rest)
  {
    var k := DeclaredLength(raw);
    var shifted := FoundLater(raw, k, scan, more, rest);
    FirstInOrder(raw, shifted, scan.frames);
    FirstComplete(raw, k, k + rest, shifted, scan.frames);
    OneMoreEnd(k + rest, 0, raw[..k], shifted, scan.frames);
    starts := [0] + shifted;
  }

  /** On any buffer the scanner yields in-order, disjoint, checked slices and misses nothing: up to
      the position where it stops, whatever is not inside a yielded slice starts no frame. It
      never returns exactly if it stops at a candidate of length zero. */
  lemma {:induction false} ScanExactly(raw: seq<byte>) returns (starts: seq<nat>, stop: nat)
    ensures Found(raw, ScanAll(raw), starts, stop)
    decreases |raw|
  {
    if StopsAt(raw) {
      starts, stop := [], 0;
      assert raw[0..] == raw;
    } else if Candidate(raw) {
      var k := DeclaredLength(raw);
      var more, rest := ScanExactly(raw[k..]);
      starts := FoundPastFrame(raw, ScanAll(raw[k..]), more, rest);
      stop := k + rest;
    } else {
      var more, rest := ScanExactly(raw[1..]);
      starts := FoundPastByte(raw, ScanAll(raw[1..]), more, rest);
      stop := 1 + rest;
    }
  }

  lemma FirstComplete(raw: seq<byte>, k: nat, stop: nat, shifted: seq<nat>, frames: seq<seq<byte>>)
    requires 0 < k <= stop <= |raw| && |shifted| == |frames|
    requires forall p :: k <= p < stop ==> Inside(p, shifted, frames) || !Candidate(raw[p..])
    ensures Complete(raw, stop, [0] + shifted, [raw[..k]] + frames)
  {
    var ss, fs := [0] + shifted, [raw[..k]] + frames;
    forall p | 0 <= p < stop
      ensures Inside(p, ss, fs) || !Candidate(raw[p..])
    {
      if p < k {
        assert ss[0] <= p < ss[0] + |fs[0]|;
      } else if Inside(p, shifted, frames) {
        var i :| 0 <= i < |shifted| && shifted[i] <= p < shifted[i] + |frames[i]|;
        assert ss[i + 1] <= p < ss[i + 1] + |fs[i + 1]|;
      }
    }
  }

  /** Frames and noise followed by a zero-length candidate: the frames come out, and then the
      scanner makes no progress. */
  lemma ZeroLengthHangs(bursts: seq<Burst>, noise: seq<byte>, zero: seq<byte>)
    requires ValidBursts(bursts) && HeaderFree(noise) && ZeroCandidate(zero)
    ensures ScanAll(Flatten(bursts) + (noise + zero)) == Scan(FramesOf(bursts), true)
  {
    YieldBursts(bursts, noise + zero);
    SkipNoise(noise, zero);
  }
}
