/** The recipe compiler: build_recipe_payload of ble/models.py and the tea and coffee payload
    builders of brewing.py, with decoders for what they emit. */
module Payload {
  import opened Basics
  import opened Numbers

  datatype PourStep = PourStep(volume: int, temperature: int, flowRate: real, pausing: int, pattern: int, vibration: int)

  datatype Recipe = Recipe(grindSize: int, totalWater: int, rpm: int, cupType: int, beanWeight: real, pours: seq<PourStep>)

  /** CupType.TEA. */
  const TEA_CUP := 4

  /** The construction checks of PourStep. */
  predicate ValidPour(p: PourStep) {
    && (p.flowRate == 0.0 || 3.0 <= p.flowRate <= 3.5)
    && (p.temperature == 0 || 40 <= p.temperature <= 100)
    && p.volume >= 0 && p.pausing >= 0
    && 0 <= p.pattern <= 2 && 0 <= p.vibration <= 3
  }

  /** The construction checks of XBloomRecipe. */
  predicate ValidRecipe(r: Recipe) {
    && 0 <= r.grindSize <= 150
    && r.rpm in {0, 60, 70, 80, 90, 100, 110, 120}
    && |r.pours| <= 20
    && 0.0 <= r.beanWeight <= 100.0
    && forall i :: 0 <= i < |r.pours| ==> ValidPour(r.pours[i])
  }

  // ------------------------------------------------------------------
  // Blocks
  // ------------------------------------------------------------------

  /** Payload bodies are sequences of 4-byte blocks. */
  datatype Block = Block(b0: byte, b1: byte, b2: byte, b3: byte)

  function Flat(blocks: seq<Block>): (r: seq<byte>)
    ensures |r| == 4 * |blocks|
  {
    if blocks == [] then []
    else [blocks[0].b0, blocks[0].b1, blocks[0].b2, blocks[0].b3] + Flat(blocks[1..])
  }

  function Unflat(bytes: seq<byte>): seq<Block>
    requires |bytes| % 4 == 0
  {
    if bytes == [] then []
    else [Block(bytes[0], bytes[1], bytes[2], bytes[3])] + Unflat(bytes[4..])
  }

  lemma {:induction false} UnflatFlat(blocks: seq<Block>)
    ensures Unflat(Flat(blocks)) == blocks
  {
    if blocks != [] {
      assert Flat(blocks)[4..] == Flat(blocks[1..]);
      UnflatFlat(blocks[1..]);
    }
  }

  lemma {:induction false} FlatAppend(a: seq<Block>, b: seq<Block>)
    ensures Flat(a + b) == Flat(a) + Flat(b)
  {
    if a == [] {
      assert a + b == b;
    } else {
      assert (a + b)[1..] == a[1..] + b;
      FlatAppend(a[1..], b);
    }
  }

  function Low(n: int): byte { n % 256 }

  function FlowByte(p: PourStep): byte { Low(Trunc(p.flowRate * 10.0)) }

  // ------------------------------------------------------------------
  // The common coffee body
  // ------------------------------------------------------------------

  /** struct.pack accepts the fields of the pour's sub-steps. */
  predicate Packable(p: PourStep) {
    p.volume >= 0 && 0 <= p.temperature < 256 && 0 <= p.pattern < 256 && 0 <= p.vibration < 256
  }

  predicate AllPackable(pours: seq<PourStep>) {
    forall i :: 0 <= i < |pours| ==> Packable(pours[i])
  }

  function StepBlock(volume: byte, p: PourStep): Block
    requires Packable(p)
  {
    Block(volume, p.temperature, p.pattern, p.vibration)
  }

  function Repeat(b: Block, n: nat): (r: seq<Block>)
    ensures |r| == n && forall i :: 0 <= i < n ==> r[i] == b
  {
    seq(n, _ => b)
  }

  /** The sub-steps of one pour: 127 ml chunks and a remainder. */
  function SubSteps(p: PourStep): seq<Block>
    requires Packable(p)
  {
    if p.volume > 127 then
      Repeat(StepBlock(127, p), p.volume / 127)
      + (if p.volume % 127 > 0 then [StepBlock(p.volume % 127, p)] else [])
    else
      [StepBlock(p.volume, p)]
  }

  /** The block that closes a pour: pause, a zero byte, the grinder speed and the flow. */
  function MetaBlock(p: PourStep, rpm: byte): Block {
    Block(Low(-p.pausing), 0, rpm, FlowByte(p))
  }

  function Body(pours: seq<PourStep>, rpm: byte): seq<Block>
    requires AllPackable(pours)
  {
    if pours == [] then []
    else SubSteps(pours[0]) + [MetaBlock(pours[0], rpm)] + Body(pours[1..], 0)
  }

  /** A payload, or `None` where the source raises struct.error. */
  function Assemble(blocks: seq<Block>, grind: byte, last: byte): Option<seq<byte>> {
    if 4 * |blocks| > 255 then None else Some([4 * |blocks|] + Flat(blocks) + [grind, last])
  }

  function BasePayload(r: Recipe): Option<seq<byte>> {
    if !AllPackable(r.pours) then None
    else Assemble(Body(r.pours, Low(r.rpm)), Low(r.grindSize), Low(r.totalWater * 10))
  }

  lemma NextPackable(pours: seq<PourStep>, i: nat)
    requires i < |pours|
    ensures AllPackable(pours[i..]) <==> Packable(pours[i]) && AllPackable(pours[i + 1..])
    ensures AllPackable(pours[..i]) && Packable(pours[i]) ==> AllPackable(pours[..i + 1])
  {
    assert pours[i..] == [pours[i]] + pours[i + 1..];
    assert pours[..i + 1] == pours[..i] + [pours[i]];
  }

  /** The blocks of the first i pours, if the whole list packs. */
  ghost predicate BodySoFar(r: Recipe, i: nat, parts: seq<Block>)
    requires i <= |r.pours|
  {
    AllPackable(r.pours) ==>
      AllPackable(r.pours[i..]) && parts + Body(r.pours[i..], RpmByte(r, i)) == Body(r.pours, Low(r.rpm))
  }

  lemma BodyFrom(pours: seq<PourStep>, i: nat, rpm: byte)
    requires i < |pours| && AllPackable(pours[i..])
    ensures AllPackable(pours[i + 1..]) && Packable(pours[i])
    ensures Body(pours[i..], rpm) == SubSteps(pours[i]) + [MetaBlock(pours[i], rpm)] + Body(pours[i + 1..], 0)
  {
    NextPackable(pours, i);
    assert pours[i..][1..] == pours[i + 1..];
  }

  lemma NextBody(r: Recipe, i: nat, parts: seq<Block>)
    requires i < |r.pours| && Packable(r.pours[i]) && BodySoFar(r, i, parts)
    ensures BodySoFar(r, i + 1, parts + SubSteps(r.pours[i]) + [MetaBlock(r.pours[i], RpmByte(r, i))])
  {
    if AllPackable(r.pours) {
      BodyFrom(r.pours, i, RpmByte(r, i));
      Regroup(parts, SubSteps(r.pours[i]), [MetaBlock(r.pours[i], RpmByte(r, i))], Body(r.pours[i + 1..], 0));
    }
  }

  /** build_recipe_payload. */
  method BuildRecipePayload(r: Recipe) returns (payload: Option<seq<byte>>)
    ensures payload == BasePayload(r)
  {
    var parts: seq<Block> := [];
    var i := 0;
    assert r.pours[0..] == r.pours;
    while i < |r.pours|
      invariant 0 <= i <= |r.pours| && AllPackable(r.pours[..i]) && BodySoFar(r, i, parts)
    {
      var pour := r.pours[i];
      NextPackable(r.pours, i);
      if !Packable(pour) {
        return None;
      }
      NextBody(r, i, parts);
      var subSteps := BuildSubSteps(pour);
      parts := parts + subSteps;
      parts := parts + [MetaBlock(pour, RpmByte(r, i))];
      i := i + 1;
    }
    assert r.pours[..i] == r.pours && r.pours[i..] == [] && parts + [] == parts;
    payload := Assemble(parts, Low(r.grindSize), Low(r.totalWater * 10));
  }

  function RpmByte(r: Recipe, i: nat): byte { if i == 0 then Low(r.rpm) else 0 }

  method BuildSubSteps(p: PourStep) returns (steps: seq<Block>)
    requires Packable(p)
    ensures steps == SubSteps(p)
  {
    steps := [];
    if p.volume > 127 {
      var chunks, remainder := p.volume / 127, p.volume % 127;
      var k := 0;
      while k < chunks
        invariant 0 <= k <= chunks
        invariant steps == Repeat(StepBlock(127, p), k)
      {
        steps := steps + [StepBlock(127, p)];
        k := k + 1;
      }
      if remainder > 0 {
        steps := steps + [StepBlock(remainder, p)];
      }
    } else {
      steps := steps + [StepBlock(p.volume, p)];
    }
  }

  // ------------------------------------------------------------------
  // What a body says
  // ------------------------------------------------------------------

  /** A pour as far as the wire carries it. */
  datatype WirePour = WirePour(volume: int, temperature: int, pattern: int, vibration: int, pause: int, rpm: int, flow: int)

  function OnWire(p: PourStep, rpm: byte): WirePour {
    WirePour(p.volume, p.temperature, p.pattern, p.vibration, p.pausing % 256, rpm, Trunc(p.flowRate * 10.0) % 256)
  }

  /** The grinder speed travels with the first pour only. */
  function AllOnWire(pours: seq<PourStep>, rpm: byte): (r: seq<WirePour>)
    ensures |r| == |pours|
    ensures forall i :: 0 <= i < |r| ==> r[i] == OnWire(pours[i], if i == 0 then rpm else 0)
  {
    seq(|pours|, i requires 0 <= i < |pours| => OnWire(pours[i], if i == 0 then rpm else 0))
  }

  /** Reads blocks up to the next block with a zero second byte as one pour. `sofar` is the
      volume and `step` the last sub-step of the pour being read. */
  function Decode(blocks: seq<Block>, sofar: int, step: Block): seq<WirePour>
    decreases |blocks|
  {
    if blocks == [] then []
    else if blocks[0].b1 == 0 then
      [WirePour(sofar, step.b1, step.b2, step.b3, (256 - blocks[0].b0) % 256, blocks[0].b2, blocks[0].b3)]
      + Decode(blocks[1..], 0, blocks[0])
    else
      Decode(blocks[1..], sofar + blocks[0].b0, blocks[0])
  }

  lemma {:induction false} DecodeRepeat(b: Block, n: nat, rest: seq<Block>, sofar: int)
    requires b.b0 == 127 && b.b1 != 0
    ensures Decode(Repeat(b, n) + rest, sofar, b) == Decode(rest, sofar + 127 * n, b)
    decreases n
  {
    var blocks := Repeat(b, n) + rest;
    if n == 0 {
      assert blocks == rest;
    } else {
      assert blocks[0] == b;
      assert blocks[1..] == Repeat(b, n - 1) + rest;
      DecodeRepeat(b, n - 1, rest, sofar + 127);
    }
  }

  /** A pour's own temperature tells its sub-steps from the closing block. */
  ghost predicate Heated(p: PourStep) { Packable(p) && p.temperature > 0 }

  ghost predicate AllHeated(pours: seq<PourStep>) {
    AllPackable(pours) && forall i :: 0 <= i < |pours| ==> pours[i].temperature > 0
  }

  lemma DecodeFirst(blocks: seq<Block>, sofar: int, any: Block, other: Block)
    requires blocks != [] && blocks[0].b1 != 0
    ensures Decode(blocks, sofar, any) == Decode(blocks, sofar, other)
  {
  }

  lemma DecodeStep(b: Block, rest: seq<Block>, sofar: int, any: Block)
    requires b.b1 != 0
    ensures Decode([b] + rest, sofar, any) == Decode(rest, sofar + b.b0, b)
  {
    assert ([b] + rest)[1..] == rest;
  }

  /** The sub-steps of a pour are read as its volume, with its own fields in the last of them. */
  lemma DecodeSubSteps(p: PourStep, rest: seq<Block>, any: Block) returns (last: Block)
    requires Heated(p)
    ensures Decode(SubSteps(p) + rest, 0, any) == Decode(rest, p.volume, last)
    ensures last.b1 == p.temperature && last.b2 == p.pattern && last.b3 == p.vibration
  {
    if p.volume <= 127 {
      last := StepBlock(p.volume, p);
      DecodeStep(last, rest, 0, any);
    } else {
      last := StepBlock(127, p);
      var chunks, left := p.volume / 127, p.volume % 127;
      var tail := if left > 0 then [StepBlock(left, p)] + rest else rest;
      assert SubSteps(p) + rest == Repeat(last, chunks) + tail;
      DecodeFirst(Repeat(last, chunks) + tail, 0, any, last);
      DecodeRepeat(last, chunks, tail, 0);
      if left > 0 {
        DecodeStep(StepBlock(left, p), rest, 127 * chunks, last);
        last := StepBlock(left, p);
      }
    }
  }

  lemma DecodePour(p: PourStep, rpm: byte, rest: seq<Block>, any: Block)
    requires Heated(p)
    ensures Decode(SubSteps(p) + [MetaBlock(p, rpm)] + rest, 0, any)
         == [OnWire(p, rpm)] + Decode(rest, 0, MetaBlock(p, rpm))
  {
    var closing := [MetaBlock(p, rpm)] + rest;
    assert SubSteps(p) + [MetaBlock(p, rpm)] + rest == SubSteps(p) + closing;
    var last := DecodeSubSteps(p, closing, any);
    DecodeClosing(p, rpm, rest, p.volume, last);
  }

  lemma DecodeClosing(p: PourStep, rpm: byte, rest: seq<Block>, sofar: int, step: Block)
    requires Packable(p) && sofar == p.volume && step.b1 == p.temperature && step.b2 == p.pattern && step.b3 == p.vibration
    ensures Decode([MetaBlock(p, rpm)] + rest, sofar, step) == [OnWire(p, rpm)] + Decode(rest, 0, MetaBlock(p, rpm))
  {
    assert ([MetaBlock(p, rpm)] + rest)[1..] == rest;
    PauseReadsBack(p.pausing);
  }

  lemma PauseReadsBack(n: int)
    ensures (256 - Low(-n)) % 256 == n % 256
  {
  }

  /** The body of a coffee recipe is uniquely decodable: reading its blocks back gives every
      pour's volume, temperature, pattern, vibration, pause (mod 256) and flow in tenths. */
  lemma {:induction false} CoffeeBodyDecodes(pours: seq<PourStep>, rpm: byte, any: Block)
    requires AllHeated(pours)
    ensures Decode(Body(pours, rpm), 0, any) == AllOnWire(pours, rpm)
    decreases |pours|
  {
    if pours != [] {
      DecodePour(pours[0], rpm, Body(pours[1..], 0), any);
      CoffeeBodyDecodes(pours[1..], 0, MetaBlock(pours[0], rpm));
      assert AllOnWire(pours, rpm) == [OnWire(pours[0], rpm)] + AllOnWire(pours[1..], 0);
    }
  }

  // A pour is read for every block with a zero second byte, so sub-steps that have one too
  // (temperature 0) give more pours than there are.

  function Closings(blocks: seq<Block>): nat {
    if blocks == [] then 0 else (if blocks[0].b1 == 0 then 1 else 0) + Closings(blocks[1..])
  }

  lemma {:induction false} DecodeCount(blocks: seq<Block>, sofar: int, step: Block)
    ensures |Decode(blocks, sofar, step)| == Closings(blocks)
    decreases |blocks|
  {
    if blocks != [] {
      DecodeCount(blocks[1..], 0, blocks[0]);
      DecodeCount(blocks[1..], sofar + blocks[0].b0, blocks[0]);
    }
  }

  lemma {:induction false} ClosingsAppend(a: seq<Block>, b: seq<Block>)
    ensures Closings(a + b) == Closings(a) + Closings(b)
    decreases |a|
  {
    if a == [] {
      assert a + b == b;
    } else {
      assert (a + b)[1..] == a[1..] + b;
      ClosingsAppend(a[1..], b);
    }
  }

  lemma {:induction false} UnheatedAddsClosings(pours: seq<PourStep>, rpm: byte)
    requires AllPackable(pours)
    ensures Closings(Body(pours, rpm)) >= |pours|
    ensures !AllHeated(pours) ==> Closings(Body(pours, rpm)) > |pours|
    decreases |pours|
  {
    if pours != [] {
      var steps, closing, rest := SubSteps(pours[0]), [MetaBlock(pours[0], rpm)], Body(pours[1..], 0);
      UnheatedAddsClosings(pours[1..], 0);
      ClosingsAppend(steps + closing, rest);
      ClosingsAppend(steps, closing);
      assert Closings(closing) == 1;
      assert pours[0].temperature == 0 ==> steps[0].b1 == 0 && Closings(steps) >= 1;
      assert AllHeated(pours[1..]) && pours[0].temperature > 0 ==> AllHeated(pours) by {
        assert forall i :: 1 <= i < |pours| ==> pours[i] == pours[1..][i - 1];
      }
    }
  }

  /** For every list of pours that packs: its body reads back to it exactly when every pour has a
      temperature. */
  lemma DecodesIffHeated(pours: seq<PourStep>, rpm: byte, any: Block)
    requires AllPackable(pours)
    ensures Decode(Body(pours, rpm), 0, any) == AllOnWire(pours, rpm)
            <==> forall i :: 0 <= i < |pours| ==> pours[i].temperature > 0
  {
    if AllHeated(pours) {
      CoffeeBodyDecodes(pours, rpm, any);
    } else {
      UnheatedAddsClosings(pours, rpm);
      DecodeCount(Body(pours, rpm), 0, any);
    }
  }

  /** The blocks between the length byte and the footer; `None` if the length byte is not that
      of the body. */
  function BlocksOf(payload: seq<byte>): Option<seq<Block>> {
    var n := |payload|;
    if n < 3 || payload[0] != n - 3 || (n - 3) % 4 != 0 then None
    else Some(Unflat(payload[1..n - 2]))
  }

  const ZERO_BLOCK := Block(0, 0, 0, 0)

  lemma AssembledBlocks(blocks: seq<Block>, grind: byte, last: byte)
    requires 4 * |blocks| <= 255
    ensures BlocksOf(Assemble(blocks, grind, last).value) == Some(blocks)
  {
    var body := Flat(blocks);
    assert ([|body|] + body + [grind, last])[1..1 + |body|] == body;
    UnflatFlat(blocks);
  }

  /** The same from the bytes of a whole payload: nothing the wire carries is lost, and the
      footer holds the grind size. */
  lemma CoffeePayloadDecodes(r: Recipe)
    requires AllHeated(r.pours) && CoffeePayload(r).Some?
    ensures var payload := CoffeePayload(r).value;
            && BlocksOf(payload).Some?
            && Decode(BlocksOf(payload).value, 0, ZERO_BLOCK) == AllOnWire(r.pours, Low(r.rpm))
            && payload[|payload| - 2] == Low(r.grindSize)
  {
    SumNonNegative(r.pours);
    AssembledBlocks(Body(r.pours, Low(r.rpm)), Low(r.grindSize), RatioByte(r));
    CoffeeBodyDecodes(r.pours, Low(r.rpm), ZERO_BLOCK);
  }

  ghost function SumOfFirst(blocks: seq<Block>): int {
    if blocks == [] then 0 else blocks[0].b0 + SumOfFirst(blocks[1..])
  }

  lemma {:induction false} SumRepeat(b: Block, n: nat, rest: seq<Block>)
    ensures SumOfFirst(Repeat(b, n) + rest) == n * b.b0 + SumOfFirst(rest)
  {
    if n == 0 {
      assert Repeat(b, n) + rest == rest;
    } else {
      assert (Repeat(b, n) + rest)[1..] == Repeat(b, n - 1) + rest;
      SumRepeat(b, n - 1, rest);
    }
  }

  /** Chunking keeps every sub-step at 127 ml or less and loses no water. */
  lemma ChunksCarryTheVolume(p: PourStep)
    requires Packable(p)
    ensures SumOfFirst(SubSteps(p)) == p.volume
    ensures forall i :: 0 <= i < |SubSteps(p)| ==> SubSteps(p)[i].b0 <= 127
    ensures |SubSteps(p)| == if p.volume <= 127 then 1 else (p.volume + 126) / 127
  {
    if p.volume > 127 {
      var tail := if p.volume % 127 > 0 then [StepBlock(p.volume % 127, p)] else [];
      SumRepeat(StepBlock(127, p), p.volume / 127, tail);
      assert p.volume % 127 > 0 ==> tail[1..] == [];
    }
  }

  lemma {:induction false} BodyLength(pours: seq<PourStep>, rpm: byte)
    requires AllPackable(pours) && forall i :: 0 <= i < |pours| ==> pours[i].volume <= 254
    ensures |Body(pours, rpm)| <= 3 * |pours|
    decreases |pours|
  {
    if pours != [] {
      ChunksCarryTheVolume(pours[0]);
      BodyLength(pours[1..], 0);
    }
  }

  /** Up to 20 pours of up to 254 ml always fit the length byte. */
  lemma LengthByteNeverOverflows(r: Recipe)
    requires ValidRecipe(r) && forall i :: 0 <= i < |r.pours| ==> r.pours[i].volume <= 254
    ensures BasePayload(r).Some? && CoffeePayload(r).Some?
  {
    BodyLength(r.pours, Low(r.rpm));
    assert AllPackable(r.pours);
  }

  // Construction also allows temperature 0, where sub-steps and closing blocks look alike.

  const LONG_POUR := PourStep(264, 0, 0.0, 0, 0, 0)
  const FIRST_POUR := PourStep(127, 0, 0.0, 129, 0, 0)
  const SECOND_POUR := PourStep(10, 0, 0.0, 0, 0, 0)

  lemma OnePourBody(p: PourStep, rpm: byte)
    requires Packable(p)
    ensures Body([p], rpm) == SubSteps(p) + [MetaBlock(p, rpm)]
  {
    assert [p][1..] == [];
  }

  lemma TwoPourBody(p: PourStep, q: PourStep, rpm: byte)
    requires Packable(p) && Packable(q)
    ensures Body([p, q], rpm) == SubSteps(p) + [MetaBlock(p, rpm)] + Body([q], 0)
  {
    assert [p, q][1..] == [q];
  }

  /** With unheated pours two different valid pour lists compile to the same body: one pour of
      264 ml reads like a 127 ml pour with a 129 s pause followed by a 10 ml pour. */
  lemma UnheatedPoursAreAmbiguous()
    ensures ValidPour(LONG_POUR) && ValidPour(FIRST_POUR) && ValidPour(SECOND_POUR)
    ensures AllOnWire([LONG_POUR], 0) != AllOnWire([FIRST_POUR, SECOND_POUR], 0)
    ensures Body([LONG_POUR], 0) == Body([FIRST_POUR, SECOND_POUR], 0)
  {
    OnePourBody(LONG_POUR, 0);
    OnePourBody(SECOND_POUR, 0);
    TwoPourBody(FIRST_POUR, SECOND_POUR, 0);
    assert Repeat(Block(127, 0, 0, 0), 2) == [Block(127, 0, 0, 0), Block(127, 0, 0, 0)];
    assert SubSteps(LONG_POUR) == [Block(127, 0, 0, 0), Block(127, 0, 0, 0), Block(10, 0, 0, 0)];
    assert MetaBlock(FIRST_POUR, 0) == Block(127, 0, 0, 0);
    assert |AllOnWire([LONG_POUR], 0)| == 1 && |AllOnWire([FIRST_POUR, SECOND_POUR], 0)| == 2;
  }

  // ------------------------------------------------------------------
  // The coffee footer
  // ------------------------------------------------------------------

  function SumVolumes(pours: seq<PourStep>): int {
    if pours == [] then 0 else pours[0].volume + SumVolumes(pours[1..])
  }

  lemma {:induction false} SumNonNegative(pours: seq<PourStep>)
    requires AllPackable(pours)
    ensures SumVolumes(pours) >= 0
  {
    if pours != [] {
      SumNonNegative(pours[1..]);
    }
  }

  function RatioByte(r: Recipe): (b: byte)
    requires SumVolumes(r.pours) >= 0
  {
    if r.beanWeight <= 0.0 then 0
    else
      var tenths := Ceil(SumVolumes(r.pours) as real / r.beanWeight * 10.0);
      assert tenths >= 0 by { Quotient(SumVolumes(r.pours) as real, r.beanWeight); }
      if tenths > 255 then 255 else tenths
  }

  lemma Quotient(x: real, y: real)
    requires x >= 0.0 && y > 0.0
    ensures x / y >= 0.0 && x / y * y == x
  {
  }

  function CoffeePayload(r: Recipe): Option<seq<byte>> {
    if BasePayload(r).None? then None
    else
      SumNonNegative(r.pours);
      Assemble(Body(r.pours, Low(r.rpm)), Low(r.grindSize), RatioByte(r))
  }

  /** _build_coffee_recipe_payload: the base payload with the ratio as its last byte. */
  method BuildCoffeeRecipePayload(r: Recipe) returns (payload: Option<seq<byte>>)
    ensures payload == CoffeePayload(r)
  {
    var vendored := BuildRecipePayload(r);
    if vendored.None? {
      return None;
    }
    var n := |vendored.value|;
    var body := vendored.value[1..n - 2];
    ghost var blocks := Body(r.pours, Low(r.rpm));
    assert body == Flat(blocks);
    SumNonNegative(r.pours);
    var total := 0;
    var i := 0;
    while i < |r.pours|
      invariant 0 <= i <= |r.pours|
      invariant total + SumVolumes(r.pours[i..]) == SumVolumes(r.pours)
    {
      assert r.pours[i..][1..] == r.pours[i + 1..];
      total := total + r.pours[i].volume;
      i := i + 1;
    }
    var ratio := if r.beanWeight > 0.0 then total as real / r.beanWeight else 0.0;
    var tenths := Ceil(ratio * 10.0);
    var ratioByte := if tenths > 0xFF then 0xFF else tenths;
    assert ratioByte == RatioByte(r);
    payload := Some([|body|] + body + [Low(r.grindSize), RatioByte(r)]);
  }

  /** The firmware reads dose x byte / 10 as the expected water. As long as a byte can hold the
      ratio it never undershoots the pours and overshoots by less than a tenth of the dose;
      beyond that it is 255. */
  lemma RatioNeverUndershoots(r: Recipe)
    requires AllPackable(r.pours) && r.beanWeight > 0.0
    ensures SumVolumes(r.pours) >= 0
    ensures var sum, dose, b := SumVolumes(r.pours) as real, r.beanWeight, RatioByte(r) as real;
            if 10.0 * sum <= 255.0 * dose
            then 10.0 * sum <= dose * b < 10.0 * sum + dose
            else RatioByte(r) == 255
  {
    SumNonNegative(r.pours);
    var sum, dose := SumVolumes(r.pours) as real, r.beanWeight;
    var tenths := Ceil(sum / dose * 10.0);
    TenthsBounds(sum, dose, tenths);
    ClampedTenths(r, tenths);
    ByteBounds(sum, dose, tenths, RatioByte(r));
  }

  lemma ByteBounds(sum: real, dose: real, tenths: int, b: int)
    requires dose > 0.0 && 10.0 * sum <= dose * (tenths as real) < 10.0 * sum + dose
    requires b == if tenths > 255 then 255 else tenths
    ensures if 10.0 * sum <= 255.0 * dose then 10.0 * sum <= dose * (b as real) < 10.0 * sum + dose else b == 255
  {
    var product := dose * (tenths as real);
    if 10.0 * sum <= 255.0 * dose {
      Unscale(dose, tenths as real, 256.0, product, dose * 256.0);
      assert b == tenths;
    } else {
      Unscale(dose, 255.0, tenths as real, dose * 255.0, product);
    }
  }

  lemma ClampedTenths(r: Recipe, tenths: int)
    requires SumVolumes(r.pours) >= 0 && r.beanWeight > 0.0 && tenths == Ceil(SumVolumes(r.pours) as real / r.beanWeight * 10.0)
    ensures RatioByte(r) == if tenths > 255 then 255 else tenths
  {
  }

  lemma TenthsBounds(sum: real, dose: real, tenths: int)
    requires dose > 0.0 && tenths == Ceil(sum / dose * 10.0)
    ensures 10.0 * sum <= dose * (tenths as real)
    ensures dose * (tenths as real) < 10.0 * sum + dose
  {
    var q := sum / dose;
    assert q * dose == sum;
    assert dose * (q * 10.0) == (q * dose) * 10.0;
    CeilScaled(q * 10.0, dose, tenths as real, 10.0 * sum);
  }

  lemma CeilScaled(x: real, dose: real, m: real, exact: real)
    requires dose > 0.0 && x <= m < x + 1.0 && exact == dose * x
    ensures exact <= dose * m
    ensures dose * m < exact + dose
  {
    var up, down := m - x, x + 1.0 - m;
    assert dose * up >= 0.0 && dose * down > 0.0;
    assert m == x + up && dose * m == dose * x + dose * up;
    assert up + down == 1.0 && dose * up + dose * down == dose;
  }

  lemma Unscale(k: real, x: real, y: real, kx: real, ky: real)
    requires k > 0.0 && kx == k * x && ky == k * y && kx < ky
    ensures x < y
  {
  }

  /** Every byte but the last is the base payload's, so the coffee payload decodes to the same
      pours. */
  lemma OnlyTheFooterDiffers(r: Recipe)
    ensures CoffeePayload(r).Some? <==> BasePayload(r).Some?
    ensures CoffeePayload(r).Some? ==>
              var a, b := CoffeePayload(r).value, BasePayload(r).value;
              |a| == |b| && |a| >= 3 && forall i :: 0 <= i < |a| - 1 ==> a[i] == b[i]
  {
  }

  // ------------------------------------------------------------------
  // Footers and failures
  // ------------------------------------------------------------------

  /** The last two bytes: the grind size, and for the base payload the total water in tenths, for
      coffee the ratio, which is zero without a dose. */
  lemma Footers(r: Recipe)
    ensures BasePayload(r).Some? ==>
              var p := BasePayload(r).value;
              |p| >= 3 && p[|p| - 2] == r.grindSize % 256 && p[|p| - 1] == (10 * r.totalWater) % 256
    ensures CoffeePayload(r).Some? ==>
              var p := CoffeePayload(r).value;
              && |p| >= 3 && p[|p| - 2] == r.grindSize % 256
              && SumVolumes(r.pours) >= 0 && p[|p| - 1] == RatioByte(r)
              && (r.beanWeight <= 0.0 ==> p[|p| - 1] == 0)
  {
    if AllPackable(r.pours) {
      SumNonNegative(r.pours);
    }
  }

  /** Four bytes for every sub-step of at most 127 ml and every closing block. */
  ghost function BodyBytes(pours: seq<PourStep>): int {
    if pours == [] then 0
    else 4 * ((if pours[0].volume <= 127 then 1 else (pours[0].volume + 126) / 127) + 1) + BodyBytes(pours[1..])
  }

  lemma {:induction false} BodyByteCount(pours: seq<PourStep>, rpm: byte)
    requires AllPackable(pours)
    ensures 4 * |Body(pours, rpm)| == BodyBytes(pours)
    decreases |pours|
  {
    if pours != [] {
      ChunksCarryTheVolume(pours[0]);
      BodyByteCount(pours[1..], 0);
    }
  }

  /** A payload exists exactly if no volume is negative, every field fits a byte, and the body's
      length does. */
  lemma PacksIff(r: Recipe)
    ensures BasePayload(r).Some? <==>
            && (forall i :: 0 <= i < |r.pours| ==>
                  && r.pours[i].volume >= 0 && 0 <= r.pours[i].temperature <= 255
                  && 0 <= r.pours[i].pattern <= 255 && 0 <= r.pours[i].vibration <= 255)
            && BodyBytes(r.pours) <= 255
    ensures CoffeePayload(r).Some? <==> BasePayload(r).Some?
  {
    if AllPackable(r.pours) {
      BodyByteCount(r.pours, Low(r.rpm));
    }
  }
}
