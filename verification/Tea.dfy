/** The tea payload of brewing.py: one capped pour and one soak block per steep. */
module Tea {
  import opened Basics
  import opened Numbers
  import opened Payload

  const SIPHON_CAP := 90
  const TEA_PATTERN: byte := 1

  function Capped(p: PourStep): int {
    if p.volume < SIPHON_CAP then p.volume else SIPHON_CAP
  }

  function SoakByte(p: PourStep): (b: byte)
    ensures 1 <= b
  {
    var scaled := Round(p.pausing as real * 0.6);
    var clamped := if scaled < 255 then scaled else 255;
    if clamped < 1 then 1 else clamped
  }

  /** struct.pack accepts the fields of the steep, if the steep has water at all. */
  predicate Steepable(p: PourStep) {
    p.volume <= 0 || (0 <= p.temperature < 256 && 0 <= p.vibration < 256)
  }

  predicate AllSteepable(pours: seq<PourStep>) {
    forall i :: 0 <= i < |pours| ==> Steepable(pours[i])
  }

  function SteepBlock(volume: byte, p: PourStep): Block
    requires 0 <= p.temperature < 256 && 0 <= p.vibration < 256
  {
    Block(volume, p.temperature, TEA_PATTERN, p.vibration)
  }

  /** What the source's splitting loop makes of a volume. */
  function Split(volume: int, p: PourStep): seq<Block>
    requires volume <= 0 || (0 <= p.temperature < 256 && 0 <= p.vibration < 256)
    decreases volume
  {
    if volume > 127 then [SteepBlock(127, p)] + Split(volume - 127, p)
    else if volume > 0 then [SteepBlock(volume, p)]
    else []
  }

  function TimingBlock(p: PourStep, rpm: byte): Block {
    Block(0, SoakByte(p), rpm, FlowByte(p))
  }

  function TeaBody(pours: seq<PourStep>, rpm: byte): seq<Block>
    requires AllSteepable(pours)
  {
    if pours == [] then []
    else Split(Capped(pours[0]), pours[0]) + [TimingBlock(pours[0], rpm)] + TeaBody(pours[1..], 0)
  }

  function TeaRatioByte(r: Recipe): byte {
    var dose := Trunc(r.beanWeight);
    if dose > 0 then Low(Trunc(r.totalWater as real / dose as real * 10.0)) else 0
  }

  /** `None` stands for the source's struct.error. */
  function TeaPayload(r: Recipe): Option<seq<byte>> {
    if !AllSteepable(r.pours) then None
    else Assemble(TeaBody(r.pours, Low(r.rpm)), Low(r.grindSize), TeaRatioByte(r))
  }

  /** The splitting loop. */
  method SplitSteps(volume: int, p: PourStep) returns (parts: seq<Block>)
    requires volume <= 0 || (0 <= p.temperature < 256 && 0 <= p.vibration < 256)
    ensures parts == Split(volume, p)
  {
    parts := [];
    var remaining := volume;
    while remaining > 127
      invariant remaining <= 0 ==> volume <= 0
      invariant parts + Split(remaining, p) == Split(volume, p)
    {
      parts := parts + [SteepBlock(127, p)];
      remaining := remaining - 127;
    }
    if remaining > 0 {
      parts := parts + [SteepBlock(remaining, p)];
    }
  }

  lemma NextSteepable(pours: seq<PourStep>, i: nat)
    requires i < |pours|
    ensures AllSteepable(pours[i..]) <==> Steepable(pours[i]) && AllSteepable(pours[i + 1..])
    ensures AllSteepable(pours[..i]) && Steepable(pours[i]) ==> AllSteepable(pours[..i + 1])
  {
    assert pours[i..] == [pours[i]] + pours[i + 1..];
    assert pours[..i + 1] == pours[..i] + [pours[i]];
  }

  /** The blocks of the first i steeps, if the whole list packs. */
  ghost predicate TeaBodySoFar(r: Recipe, i: nat, parts: seq<Block>)
    requires i <= |r.pours|
  {
    AllSteepable(r.pours) ==>
      AllSteepable(r.pours[i..]) && parts + TeaBody(r.pours[i..], RpmByte(r, i)) == TeaBody(r.pours, Low(r.rpm))
  }

  lemma TeaBodyFrom(pours: seq<PourStep>, i: nat, rpm: byte)
    requires i < |pours| && AllSteepable(pours[i..])
    ensures AllSteepable(pours[i + 1..]) && Steepable(pours[i])
    ensures TeaBody(pours[i..], rpm) == Split(Capped(pours[i]), pours[i]) + [TimingBlock(pours[i], rpm)] + TeaBody(pours[i + 1..], 0)
  {
    NextSteepable(pours, i);
    assert pours[i..][1..] == pours[i + 1..];
  }

  lemma NextTeaBody(r: Recipe, i: nat, parts: seq<Block>)
    requires i < |r.pours| && Steepable(r.pours[i]) && TeaBodySoFar(r, i, parts)
    ensures TeaBodySoFar(r, i + 1, parts + Split(Capped(r.pours[i]), r.pours[i]) + [TimingBlock(r.pours[i], RpmByte(r, i))])
  {
    if AllSteepable(r.pours) {
      TeaBodyFrom(r.pours, i, RpmByte(r, i));
      Regroup(parts, Split(Capped(r.pours[i]), r.pours[i]), [TimingBlock(r.pours[i], RpmByte(r, i))], TeaBody(r.pours[i + 1..], 0));
    }
  }

  /** _build_tea_payload. */
  method BuildTeaPayload(r: Recipe) returns (payload: Option<seq<byte>>)
    ensures payload == TeaPayload(r)
  {
    var parts: seq<Block> := [];
    var i := 0;
    assert r.pours[0..] == r.pours;
    while i < |r.pours|
      invariant 0 <= i <= |r.pours| && AllSteepable(r.pours[..i]) && TeaBodySoFar(r, i, parts)
    {
      var pour := r.pours[i];
      NextSteepable(r.pours, i);
      if !Steepable(pour) {
        return None;
      }
      NextTeaBody(r, i, parts);
      var remaining := Capped(pour);
      var steps := SplitSteps(remaining, pour);
      parts := parts + steps;
      parts := parts + [TimingBlock(pour, RpmByte(r, i))];
      i := i + 1;
    }
    assert r.pours[..i] == r.pours && r.pours[i..] == [] && parts + [] == parts;
    payload := Assemble(parts, Low(r.grindSize), TeaRatioByte(r));
  }

  // ------------------------------------------------------------------
  // Steeps never flatten
  // ------------------------------------------------------------------

  /** A capped volume never reaches the splitting loop: a steep with water is one block of 1 to
      90 ml, a steep without water has none. */
  lemma CapNeverSplits(p: PourStep)
    requires Steepable(p)
    ensures p.volume > 0 ==> Split(Capped(p), p) == [SteepBlock(Capped(p), p)] && 1 <= Capped(p) <= 90
    ensures p.volume <= 0 ==> Split(Capped(p), p) == []
  {
  }

  /** A steep as the wire carries it. */
  datatype WireSteep = WireSteep(volume: int, temperature: int, pattern: int, vibration: int, soak: int, rpm: int, flow: int)

  /** Water up to the siphon's threshold in the circular pattern, then the soak. */
  function SteepOnWire(p: PourStep, rpm: byte): WireSteep {
    var volume := if p.volume < 90 then p.volume else 90;
    var flow := Trunc(p.flowRate * 10.0) % 256;
    if p.volume > 0 then WireSteep(volume, p.temperature, 1, p.vibration, SoakByte(p), rpm, flow)
    else WireSteep(0, 0, 0, 0, SoakByte(p), rpm, flow)
  }

  function SteepsOnWire(pours: seq<PourStep>, rpm: byte): (r: seq<WireSteep>)
    ensures |r| == |pours|
    ensures forall i :: 0 <= i < |r| ==> r[i] == SteepOnWire(pours[i], if i == 0 then rpm else 0)
  {
    seq(|pours|, i requires 0 <= i < |pours| => SteepOnWire(pours[i], if i == 0 then rpm else 0))
  }

  /** Reads a body back: a block with a zero first byte closes a steep, any other block opens
      one. `None` if a steep is never closed or pours twice. */
  function DecodeTea(blocks: seq<Block>): Option<seq<WireSteep>>
    decreases |blocks|
  {
    if blocks == [] then Some([])
    else
      var open := blocks[0].b0 != 0;
      if open && (|blocks| < 2 || blocks[1].b0 != 0) then None
      else
        var water := if open then blocks[0] else Block(0, 0, 0, 0);
        var timing := if open then blocks[1] else blocks[0];
        var rest := DecodeTea(if open then blocks[2..] else blocks[1..]);
        if rest.None? then None
        else Some([WireSteep(water.b0, water.b1, water.b2, water.b3, timing.b1, timing.b2, timing.b3)] + rest.value)
  }

  lemma DecodeSteep(p: PourStep, rpm: byte, rest: seq<Block>)
    requires Steepable(p) && DecodeTea(rest).Some?
    ensures DecodeTea(Split(Capped(p), p) + [TimingBlock(p, rpm)] + rest)
         == Some([SteepOnWire(p, rpm)] + DecodeTea(rest).value)
  {
    CapNeverSplits(p);
    var blocks := Split(Capped(p), p) + [TimingBlock(p, rpm)] + rest;
    if p.volume > 0 {
      assert blocks[0] == SteepBlock(Capped(p), p) && blocks[1] == TimingBlock(p, rpm);
      assert blocks[2..] == rest;
    } else {
      assert blocks[0] == TimingBlock(p, rpm);
      assert blocks[1..] == rest;
    }
  }

  /** A decoder recovers the number of steeps and, steep by steep, the capped volume, the
      temperature and vibration, the soak byte, the grinder speed and the flow. */
  lemma {:induction false} TeaBodyDecodes(pours: seq<PourStep>, rpm: byte)
    requires AllSteepable(pours)
    ensures DecodeTea(TeaBody(pours, rpm)) == Some(SteepsOnWire(pours, rpm))
    decreases |pours|
  {
    if pours != [] {
      TeaBodyDecodes(pours[1..], 0);
      DecodeSteep(pours[0], rpm, TeaBody(pours[1..], 0));
      assert SteepsOnWire(pours, rpm) == [SteepOnWire(pours[0], rpm)] + SteepsOnWire(pours[1..], 0);
    }
  }

  lemma {:induction false} TeaBodyLength(pours: seq<PourStep>, rpm: byte)
    requires AllSteepable(pours)
    ensures |TeaBody(pours, rpm)| <= 2 * |pours|
    decreases |pours|
  {
    if pours != [] {
      CapNeverSplits(pours[0]);
      TeaBodyLength(pours[1..], 0);
    }
  }

  /** The payload of every valid tea recipe exists, its body is at most 160 bytes, and its
      blocks decode to the recipe's steeps. */
  lemma TeaPayloadDecodes(r: Recipe)
    requires ValidRecipe(r)
    ensures var payload := TeaPayload(r);
            && payload.Some? && payload.value != [] && payload.value[0] <= 160
            && BlocksOf(payload.value).Some?
            && DecodeTea(BlocksOf(payload.value).value) == Some(SteepsOnWire(r.pours, Low(r.rpm)))
  {
    forall i | 0 <= i < |r.pours|
      ensures Steepable(r.pours[i])
    {
      assert ValidPour(r.pours[i]);
    }
    TeaBodyLength(r.pours, Low(r.rpm));
    AssembledBlocks(TeaBody(r.pours, Low(r.rpm)), Low(r.grindSize), TeaRatioByte(r));
    TeaBodyDecodes(r.pours, Low(r.rpm));
  }

  /** The soak byte is the scaled pause to within half a unit wherever a byte can say so, and the
      nearest byte that marks a steep where none can. */
  lemma SoakFollowsThePause(p: PourStep)
    ensures 0.5 <= p.pausing as real * 0.6 <= 255.5 ==> -0.5 <= SoakByte(p) as real - p.pausing as real * 0.6 <= 0.5
    ensures p.pausing as real * 0.6 < 0.5 ==> SoakByte(p) == 1
    ensures p.pausing as real * 0.6 > 255.5 ==> SoakByte(p) == 255
  {
  }

  /** Ten times the water per gram of a whole-gram dose, without its fraction. */
  ghost predicate TenthsPerGram(water: int, dose: int, tenths: int)
    requires dose > 0
  {
    tenths * dose <= 10 * water < (tenths + 1) * dose
  }

  /** The last two bytes: the grind size, and the ratio in tenths for the dose without its
      fraction, which is zero for less than a gram. */
  lemma TeaFooter(r: Recipe) returns (dose: int, tenths: int)
    requires TeaPayload(r).Some? && r.totalWater >= 0
    ensures var p := TeaPayload(r).value;
            && |p| >= 3 && p[|p| - 2] == r.grindSize % 256
            && (r.beanWeight < 1.0 ==> p[|p| - 1] == 0)
            && (r.beanWeight >= 1.0 ==>
                  dose > 0 && dose as real <= r.beanWeight < dose as real + 1.0
                  && TenthsPerGram(r.totalWater, dose, tenths) && p[|p| - 1] == tenths % 256)
  {
    dose, tenths := Trunc(r.beanWeight), 0;
    if r.beanWeight >= 1.0 {
      tenths := Trunc(r.totalWater as real / dose as real * 10.0);
      TenthsOf(r.totalWater, dose);
    }
  }

  lemma TenthsOf(water: int, dose: int)
    requires water >= 0 && dose > 0
    ensures TenthsPerGram(water, dose, Trunc(water as real / dose as real * 10.0))
  {
    var q := water as real / dose as real;
    assert q >= 0.0 && q * dose as real == water as real by { Quotient(water as real, dose as real); }
    var tenths := Trunc(q * 10.0);
    assert tenths as real <= q * 10.0 < tenths as real + 1.0;
    Scaled(q * 10.0, dose as real, tenths as real, 10.0 * water as real);
    ProductAsReal(tenths, dose);
    ProductAsReal(tenths + 1, dose);
  }

  lemma ProductAsReal(m: int, n: int)
    ensures (m * n) as real == m as real * n as real
  {
  }

  lemma Scaled(x: real, dose: real, m: real, exact: real)
    requires dose > 0.0 && m <= x < m + 1.0 && exact == x * dose
    ensures m * dose <= exact < (m + 1.0) * dose
  {
    var up, down := x - m, m + 1.0 - x;
    assert up * dose >= 0.0 && down * dose > 0.0;
    assert x * dose == m * dose + up * dose;
    assert (m + 1.0) * dose == x * dose + down * dose;
  }
}
