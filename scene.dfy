/** The bookkeeping of the Three.js scene in js/main.js: the twelve
    ceiling slots balloons stick to, the balloons' climb in each animation
    frame, the per-ring layout of the hex-wave grid, and which effect is
    loaded, by name or by the "auto" rotation. Geometry, materials, angles
    and every other floating-point drawing detail are not modelled.
    `Math.random` is a sequence of draws in [0, 1) consumed in order. */
module Scene {
  import opened JsText

  // ---------------------------------------------------------------------
  // Ceiling slots and balloons
  // ---------------------------------------------------------------------

  const CeilingY: int := 60
  const SlotSpacing: int := 12
  const MaxSlots: nat := 12

  datatype Slot = Slot(x: int, y: int, z: int, taken: bool)

  /** The slots `initializeCeilingSlots` appends: twelve free slots 12
      apart along the ceiling, from x = -70. */
  function InitialSlots(): (r: seq<Slot>)
    ensures |r| == MaxSlots
    ensures forall i :: 0 <= i < |r| ==> !r[i].taken && r[i].y == CeilingY && r[i].z == 0
    ensures r[0].x == -70 && r[|r| - 1].x == 62
    ensures forall i :: 0 < i < |r| ==> r[i].x == r[i - 1].x + SlotSpacing
  {
    seq(MaxSlots, i requires 0 <= i < MaxSlots => Slot(-70 + i * SlotSpacing, CeilingY, 0, false))
  }

  /** The initial slots are free, strictly left to right and inside
      [-70, 62]. */
  lemma InitialSlotsLayout()
    ensures TakenCount(InitialSlots()) == 0
    ensures forall i, j :: 0 <= i < j < MaxSlots ==> InitialSlots()[i].x < InitialSlots()[j].x
    ensures InitialSlots()[0].x == -70 && InitialSlots()[MaxSlots - 1].x == 62
  {
    NoneTaken(InitialSlots());
  }

  lemma {:induction false} NoneTaken(slots: seq<Slot>)
    requires forall i :: 0 <= i < |slots| ==> !slots[i].taken
    ensures TakenCount(slots) == 0
  {
    if slots != [] {
      NoneTaken(slots[1..]);
    }
  }

  datatype Balloon = Balloon(x: real, y: real, z: real, velocityY: real, stuck: bool)

  /** The number of taken slots. */
  function TakenCount(slots: seq<Slot>): (c: nat)
    ensures c <= |slots|
  {
    if slots == [] then 0 else (if slots[0].taken then 1 else 0) + TakenCount(slots[1..])
  }

  /** The number of balloons stuck to the ceiling. */
  function StuckCount(bs: seq<Balloon>): (c: nat)
    ensures c <= |bs|
  {
    if bs == [] then 0 else (if bs[0].stuck then 1 else 0) + StuckCount(bs[1..])
  }

  /** `ceilingSlots.find(s => !s.taken)`: the index of the first free
      slot, or `|slots|` when every slot is taken. */
  function FirstFree(slots: seq<Slot>): (k: nat)
    ensures k <= |slots|
    ensures k < |slots| ==> !slots[k].taken
    ensures forall j :: 0 <= j < k ==> slots[j].taken
  {
    if slots == [] then 0
    else if !slots[0].taken then 0
    else 1 + FirstFree(slots[1..])
  }

  /** Every slot keeps its place, and a taken slot stays taken. */
  predicate Grows(before: seq<Slot>, after: seq<Slot>)
  {
    |before| == |after|
    && forall j :: 0 <= j < |before| ==>
      after[j].x == before[j].x && after[j].y == before[j].y && after[j].z == before[j].z
      && (before[j].taken ==> after[j].taken)
  }

  datatype StepResult = StepResult(balloon: Balloon, slots: seq<Slot>, draws: seq<real>)

  /** One balloon in one frame of `animate`. A stuck balloon stays put. A
      free one climbs by its speed; once at the ceiling, a draw below 0.4
      sticks it to the first free slot (if there is one), and otherwise it
      goes back to y = -50 at a random x. */
  function StepOne(b: Balloon, slots: seq<Slot>, draws: seq<real>): (r: StepResult)
    requires |draws| >= 2
    ensures Grows(slots, r.slots)
    ensures |draws| - 2 <= |r.draws| <= |draws| && r.draws == draws[|draws| - |r.draws|..]
  {
    if b.stuck then StepResult(b, slots, draws)
    else
      var y := b.y + b.velocityY;
      if y < CeilingY as real then StepResult(b.(y := y), slots, draws)
      else if draws[0] < 0.4 then
        var k := FirstFree(slots);
        if k == |slots| then StepResult(b.(y := y), slots, draws[1..])
        else
          var s := slots[k];
          StepResult(b.(x := s.x as real, y := s.y as real, z := s.z as real, stuck := true),
                     slots[k := s.(taken := true)], draws[1..])
      else StepResult(b.(y := -50.0, x := (draws[1] - 0.5) * 100.0), slots, draws[2..])
  }

  /** How one balloon uses the slots: a stuck balloon never moves; a free
      balloon that sticks takes the first free slot, sits at its place and
      marks it taken, changing no other slot; with every slot taken it
      stays free. */
  lemma StepOneSlots(b: Balloon, slots: seq<Slot>, draws: seq<real>)
    requires |draws| >= 2
    ensures b.stuck ==> StepOne(b, slots, draws) == StepResult(b, slots, draws)
    ensures !b.stuck && FirstFree(slots) == |slots| ==>
      !StepOne(b, slots, draws).balloon.stuck && StepOne(b, slots, draws).slots == slots
    ensures !b.stuck && StepOne(b, slots, draws).balloon.stuck ==>
      var k := FirstFree(slots);
      var r := StepOne(b, slots, draws);
      k < |slots| && !slots[k].taken && r.slots == slots[k := slots[k].(taken := true)]
      && r.balloon.x == slots[k].x as real && r.balloon.y == slots[k].y as real && r.balloon.z == slots[k].z as real
    ensures !b.stuck && !StepOne(b, slots, draws).balloon.stuck ==> StepOne(b, slots, draws).slots == slots
  {
  }

  /** Marking a free slot taken adds one to the count. */
  lemma {:induction false} TakeSlot(slots: seq<Slot>, k: nat)
    requires k < |slots| && !slots[k].taken
    ensures TakenCount(slots[k := slots[k].(taken := true)]) == TakenCount(slots) + 1
  {
    var t := slots[k := slots[k].(taken := true)];
    if k > 0 {
      assert t[1..] == slots[1..][k - 1 := slots[k].(taken := true)];
      TakeSlot(slots[1..], k - 1);
    } else {
      assert t[1..] == slots[1..];
    }
  }

  /** A balloon that sticks takes exactly one more slot. */
  lemma StepOneCounts(b: Balloon, slots: seq<Slot>, draws: seq<real>)
    requires |draws| >= 2
    ensures var r := StepOne(b, slots, draws);
      TakenCount(r.slots) + (if b.stuck then 1 else 0) == TakenCount(slots) + (if r.balloon.stuck then 1 else 0)
  {
    StepOneSlots(b, slots, draws);
    var r := StepOne(b, slots, draws);
    if !b.stuck && r.balloon.stuck {
      TakeSlot(slots, FirstFree(slots));
    }
  }

  datatype Flight = Flight(balloons: seq<Balloon>, slots: seq<Slot>, draws: seq<real>)

  /** The balloon loop of one frame, balloon by balloon in list order. At
      most two draws are used per balloon. */
  function StepAll(bs: seq<Balloon>, slots: seq<Slot>, draws: seq<real>): (r: Flight)
    requires |draws| >= 2 * |bs|
    ensures |r.balloons| == |bs| && Grows(slots, r.slots)
    ensures |r.draws| >= |draws| - 2 * |bs|
    decreases |bs|
  {
    if bs == [] then Flight(bs, slots, draws)
    else
      var s := StepOne(bs[0], slots, draws);
      var rest := StepAll(bs[1..], s.slots, s.draws);
      Flight([s.balloon] + rest.balloons, rest.slots, rest.draws)
  }

  /** Over a frame, stuck balloons stay exactly as they were, and every
      balloon that sticks takes one slot: the slots taken in the frame
      equal the balloons stuck in it. */
  lemma {:induction false} StepAllConserves(bs: seq<Balloon>, slots: seq<Slot>, draws: seq<real>)
    requires |draws| >= 2 * |bs|
    ensures forall i :: 0 <= i < |bs| && bs[i].stuck ==> StepAll(bs, slots, draws).balloons[i] == bs[i]
    ensures TakenCount(StepAll(bs, slots, draws).slots) + StuckCount(bs)
      == TakenCount(slots) + StuckCount(StepAll(bs, slots, draws).balloons)
    decreases |bs|
  {
    if bs != [] {
      var s := StepOne(bs[0], slots, draws);
      var rest := StepAll(bs[1..], s.slots, s.draws);
      StepOneSlots(bs[0], slots, draws);
      StepOneCounts(bs[0], slots, draws);
      StepAllConserves(bs[1..], s.slots, s.draws);
      var out := [s.balloon] + rest.balloons;
      assert out[1..] == rest.balloons;
      forall i | 0 <= i < |bs| && bs[i].stuck
        ensures out[i] == bs[i]
      {
        if i > 0 {
          assert bs[1..][i - 1] == bs[i];
        }
      }
    }
  }

  /** Since no slot is ever freed, the stuck balloons never outnumber the
      taken slots, and at most twelve balloons can be stuck. */
  lemma StepAllKeepsCover(bs: seq<Balloon>, slots: seq<Slot>, draws: seq<real>)
    requires |draws| >= 2 * |bs|
    requires StuckCount(bs) <= TakenCount(slots)
    ensures StuckCount(StepAll(bs, slots, draws).balloons) <= TakenCount(StepAll(bs, slots, draws).slots) <= |slots|
  {
    StepAllConserves(bs, slots, draws);
  }

  /** The balloon `activateBirthdayEffect` creates as its `i`th: from the
      left for even `i`, from the right for odd `i`, below the view, with a
      speed in [0.1, 0.3). Three draws each: x, z, speed. */
  function BirthdayBalloon(i: nat, draws: seq<real>): Balloon
    requires 3 * i + 2 < |draws|
  {
    var side := if i % 2 == 0 then -1.0 else 1.0;
    Balloon(side * (50.0 + draws[3 * i] * 20.0), -50.0, (draws[3 * i + 1] - 0.5) * 50.0, draws[3 * i + 2] * 0.2 + 0.1, false)
  }

  /** The birthday balloons start free, below the view, climbing, half on
      each side. */
  lemma BirthdayBalloonFacts(i: nat, draws: seq<real>)
    requires 3 * i + 2 < |draws|
    requires forall j :: 0 <= j < |draws| ==> 0.0 <= draws[j] < 1.0
    ensures var b := BirthdayBalloon(i, draws);
      !b.stuck && b.y == -50.0 && 0.1 <= b.velocityY < 0.3
      && (i % 2 == 0 ==> -70.0 < b.x <= -50.0) && (i % 2 == 1 ==> 50.0 <= b.x < 70.0)
  {
  }

  // ---------------------------------------------------------------------
  // The hex-wave grid
  // ---------------------------------------------------------------------

  /** One circle of the hex-wave grid: its ring, its place in the ring,
      its size and segment count, its colour and whether it is a petal. */
  datatype HexMesh = HexMesh(ring: nat, index: nat, size: nat, segments: nat, color: int, isPetal: bool)

  const Rings: nat := 8

  /** The particles of a ring. */
  function RingCount(ring: nat): nat
  {
    if ring <= 2 then 8 else if ring <= 5 then ring * 6 else ring * 8
  }

  function RingSize(ring: nat): nat
  {
    if ring <= 2 then 2 else if ring <= 4 then 3 else 4
  }

  function RingSegments(ring: nat): nat
  {
    if ring <= 2 then 16 else if ring <= 4 then 8 else 6
  }

  const CenterColors: seq<int> := [0x8b4513, 0x654321, 0x3e2723]
  const TransitionColors: seq<int> := [0xb8860b, 0xdaa520, 0xffd700]
  const PetalColors: seq<int> := [0xffd700, 0xffa500, 0xffb347, 0xfff8dc]

  /** The colour of a ring: brown centre, gold transition, yellow petals,
      picked by `ring % 3` or `ring % 4`, which always index the palette. */
  function RingColor(ring: nat): int
  {
    if ring <= 2 then CenterColors[ring % 3]
    else if ring <= 4 then TransitionColors[ring % 3]
    else PetalColors[ring % 4]
  }

  /** The meshes of one ring, in creation order. */
  function RingMeshes(ring: nat): (r: seq<HexMesh>)
    ensures |r| == RingCount(ring)
    ensures forall i :: 0 <= i < |r| ==> r[i].ring == ring && r[i].index == i
    ensures forall i :: 0 <= i < |r| ==>
      r[i].size == RingSize(ring) && r[i].segments == RingSegments(ring) && r[i].color == RingColor(ring)
    ensures forall i :: 0 <= i < |r| ==> (r[i].isPetal <==> ring >= 5)
  {
    seq(RingCount(ring), i requires 0 <= i < RingCount(ring) =>
      HexMesh(ring, i, RingSize(ring), RingSegments(ring), RingColor(ring), ring > 4))
  }

  /** The meshes of rings 1 to `r`, ring by ring. */
  function GridUpTo(r: nat): seq<HexMesh>
  {
    if r == 0 then [] else GridUpTo(r - 1) + RingMeshes(r)
  }

  /** What `createHexWaveGrid` pushes into the source's `hexMeshes`. */
  function HexWaveGrid(): seq<HexMesh>
  {
    GridUpTo(Rings)
  }

  /** The ring sizes: 8 for rings 1 and 2, six per ring for rings 3 to 5
      and eight per ring for rings 6 to 8, 256 circles in all. */
  lemma HexWaveCounts()
    ensures [RingCount(1), RingCount(2), RingCount(3), RingCount(4), RingCount(5), RingCount(6), RingCount(7), RingCount(8)]
      == [8, 8, 18, 24, 30, 48, 56, 64]
    ensures |HexWaveGrid()| == 256
  {
    assert |GridUpTo(4)| == 58;
  }

  /** Every circle of the grid belongs to a ring from 1 to 8 and has that
      ring's size, segments and colour; the rings come in order. */
  lemma {:induction false} GridShape(r: nat)
    ensures forall k :: 0 <= k < |GridUpTo(r)| ==>
      var m := GridUpTo(r)[k];
      1 <= m.ring <= r && m.size == RingSize(m.ring) && m.segments == RingSegments(m.ring)
      && m.color == RingColor(m.ring) && m.isPetal == (m.ring > 4)
    ensures forall k, l :: 0 <= k < l < |GridUpTo(r)| ==> GridUpTo(r)[k].ring <= GridUpTo(r)[l].ring
  {
    if r > 0 {
      GridShape(r - 1);
    }
  }

  /** The colours each ring gets: the first centre colour and the last
      transition colour are never used. */
  lemma RingColors()
    ensures RingColor(1) == 0x654321 && RingColor(2) == 0x3e2723
    ensures RingColor(3) == 0xb8860b && RingColor(4) == 0xdaa520
    ensures RingColor(5) == 0xffa500 && RingColor(6) == 0xffb347 && RingColor(7) == 0xfff8dc && RingColor(8) == 0xffd700
  {
  }

  // ---------------------------------------------------------------------
  // Effects
  // ---------------------------------------------------------------------

  /** The names `loadEffect` knows, in the order of the "auto" rotation. */
  const Effects: seq<string> := ["flower", "hexagon", "hexWave", "fire", "hearts", "hexMaze"]

  /** The rotation index after `t` ticks of the "auto" interval. */
  function AutoIndexAfter(t: nat): nat
  {
    if t == 0 then 0 else (AutoIndexAfter(t - 1) + 1) % |Effects|
  }

  /** The "auto" rotation: tick `t` (from 0) loads `Effects[t % 6]`, so it
      shows the six effects in order and starts over every six ticks. */
  lemma {:induction false} AutoRotation(t: nat)
    ensures AutoIndexAfter(t) == t % 6
    ensures Effects[AutoIndexAfter(t)] == Effects[(t + 6) % 6]
  {
    if t > 0 {
      AutoRotation(t - 1);
    }
  }

  class Scene {
    var ceilingSlots: seq<Slot>
    var balloons: seq<Balloon>
    /** The circles of the hex-wave grid: the part of the source's
        `hexMeshes` list that `createHexWaveGrid` fills. The hexagons,
        letter lines and maze lines that `createHexagons` and
        `createHexMaze` push into that list are not modelled, so an empty
        `waveCircles` after "hexagon" or "hexMaze" says only that no
        hex-wave circle is left. */
    var waveCircles: seq<HexMesh>
    /** The builder whose meshes the effect group holds, if any. */
    var built: Option<string>
    var currentEffect: string
    /** The next rotation index of a running "auto" interval. */
    var autoIndex: Option<nat>

    /** The module's top-level state before `init`. */
    constructor ()
      ensures ceilingSlots == [] && balloons == [] && waveCircles == [] && built == None
      ensures currentEffect == "globe" && autoIndex == None
    {
      ceilingSlots, balloons, waveCircles, built := [], [], [], None;
      currentEffect, autoIndex := "globe", None;
    }

    /** `initializeCeilingSlots`. */
    method InitializeCeilingSlots()
      modifies this`ceilingSlots
      ensures ceilingSlots == old(ceilingSlots) + InitialSlots()
    {
      var i := 0;
      while i < MaxSlots
        invariant 0 <= i <= MaxSlots
        invariant ceilingSlots == old(ceilingSlots) + InitialSlots()[..i]
      {
        assert InitialSlots()[..i + 1] == InitialSlots()[..i] + [InitialSlots()[i]];
        ceilingSlots := ceilingSlots + [Slot(-70 + i * SlotSpacing, CeilingY, 0, false)];
        i := i + 1;
      }
    }

    /** `clearEffect`: every effect array is emptied and the group is
        cleared; the ceiling slots are not touched, so slots taken by the
        removed balloons stay taken. */
    method ClearEffect()
      modifies this`balloons, this`waveCircles, this`built
      ensures balloons == [] && waveCircles == [] && built == None
    {
      balloons := [];
      waveCircles := [];
      built := None;
    }

    /** One ring of `createHexWaveGrid`'s outer loop: its circles are
        appended in order. */
    method CreateRing(ring: nat)
      requires 1 <= ring <= Rings
      modifies this`waveCircles
      ensures waveCircles == old(waveCircles) + RingMeshes(ring)
    {
      var particles;
      if ring <= 2 {
        particles := 8;
      } else if ring <= 5 {
        particles := ring * 6;
      } else {
        particles := ring * 8;
      }
      var i := 0;
      while i < particles
        invariant 0 <= i <= particles == RingCount(ring)
        invariant waveCircles == old(waveCircles) + RingMeshes(ring)[..i]
      {
        var size, segments;
        if ring <= 2 {
          size, segments := 2, 16;
        } else if ring <= 4 {
          size, segments := 3, 8;
        } else {
          size, segments := 4, 6;
        }
        var color;
        if ring <= 2 {
          color := CenterColors[ring % 3];
        } else if ring <= 4 {
          color := TransitionColors[ring % 3];
        } else {
          color := PetalColors[ring % 4];
        }
        assert HexMesh(ring, i, size, segments, color, ring > 4) == RingMeshes(ring)[i];
        assert RingMeshes(ring)[..i + 1] == RingMeshes(ring)[..i] + [RingMeshes(ring)[i]];
        waveCircles := waveCircles + [HexMesh(ring, i, size, segments, color, ring > 4)];
        i := i + 1;
      }
      assert RingMeshes(ring)[..i] == RingMeshes(ring);
    }

    /** `createHexWaveGrid`. */
    method CreateHexWaveGrid()
      modifies this`balloons, this`waveCircles, this`built
      ensures waveCircles == HexWaveGrid() && balloons == [] && built == Some("hexWave")
    {
      ClearEffect();
      var ring := 1;
      while ring <= Rings
        invariant 1 <= ring <= Rings + 1
        invariant waveCircles == GridUpTo(ring - 1) && balloons == []
      {
        CreateRing(ring);
        ring := ring + 1;
      }
      built := Some("hexWave");
    }

    /** `loadEffect(name)`: a known name runs its builder, which first
        clears the scene; any other name does nothing. Only the hex-wave
        builder's meshes are modelled. */
    method LoadEffect(name: string)
      modifies this`balloons, this`waveCircles, this`built
      ensures name in Effects ==> balloons == [] && built == Some(name)
      ensures name == "hexWave" ==> waveCircles == HexWaveGrid()
      ensures name in Effects && name != "hexWave" ==> waveCircles == []
      ensures name !in Effects ==>
        balloons == old(balloons) && waveCircles == old(waveCircles) && built == old(built)
    {
      if name == "hexWave" {
        CreateHexWaveGrid();
      } else if name in Effects {
        ClearEffect();
        built := Some(name);
      }
    }

    /** `setEffect(effect)`: any running "auto" interval is stopped; "auto"
        starts a new one at index 0 and loads nothing yet; any other name
        becomes the current effect and is loaded. */
    method SetEffect(effect: string)
      modifies this`balloons, this`waveCircles, this`built, this`currentEffect, this`autoIndex
      ensures effect == "auto" ==>
        autoIndex == Some(0) && currentEffect == old(currentEffect)
        && balloons == old(balloons) && waveCircles == old(waveCircles) && built == old(built)
      ensures effect != "auto" ==> autoIndex == None && currentEffect == effect
      ensures effect != "auto" && effect in Effects ==> balloons == [] && built == Some(effect)
      ensures effect == "hexWave" ==> waveCircles == HexWaveGrid()
      ensures effect in Effects && effect != "hexWave" ==> waveCircles == []
      ensures effect != "auto" && effect !in Effects ==>
        balloons == old(balloons) && waveCircles == old(waveCircles) && built == old(built)
    {
      autoIndex := None;
      if effect == "auto" {
        autoIndex := Some(0);
      } else {
        currentEffect := effect;
        LoadEffect(effect);
      }
    }

    /** One firing of the "auto" interval: load the effect at the index and
        move the index on, wrapping after the sixth. */
    method AutoTick()
      requires autoIndex.Some? && autoIndex.value < |Effects|
      modifies this`balloons, this`waveCircles, this`built, this`currentEffect, this`autoIndex
      ensures currentEffect == Effects[old(autoIndex.value)] && built == Some(currentEffect) && balloons == []
      ensures autoIndex == Some((old(autoIndex.value) + 1) % |Effects|)
      ensures currentEffect == "hexWave" ==> waveCircles == HexWaveGrid()
      ensures currentEffect != "hexWave" ==> waveCircles == []
    {
      var index := autoIndex.value;
      currentEffect := Effects[index];
      LoadEffect(currentEffect);
      autoIndex := Some((index + 1) % |Effects|);
    }

    /** `init`: the slots are laid out and the initial effect "globe" is
        loaded, which no builder handles, so the scene starts empty. */
    method Init()
      modifies this`ceilingSlots, this`balloons, this`waveCircles, this`built
      ensures ceilingSlots == old(ceilingSlots) + InitialSlots()
      ensures currentEffect == "globe" ==>
        balloons == old(balloons) && waveCircles == old(waveCircles) && built == old(built)
    {
      InitializeCeilingSlots();
      LoadEffect(currentEffect);
    }

    /** `createBalloon(color, x, y, z)` with speed draw `r`. */
    method CreateBalloon(x: real, y: real, z: real, r: real)
      modifies this`balloons
      ensures balloons == old(balloons) + [Balloon(x, y, z, r * 0.2 + 0.1, false)]
    {
      balloons := balloons + [Balloon(x, y, z, r * 0.2 + 0.1, false)];
    }

    /** `activateBirthdayEffect`: switch to the fire effect, which clears
        the old balloons, then create eight new ones. */
    method ActivateBirthdayEffect(draws: seq<real>)
      requires |draws| >= 24
      modifies this`balloons, this`waveCircles, this`built, this`currentEffect, this`autoIndex
      ensures currentEffect == "fire" && built == Some("fire") && autoIndex == None && waveCircles == []
      ensures |balloons| == 8 && forall i :: 0 <= i < 8 ==> balloons[i] == BirthdayBalloon(i, draws)
    {
      assert Effects[3] == "fire";
      SetEffect("fire");
      var i := 0;
      while i < 8
        invariant 0 <= i <= 8 && |balloons| == i
        invariant currentEffect == "fire" && built == Some("fire") && autoIndex == None && waveCircles == []
        invariant forall j :: 0 <= j < i ==> balloons[j] == BirthdayBalloon(j, draws)
      {
        var side := if i % 2 == 0 then -1.0 else 1.0;
        var x := side * (50.0 + draws[3 * i] * 20.0);
        var z := (draws[3 * i + 1] - 0.5) * 50.0;
        CreateBalloon(x, -50.0, z, draws[3 * i + 2]);
        i := i + 1;
      }
    }

    /** The body of the balloon loop for one balloon `b`, taking its draws
        from the front of `d`. */
    method StepBalloon(b: Balloon, d: seq<real>) returns (b': Balloon, d': seq<real>)
      requires |d| >= 2
      modifies this`ceilingSlots
      ensures StepResult(b', ceilingSlots, d') == StepOne(b, old(ceilingSlots), d)
    {
      b', d' := b, d;
      if b.stuck {
        return;
      }
      b' := b'.(y := b'.y + b'.velocityY);
      if b'.y >= CeilingY as real {
        if d[0] < 0.4 {
          var k := FirstFree(ceilingSlots);
          if k < |ceilingSlots| {
            var slot := ceilingSlots[k];
            b' := b'.(x := slot.x as real, y := slot.y as real, z := slot.z as real, stuck := true);
            ceilingSlots := ceilingSlots[k := slot.(taken := true)];
          }
          d' := d[1..];
        } else {
          b' := b'.(y := -50.0);
          b' := b'.(x := (d[1] - 0.5) * 100.0);
          d' := d[2..];
        }
      }
    }

    /** The balloon loop of `animate` over one frame, with its draws. */
    method AnimateBalloons(draws: seq<real>) returns (unused: seq<real>)
      requires |draws| >= 2 * |balloons|
      modifies this`balloons, this`ceilingSlots
      ensures Flight(balloons, ceilingSlots, unused) == StepAll(old(balloons), old(ceilingSlots), draws)
    {
      ghost var bs0, slots0 := balloons, ceilingSlots;
      var d := draws;
      var i := 0;
      while i < |balloons|
        invariant 0 <= i <= |balloons| == |bs0|
        invariant balloons[i..] == bs0[i..]
        invariant |d| >= 2 * (|bs0| - i)
        invariant StepAll(bs0, slots0, draws) == Prepend(balloons[..i], StepAll(bs0[i..], ceilingSlots, d))
      {
        ghost var slotsBefore, dBefore := ceilingSlots, d;
        var b;
        b, d := StepBalloon(balloons[i], d);
        assert bs0[i..][0] == bs0[i] && bs0[i..][1..] == bs0[i + 1..];
        assert StepAll(bs0[i..], slotsBefore, dBefore) == Flight([b] + StepAll(bs0[i + 1..], ceilingSlots, d).balloons,
          StepAll(bs0[i + 1..], ceilingSlots, d).slots, StepAll(bs0[i + 1..], ceilingSlots, d).draws);
        PrependStep(balloons[..i], b, StepAll(bs0[i + 1..], ceilingSlots, d));
        balloons := balloons[i := b];
        assert balloons[..i + 1] == balloons[..i] + [b];
        i := i + 1;
      }
      assert balloons[..i] == balloons;
      assert bs0[i..] == [];
      unused := d;
    }
  }

  /** A flight with balloons `done` already processed in front. */
  function Prepend(done: seq<Balloon>, f: Flight): Flight
  {
    Flight(done + f.balloons, f.slots, f.draws)
  }

  lemma PrependStep(done: seq<Balloon>, b: Balloon, f: Flight)
    ensures Prepend(done, Flight([b] + f.balloons, f.slots, f.draws)) == Prepend(done + [b], f)
  {
    assert done + ([b] + f.balloons) == (done + [b]) + f.balloons;
  }
}
