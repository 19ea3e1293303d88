/** The point generators of designs.py. Each one checks its three control
    parameters A, B, C in [0,1] and its colour option in {0,1,2}, some
    reject an unstable parameter region, each maps A, B, C affinely to the
    physical constants of its dynamical system, runs 210000 steps keeping
    the states of steps 10000 onwards, and routes state streams to the
    x, y and colour outputs through a table indexed by the colour option.
    Library maths (sin, tan, fractional powers) and the random draws are
    parameters: `tr` holds the maths, `rand(n)` is the n-th value that
    `np.random.rand()` returns during the call. */
module Designs {
  import opened Common

  /** Steps of every recurrence loop (`for i in range(210000)`). */
  const Steps: nat := 210000
  /** Only steps with `i > LastBurnInStep` are recorded (`if i > 9999`). */
  const LastBurnInStep: nat := 9999
  const BurnIn: nat := LastBurnInStep + 1
  /** Number of recorded points. */
  const Retained: nat := Steps - BurnIn

  datatype Point = Point(x: real, y: real, c: real)

  /** The three lists a generator returns: xs, ys and the colour coordinates. */
  datatype Cloud = Cloud(xs: seq<real>, ys: seq<real>, cs: seq<real>)

  predicate HasPoints(cl: Cloud, n: nat)
  {
    |cl.xs| == n && |cl.ys| == n && |cl.cs| == n
  }

  /** The input asserts every generator starts with. */
  predicate ValidInputs(A: real, B: real, C: real, colorOption: int)
  {
    0.0 <= A <= 1.0 && 0.0 <= B <= 1.0 && 0.0 <= C <= 1.0 && 0 <= colorOption <= 2
  }

  /** `0.2*np.random.rand()-0.1`: the initial-state noise band. */
  function NoiseBand(r: real): (v: real)
    ensures 0.0 <= r < 1.0 ==> -0.1 <= v < 0.1
  {
    0.2 * r - 0.1
  }

  // ---------------------------------------------------------------------
  // The shared burn-in loop

  /** The state after `n` steps; `step(s, i)` is step number `i` (from 0). */
  function Orbit<S>(init: S, step: (S, nat) -> S, n: nat): S
  {
    if n == 0 then init else step(Orbit(init, step, n - 1), n - 1)
  }

  /** What recorded point `k` is: `emit` sees the state before and after
      step `BurnIn + k` and the index `k` of the point. */
  function EmitAt<S>(init: S, step: (S, nat) -> S, emit: (S, S, nat) -> Point, k: nat): Point
  {
    emit(Orbit(init, step, BurnIn + k), Orbit(init, step, BurnIn + k + 1), k)
  }

  /** The lists the loop builds: one point per step after the burn-in. */
  function BurnInCloud<S>(init: S, step: (S, nat) -> S, emit: (S, S, nat) -> Point): (cl: Cloud)
    ensures HasPoints(cl, 200000)
  {
    Cloud(seq(Retained, k requires 0 <= k < Retained => EmitAt(init, step, emit, k).x),
          seq(Retained, k requires 0 <= k < Retained => EmitAt(init, step, emit, k).y),
          seq(Retained, k requires 0 <= k < Retained => EmitAt(init, step, emit, k).c))
  }

  /** The loop every recurrence generator runs: 210000 steps, appending to
      xs, ys and cs only when the step index exceeds 9999. */
  method IterateWithBurnIn<S>(init: S, step: (S, nat) -> S, emit: (S, S, nat) -> Point)
    returns (xs: seq<real>, ys: seq<real>, cs: seq<real>)
    ensures |xs| == Retained && |ys| == Retained && |cs| == Retained
    ensures Cloud(xs, ys, cs) == BurnInCloud(init, step, emit)
  {
    var state := init;
    xs, ys, cs := [], [], [];
    for i := 0 to Steps
      invariant state == Orbit(init, step, i)
      invariant |xs| == |ys| == |cs| == (if i < BurnIn then 0 else i - BurnIn)
      invariant forall k :: 0 <= k < |xs| ==>
        xs[k] == EmitAt(init, step, emit, k).x &&
        ys[k] == EmitAt(init, step, emit, k).y &&
        cs[k] == EmitAt(init, step, emit, k).c
    {
      var next := step(state, i);
      if i > LastBurnInStep {
        var p := emit(state, next, i - BurnIn);
        xs, ys, cs := xs + [p.x], ys + [p.y], cs + [p.c];
      }
      state := next;
    }
    var cl := BurnInCloud(init, step, emit);
    assert xs == cl.xs && ys == cl.ys && cs == cl.cs;
  }

  // ---------------------------------------------------------------------
  // Colour-option tables

  /** Stream `i` of the three a continuous system records (x, y, z). */
  function Pick(cl: Cloud, i: int): seq<real>
  {
    if i == 0 then cl.xs else if i == 1 then cl.ys else cl.cs
  }

  predicate IsPermutation3(t: (int, int, int))
  {
    {t.0, t.1, t.2} == {0, 1, 2}
  }

  /** Returns the recorded streams in the order a table gives. */
  function Reorder(cl: Cloud, t: (int, int, int)): (r: Cloud)
    requires IsPermutation3(t)
    ensures multiset{r.xs, r.ys, r.cs} == multiset{cl.xs, cl.ys, cl.cs}
  {
    Cloud(Pick(cl, t.0), Pick(cl, t.1), Pick(cl, t.2))
  }

  /** lorenz: mode 0 returns (xs, ys, zs), mode 1 (xs, zs, ys), otherwise (ys, zs, xs). */
  function LorenzOrder(colorOption: int): (t: (int, int, int))
    ensures IsPermutation3(t)
    ensures colorOption == 0 ==> t == (0, 1, 2)
    ensures colorOption == 1 ==> t == (0, 2, 1)
    ensures colorOption != 0 && colorOption != 1 ==> t == (1, 2, 0)
  {
    if colorOption == 0 then (0, 1, 2)
    else if colorOption == 1 then (0, 2, 1)
    else (1, 2, 0)
  }

  /** aizawa: mode 0 returns (xs, zs, ys), mode 1 (xs, ys, zs), otherwise (zs, ys, xs). */
  function AizawaOrder(colorOption: int): (t: (int, int, int))
    ensures IsPermutation3(t)
    ensures colorOption == 0 ==> t == (0, 2, 1)
    ensures colorOption == 1 ==> t == (0, 1, 2)
    ensures colorOption != 0 && colorOption != 1 ==> t == (2, 1, 0)
  {
    if colorOption == 0 then (0, 2, 1)
    else if colorOption == 1 then (0, 1, 2)
    else (2, 1, 0)
  }

  /** Two different tables give different clouds when the three streams
      differ from one another: the colour option is observable. */
  lemma DistinctOrdersDiffer(cl: Cloud, t: (int, int, int), u: (int, int, int))
    requires IsPermutation3(t) && IsPermutation3(u) && t != u
    requires cl.xs != cl.ys && cl.ys != cl.cs && cl.xs != cl.cs
    ensures Reorder(cl, t) != Reorder(cl, u)
  {
    if t.0 != u.0 {
      assert Pick(cl, t.0) != Pick(cl, u.0);
    } else if t.1 != u.1 {
      assert Pick(cl, t.1) != Pick(cl, u.1);
    } else {
      assert t.2 != u.2;
      assert Pick(cl, t.2) != Pick(cl, u.2);
    }
  }

  /** burgers_map, popcorn, hourglass: the colour is x, y or x*y; x and y
      are emitted untouched. */
  function ColorChoice(colorOption: int, x: real, y: real): (p: Point)
    ensures p.x == x && p.y == y
    ensures p.c == (if colorOption == 0 then x else if colorOption == 1 then y else x * y)
  {
    if colorOption == 0 then Point(x, y, x)
    else if colorOption == 1 then Point(x, y, y)
    else Point(x, y, x * y)
  }

  /** henon, gingerbread, cat: mode 1 reflects the point to (-y, -x) and
      colours by y; the other modes keep (x, y) and colour by x or x*y. */
  function ReflectChoice(colorOption: int, x: real, y: real): (p: Point)
    ensures colorOption == 1 ==> p == Point(-y, -x, y)
    ensures colorOption != 1 ==> p.x == x && p.y == y
    ensures colorOption != 1 ==> p.c == (if colorOption == 0 then x else x * y)
  {
    if colorOption == 0 then Point(x, y, x)
    else if colorOption == 1 then Point(-y, -x, y)
    else Point(x, y, x * y)
  }

  /** The mode-1 reflection undoes itself. */
  lemma ReflectionIsInvolution(x: real, y: real)
    ensures var p := ReflectChoice(1, x, y); var q := ReflectChoice(1, p.x, p.y); q.x == x && q.y == y
  {
  }

  // ---------------------------------------------------------------------
  // Emitters shared by several generators

  type Vec2 = (real, real)
  type Vec3 = (real, real, real)

  /** Records the state after the step (lorenz, aizawa). */
  function EmitState3(): (Vec3, Vec3, nat) -> Point
  {
    (before: Vec3, after: Vec3, k: nat) => Point(after.0, after.1, after.2)
  }

  /** Records (x, y) after the step with the colour table (burgers_map, popcorn). */
  function EmitColorChoice(colorOption: int): (Vec2, Vec2, nat) -> Point
  {
    (before: Vec2, after: Vec2, k: nat) => ColorChoice(colorOption, after.0, after.1)
  }

  /** Records (x, y) after the step with the reflection table (henon, gingerbread, cat). */
  function EmitReflectChoice(colorOption: int): (Vec2, Vec2, nat) -> Point
  {
    (before: Vec2, after: Vec2, k: nat) => ReflectChoice(colorOption, after.0, after.1)
  }

  // ---------------------------------------------------------------------
  // circle: a closed-form curve over 200000 angle samples, no burn-in

  datatype CircleConstants = CircleConstants(a: real, b: real, c: real)

  function CircleScale(v: real): real
  {
    (4.0 / 3.0) * (v + 0.25)
  }

  function CircleConstantsOf(A: real, B: real, C: real): (k: CircleConstants)
    ensures 0.0 <= A <= 1.0 ==> 1.0 / 3.0 <= k.a <= 5.0 / 3.0
    ensures 0.0 <= B <= 1.0 ==> 1.0 / 3.0 <= k.b <= 5.0 / 3.0
    ensures 0.0 <= C <= 1.0 ==> 1.0 / 3.0 <= k.c <= 5.0 / 3.0
    ensures A == 0.5 ==> k.a == 1.0
    ensures B == 0.5 ==> k.b == 1.0
    ensures C == 0.5 ==> k.c == 1.0
  {
    CircleConstants(CircleScale(A), CircleScale(B), CircleScale(C))
  }

  /** `np.linspace(0, 8*np.pi, 200000)[k]`. */
  function CircleAngle(tr: Transcendentals, k: int): real
  {
    k as real * (8.0 * tr.pi) / 199999.0
  }

  function CircleColor(tr: Transcendentals, colorOption: int, t: real): real
  {
    if colorOption == 0 then tr.sin(t / 2.0)
    else if colorOption == 1 then tr.sin(t)
    else tr.sin(2.0 * t)
  }

  function Circle(A: real, B: real, C: real, colorOption: int, tr: Transcendentals): (r: Result<Cloud>)
    ensures r.Err? <==> !ValidInputs(A, B, C, colorOption)
    ensures r.Err? ==> r.error == InvalidParameter
    ensures r.Ok? ==> HasPoints(r.value, 200000)
    ensures r.Ok? ==> forall k :: 0 <= k < 200000 ==>
      r.value.cs[k] == CircleColor(tr, colorOption, CircleAngle(tr, k))
  {
    if !ValidInputs(A, B, C, colorOption) then Err(InvalidParameter)
    else
      var p := CircleConstantsOf(A, B, C);
      Ok(Cloud(seq(200000, k requires 0 <= k < 200000 => p.a * tr.sin(p.b * CircleAngle(tr, k))),
               seq(200000, k requires 0 <= k < 200000 => tr.cos(p.c * CircleAngle(tr, k))),
               seq(200000, k requires 0 <= k < 200000 => CircleColor(tr, colorOption, CircleAngle(tr, k)))))
  }

  /** circle's curve does not depend on the colour option. */
  lemma CircleCurveIgnoresColorOption(A: real, B: real, C: real, m1: int, m2: int, tr: Transcendentals)
    requires ValidInputs(A, B, C, m1) && ValidInputs(A, B, C, m2)
    ensures Circle(A, B, C, m1, tr).value.xs == Circle(A, B, C, m2, tr).value.xs
    ensures Circle(A, B, C, m1, tr).value.ys == Circle(A, B, C, m2, tr).value.ys
  {
  }

  // ---------------------------------------------------------------------
  // lorenz

  datatype LorenzConstants = LorenzConstants(rho: real, sigma: real, beta: real)

  function LorenzConstantsOf(A: real, B: real, C: real): (k: LorenzConstants)
    ensures 0.0 <= A <= 1.0 ==> 24.0 <= k.rho <= 32.0
    ensures 0.0 <= B <= 1.0 ==> 6.0 <= k.sigma <= 14.0
    ensures 0.0 <= C <= 1.0 ==> 8.0 / 3.0 - 0.75 <= k.beta <= 8.0 / 3.0 + 0.75
    ensures A == 0.5 && B == 0.5 && C == 0.5 ==> k == LorenzConstants(28.0, 10.0, 8.0 / 3.0)
  {
    LorenzConstants(28.0 + 8.0 * (A - 0.5), 10.0 + 8.0 * (B - 0.5), 8.0 / 3.0 + 1.5 * (C - 0.5))
  }

  /** Integration step of the continuous systems. */
  const Dt: real := 0.001

  /** One explicit Euler step; y uses the new x, z the new x and y. */
  function LorenzStep(k: LorenzConstants): (Vec3, nat) -> Vec3
  {
    (s: Vec3, i: nat) =>
      var x := s.0 + (k.sigma * (s.1 - s.0)) * Dt;
      var y := s.1 + (x * (k.rho - s.2) - s.1) * Dt;
      var z := s.2 + (x * y - k.beta * s.2) * Dt;
      (x, y, z)
  }

  function LorenzInit(rand: nat -> real): Vec3
  {
    (NoiseBand(rand(0)), NoiseBand(rand(1)), NoiseBand(rand(2)))
  }

  /** The x, y, z streams lorenz records before applying its table. */
  function LorenzStreams(A: real, B: real, C: real, rand: nat -> real): Cloud
  {
    BurnInCloud(LorenzInit(rand), LorenzStep(LorenzConstantsOf(A, B, C)), EmitState3())
  }

  method Lorenz(A: real, B: real, C: real, colorOption: int, rand: nat -> real) returns (r: Result<Cloud>)
    ensures r.Err? <==> !ValidInputs(A, B, C, colorOption)
    ensures r.Err? ==> r.error == InvalidParameter
    ensures r.Ok? ==> r.value == Reorder(LorenzStreams(A, B, C, rand), LorenzOrder(colorOption))
  {
    if !ValidInputs(A, B, C, colorOption) {
      return Err(InvalidParameter);
    }
    var k := LorenzConstantsOf(A, B, C);
    var xs, ys, zs := IterateWithBurnIn(LorenzInit(rand), LorenzStep(k), EmitState3());
    r := Ok(Reorder(Cloud(xs, ys, zs), LorenzOrder(colorOption)));
  }

  // ---------------------------------------------------------------------
  // sine_delay: a delay line x_n_m1, x_n driven by x_n_p1 = b*x_n_m1 + a*sin(x_n)

  datatype SineDelayConstants = SineDelayConstants(a: real, b: real)

  function MinReal(u: real, v: real): real
  {
    if u <= v then u else v
  }

  function SineDelayConstantsOf(A: real, B: real): (k: SineDelayConstants)
    ensures k.b <= 1.0
    ensures 0.0 <= A <= 1.0 ==> 0.1 <= k.a <= 10.1
    ensures 0.0 <= A <= 1.0 && 0.0 <= B <= 1.0 ==> 0.0 <= k.b
    ensures k.b == 1.0 || k.b == (2.0 * B) * ((10.0 - k.a) / 10.0 + 0.3)
  {
    var a := 10.0 * A + 0.1;
    var factor := (10.0 - a) / 10.0 + 0.3;
    assert 0.0 <= A <= 1.0 ==> factor == 1.29 - A && factor > 0.0;
    assert 0.0 <= A <= 1.0 && 0.0 <= B ==> (2.0 * B) * factor >= 0.0;
    SineDelayConstants(a, MinReal(1.0, (2.0 * B) * ((10.0 - a) / 10.0 + 0.3)))
  }

  predicate SineDelayUnstable(A: real, B: real)
  {
    A < 0.2 && B < 0.4
  }

  /** State (x_n_m1, x_n). A step computes x_n_p1 and shifts the line. */
  function SineDelayStep(k: SineDelayConstants, tr: Transcendentals): (Vec2, nat) -> Vec2
  {
    (s: Vec2, i: nat) => (s.1, k.b * s.0 + k.a * tr.sin(s.1))
  }

  /** `(C + 0.5) * 0.2*np.random.rand()-0.1`; draw 2 seeds x_n_p1, which the
      first step overwrites before use. */
  function SineDelayInit(C: real, rand: nat -> real): Vec2
  {
    ((C + 0.5) * 0.2 * rand(0) - 0.1, (C + 0.5) * 0.2 * rand(1) - 0.1)
  }

  /** The jitter added to recorded point k: two draws per recorded step. */
  function SineDelayFuzzX(C: real, rand: nat -> real, k: nat): real
  {
    0.1 * rand(3 + 2 * k) * (C - 0.5)
  }

  function SineDelayFuzzY(C: real, rand: nat -> real, k: nat): real
  {
    0.1 * rand(4 + 2 * k) * (C - 0.5)
  }

  function SineDelayColor(colorOption: int, xm1: real, xn: real, xp1: real): real
  {
    if colorOption == 0 then xm1 * xm1
    else if colorOption == 1 then xm1 * xn
    else xm1 * xp1
  }

  function SineDelayEmit(C: real, colorOption: int, rand: nat -> real): (Vec2, Vec2, nat) -> Point
  {
    (before: Vec2, after: Vec2, k: nat) =>
      Point(before.1 + SineDelayFuzzX(C, rand, k),
            after.1 + SineDelayFuzzY(C, rand, k),
            SineDelayColor(colorOption, before.0, before.1, after.1))
  }

  function SineDelayCloud(A: real, B: real, C: real, colorOption: int, tr: Transcendentals, rand: nat -> real): Cloud
  {
    BurnInCloud(SineDelayInit(C, rand), SineDelayStep(SineDelayConstantsOf(A, B), tr), SineDelayEmit(C, colorOption, rand))
  }

  method SineDelay(A: real, B: real, C: real, colorOption: int, tr: Transcendentals, rand: nat -> real)
    returns (r: Result<Cloud>)
    ensures r == Err(InvalidParameter) <==> !ValidInputs(A, B, C, colorOption)
    ensures r == Err(StabilityViolation) <==> ValidInputs(A, B, C, colorOption) && SineDelayUnstable(A, B)
    ensures r.Ok? <==> ValidInputs(A, B, C, colorOption) && !SineDelayUnstable(A, B)
    ensures r.Ok? ==> r.value == SineDelayCloud(A, B, C, colorOption, tr, rand)
  {
    if !ValidInputs(A, B, C, colorOption) {
      return Err(InvalidParameter);
    }
    var k := SineDelayConstantsOf(A, B);
    if A < 0.2 && B < 0.4 {
      return Err(StabilityViolation);
    }
    var xs, ys, cs := IterateWithBurnIn(SineDelayInit(C, rand), SineDelayStep(k, tr), SineDelayEmit(C, colorOption, rand));
    r := Ok(Cloud(xs, ys, cs));
  }

  /** Each step shifts the delay line: the new x_n_m1 is the old x_n, and
      the new x_n is the x_n_p1 the step computed. */
  lemma SineDelayShifts(A: real, B: real, C: real, tr: Transcendentals, rand: nat -> real, n: nat)
    ensures var k := SineDelayConstantsOf(A, B);
            var step := SineDelayStep(k, tr);
            var before := Orbit(SineDelayInit(C, rand), step, n);
            var after := Orbit(SineDelayInit(C, rand), step, n + 1);
            after.0 == before.1 && after.1 == k.b * before.0 + k.a * tr.sin(before.1)
  {
  }

  /** Up to jitter, the y of each recorded point is the x of the next one. */
  lemma {:induction false} SineDelayChains(A: real, B: real, C: real, colorOption: int, tr: Transcendentals,
                                            rand: nat -> real, k: nat)
    requires k + 1 < Retained
    ensures var cl := SineDelayCloud(A, B, C, colorOption, tr, rand);
            cl.ys[k] - SineDelayFuzzY(C, rand, k) == cl.xs[k + 1] - SineDelayFuzzX(C, rand, k + 1)
  {
    var init := SineDelayInit(C, rand);
    var step := SineDelayStep(SineDelayConstantsOf(A, B), tr);
    var emit := SineDelayEmit(C, colorOption, rand);
    assert BurnIn + (k + 1) == BurnIn + k + 1;
    assert EmitAt(init, step, emit, k).y - SineDelayFuzzY(C, rand, k) == Orbit(init, step, BurnIn + k + 1).1;
    assert EmitAt(init, step, emit, k + 1).x - SineDelayFuzzX(C, rand, k + 1) == Orbit(init, step, BurnIn + k + 1).1;
  }

  // ---------------------------------------------------------------------
  // burgers_map

  datatype BurgersConstants = BurgersConstants(xGain: real, yGain: real)

  function BurgersConstantsOf(A: real, B: real): (k: BurgersConstants)
    ensures 0.0 <= A <= 1.0 ==> -0.5 <= k.xGain <= 1.0
    ensures 0.0 <= B <= 1.0 ==> 1.5 <= k.yGain <= 2.0
  {
    BurgersConstants(1.0 - 1.5 * A, 1.0 + (B / 2.0 + 0.5))
  }

  /** Both new coordinates are computed from the old x and y. */
  function BurgersStep(k: BurgersConstants): (Vec2, nat) -> Vec2
  {
    (s: Vec2, i: nat) => (k.xGain * s.0 - s.1 * s.1, k.yGain * s.1 + s.0 * s.1)
  }

  function Init2(rand: nat -> real): Vec2
  {
    (NoiseBand(rand(0)), NoiseBand(rand(1)))
  }

  function BurgersCloud(A: real, B: real, colorOption: int, rand: nat -> real): Cloud
  {
    BurnInCloud(Init2(rand), BurgersStep(BurgersConstantsOf(A, B)), EmitColorChoice(colorOption))
  }

  method BurgersMap(A: real, B: real, C: real, colorOption: int, rand: nat -> real) returns (r: Result<Cloud>)
    ensures r.Err? <==> !ValidInputs(A, B, C, colorOption)
    ensures r.Err? ==> r.error == InvalidParameter
    ensures r.Ok? ==> r.value == BurgersCloud(A, B, colorOption, rand)
  {
    if !ValidInputs(A, B, C, colorOption) {
      return Err(InvalidParameter);
    }
    var xs, ys, cs := IterateWithBurnIn(Init2(rand), BurgersStep(BurgersConstantsOf(A, B)), EmitColorChoice(colorOption));
    r := Ok(Cloud(xs, ys, cs));
  }

  /** With the same step and initial state, clouds emitted through the
      colour table agree on x and y whatever the colour option. */
  lemma {:induction false} ColorChoiceKeepsPositions(init: Vec2, step: (Vec2, nat) -> Vec2, m1: int, m2: int)
    ensures BurnInCloud(init, step, EmitColorChoice(m1)).xs == BurnInCloud(init, step, EmitColorChoice(m2)).xs
    ensures BurnInCloud(init, step, EmitColorChoice(m1)).ys == BurnInCloud(init, step, EmitColorChoice(m2)).ys
  {
    var c1 := BurnInCloud(init, step, EmitColorChoice(m1));
    var c2 := BurnInCloud(init, step, EmitColorChoice(m2));
    forall k | 0 <= k < Retained
      ensures c1.xs[k] == c2.xs[k] && c1.ys[k] == c2.ys[k]
    {
      var after := Orbit(init, step, BurnIn + k + 1);
      assert c1.xs[k] == ColorChoice(m1, after.0, after.1).x;
      assert c2.xs[k] == ColorChoice(m2, after.0, after.1).x;
      assert c1.ys[k] == ColorChoice(m1, after.0, after.1).y;
      assert c2.ys[k] == ColorChoice(m2, after.0, after.1).y;
    }
  }

  /** burgers_map: the colour option only selects the colour stream. */
  lemma BurgersPositionsIgnoreColorOption(A: real, B: real, m1: int, m2: int, rand: nat -> real)
    ensures BurgersCloud(A, B, m1, rand).xs == BurgersCloud(A, B, m2, rand).xs
    ensures BurgersCloud(A, B, m1, rand).ys == BurgersCloud(A, B, m2, rand).ys
  {
    ColorChoiceKeepsPositions(Init2(rand), BurgersStep(BurgersConstantsOf(A, B)), m1, m2);
  }

  // ---------------------------------------------------------------------
  // aizawa

  datatype AizawaConstants = AizawaConstants(a: real, b: real, c: real, d: real, e: real, f: real)

  function AizawaConstantsOf(A: real, B: real, C: real): (k: AizawaConstants)
    ensures k.a == 0.95 && k.e == 0.25 && k.f == 0.1
    ensures 0.0 <= A <= 1.0 ==> 0.595 <= k.b <= 0.945
    ensures 0.0 <= B <= 1.0 ==> 1.75 <= k.d <= 5.25
    ensures 0.0 <= C <= 1.0 ==> 0.3 <= k.c <= 0.9
  {
    AizawaConstants(0.95, 0.7 * (A / 2.0 + 0.85), (C + 0.5) * 0.6, (B + 0.5) * 3.5, 0.25, 0.1)
  }

  function AizawaStep(k: AizawaConstants): (Vec3, nat) -> Vec3
  {
    (s: Vec3, i: nat) =>
      var x := s.0 + Dt * ((s.2 - k.b) * s.0 - k.d * s.1);
      var y := s.1 + Dt * (k.d * x + (s.2 - k.b) * s.1);
      var z := s.2 + Dt * (k.c + k.a * s.2 - s.2 * s.2 * s.2 / 3.0
                           - (x * x + y * y) * (1.0 + k.e * s.2) + k.f * s.2 * x * x * x);
      (x, y, z)
  }

  function AizawaStreams(A: real, B: real, C: real, rand: nat -> real): Cloud
  {
    BurnInCloud(LorenzInit(rand), AizawaStep(AizawaConstantsOf(A, B, C)), EmitState3())
  }

  method Aizawa(A: real, B: real, C: real, colorOption: int, rand: nat -> real) returns (r: Result<Cloud>)
    ensures r.Err? <==> !ValidInputs(A, B, C, colorOption)
    ensures r.Err? ==> r.error == InvalidParameter
    ensures r.Ok? ==> r.value == Reorder(AizawaStreams(A, B, C, rand), AizawaOrder(colorOption))
  {
    if !ValidInputs(A, B, C, colorOption) {
      return Err(InvalidParameter);
    }
    var k := AizawaConstantsOf(A, B, C);
    var xs, ys, zs := IterateWithBurnIn(LorenzInit(rand), AizawaStep(k), EmitState3());
    r := Ok(Reorder(Cloud(xs, ys, zs), AizawaOrder(colorOption)));
  }

  // ---------------------------------------------------------------------
  // popcorn

  datatype PopcornConstants = PopcornConstants(a: real, b: real, coupling: real)

  predicate PopcornUnstable(A: real, B: real)
  {
    A < 0.3 && B < 0.4
  }

  function PopcornConstantsOf(A: real, B: real, C: real): (k: PopcornConstants)
    ensures 0.0 <= A <= 1.0 ==> 0.5 <= k.a <= 1.0
    ensures 0.0 <= B <= 1.0 ==> 0.5 <= k.b <= 4.5
    ensures 0.0 <= C <= 1.0 ==> -0.5 <= k.coupling <= 0.5
  {
    PopcornConstants(A / 2.0 + 0.5, 4.0 * B + 0.5, C - 0.5)
  }

  function PopcornStep(k: PopcornConstants, tr: Transcendentals): (Vec2, nat) -> Vec2
  {
    (s: Vec2, i: nat) =>
      (k.a * tr.sin(s.1 + tr.tan(k.b * s.1)) + k.coupling * s.1,
       k.a * tr.sin(s.0 + tr.tan(k.b * s.0)) + k.coupling * s.0)
  }

  function PopcornCloud(A: real, B: real, C: real, colorOption: int, tr: Transcendentals, rand: nat -> real): Cloud
  {
    BurnInCloud(Init2(rand), PopcornStep(PopcornConstantsOf(A, B, C), tr), EmitColorChoice(colorOption))
  }

  method Popcorn(A: real, B: real, C: real, colorOption: int, tr: Transcendentals, rand: nat -> real)
    returns (r: Result<Cloud>)
    ensures r == Err(InvalidParameter) <==> !ValidInputs(A, B, C, colorOption)
    ensures r == Err(StabilityViolation) <==> ValidInputs(A, B, C, colorOption) && PopcornUnstable(A, B)
    ensures r.Ok? <==> ValidInputs(A, B, C, colorOption) && !PopcornUnstable(A, B)
    ensures r.Ok? ==> r.value == PopcornCloud(A, B, C, colorOption, tr, rand)
  {
    if !ValidInputs(A, B, C, colorOption) {
      return Err(InvalidParameter);
    }
    if A < 0.3 && B < 0.4 {
      return Err(StabilityViolation);
    }
    var k := PopcornConstantsOf(A, B, C);
    var xs, ys, cs := IterateWithBurnIn(Init2(rand), PopcornStep(k, tr), EmitColorChoice(colorOption));
    r := Ok(Cloud(xs, ys, cs));
  }

  /** popcorn: the colour option only selects the colour stream. */
  lemma PopcornPositionsIgnoreColorOption(A: real, B: real, C: real, m1: int, m2: int, tr: Transcendentals, rand: nat -> real)
    ensures PopcornCloud(A, B, C, m1, tr, rand).xs == PopcornCloud(A, B, C, m2, tr, rand).xs
    ensures PopcornCloud(A, B, C, m1, tr, rand).ys == PopcornCloud(A, B, C, m2, tr, rand).ys
  {
    ColorChoiceKeepsPositions(Init2(rand), PopcornStep(PopcornConstantsOf(A, B, C), tr), m1, m2);
  }

  // ---------------------------------------------------------------------
  // hourglass: x_p1 = x*(a - |x_m1|^(2+e)) + jitter

  datatype HourglassConstants = HourglassConstants(a: real, e: real, jitter: real)

  predicate HourglassUnstable(A: real, B: real)
  {
    A > 0.6 && B > 0.9
  }

  function HourglassConstantsOf(A: real, B: real, C: real): (k: HourglassConstants)
    ensures 0.0 <= A <= 1.0 ==> 1.7 <= k.a <= 1.95
    ensures 0.0 <= B <= 1.0 ==> -0.35 <= k.e <= 0.35
    ensures 0.0 <= C <= 1.0 ==> -0.025 <= k.jitter <= 0.025
  {
    HourglassConstants(1.7 + A / 4.0, 0.7 * (B - 0.5), 0.05 * (C - 0.5))
  }

  /** State (x_m1, x); step i's jitter is draw 2 + i. */
  function HourglassStep(k: HourglassConstants, tr: Transcendentals, rand: nat -> real): (Vec2, nat) -> Vec2
  {
    (s: Vec2, i: nat) => (s.1, s.1 * (k.a - tr.pow(Abs(s.0), 2.0 + k.e)) + k.jitter * rand(2 + i))
  }

  /** Records (x, x_p1) before the shift. */
  function HourglassEmit(colorOption: int): (Vec2, Vec2, nat) -> Point
  {
    (before: Vec2, after: Vec2, k: nat) => ColorChoice(colorOption, before.1, after.1)
  }

  function HourglassCloud(A: real, B: real, C: real, colorOption: int, tr: Transcendentals, rand: nat -> real): Cloud
  {
    BurnInCloud(Init2(rand), HourglassStep(HourglassConstantsOf(A, B, C), tr, rand), HourglassEmit(colorOption))
  }

  method Hourglass(A: real, B: real, C: real, colorOption: int, tr: Transcendentals, rand: nat -> real)
    returns (r: Result<Cloud>)
    ensures r == Err(InvalidParameter) <==> !ValidInputs(A, B, C, colorOption)
    ensures r == Err(StabilityViolation) <==> ValidInputs(A, B, C, colorOption) && HourglassUnstable(A, B)
    ensures r.Ok? <==> ValidInputs(A, B, C, colorOption) && !HourglassUnstable(A, B)
    ensures r.Ok? ==> r.value == HourglassCloud(A, B, C, colorOption, tr, rand)
  {
    if !ValidInputs(A, B, C, colorOption) {
      return Err(InvalidParameter);
    }
    if A > 0.6 && B > 0.9 {
      return Err(StabilityViolation);
    }
    var k := HourglassConstantsOf(A, B, C);
    var xs, ys, cs := IterateWithBurnIn(Init2(rand), HourglassStep(k, tr, rand), HourglassEmit(colorOption));
    r := Ok(Cloud(xs, ys, cs));
  }

  /** hourglass output chains: each point's y is the next point's x. */
  lemma {:induction false} HourglassChains(A: real, B: real, C: real, colorOption: int, tr: Transcendentals,
                                            rand: nat -> real, k: nat)
    requires k + 1 < Retained
    ensures var cl := HourglassCloud(A, B, C, colorOption, tr, rand); cl.ys[k] == cl.xs[k + 1]
  {
    var init := Init2(rand);
    var step := HourglassStep(HourglassConstantsOf(A, B, C), tr, rand);
    var emit := HourglassEmit(colorOption);
    assert BurnIn + (k + 1) == BurnIn + k + 1;
    assert EmitAt(init, step, emit, k).y == Orbit(init, step, BurnIn + k + 1).1;
    assert EmitAt(init, step, emit, k + 1).x == Orbit(init, step, BurnIn + k + 1).1;
  }

  /** hourglass: the colour option only selects the colour stream. */
  lemma {:induction false} HourglassPositionsIgnoreColorOption(A: real, B: real, C: real, m1: int, m2: int,
                                                                tr: Transcendentals, rand: nat -> real)
    ensures HourglassCloud(A, B, C, m1, tr, rand).xs == HourglassCloud(A, B, C, m2, tr, rand).xs
    ensures HourglassCloud(A, B, C, m1, tr, rand).ys == HourglassCloud(A, B, C, m2, tr, rand).ys
  {
    var c1 := HourglassCloud(A, B, C, m1, tr, rand);
    var c2 := HourglassCloud(A, B, C, m2, tr, rand);
    var init := Init2(rand);
    var step := HourglassStep(HourglassConstantsOf(A, B, C), tr, rand);
    forall k | 0 <= k < Retained
      ensures c1.xs[k] == c2.xs[k] && c1.ys[k] == c2.ys[k]
    {
      var before := Orbit(init, step, BurnIn + k);
      var after := Orbit(init, step, BurnIn + k + 1);
      assert c1.xs[k] == ColorChoice(m1, before.1, after.1).x;
      assert c2.xs[k] == ColorChoice(m2, before.1, after.1).x;
      assert c1.ys[k] == ColorChoice(m1, before.1, after.1).y;
      assert c2.ys[k] == ColorChoice(m2, before.1, after.1).y;
    }
  }

  // ---------------------------------------------------------------------
  // henon

  datatype HenonConstants = HenonConstants(a: real, b: real, jitter: real)

  function HenonConstantsOf(A: real, B: real, C: real): (k: HenonConstants)
    ensures 0.0 <= A <= 1.0 ==> 1.3 <= k.a <= 1.4
    ensures 0.0 <= B <= 1.0 ==> 0.2 <= k.b <= 0.3
    ensures A == 0.5 && B == 0.5 ==> k.a == 1.35 && k.b == 0.25
    ensures C == 0.5 ==> k.jitter == 0.0
  {
    HenonConstants(1.3 + A / 10.0, 0.2 + B / 10.0, 0.05 * (C - 0.5))
  }

  /** Step i draws 2 + 2i for x and 3 + 2i for y; both use the old x. */
  function HenonStep(k: HenonConstants, rand: nat -> real): (Vec2, nat) -> Vec2
  {
    (s: Vec2, i: nat) =>
      (1.0 - k.a * (s.0 * s.0) + s.1 + k.jitter * rand(2 + 2 * i),
       k.b * s.0 + k.jitter * rand(3 + 2 * i))
  }

  function HenonCloud(A: real, B: real, C: real, colorOption: int, rand: nat -> real): Cloud
  {
    BurnInCloud(Init2(rand), HenonStep(HenonConstantsOf(A, B, C), rand), EmitReflectChoice(colorOption))
  }

  method Henon(A: real, B: real, C: real, colorOption: int, rand: nat -> real) returns (r: Result<Cloud>)
    ensures r.Err? <==> !ValidInputs(A, B, C, colorOption)
    ensures r.Err? ==> r.error == InvalidParameter
    ensures r.Ok? ==> r.value == HenonCloud(A, B, C, colorOption, rand)
  {
    if !ValidInputs(A, B, C, colorOption) {
      return Err(InvalidParameter);
    }
    var k := HenonConstantsOf(A, B, C);
    var xs, ys, cs := IterateWithBurnIn(Init2(rand), HenonStep(k, rand), EmitReflectChoice(colorOption));
    r := Ok(Cloud(xs, ys, cs));
  }

  /** Mode 1 is the reflection (-y, -x) of mode 0 coloured by y, and mode 2
      keeps mode 0's points coloured by x*y. */
  predicate ReflectModesRelated(c0: Cloud, c1: Cloud, c2: Cloud)
    requires HasPoints(c0, Retained) && HasPoints(c1, Retained) && HasPoints(c2, Retained)
  {
    forall k :: 0 <= k < Retained ==>
      c1.xs[k] == -c0.ys[k] && c1.ys[k] == -c0.xs[k] && c1.cs[k] == c0.ys[k] &&
      c2.xs[k] == c0.xs[k] && c2.ys[k] == c0.ys[k] && c2.cs[k] == c0.xs[k] * c0.ys[k]
  }

  /** For the same orbit, the three entries of the reflection table relate
      as ReflectModesRelated says. */
  lemma {:induction false} ReflectModesRelate(init: Vec2, step: (Vec2, nat) -> Vec2)
    ensures ReflectModesRelated(BurnInCloud(init, step, EmitReflectChoice(0)),
                                BurnInCloud(init, step, EmitReflectChoice(1)),
                                BurnInCloud(init, step, EmitReflectChoice(2)))
  {
    var c0 := BurnInCloud(init, step, EmitReflectChoice(0));
    var c1 := BurnInCloud(init, step, EmitReflectChoice(1));
    var c2 := BurnInCloud(init, step, EmitReflectChoice(2));
    forall k | 0 <= k < Retained
      ensures c1.xs[k] == -c0.ys[k] && c1.ys[k] == -c0.xs[k] && c1.cs[k] == c0.ys[k]
      ensures c2.xs[k] == c0.xs[k] && c2.ys[k] == c0.ys[k] && c2.cs[k] == c0.xs[k] * c0.ys[k]
    {
      var after := Orbit(init, step, BurnIn + k + 1);
      assert c0.xs[k] == after.0 && c0.ys[k] == after.1;
      assert c1.xs[k] == -after.1 && c1.ys[k] == -after.0 && c1.cs[k] == after.1;
      assert c2.xs[k] == after.0 && c2.ys[k] == after.1 && c2.cs[k] == after.0 * after.1;
    }
  }

  lemma HenonModes(A: real, B: real, C: real, rand: nat -> real)
    ensures ReflectModesRelated(HenonCloud(A, B, C, 0, rand), HenonCloud(A, B, C, 1, rand), HenonCloud(A, B, C, 2, rand))
  {
    ReflectModesRelate(Init2(rand), HenonStep(HenonConstantsOf(A, B, C), rand));
  }

  // ---------------------------------------------------------------------
  // gingerbread

  datatype GingerbreadConstants = GingerbreadConstants(a: real, b: real, jitter: real)

  predicate GingerbreadUnstable(A: real, B: real)
  {
    Abs(A) < Abs(B)
  }

  /** For valid parameters the guard |A| < |B| is just A < B. */
  lemma GingerbreadGuardOnValidInputs(A: real, B: real)
    requires 0.0 <= A && 0.0 <= B
    ensures GingerbreadUnstable(A, B) <==> A < B
  {
  }

  function GingerbreadConstantsOf(A: real, B: real, C: real): (k: GingerbreadConstants)
    ensures 0.0 <= A <= 1.0 ==> -1.101 <= k.a <= -0.901
    ensures 0.0 <= B <= 1.0 ==> -1.1 <= k.b <= -0.9
  {
    GingerbreadConstants(-(A / 5.0 + 0.9) - 0.001, -(B / 5.0 + 0.9), 0.01 * (C - 0.4999))
  }

  /** Step i draws 2 + i. */
  function GingerbreadStep(k: GingerbreadConstants, rand: nat -> real): (Vec2, nat) -> Vec2
  {
    (s: Vec2, i: nat) => (1.0 - k.a * Abs(s.0) + k.b * s.1, s.0 + k.jitter * rand(2 + i))
  }

  function GingerbreadCloud(A: real, B: real, C: real, colorOption: int, rand: nat -> real): Cloud
  {
    BurnInCloud(Init2(rand), GingerbreadStep(GingerbreadConstantsOf(A, B, C), rand), EmitReflectChoice(colorOption))
  }

  method Gingerbread(A: real, B: real, C: real, colorOption: int, rand: nat -> real) returns (r: Result<Cloud>)
    ensures r == Err(InvalidParameter) <==> !ValidInputs(A, B, C, colorOption)
    ensures r == Err(StabilityViolation) <==> ValidInputs(A, B, C, colorOption) && A < B
    ensures r.Ok? <==> ValidInputs(A, B, C, colorOption) && B <= A
    ensures r.Ok? ==> r.value == GingerbreadCloud(A, B, C, colorOption, rand)
  {
    if !ValidInputs(A, B, C, colorOption) {
      return Err(InvalidParameter);
    }
    if Abs(A) < Abs(B) {
      return Err(StabilityViolation);
    }
    var k := GingerbreadConstantsOf(A, B, C);
    var xs, ys, cs := IterateWithBurnIn(Init2(rand), GingerbreadStep(k, rand), EmitReflectChoice(colorOption));
    r := Ok(Cloud(xs, ys, cs));
  }

  lemma GingerbreadModes(A: real, B: real, C: real, rand: nat -> real)
    ensures ReflectModesRelated(GingerbreadCloud(A, B, C, 0, rand), GingerbreadCloud(A, B, C, 1, rand), GingerbreadCloud(A, B, C, 2, rand))
  {
    ReflectModesRelate(Init2(rand), GingerbreadStep(GingerbreadConstantsOf(A, B, C), rand));
  }

  // ---------------------------------------------------------------------
  // cat

  datatype CatConstants = CatConstants(a: real, b: real, c: real)

  function CatConstantsOf(A: real, B: real, C: real): (k: CatConstants)
    ensures 0.0 <= A <= 1.0 ==> 0.4 <= k.a <= 1.1
    ensures 0.0 <= B <= 1.0 ==> 0.4 <= k.b <= 1.1
    ensures 0.0 <= C <= 1.0 ==> 0.5 <= k.c <= 1.5
    ensures C == 0.5 ==> k.c == 1.0
  {
    CatConstants(0.7 * A + 0.4, 0.7 * B + 0.4, 1.0 + (C - 0.5))
  }

  /** `np.mod(v, 1)`: the result takes the sign of the divisor. */
  function Mod1(v: real): (r: real)
    ensures 0.0 <= r < 1.0
    ensures (v - r).Floor as real == v - r
  {
    v - v.Floor as real
  }

  function CatStep(k: CatConstants, tr: Transcendentals): (Vec2, nat) -> Vec2
  {
    (s: Vec2, i: nat) =>
      (tr.pow(Mod1(2.0 * tr.pow(s.0, k.a) + tr.pow(s.1, k.b)), k.c),
       Mod1(tr.pow(s.0, k.a) + tr.pow(s.1, k.b)))
  }

  /** cat starts from `0.2*np.random.rand()` without the -0.1 offset. */
  function CatInit(rand: nat -> real): Vec2
  {
    (0.2 * rand(0), 0.2 * rand(1))
  }

  function CatCloud(A: real, B: real, C: real, colorOption: int, tr: Transcendentals, rand: nat -> real): Cloud
  {
    BurnInCloud(CatInit(rand), CatStep(CatConstantsOf(A, B, C), tr), EmitReflectChoice(colorOption))
  }

  method Cat(A: real, B: real, C: real, colorOption: int, tr: Transcendentals, rand: nat -> real)
    returns (r: Result<Cloud>)
    ensures r.Err? <==> !ValidInputs(A, B, C, colorOption)
    ensures r.Err? ==> r.error == InvalidParameter
    ensures r.Ok? ==> r.value == CatCloud(A, B, C, colorOption, tr, rand)
  {
    if !ValidInputs(A, B, C, colorOption) {
      return Err(InvalidParameter);
    }
    var k := CatConstantsOf(A, B, C);
    var xs, ys, cs := IterateWithBurnIn(CatInit(rand), CatStep(k, tr), EmitReflectChoice(colorOption));
    r := Ok(Cloud(xs, ys, cs));
  }

  /** cat's y coordinate stays in [0, 1) after the first step. */
  lemma CatYInUnitInterval(A: real, B: real, C: real, tr: Transcendentals, rand: nat -> real, n: nat)
    requires n > 0
    ensures var s := Orbit(CatInit(rand), CatStep(CatConstantsOf(A, B, C), tr), n); 0.0 <= s.1 < 1.0
  {
    var k := CatConstantsOf(A, B, C);
    var prev := Orbit(CatInit(rand), CatStep(k, tr), n - 1);
    assert Orbit(CatInit(rand), CatStep(k, tr), n) == CatStep(k, tr)(prev, n - 1);
    assert CatStep(k, tr)(prev, n - 1).1 == Mod1(tr.pow(prev.0, k.a) + tr.pow(prev.1, k.b));
  }

  lemma CatModes(A: real, B: real, C: real, tr: Transcendentals, rand: nat -> real)
    ensures ReflectModesRelated(CatCloud(A, B, C, 0, tr, rand), CatCloud(A, B, C, 1, tr, rand), CatCloud(A, B, C, 2, tr, rand))
  {
    ReflectModesRelate(CatInit(rand), CatStep(CatConstantsOf(A, B, C), tr));
  }

  // ---------------------------------------------------------------------
  // Properties common to all generators

  /** Every generator returns lists of the same, fixed length. */
  lemma RecurrenceCloudsHave200000Points(A: real, B: real, C: real, m: int, tr: Transcendentals, rand: nat -> real)
    ensures HasPoints(Reorder(LorenzStreams(A, B, C, rand), LorenzOrder(m)), 200000)
    ensures HasPoints(Reorder(AizawaStreams(A, B, C, rand), AizawaOrder(m)), 200000)
    ensures HasPoints(SineDelayCloud(A, B, C, m, tr, rand), 200000)
    ensures HasPoints(BurgersCloud(A, B, m, rand), 200000)
    ensures HasPoints(PopcornCloud(A, B, C, m, tr, rand), 200000)
    ensures HasPoints(HourglassCloud(A, B, C, m, tr, rand), 200000)
    ensures HasPoints(HenonCloud(A, B, C, m, rand), 200000)
    ensures HasPoints(GingerbreadCloud(A, B, C, m, rand), 200000)
    ensures HasPoints(CatCloud(A, B, C, m, tr, rand), 200000)
  {
    var l := LorenzStreams(A, B, C, rand);
    var z := AizawaStreams(A, B, C, rand);
    assert |Pick(l, LorenzOrder(m).0)| == 200000 && |Pick(l, LorenzOrder(m).1)| == 200000 && |Pick(l, LorenzOrder(m).2)| == 200000;
    assert |Pick(z, AizawaOrder(m).0)| == 200000 && |Pick(z, AizawaOrder(m).1)| == 200000 && |Pick(z, AizawaOrder(m).2)| == 200000;
  }
}
