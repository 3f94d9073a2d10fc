/**
 * Transient propagation of deposited charge carriers through a sensor.
 *
 * The module receives the deposits of one detector for an event, splits each deposit
 * into packages of at most `charge_per_step` carriers, drifts every package step by
 * step until it leaves the sensor, recombines, is trapped or the integration time is
 * over, records the charge induced on the pixels it passes, sorts the package into one
 * of three counters and finally dispatches one message with all propagated charges.
 *
 * The physics (Runge-Kutta drift, Gaussian diffusion, recombination and trapping
 * models) and the sensor geometry (fields, pixel look-up, weighting potential) are
 * oracles: function-valued fields of `Physics` and `SensorGeometry`. The event's random
 * engine is a counter of consumed steps; every oracle that draws random numbers is
 * given the counter's value, and each step advances it by one.
 */
module TransientPropagation {
  import opened Common

  // ---------------------------------------------------------------------------
  // Data

  /** The carrier type; its underlying value (-1, +1) is used as a sign. */
  datatype CarrierType = Electron | Hole

  function Sign(t: CarrierType): int
  {
    if t == Electron then -1 else 1
  }

  /** Final state of a propagated package. */
  datatype CarrierState = Motion | Recombined | Trapped | Halted

  datatype PixelIndex = PixelIndex(x: int, y: int)

  /** One `Pulse::addCharge(charge, time)` contribution. */
  datatype Contribution = Contribution(time: real, charge: real)

  /** The induced-current pulse of one pixel, as the list of its contributions. */
  datatype Pulse = Pulse(contributions: seq<Contribution>)

  /** A deposited set of charge carriers (`DepositedCharge`). */
  datatype Deposit = Deposit(localPosition: Vec3, carrier: CarrierType, charge: nat, localTime: real, globalTime: real)

  /**
   * A propagated package (`PropagatedCharge`); `deposit` is the position in the
   * deposits message of the deposit it came from (`run()` keeps a pointer to it).
   */
  datatype PropagatedCharge = PropagatedCharge(
    localPosition: Vec3,
    globalPosition: Vec3,
    carrier: CarrierType,
    pulses: map<PixelIndex, Pulse>,
    localTime: real,
    globalTime: real,
    state: CarrierState,
    deposit: nat)

  datatype DepositedChargeMessage = DepositedChargeMessage(deposits: seq<Deposit>)

  datatype PropagatedChargeMessage = PropagatedChargeMessage(charges: seq<PropagatedCharge>, detector: string)

  type NonNegReal = r: real | r >= 0.0

  /** Result of the trapping model for one step: trapped or not, and the de-trapping time. */
  datatype TrapDraw = TrapDraw(trapped: bool, trapTime: NonNegReal)

  /**
   * The physics models, for one detector. `drift(withB, type, x)` is one Runge-Kutta
   * step from `x` (with or without magnetic field); the others take the random engine
   * position: `diffuse` adds the Gaussian diffusion, `recombines` evaluates the
   * recombination model with a survival draw, `trap` the trapping model.
   */
  datatype Physics = Physics(
    drift: (bool, CarrierType, Vec3) -> Vec3,
    diffuse: (CarrierType, Vec3, nat) -> Vec3,
    recombines: (CarrierType, Vec3, nat) -> bool,
    trap: (CarrierType, Vec3, nat) -> TrapDraw)

  /** The detector geometry and fields the step loop consults. */
  datatype SensorGeometry = SensorGeometry(
    withinSensor: Vec3 -> bool,
    intercept: (Vec3, Vec3) -> Vec3,
    pixelOf: Vec3 -> PixelIndex,
    neighbours: (PixelIndex, nat) -> set<PixelIndex>,
    weighting: (Vec3, PixelIndex) -> real,
    toGlobal: Vec3 -> Vec3)

  /** The module parameters the propagation reads. */
  datatype Settings = Settings(
    timestep: real,
    integrationTime: real,
    chargePerStep: nat,
    distance: nat,
    hasMagneticField: bool)

  /**
   * The variables of the step loop: state, current and previous position, time
   * elapsed since the deposit (`runge_kutta.getTime()`), random engine, pixel map.
   */
  datatype Carrier = Carrier(
    state: CarrierState,
    position: Vec3,
    lastPosition: Vec3,
    elapsed: real,
    engine: nat,
    pulses: map<PixelIndex, Pulse>)

  // ---------------------------------------------------------------------------
  // Configuration

  /** Configuration keys read by the constructor and `initialize()`. */
  datatype TransientConfig = TransientConfig(
    timestep: Option<real>,
    integrationTime: Option<real>,
    chargePerStep: Option<nat>,
    temperature: Option<real>,
    outputPlots: Option<bool>,
    distance: Option<nat>,
    ignoreMagneticField: Option<bool>)

  // Defaults (times in ns, the framework's internal time unit).
  const DefaultTimestep: real := 0.01
  const DefaultIntegrationTime: real := 25.0
  const DefaultChargePerStep: nat := 10
  const DefaultTemperature: real := 293.15
  const DefaultDistance: nat := 1

  /** Electric field types a detector can carry. */
  datatype FieldType = NoField | Constant | Linear | Grid | Custom1D | Custom

  /** What `initialize()` asks of the detector. */
  datatype DetectorFields = DetectorFields(
    hasElectricField: bool,
    electricFieldType: FieldType,
    hasWeightingPotential: bool,
    hasMagneticField: bool)

  datatype Warning = NoElectricField | MagneticFieldIgnored

  /**
   * The verdict of `initialize()`. It throws when the weighting potential is missing or the
   * electric field is linear; past those checks it builds the mobility, recombination and
   * trapping models, whose constructors are not part of this model: `modelsError` is the
   * error one of them throws, if any. A missing electric field is not an error.
   */
  function InitializeOutcome(det: DetectorFields, modelsError: Option<Error>): (r: Outcome<Error>)
    ensures r.Fail? <==> !det.hasWeightingPotential || det.electricFieldType == Linear || modelsError.Some?
    ensures !det.hasWeightingPotential ==> r == Fail(ModuleError("This module requires a weighting potential."))
    ensures det.hasWeightingPotential && det.electricFieldType == Linear ==>
      r == Fail(ModuleError("This module cannot be used with linear electric fields."))
    ensures det.hasWeightingPotential && det.electricFieldType != Linear && modelsError.Some? ==>
      r == Fail(modelsError.value)
  {
    if !det.hasWeightingPotential then Fail(ModuleError("This module requires a weighting potential."))
    else if det.electricFieldType == Linear then Fail(ModuleError("This module cannot be used with linear electric fields."))
    else if modelsError.Some? then Fail(modelsError.value)
    else Pass
  }

  // ---------------------------------------------------------------------------
  // Splitting a deposit into packages

  /**
   * One iteration of the splitting loop as `run()` writes it: the package size is
   * `charge_per_step` reduced to what remains, and what remains after it.
   */
  function SplitStep(remaining: nat, chargePerStep: nat): (r: (nat, nat))
    ensures r.0 <= remaining && r.0 + r.1 == remaining
    ensures chargePerStep > 0 && remaining > 0 ==> r.1 < remaining
  {
    var q := if chargePerStep > remaining then remaining else chargePerStep;
    (q, remaining - q)
  }

  /**
   * With `charge_per_step` configured to 0 the splitting step takes nothing away, so
   * the loop over a deposit with charge never ends.
   */
  lemma ZeroChargePerStepStalls(remaining: nat)
    requires remaining > 0
    ensures SplitStep(remaining, 0) == (0, remaining)
  {
  }

  /** The package sizes a deposit of `charge` carriers is split into. */
  function Packages(charge: nat, chargePerStep: nat): (qs: seq<nat>)
    requires chargePerStep > 0
    decreases charge
  {
    if charge == 0 then []
    else var (q, rest) := SplitStep(charge, chargePerStep); [q] + Packages(rest, chargePerStep)
  }

  function Sum(qs: seq<nat>): nat
  {
    if qs == [] then 0 else Sum(qs[..|qs| - 1]) + qs[|qs| - 1]
  }

  lemma {:induction false} SumAppend(a: seq<nat>, b: seq<nat>)
    ensures Sum(a + b) == Sum(a) + Sum(b)
    decreases |b|
  {
    if b == [] {
      assert a + b == a;
    } else {
      assert (a + b)[..|a + b| - 1] == a + b[..|b| - 1];
      SumAppend(a, b[..|b| - 1]);
    }
  }

  /** Taking one more package off the remaining charge keeps the packages listed so far a prefix. */
  lemma PackagesAdvance(done: seq<nat>, remaining: nat, chargePerStep: nat, all: seq<nat>)
    requires chargePerStep > 0 && remaining > 0
    requires done + Packages(remaining, chargePerStep) == all
    ensures var (q, rest) := SplitStep(remaining, chargePerStep);
      (done + [q]) + Packages(rest, chargePerStep) == all
  {
    var (q, rest) := SplitStep(remaining, chargePerStep);
    assert (done + [q]) + Packages(rest, chargePerStep) == done + ([q] + Packages(rest, chargePerStep));
  }

  /** The packages of a deposit add up to its charge. */
  lemma {:induction false} PackagesSum(charge: nat, chargePerStep: nat)
    requires chargePerStep > 0
    ensures Sum(Packages(charge, chargePerStep)) == charge
    decreases charge
  {
    if charge > 0 {
      var (q, rest) := SplitStep(charge, chargePerStep);
      PackagesSum(rest, chargePerStep);
      SumAppend([q], Packages(rest, chargePerStep));
      assert Sum([q]) == Sum([]) + q;
    }
  }

  /**
   * Every package holds between 1 and `charge_per_step` carriers and all but the last
   * hold exactly `charge_per_step`; a deposit without charge gives none.
   */
  lemma {:induction false} PackagesShape(charge: nat, chargePerStep: nat)
    requires chargePerStep > 0
    ensures var qs := Packages(charge, chargePerStep);
      && (forall i :: 0 <= i < |qs| ==> 0 < qs[i] <= chargePerStep)
      && (forall i :: 0 <= i < |qs| - 1 ==> qs[i] == chargePerStep)
      && (charge == 0 <==> qs == [])
    decreases charge
  {
    if charge > 0 {
      var (q, rest) := SplitStep(charge, chargePerStep);
      PackagesShape(rest, chargePerStep);
      assert Packages(charge, chargePerStep) == [q] + Packages(rest, chargePerStep);
      assert charge > chargePerStep ==> q == chargePerStep;
      assert charge <= chargePerStep ==> Packages(rest, chargePerStep) == [];
    }
  }

  /**
   * A deposit of `charge` carriers gives ceil(charge / charge_per_step) packages: the
   * fewest packages of at most `charge_per_step` carriers that hold the whole charge.
   */
  lemma {:induction false} PackagesCount(charge: nat, chargePerStep: nat)
    requires chargePerStep > 0
    ensures var n := |Packages(charge, chargePerStep)|;
      n * chargePerStep >= charge && (charge > 0 ==> (n - 1) * chargePerStep < charge)
    decreases charge
  {
    if charge > 0 {
      var (q, rest) := SplitStep(charge, chargePerStep);
      PackagesCount(rest, chargePerStep);
      var m := |Packages(rest, chargePerStep)|;
      assert |Packages(charge, chargePerStep)| == m + 1;
      assert (m + 1) * chargePerStep == m * chargePerStep + chargePerStep;
      if charge <= chargePerStep {
        assert rest == 0 && m == 0;
      } else {
        assert rest == charge - chargePerStep && rest > 0;
        assert (m - 1) * chargePerStep == m * chargePerStep - chargePerStep;
      }
    }
  }

  // ---------------------------------------------------------------------------
  // One step of the propagation loop

  /**
   * The state after one step of a carrier in motion. Later checks override earlier
   * ones: leaving the sensor beats being trapped, which beats recombination.
   * `stuck` is "trapped and the de-trapping time does not fit".
   */
  function NextState(recombined: bool, stuck: bool, outside: bool): (s: CarrierState)
    ensures s == Halted <==> outside
    ensures s == Trapped <==> !outside && stuck
    ensures s == Recombined <==> !outside && !stuck && recombined
    ensures s == Motion <==> !outside && !stuck && !recombined
  {
    var s1 := if recombined then Recombined else Motion;
    var s2 := if stuck then Trapped else s1;
    if outside then Halted else s2
  }

  /** The pixels whose induced charge a step from `from` to `to` updates. */
  function Touched(distance: nat, geo: SensorGeometry, from: Vec3, to: Vec3): (ps: set<PixelIndex>)
    ensures geo.neighbours(geo.pixelOf(to), distance) <= ps
    ensures geo.pixelOf(from) != geo.pixelOf(to) ==> geo.neighbours(geo.pixelOf(from), distance) <= ps
    ensures ps <= geo.neighbours(geo.pixelOf(to), distance) + geo.neighbours(geo.pixelOf(from), distance)
  {
    var idx := geo.pixelOf(to);
    var lastIdx := geo.pixelOf(from);
    var ns := geo.neighbours(idx, distance);
    if lastIdx != idx then ns + geo.neighbours(lastIdx, distance) else ns
  }

  /** Charge induced on pixel `p` by `charge` carriers moving from `from` to `to`. */
  function Induced(geo: SensorGeometry, carrier: CarrierType, charge: nat, from: Vec3, to: Vec3, p: PixelIndex): real
  {
    (charge as real) * (geo.weighting(to, p) - geo.weighting(from, p)) * (Sign(carrier) as real)
  }

  /**
   * The pixel map after a step: a pulse is created for a touched pixel only if it has
   * none yet, and the step's contribution is added to it; other pulses are kept.
   */
  function Deposited(pulses: map<PixelIndex, Pulse>, touched: set<PixelIndex>, geo: SensorGeometry,
                     carrier: CarrierType, charge: nat, from: Vec3, to: Vec3, time: real): (r: map<PixelIndex, Pulse>)
    ensures r.Keys == pulses.Keys + touched
    ensures forall p :: p in pulses && p !in touched ==> r[p] == pulses[p]
    ensures forall p :: p in touched ==>
      r[p].contributions == (if p in pulses then pulses[p].contributions else [])
                            + [Contribution(time, Induced(geo, carrier, charge, from, to, p))]
  {
    map p | p in pulses.Keys + touched ::
      if p in touched then
        Pulse((if p in pulses then pulses[p].contributions else [])
              + [Contribution(time, Induced(geo, carrier, charge, from, to, p))])
      else pulses[p]
  }

  /** Whether the time after the step plus the de-trapping time is still inside the integration time. */
  predicate DetrapFits(s: Settings, t0: real, elapsed: real, trapTime: real)
  {
    t0 + elapsed + trapTime < s.integrationTime
  }

  /** One iteration of the `propagate()` loop for a package of `charge` carriers. */
  function Step(s: Settings, phys: Physics, geo: SensorGeometry, carrier: CarrierType, charge: nat,
                t0: real, c: Carrier): (n: Carrier)
    requires s.timestep > 0.0
    ensures n.lastPosition == c.position
    ensures n.engine == c.engine + 1
    ensures var rk := phys.drift(s.hasMagneticField, carrier, c.position);
            var moved := phys.diffuse(carrier, rk, c.engine);
            var trap := phys.trap(carrier, rk, c.engine);
            var detrap := trap.trapped && DetrapFits(s, t0, c.elapsed + s.timestep, trap.trapTime);
            && n.elapsed == c.elapsed + s.timestep + (if detrap then trap.trapTime else 0.0)
            && n.state == NextState(phys.recombines(carrier, moved, c.engine), trap.trapped && !detrap, !geo.withinSensor(moved))
            && n.position == (if geo.withinSensor(moved) then moved else geo.intercept(c.position, moved))
    ensures n.elapsed >= c.elapsed + s.timestep
    ensures c.pulses.Keys <= n.pulses.Keys
  {
    var rk := phys.drift(s.hasMagneticField, carrier, c.position);
    var moved := phys.diffuse(carrier, rk, c.engine);
    var recombined := phys.recombines(carrier, moved, c.engine);
    var trap := phys.trap(carrier, rk, c.engine);
    var t1 := c.elapsed + s.timestep;
    var detrap := trap.trapped && DetrapFits(s, t0, t1, trap.trapTime);
    var t2 := if detrap then t1 + trap.trapTime else t1;
    var outside := !geo.withinSensor(moved);
    var position := if outside then geo.intercept(c.position, moved) else moved;
    var touched := Touched(s.distance, geo, c.position, position);
    Carrier(NextState(recombined, trap.trapped && !detrap, outside), position, c.position, t2, c.engine + 1,
            Deposited(c.pulses, touched, geo, carrier, charge, c.position, position, t0 + t2))
  }

  // ---------------------------------------------------------------------------
  // The whole loop

  /** Steps of length `dt` that can still start within `room`: the loop's termination measure. */
  function StepsLeft(room: real, dt: real): nat
    requires dt > 0.0
  {
    if room <= 0.0 then 0 else NonNegFloor(room / dt) + 1
  }

  function NonNegFloor(x: real): (n: nat)
    requires x >= 0.0
    ensures n as real <= x < n as real + 1.0
  {
    x.Floor
  }

  lemma DivMonotone(a: real, b: real, dt: real)
    requires dt > 0.0 && a <= b
    ensures a / dt <= b / dt
  {
    var d := (b - a) / dt;
    assert d * dt == b - a;
  }

  lemma StepsLeftDrops(room: real, room': real, dt: real)
    requires dt > 0.0 && room > 0.0 && room' <= room - dt
    ensures StepsLeft(room', dt) < StepsLeft(room, dt)
  {
    if room' > 0.0 {
      DivMonotone(room', room - dt, dt);
      assert dt / dt == 1.0;
      assert (room - dt) / dt == room / dt - dt / dt;
    }
  }

  /** Whether the loop of `propagate()` runs another step. */
  predicate Continues(s: Settings, t0: real, c: Carrier)
  {
    c.state == Motion && t0 + c.elapsed < s.integrationTime
  }

  /** The loop of `propagate()`: steps while the carrier moves and time is left. */
  function Drift(s: Settings, phys: Physics, geo: SensorGeometry, carrier: CarrierType, charge: nat,
                 t0: real, c: Carrier): (r: Carrier)
    requires s.timestep > 0.0
    decreases StepsLeft(s.integrationTime - t0 - c.elapsed, s.timestep)
  {
    if Continues(s, t0, c) then
      var n := Step(s, phys, geo, carrier, charge, t0, c);
      StepsLeftDrops(s.integrationTime - t0 - c.elapsed, s.integrationTime - t0 - n.elapsed, s.timestep);
      Drift(s, phys, geo, carrier, charge, t0, n)
    else c
  }

  /** One more step of a carrier in motion: the loop's result is unchanged and fewer steps are left. */
  lemma DriftUnfold(s: Settings, phys: Physics, geo: SensorGeometry, carrier: CarrierType, charge: nat,
                    t0: real, c: Carrier)
    requires s.timestep > 0.0 && Continues(s, t0, c)
    ensures var n := Step(s, phys, geo, carrier, charge, t0, c);
      && Drift(s, phys, geo, carrier, charge, t0, c) == Drift(s, phys, geo, carrier, charge, t0, n)
      && StepsLeft(s.integrationTime - t0 - n.elapsed, s.timestep) < StepsLeft(s.integrationTime - t0 - c.elapsed, s.timestep)
  {
    var n := Step(s, phys, geo, carrier, charge, t0, c);
    StepsLeftDrops(s.integrationTime - t0 - c.elapsed, s.integrationTime - t0 - n.elapsed, s.timestep);
  }

  /** `Deposited` only ever extends a pulse: it is never replaced or shortened. */
  predicate Extends(before: map<PixelIndex, Pulse>, after: map<PixelIndex, Pulse>)
  {
    && before.Keys <= after.Keys
    && forall p :: p in before ==>
         |before[p].contributions| <= |after[p].contributions|
         && after[p].contributions[..|before[p].contributions|] == before[p].contributions
  }

  lemma ExtendsTransitive(a: map<PixelIndex, Pulse>, b: map<PixelIndex, Pulse>, c: map<PixelIndex, Pulse>)
    requires Extends(a, b) && Extends(b, c)
    ensures Extends(a, c)
  {
    forall p | p in a
      ensures |a[p].contributions| <= |c[p].contributions|
      ensures c[p].contributions[..|a[p].contributions|] == a[p].contributions
    {
      var ca, cb, cc := a[p].contributions, b[p].contributions, c[p].contributions;
      assert cc[..|cb|][..|ca|] == cc[..|ca|];
    }
  }

  /**
   * The loop ends with the carrier no longer in motion or out of time; time and engine
   * only advance; pulses already in the pixel map are only ever appended to.
   */
  lemma {:induction false} DriftEnds(s: Settings, phys: Physics, geo: SensorGeometry, carrier: CarrierType,
                                     charge: nat, t0: real, c: Carrier)
    requires s.timestep > 0.0
    ensures var r := Drift(s, phys, geo, carrier, charge, t0, c);
      && !Continues(s, t0, r)
      && r.elapsed >= c.elapsed
      && r.engine >= c.engine
      && Extends(c.pulses, r.pulses)
      && (r.state == Motion ==> t0 + r.elapsed >= s.integrationTime)
      && (c.state != Motion || t0 + c.elapsed >= s.integrationTime ==> r == c)
    decreases StepsLeft(s.integrationTime - t0 - c.elapsed, s.timestep)
  {
    if Continues(s, t0, c) {
      var n := Step(s, phys, geo, carrier, charge, t0, c);
      StepsLeftDrops(s.integrationTime - t0 - c.elapsed, s.integrationTime - t0 - n.elapsed, s.timestep);
      DriftEnds(s, phys, geo, carrier, charge, t0, n);
      var r := Drift(s, phys, geo, carrier, charge, t0, n);
      assert Extends(c.pulses, n.pulses) by {
        var touched := Touched(s.distance, geo, c.position, n.position);
        forall p | p in c.pulses
          ensures n.pulses[p].contributions[..|c.pulses[p].contributions|] == c.pulses[p].contributions
        {
          if p in touched {
            assert n.pulses[p].contributions == c.pulses[p].contributions
              + [Contribution(t0 + n.elapsed, Induced(geo, carrier, charge, c.position, n.position, p))];
          }
        }
      }
      ExtendsTransitive(c.pulses, n.pulses, r.pulses);
    } else {
      ExtendsRefl(c.pulses);
    }
  }

  lemma ExtendsRefl(a: map<PixelIndex, Pulse>)
    ensures Extends(a, a)
  {
    forall p | p in a ensures a[p].contributions[..|a[p].contributions|] == a[p].contributions { }
  }

  /**
   * The state a package ends in: HALTED only when its last step left the sensor,
   * TRAPPED only when its last step trapped it for longer than the time left,
   * RECOMBINED only when its last step recombined it, and MOTION only when the
   * integration time is over.
   */
  lemma {:induction false} DriftFinalState(s: Settings, phys: Physics, geo: SensorGeometry, carrier: CarrierType,
                                           charge: nat, t0: real, c: Carrier)
    requires s.timestep > 0.0
    requires c.state == Motion
    ensures var r := Drift(s, phys, geo, carrier, charge, t0, c);
      r.state != Motion ==>
        r.engine > c.engine &&
        var last := r.lastPosition;
        var e := r.engine - 1;
        var rk := phys.drift(s.hasMagneticField, carrier, last);
        var moved := phys.diffuse(carrier, rk, e);
        var trap := phys.trap(carrier, rk, e);
        && e >= c.engine
        && (r.state == Halted <==> !geo.withinSensor(moved))
        && (r.state == Trapped ==> trap.trapped && t0 + r.elapsed + trap.trapTime >= s.integrationTime)
        && (r.state == Recombined ==> phys.recombines(carrier, moved, e))
    decreases StepsLeft(s.integrationTime - t0 - c.elapsed, s.timestep)
  {
    if Continues(s, t0, c) {
      var n := Step(s, phys, geo, carrier, charge, t0, c);
      StepsLeftDrops(s.integrationTime - t0 - c.elapsed, s.integrationTime - t0 - n.elapsed, s.timestep);
      if n.state == Motion {
        DriftFinalState(s, phys, geo, carrier, charge, t0, n);
      } else {
        DriftEnds(s, phys, geo, carrier, charge, t0, n);
      }
    }
  }

  // ---------------------------------------------------------------------------
  // The event: all deposits, all packages

  /** Which of the three counters a final state goes to. */
  datatype Counter = RecombinedCount | TrappedCount | PropagatedCount

  function CounterOf(state: CarrierState): (k: Counter)
    ensures k == RecombinedCount <==> state == Recombined
    ensures k == TrappedCount <==> state == Trapped
    ensures k == PropagatedCount <==> state.Motion? || state.Halted?
  {
    if state == Recombined then RecombinedCount
    else if state == Trapped then TrappedCount
    else PropagatedCount
  }

  /** The results `run()` accumulates: the propagated charges, the counters, the engine. */
  datatype Tally = Tally(charges: seq<PropagatedCharge>, recombined: nat, trapped: nat, propagated: nat, engine: nat)

  function Count(t: Tally, k: Counter): nat
  {
    match k
    case RecombinedCount => t.recombined
    case TrappedCount => t.trapped
    case PropagatedCount => t.propagated
  }

  /** The drift time `propagate()` reports for a finished loop. */
  function DriftTime(r: Carrier): real
  {
    r.elapsed
  }

  /**
   * The time `propagate()` returns as written: the deposit time plus the drift time,
   * to which `run()` then adds the deposit time once more.
   */
  function ReturnedTimeAsWritten(initialTime: real, r: Carrier): real
  {
    initialTime + r.elapsed
  }


  /** The package `q` of deposit `d` (number `di` in the message), propagated and counted. */
  function PropagatePackage(s: Settings, phys: Physics, geo: SensorGeometry, d: Deposit, di: nat, q: nat, acc: Tally): (t: Tally)
    requires s.timestep > 0.0
    ensures |t.charges| == |acc.charges| + 1 && t.charges[..|acc.charges|] == acc.charges
    ensures var pc := t.charges[|acc.charges|];
      && pc.deposit == di && pc.carrier == d.carrier
      && pc.globalTime - pc.localTime == d.globalTime - d.localTime
      && pc.localTime >= d.localTime
      && forall k :: Count(t, k) == Count(acc, k) + (if k == CounterOf(pc.state) then q else 0)
    ensures t.engine >= acc.engine
    ensures var r := Drift(s, phys, geo, d.carrier, q, d.localTime,
                           Carrier(Motion, d.localPosition, d.localPosition, 0.0, acc.engine, map[]));
            var pc := t.charges[|acc.charges|];
      && pc.localTime == d.localTime + DriftTime(r) && pc.globalTime == d.globalTime + DriftTime(r)
      && pc.state == r.state && pc.localPosition == r.position && pc.globalPosition == geo.toGlobal(r.position)
      && pc.pulses == r.pulses && t.engine == r.engine
  {
    var start := Carrier(Motion, d.localPosition, d.localPosition, 0.0, acc.engine, map[]);
    var r := Drift(s, phys, geo, d.carrier, q, d.localTime, start);
    DriftEnds(s, phys, geo, d.carrier, q, d.localTime, start);
    var time := DriftTime(r);
    var pc := PropagatedCharge(r.position, geo.toGlobal(r.position), d.carrier, r.pulses,
                               d.localTime + time, d.globalTime + time, r.state, di);
    Tally(acc.charges + [pc],
          if r.state == Recombined then acc.recombined + q else acc.recombined,
          if r.state == Trapped then acc.trapped + q else acc.trapped,
          if r.state != Recombined && r.state != Trapped then acc.propagated + q else acc.propagated,
          r.engine)
  }

  /**
   * As written, every propagated charge is stamped with the deposit's local time once
   * more than `PropagatePackage` stamps it, on both clocks: the stamps differ exactly
   * when the deposit's local time is not zero (local time 5 and a drift of 1 give 11, not 6).
   */
  lemma LocalTimeCountedTwice(s: Settings, phys: Physics, geo: SensorGeometry, d: Deposit, di: nat, q: nat, acc: Tally)
    requires s.timestep > 0.0
    ensures var r := Drift(s, phys, geo, d.carrier, q, d.localTime,
                           Carrier(Motion, d.localPosition, d.localPosition, 0.0, acc.engine, map[]));
            var pc := PropagatePackage(s, phys, geo, d, di, q, acc).charges[|acc.charges|];
            var local, global := d.localTime + ReturnedTimeAsWritten(d.localTime, r), d.globalTime + ReturnedTimeAsWritten(d.localTime, r);
      && local == pc.localTime + d.localTime
      && global == pc.globalTime + d.localTime
      && (local != pc.localTime <==> d.localTime != 0.0)
  {
  }

  /** Propagating the packages `qs` of one deposit in order. */
  function AddPackages(s: Settings, phys: Physics, geo: SensorGeometry, d: Deposit, di: nat, qs: seq<nat>, acc: Tally): Tally
    requires s.timestep > 0.0
    decreases |qs|
  {
    if qs == [] then acc
    else PropagatePackage(s, phys, geo, d, di, qs[|qs| - 1], AddPackages(s, phys, geo, d, di, qs[..|qs| - 1], acc))
  }

  lemma AddPackagesSnoc(s: Settings, phys: Physics, geo: SensorGeometry, d: Deposit, di: nat, qs: seq<nat>, q: nat, acc: Tally)
    requires s.timestep > 0.0
    ensures AddPackages(s, phys, geo, d, di, qs + [q], acc)
         == PropagatePackage(s, phys, geo, d, di, q, AddPackages(s, phys, geo, d, di, qs, acc))
  {
    assert (qs + [q])[..|qs|] == qs;
  }

  /** Whether `run()` processes a deposit: it skips those later than the integration time. */
  predicate InTime(s: Settings, d: Deposit)
  {
    d.localTime <= s.integrationTime
  }

  /** Propagating all deposits `ds` in order, skipping the late ones. */
  function AddDeposits(s: Settings, phys: Physics, geo: SensorGeometry, ds: seq<Deposit>, acc: Tally): Tally
    requires s.timestep > 0.0 && s.chargePerStep > 0
    decreases |ds|
  {
    if ds == [] then acc
    else
      var prev := AddDeposits(s, phys, geo, ds[..|ds| - 1], acc);
      var d := ds[|ds| - 1];
      if !InTime(s, d) then prev
      else AddPackages(s, phys, geo, d, |ds| - 1, Packages(d.charge, s.chargePerStep), prev)
  }

  lemma AddDepositsSnoc(s: Settings, phys: Physics, geo: SensorGeometry, ds: seq<Deposit>, i: nat, acc: Tally)
    requires s.timestep > 0.0 && s.chargePerStep > 0
    requires i < |ds|
    ensures var prev := AddDeposits(s, phys, geo, ds[..i], acc);
      AddDeposits(s, phys, geo, ds[..i + 1], acc)
      == if !InTime(s, ds[i]) then prev else AddPackages(s, phys, geo, ds[i], i, Packages(ds[i].charge, s.chargePerStep), prev)
  {
    assert ds[..i + 1][..i] == ds[..i];
  }

  // ---------------------------------------------------------------------------
  // Accounting of the event

  /** A package as the accounting sees it: which deposit it came from and its size. */
  datatype PackageEntry = PackageEntry(deposit: nat, size: nat)

  function Entries(di: nat, qs: seq<nat>): (es: seq<PackageEntry>)
    ensures |es| == |qs|
    ensures forall j :: 0 <= j < |qs| ==> es[j] == PackageEntry(di, qs[j])
  {
    if qs == [] then [] else Entries(di, qs[..|qs| - 1]) + [PackageEntry(di, qs[|qs| - 1])]
  }

  /** The packages of all processed deposits, in deposit order and then package order. */
  function Packaging(s: Settings, ds: seq<Deposit>): seq<PackageEntry>
    requires s.chargePerStep > 0
    decreases |ds|
  {
    if ds == [] then []
    else
      var d := ds[|ds| - 1];
      Packaging(s, ds[..|ds| - 1])
      + (if InTime(s, d) then Entries(|ds| - 1, Packages(d.charge, s.chargePerStep)) else [])
  }

  /** The deposits `run()` processes, in order. */
  function Processed(s: Settings, ds: seq<Deposit>): (ps: seq<Deposit>)
    ensures forall d :: d in ps ==> d in ds && InTime(s, d)
    ensures forall d :: d in ds && InTime(s, d) ==> d in ps
    ensures forall d :: multiset(ps)[d] == if InTime(s, d) then multiset(ds)[d] else 0
  {
    if ds == [] then []
    else
      var last := ds[|ds| - 1];
      assert ds == ds[..|ds| - 1] + [last];
      Processed(s, ds[..|ds| - 1]) + (if InTime(s, last) then [last] else [])
  }

  function TotalCharge(ds: seq<Deposit>): nat
  {
    if ds == [] then 0 else TotalCharge(ds[..|ds| - 1]) + ds[|ds| - 1].charge
  }

  function Sizes(es: seq<PackageEntry>): nat
  {
    if es == [] then 0 else Sizes(es[..|es| - 1]) + es[|es| - 1].size
  }

  /** Charge of the packages whose propagated charge landed in counter `k`. */
  function SumWhere(es: seq<PackageEntry>, cs: seq<PropagatedCharge>, k: Counter): nat
    requires |es| == |cs|
  {
    if es == [] then 0
    else SumWhere(es[..|es| - 1], cs[..|cs| - 1], k)
         + (if CounterOf(cs[|cs| - 1].state) == k then es[|es| - 1].size else 0)
  }

  /**
   * The tally accounts exactly for the packages `es`: one propagated charge per
   * package, tagged with the package's deposit, and each counter holds the charge of
   * the packages whose final state belongs to it.
   */
  ghost predicate Accounts(es: seq<PackageEntry>, t: Tally)
  {
    && |es| == |t.charges|
    && (forall j :: 0 <= j < |es| ==> t.charges[j].deposit == es[j].deposit)
    && (forall k :: Count(t, k) == SumWhere(es, t.charges, k))
  }

  lemma SumWherePrefix(es: seq<PackageEntry>, cs: seq<PropagatedCharge>, e: PackageEntry, c: PropagatedCharge, k: Counter)
    requires |es| == |cs|
    ensures SumWhere(es + [e], cs + [c], k) == SumWhere(es, cs, k) + (if CounterOf(c.state) == k then e.size else 0)
  {
    assert (es + [e])[..|es|] == es;
    assert (cs + [c])[..|cs|] == cs;
  }

  lemma {:induction false} AddPackagesAccounts(s: Settings, phys: Physics, geo: SensorGeometry, d: Deposit, di: nat,
                                               qs: seq<nat>, es: seq<PackageEntry>, acc: Tally)
    requires s.timestep > 0.0
    requires Accounts(es, acc)
    ensures var t := AddPackages(s, phys, geo, d, di, qs, acc);
      && Accounts(es + Entries(di, qs), t)
      && t.charges[..|acc.charges|] == acc.charges
    decreases |qs|
  {
    if qs == [] {
      assert es + Entries(di, qs) == es;
    } else {
      var init, q := qs[..|qs| - 1], qs[|qs| - 1];
      AddPackagesAccounts(s, phys, geo, d, di, init, es, acc);
      var mid := AddPackages(s, phys, geo, d, di, init, acc);
      var t := PropagatePackage(s, phys, geo, d, di, q, mid);
      var esMid := es + Entries(di, init);
      var e := PackageEntry(di, q);
      assert Entries(di, qs) == Entries(di, init) + [e];
      assert es + Entries(di, qs) == esMid + [e];
      var pc := t.charges[|mid.charges|];
      assert t.charges == mid.charges + [pc];
      forall k ensures Count(t, k) == SumWhere(esMid + [e], t.charges, k) {
        SumWherePrefix(esMid, mid.charges, e, pc, k);
      }
      assert t.charges[..|acc.charges|] == mid.charges[..|acc.charges|];
    }
  }

  lemma {:induction false} AddDepositsAccounts(s: Settings, phys: Physics, geo: SensorGeometry, ds: seq<Deposit>,
                                               es: seq<PackageEntry>, acc: Tally)
    requires s.timestep > 0.0 && s.chargePerStep > 0
    requires Accounts(es, acc)
    ensures Accounts(es + Packaging(s, ds), AddDeposits(s, phys, geo, ds, acc))
    decreases |ds|
  {
    if ds == [] {
      assert es + Packaging(s, ds) == es;
    } else {
      var init, d := ds[..|ds| - 1], ds[|ds| - 1];
      AddDepositsAccounts(s, phys, geo, init, es, acc);
      var prev := AddDeposits(s, phys, geo, init, acc);
      if InTime(s, d) {
        var qs := Packages(d.charge, s.chargePerStep);
        AddPackagesAccounts(s, phys, geo, d, |ds| - 1, qs, es + Packaging(s, init), prev);
        assert es + Packaging(s, ds) == es + Packaging(s, init) + Entries(|ds| - 1, qs);
      } else {
        assert es + Packaging(s, ds) == es + Packaging(s, init);
      }
    }
  }

  lemma {:induction false} SizesAppend(a: seq<PackageEntry>, b: seq<PackageEntry>)
    ensures Sizes(a + b) == Sizes(a) + Sizes(b)
    decreases |b|
  {
    if b == [] {
      assert a + b == a;
    } else {
      assert (a + b)[..|a + b| - 1] == a + b[..|b| - 1];
      SizesAppend(a, b[..|b| - 1]);
    }
  }

  lemma {:induction false} EntriesSizes(di: nat, qs: seq<nat>)
    ensures Sizes(Entries(di, qs)) == Sum(qs)
    decreases |qs|
  {
    if qs != [] {
      EntriesSizes(di, qs[..|qs| - 1]);
      assert Entries(di, qs)[..|qs| - 1] == Entries(di, qs[..|qs| - 1]);
    }
  }

  /** The packages of the processed deposits carry exactly the processed charge. */
  lemma {:induction false} PackagingCharge(s: Settings, ds: seq<Deposit>)
    requires s.chargePerStep > 0
    ensures Sizes(Packaging(s, ds)) == TotalCharge(Processed(s, ds))
    decreases |ds|
  {
    if ds != [] {
      var init, d := ds[..|ds| - 1], ds[|ds| - 1];
      PackagingCharge(s, init);
      if InTime(s, d) {
        var qs := Packages(d.charge, s.chargePerStep);
        SizesAppend(Packaging(s, init), Entries(|ds| - 1, qs));
        EntriesSizes(|ds| - 1, qs);
        PackagesSum(d.charge, s.chargePerStep);
        assert Processed(s, ds)[..|Processed(s, ds)| - 1] == Processed(s, init);
      } else {
        assert Packaging(s, ds) == Packaging(s, init);
        assert Processed(s, ds) == Processed(s, init);
      }
    }
  }

  /** Each package's charge lands in exactly one counter: the counters split `Sizes(es)`. */
  lemma {:induction false} CountersPartition(es: seq<PackageEntry>, cs: seq<PropagatedCharge>)
    requires |es| == |cs|
    ensures SumWhere(es, cs, RecombinedCount) + SumWhere(es, cs, TrappedCount) + SumWhere(es, cs, PropagatedCount) == Sizes(es)
    decreases |es|
  {
    if es != [] {
      CountersPartition(es[..|es| - 1], cs[..|cs| - 1]);
    }
  }

  /**
   * What one `run()` produces for the deposits `ds`: one propagated charge per package
   * of every deposit not later than the integration time, in deposit order and then
   * package order; each counter holds the charge of the packages that ended in its
   * states; and the three counters together hold exactly the processed charge.
   */
  lemma EventAccounting(s: Settings, phys: Physics, geo: SensorGeometry, ds: seq<Deposit>, engine: nat)
    requires s.timestep > 0.0 && s.chargePerStep > 0
    ensures var t := AddDeposits(s, phys, geo, ds, Tally([], 0, 0, 0, engine));
            var es := Packaging(s, ds);
      && |t.charges| == |es|
      && (forall j :: 0 <= j < |es| ==> t.charges[j].deposit == es[j].deposit)
      && (forall k :: Count(t, k) == SumWhere(es, t.charges, k))
      && t.recombined + t.trapped + t.propagated == TotalCharge(Processed(s, ds))
  {
    var t0 := Tally([], 0, 0, 0, engine);
    assert Accounts([], t0);
    AddDepositsAccounts(s, phys, geo, ds, [], t0);
    assert [] + Packaging(s, ds) == Packaging(s, ds);
    var t := AddDeposits(s, phys, geo, ds, t0);
    CountersPartition(Packaging(s, ds), t.charges);
    PackagingCharge(s, ds);
  }

  /** A deposit at exactly the integration time is still propagated; a later one is not. */
  lemma {:induction false} IntegrationTimeBoundary(s: Settings, ds: seq<Deposit>, d: Deposit)
    requires s.chargePerStep > 0 && d.charge > 0
    ensures d.localTime == s.integrationTime ==> |Packaging(s, ds + [d])| > |Packaging(s, ds)|
    ensures d.localTime > s.integrationTime ==> Packaging(s, ds + [d]) == Packaging(s, ds)
  {
    assert (ds + [d])[..|ds|] == ds;
    PackagesShape(d.charge, s.chargePerStep);
  }

  // ---------------------------------------------------------------------------
  // The messenger and the module

  /** The framework's message bus, as far as this module uses it. */
  class Messenger {
    var dispatched: seq<PropagatedChargeMessage>

    constructor()
      ensures dispatched == []
    {
      dispatched := [];
    }

    method DispatchMessage(m: PropagatedChargeMessage)
      modifies this
      ensures dispatched == old(dispatched) + [m]
    {
      dispatched := dispatched + [m];
    }
  }

  class TransientPropagationModule {
    const messenger: Messenger
    const detector: string
    const config: TransientConfig
    const timestep: real
    const integrationTime: real
    const chargePerStep: nat
    const distance: nat
    const temperature: real
    const outputPlots: bool
    var hasMagneticField: bool

    function Params(): Settings
      reads this
    {
      Settings(timestep, integrationTime, chargePerStep, distance, hasMagneticField)
    }

    /** Binds to the deposits message and reads the configuration with its defaults. */
    constructor(config: TransientConfig, detector: string, messenger: Messenger)
      ensures this.messenger == messenger && this.detector == detector && this.config == config
      ensures timestep == config.timestep.GetOr(DefaultTimestep)
      ensures integrationTime == config.integrationTime.GetOr(DefaultIntegrationTime)
      ensures chargePerStep == config.chargePerStep.GetOr(DefaultChargePerStep)
      ensures distance == config.distance.GetOr(DefaultDistance)
      ensures temperature == config.temperature.GetOr(DefaultTemperature)
      ensures outputPlots == config.outputPlots.GetOr(false)
      ensures !hasMagneticField
    {
      this.messenger := messenger;
      this.detector := detector;
      this.config := config;
      timestep := config.timestep.GetOr(DefaultTimestep);
      integrationTime := config.integrationTime.GetOr(DefaultIntegrationTime);
      chargePerStep := config.chargePerStep.GetOr(DefaultChargePerStep);
      distance := config.distance.GetOr(DefaultDistance);
      temperature := config.temperature.GetOr(DefaultTemperature);
      outputPlots := config.outputPlots.GetOr(false);
      hasMagneticField := false;
    }

    /**
     * `initialize()`: the detector checks, the physics models (their error, if any, is
     * `modelsError`) and the magnetic-field switch.
     */
    method Initialize(det: DetectorFields, modelsError: Option<Error>) returns (outcome: Outcome<Error>, warnings: seq<Warning>)
      modifies this`hasMagneticField
      ensures outcome == InitializeOutcome(det, modelsError)
      ensures outcome.Pass? ==> hasMagneticField == (det.hasMagneticField && !config.ignoreMagneticField.GetOr(false))
      ensures outcome.Fail? ==> hasMagneticField == old(hasMagneticField)
      ensures warnings == (if det.hasElectricField then [] else [NoElectricField])
        + (if outcome.Pass? && det.hasMagneticField && config.ignoreMagneticField.GetOr(false) then [MagneticFieldIgnored] else [])
    {
      warnings := [];
      if !det.hasElectricField {
        warnings := warnings + [NoElectricField];
      }
      if !det.hasWeightingPotential {
        return Fail(ModuleError("This module requires a weighting potential.")), warnings;
      }
      if det.electricFieldType == Linear {
        return Fail(ModuleError("This module cannot be used with linear electric fields.")), warnings;
      }
      if modelsError.Some? {
        return Fail(modelsError.value), warnings;
      }
      hasMagneticField := det.hasMagneticField;
      if hasMagneticField {
        if config.ignoreMagneticField.GetOr(false) {
          hasMagneticField := false;
          warnings := warnings + [MagneticFieldIgnored];
        }
      }
      outcome := Pass;
    }

    /**
     * Creates the pulse of each touched pixel if absent and adds the step's induced
     * charge to it.
     */
    method AddInducedCharge(pixelMap: map<PixelIndex, Pulse>, touched: set<PixelIndex>, geo: SensorGeometry,
                            carrier: CarrierType, charge: nat, lastPosition: Vec3, position: Vec3, time: real)
      returns (m: map<PixelIndex, Pulse>)
      ensures m == Deposited(pixelMap, touched, geo, carrier, charge, lastPosition, position, time)
    {
      m := pixelMap;
      var todo := touched;
      while todo != {}
        invariant todo <= touched
        invariant m == Deposited(pixelMap, touched - todo, geo, carrier, charge, lastPosition, position, time)
        decreases todo
      {
        var p :| p in todo;
        if p !in m {
          m := m[p := Pulse([])];
        }
        m := m[p := Pulse(m[p].contributions + [Contribution(time, Induced(geo, carrier, charge, lastPosition, position, p))])];
        todo := todo - {p};
      }
    }

    /** One pass of the loop body of `propagate()`, for a carrier still in motion. */
    method TakeStep(phys: Physics, geo: SensorGeometry, carrier: CarrierType, charge: nat, initialTime: real,
                    ghost state0: CarrierState, position0: Vec3, ghost lastPosition0: Vec3, elapsed0: real,
                    pixels0: map<PixelIndex, Pulse>, engine0: nat)
      returns (position: Vec3, lastPosition: Vec3, elapsed: real, state: CarrierState,
               pixels: map<PixelIndex, Pulse>, engineAfter: nat)
      requires timestep > 0.0
      ensures Carrier(state, position, lastPosition, elapsed, engineAfter, pixels)
           == Step(Params(), phys, geo, carrier, charge, initialTime,
                   Carrier(state0, position0, lastPosition0, elapsed0, engine0, pixels0))
    {
      ghost var n := Step(Params(), phys, geo, carrier, charge, initialTime,
                          Carrier(state0, position0, lastPosition0, elapsed0, engine0, pixels0));
      lastPosition := position0;
      state := Motion;
      // Runge-Kutta step, then diffusion
      var rk := phys.drift(hasMagneticField, carrier, position0);
      elapsed := elapsed0 + timestep;
      position := phys.diffuse(carrier, rk, engine0);
      if phys.recombines(carrier, position, engine0) {
        state := Recombined;
      }
      var trap := phys.trap(carrier, rk, engine0);
      if trap.trapped {
        if initialTime + elapsed + trap.trapTime < integrationTime {
          elapsed := elapsed + trap.trapTime;
        } else {
          state := Trapped;
        }
      }
      if !geo.withinSensor(position) {
        state := Halted;
        position := geo.intercept(lastPosition, position);
      }
      assert elapsed == n.elapsed && state == n.state && position == n.position;
      var touched := Touched(distance, geo, lastPosition, position);
      pixels := AddInducedCharge(pixels0, touched, geo, carrier, charge, lastPosition, position, initialTime + elapsed);
      engineAfter := engine0 + 1;
    }

    /**
     * `propagate()`: drifts a package of `charge` carriers from `pos`, deposited at
     * `initialTime`, and returns its final position, drift time and state.
     */
    method Propagate(phys: Physics, geo: SensorGeometry, pos: Vec3, carrier: CarrierType, charge: nat,
                     initialTime: real, pixelMap: map<PixelIndex, Pulse>, engine: nat)
      returns (position: Vec3, time: real, state: CarrierState, pixels: map<PixelIndex, Pulse>, engineAfter: nat)
      requires timestep > 0.0
      ensures var r := Drift(Params(), phys, geo, carrier, charge, initialTime, Carrier(Motion, pos, pos, 0.0, engine, pixelMap));
        (position, time, state, pixels, engineAfter) == (r.position, DriftTime(r), r.state, r.pulses, r.engine)
    {
      ghost var s := Params();
      ghost var goal := Drift(s, phys, geo, carrier, charge, initialTime, Carrier(Motion, pos, pos, 0.0, engine, pixelMap));
      position := pos;
      var lastPosition := pos;
      var elapsed := 0.0;
      state := Motion;
      pixels := pixelMap;
      engineAfter := engine;
      while state == Motion && initialTime + elapsed < integrationTime
        invariant Drift(s, phys, geo, carrier, charge, initialTime, Carrier(state, position, lastPosition, elapsed, engineAfter, pixels)) == goal
        decreases StepsLeft(s.integrationTime - initialTime - elapsed, s.timestep)
      {
        DriftUnfold(s, phys, geo, carrier, charge, initialTime, Carrier(state, position, lastPosition, elapsed, engineAfter, pixels));
        position, lastPosition, elapsed, state, pixels, engineAfter :=
          TakeStep(phys, geo, carrier, charge, initialTime, state, position, lastPosition, elapsed, pixels, engineAfter);
      }
      time := elapsed;
    }

    /** One package of `step` carriers of deposit number `index`: propagated, stored and counted. */
    method PropagateOnePackage(deposit: Deposit, index: nat, step: nat, phys: Physics, geo: SensorGeometry,
                               charges0: seq<PropagatedCharge>, recombined0: nat, trapped0: nat, propagated0: nat, engine0: nat)
      returns (charges: seq<PropagatedCharge>, recombined: nat, trapped: nat, propagated: nat, engineAfter: nat)
      requires timestep > 0.0
      ensures Tally(charges, recombined, trapped, propagated, engineAfter)
           == PropagatePackage(Params(), phys, geo, deposit, index, step,
                               Tally(charges0, recombined0, trapped0, propagated0, engine0))
    {
      var position, time, state, pixels, e := Propagate(phys, geo, deposit.localPosition, deposit.carrier, step,
                                                        deposit.localTime, map[], engine0);
      engineAfter := e;
      var pc := PropagatedCharge(position, geo.toGlobal(position), deposit.carrier, pixels,
                                 deposit.localTime + time, deposit.globalTime + time, state, index);
      charges := charges0 + [pc];
      recombined, trapped, propagated := recombined0, trapped0, propagated0;
      if state == Recombined {
        recombined := recombined + step;
      } else if state == Trapped {
        trapped := trapped + step;
      } else {
        propagated := propagated + step;
      }
    }

    /** The package loop of `run()` for deposit number `index`, continuing the running results. */
    method PropagateDeposit(deposit: Deposit, index: nat, phys: Physics, geo: SensorGeometry,
                            charges0: seq<PropagatedCharge>, recombined0: nat, trapped0: nat, propagated0: nat, engine0: nat)
      returns (charges: seq<PropagatedCharge>, recombined: nat, trapped: nat, propagated: nat, engineAfter: nat)
      requires timestep > 0.0 && chargePerStep > 0
      ensures Tally(charges, recombined, trapped, propagated, engineAfter)
           == AddPackages(Params(), phys, geo, deposit, index, Packages(deposit.charge, chargePerStep),
                          Tally(charges0, recombined0, trapped0, propagated0, engine0))
    {
      ghost var s := Params();
      ghost var all := Packages(deposit.charge, chargePerStep);
      charges, recombined, trapped, propagated, engineAfter := charges0, recombined0, trapped0, propagated0, engine0;
      ghost var before := Tally(charges, recombined, trapped, propagated, engineAfter);
      ghost var done: seq<nat> := [];
      var chargesRemaining := deposit.charge;
      var step := chargePerStep;
      while chargesRemaining > 0
        invariant chargesRemaining == 0 || step == chargePerStep
        invariant done + Packages(chargesRemaining, chargePerStep) == all
        invariant Tally(charges, recombined, trapped, propagated, engineAfter) == AddPackages(s, phys, geo, deposit, index, done, before)
      {
        PackagesAdvance(done, chargesRemaining, chargePerStep, all);
        AddPackagesSnoc(s, phys, geo, deposit, index, done, SplitStep(chargesRemaining, chargePerStep).0, before);
        // the last package takes what is left
        if step > chargesRemaining {
          step := chargesRemaining;
        }
        chargesRemaining := chargesRemaining - step;
        charges, recombined, trapped, propagated, engineAfter :=
          PropagateOnePackage(deposit, index, step, phys, geo, charges, recombined, trapped, propagated, engineAfter);
        done := done + [step];
      }
      assert done == all;
    }

    /** The deposit loop of `run()`: late deposits are skipped, the others split and propagated. */
    method PropagateDeposits(deposits: seq<Deposit>, phys: Physics, geo: SensorGeometry, engine: nat)
      returns (charges: seq<PropagatedCharge>, recombined: nat, trapped: nat, propagated: nat, engineAfter: nat)
      requires timestep > 0.0 && chargePerStep > 0
      ensures Tally(charges, recombined, trapped, propagated, engineAfter)
           == AddDeposits(Params(), phys, geo, deposits, Tally([], 0, 0, 0, engine))
    {
      var s := Params();
      charges, recombined, trapped, propagated, engineAfter := [], 0, 0, 0, engine;
      ghost var acc0 := Tally([], 0, 0, 0, engine);
      for i := 0 to |deposits|
        invariant Tally(charges, recombined, trapped, propagated, engineAfter) == AddDeposits(s, phys, geo, deposits[..i], acc0)
      {
        AddDepositsSnoc(s, phys, geo, deposits, i, acc0);
        var deposit := deposits[i];
        if deposit.localTime > integrationTime {
          continue;
        }
        charges, recombined, trapped, propagated, engineAfter :=
          PropagateDeposit(deposit, i, phys, geo, charges, recombined, trapped, propagated, engineAfter);
      }
      assert deposits[..|deposits|] == deposits;
    }

    /**
     * `run()`: propagates the deposits of this detector and dispatches one message
     * with all propagated charges, also when nothing was propagated.
     */
    method Run(message: DepositedChargeMessage, phys: Physics, geo: SensorGeometry, engine: nat)
      returns (engineAfter: nat)
      requires timestep > 0.0 && chargePerStep > 0
      modifies messenger
      ensures var t := AddDeposits(Params(), phys, geo, message.deposits, Tally([], 0, 0, 0, engine));
        && messenger.dispatched == old(messenger.dispatched) + [PropagatedChargeMessage(t.charges, detector)]
        && engineAfter == t.engine
    {
      var charges, recombined, trapped, propagated, e := PropagateDeposits(message.deposits, phys, geo, engine);
      engineAfter := e;
      messenger.DispatchMessage(PropagatedChargeMessage(charges, detector));
    }
  }
}
