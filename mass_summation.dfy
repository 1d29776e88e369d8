/**
 * The FLOPS-based mass roll-up: a chain of components, each of which writes one
 * mass as a fixed linear combination of other masses and declares constant
 * partial derivatives.  Masses are exact reals (lbm); every component reads and
 * writes one promoted namespace of variables.
 */
module MassSummation {

  /** The promoted variables of the roll-up.  Each one names a mass. */
  datatype Var =
    // airframe
    | Canard | Fins | Fuselage | HorizontalTail | MainGear | NoseGear
    | Nacelle(engine: nat) | Paint | VerticalTail | Wing | Structure
    // propulsion
    | FuelSystem | TotalMisc | TotalThrustReversers | TotalEngine | Propulsion
    // systems and equipment
    | AirConditioning | AntiIcing | Apu | Avionics | Electrical
    | Furnishings | FurnishingsBase | Hydraulics | Instruments | SurfaceControl
    | ExternalSubsystems | SystemsEquip | SystemsEquipBase
    // empty, operating and zero-fuel
    | EmptyMargin | Empty
    | CargoContainer | NonFlightCrew | FlightCrew | PassengerService
    | UnusableFuel | TotalEngineOil | Operating
    | Passenger | Baggage | Cargo | ZeroFuel
    // mission
    | Gross | Fuel

  /** Values of the promoted variables.  A variable that nothing has set reads
      as the default every input is declared with, 0.0. */
  type Values = map<Var, real>

  function Get(v: Values, x: Var): real {
    if x in v then v[x] else 0.0
  }

  /** `v` with variable `x` raised by `d`. */
  function Bump(v: Values, x: Var, d: real): Values {
    v[x := Get(v, x) + d]
  }

  /** The components of the roll-up, one per source class.  StructureMass is
      configured with the number of engine types, which sets the length of the
      nacelle mass vector. */
  datatype Component =
    | StructureMass(engineCount: nat)
    | PropulsionMass
    | SystemsEquipMass
    | AltSystemsEquipMassBase
    | AltSystemsEquipMass
    | EmptyMassMargin
    | EmptyMass
    | AltEmptyMass
    | OperatingMass
    | ZeroFuelMass
    | FuelMass

  /** EmptyMassMargin belongs to the group, but its formula lives in a file
      this model does not include: its output is taken as supplied. */
  predicate Modelled(c: Component) {
    !c.EmptyMassMargin?
  }

  /** The variable each component writes. */
  function Output(c: Component): Var {
    match c
    case StructureMass(_) => Structure
    case PropulsionMass => Propulsion
    case SystemsEquipMass => SystemsEquip
    case AltSystemsEquipMassBase => SystemsEquipBase
    case AltSystemsEquipMass => SystemsEquip
    case EmptyMassMargin => EmptyMargin
    case EmptyMass => Empty
    case AltEmptyMass => Empty
    case OperatingMass => Operating
    case ZeroFuelMass => ZeroFuel
    case FuelMass => Fuel
  }

  /** The ten plain system and equipment masses; `furnishings` is either the
      furnishings mass or the furnishings base mass. */
  predicate IsSystemsInput(x: Var, furnishings: Var) {
    x == AirConditioning || x == AntiIcing || x == Apu || x == Avionics
    || x == Electrical || x == furnishings || x == Hydraulics
    || x == Instruments || x == SurfaceControl || x == ExternalSubsystems
  }

  /** The variables each component declares as inputs. */
  predicate IsInput(c: Component, x: Var) {
    match c
    case StructureMass(n) =>
      x == Canard || x == Fins || x == Fuselage || x == HorizontalTail
      || x == MainGear || x == NoseGear || (x.Nacelle? && x.engine < n)
      || x == Paint || x == VerticalTail || x == Wing
    case PropulsionMass =>
      x == FuelSystem || x == TotalMisc || x == TotalThrustReversers || x == TotalEngine
    case SystemsEquipMass => IsSystemsInput(x, Furnishings)
    case AltSystemsEquipMassBase => IsSystemsInput(x, FurnishingsBase)
    case AltSystemsEquipMass => x == SystemsEquipBase || x == Structure || x == Propulsion
    case EmptyMassMargin => false
    case EmptyMass => x == EmptyMargin || x == Structure || x == Propulsion || x == SystemsEquip
    case AltEmptyMass => x == EmptyMargin || x == Structure || x == Propulsion || x == SystemsEquipBase
    case OperatingMass =>
      x == CargoContainer || x == NonFlightCrew || x == FlightCrew || x == PassengerService
      || x == Empty || x == UnusableFuel || x == TotalEngineOil
    case ZeroFuelMass => x == Passenger || x == Baggage || x == Cargo || x == Operating
    case FuelMass => x == Gross || x == ZeroFuel
  }

  /** Sum of the first `n` nacelle masses (np.sum over the nacelle vector). */
  function NacelleSum(v: Values, n: nat): real {
    if n == 0 then 0.0 else NacelleSum(v, n - 1) + Get(v, Nacelle(n - 1))
  }

  /** The systems and equipment sum shared by SystemsEquipMass and
      AltSystemsEquipMassBase, in the source's order of terms. */
  function SystemsSum(v: Values, furnishings: Var): real {
    Get(v, SurfaceControl) + Get(v, Apu) + Get(v, Instruments) + Get(v, Hydraulics)
    + Get(v, Electrical) + Get(v, Avionics) + Get(v, furnishings) + Get(v, AirConditioning)
    + Get(v, AntiIcing) + Get(v, ExternalSubsystems)
  }

  /** The value each component's compute writes to its output. */
  function Compute(c: Component, v: Values): real
    requires Modelled(c)
  {
    match c
    case StructureMass(n) =>
      Get(v, Wing) + Get(v, HorizontalTail) + Get(v, VerticalTail) + Get(v, Fins)
      + Get(v, Canard) + Get(v, Fuselage) + Get(v, MainGear) + Get(v, NoseGear)
      + NacelleSum(v, n) + Get(v, Paint)
    case PropulsionMass =>
      Get(v, TotalThrustReversers) + Get(v, TotalMisc) + Get(v, FuelSystem) + Get(v, TotalEngine)
    case SystemsEquipMass => SystemsSum(v, Furnishings)
    case AltSystemsEquipMassBase => SystemsSum(v, FurnishingsBase)
    case AltSystemsEquipMass =>
      Get(v, SystemsEquipBase)
      + 0.01 * (Get(v, Structure) + Get(v, Propulsion) + Get(v, SystemsEquipBase))
    case EmptyMass =>
      Get(v, Structure) + Get(v, Propulsion) + Get(v, SystemsEquip) + Get(v, EmptyMargin)
    case AltEmptyMass =>
      1.01 * (Get(v, Structure) + Get(v, Propulsion) + Get(v, SystemsEquipBase))
      + Get(v, EmptyMargin)
    case OperatingMass =>
      Get(v, Empty) + Get(v, NonFlightCrew) + Get(v, FlightCrew) + Get(v, UnusableFuel)
      + Get(v, TotalEngineOil) + Get(v, PassengerService) + Get(v, CargoContainer)
    case ZeroFuelMass =>
      Get(v, Operating) + Get(v, Passenger) + Get(v, Baggage) + Get(v, Cargo)
    case FuelMass => Get(v, Gross) - Get(v, ZeroFuel)
  }

  /** The constant partial derivative each component declares of its output with
      respect to `wrt`; a pair that is not declared is structurally zero. */
  function DeclaredPartial(c: Component, wrt: Var): real {
    match c
    case AltSystemsEquipMass =>
      if wrt == Structure || wrt == Propulsion then 0.01
      else if wrt == SystemsEquipBase then 1.01
      else 0.0
    case AltEmptyMass =>
      if wrt == Structure || wrt == Propulsion || wrt == SystemsEquipBase then 1.01
      else if wrt == EmptyMargin then 1.0
      else 0.0
    case FuelMass =>
      if wrt == Gross then 1.0 else if wrt == ZeroFuel then -1.0 else 0.0
    case EmptyMassMargin => 0.0
    // every other component declares 1 for each of its inputs ('*'), and
    // StructureMass additionally declares ones for every nacelle entry
    case _ => if IsInput(c, wrt) then 1.0 else 0.0
  }

  lemma {:induction false} NacelleSumBump(v: Values, n: nat, x: Var, d: real)
    ensures NacelleSum(Bump(v, x, d), n)
         == NacelleSum(v, n) + (if x.Nacelle? && x.engine < n then d else 0.0)
  {
    if n > 0 {
      NacelleSumBump(v, n - 1, x, d);
    }
  }

  /** Each declared partial is the exact coefficient of its input: raising any
      one variable by `d` raises the output by the declared partial times `d`,
      and a variable that is not an input leaves the output unchanged. */
  lemma PartialIsExact(c: Component, v: Values, x: Var, d: real)
    requires Modelled(c)
    ensures Compute(c, Bump(v, x, d)) == Compute(c, v) + DeclaredPartial(c, x) * d
  {
    match c
    case StructureMass(n) => StructurePartialIsExact(c, v, x, d);
    case SystemsEquipMass => SystemsEquipPartialIsExact(c, v, x, d);
    case AltSystemsEquipMassBase => SystemsEquipPartialIsExact(c, v, x, d);
    case PropulsionMass => PropulsionPartialIsExact(c, v, x, d);
    case EmptyMass => EmptyPartialIsExact(c, v, x, d);
    case OperatingMass => OperatingPartialIsExact(c, v, x, d);
    case ZeroFuelMass => ZeroFuelPartialIsExact(c, v, x, d);
    case AltSystemsEquipMass => MarkupPartialIsExact(c, v, x, d);
    case AltEmptyMass => MarkupPartialIsExact(c, v, x, d);
    case FuelMass => FuelPartialIsExact(c, v, x, d);
  }

  lemma StructurePartialIsExact(c: Component, v: Values, x: Var, d: real)
    requires c.StructureMass?
    ensures Compute(c, Bump(v, x, d)) == Compute(c, v) + DeclaredPartial(c, x) * d
  {
    NacelleSumBump(v, c.engineCount, x, d);
    if x.Nacelle? {
      assert x != Wing && x != HorizontalTail && x != VerticalTail && x != Fins && x != Canard
        && x != Fuselage && x != MainGear && x != NoseGear && x != Paint;
    }
  }

  lemma SystemsEquipPartialIsExact(c: Component, v: Values, x: Var, d: real)
    requires c == SystemsEquipMass || c == AltSystemsEquipMassBase
    ensures Compute(c, Bump(v, x, d)) == Compute(c, v) + DeclaredPartial(c, x) * d
  {
    SystemsPartialIsExact(v, if c == SystemsEquipMass then Furnishings else FurnishingsBase, x, d);
  }

  lemma SystemsPartialIsExact(v: Values, furnishings: Var, x: Var, d: real)
    requires furnishings == Furnishings || furnishings == FurnishingsBase
    ensures SystemsSum(Bump(v, x, d), furnishings)
         == SystemsSum(v, furnishings) + (if IsSystemsInput(x, furnishings) then d else 0.0)
  {
  }

  lemma PropulsionPartialIsExact(c: Component, v: Values, x: Var, d: real)
    requires c == PropulsionMass
    ensures Compute(c, Bump(v, x, d)) == Compute(c, v) + DeclaredPartial(c, x) * d
  {
  }

  lemma EmptyPartialIsExact(c: Component, v: Values, x: Var, d: real)
    requires c == EmptyMass
    ensures Compute(c, Bump(v, x, d)) == Compute(c, v) + DeclaredPartial(c, x) * d
  {
  }

  lemma OperatingPartialIsExact(c: Component, v: Values, x: Var, d: real)
    requires c == OperatingMass
    ensures Compute(c, Bump(v, x, d)) == Compute(c, v) + DeclaredPartial(c, x) * d
  {
  }

  lemma ZeroFuelPartialIsExact(c: Component, v: Values, x: Var, d: real)
    requires c == ZeroFuelMass
    ensures Compute(c, Bump(v, x, d)) == Compute(c, v) + DeclaredPartial(c, x) * d
  {
  }

  lemma FuelPartialIsExact(c: Component, v: Values, x: Var, d: real)
    requires c == FuelMass
    ensures Compute(c, Bump(v, x, d)) == Compute(c, v) + DeclaredPartial(c, x) * d
  {
  }

  lemma MarkupPartialIsExact(c: Component, v: Values, x: Var, d: real)
    requires c == AltSystemsEquipMass || c == AltEmptyMass
    ensures Compute(c, Bump(v, x, d)) == Compute(c, v) + DeclaredPartial(c, x) * d
  {
  }

  /** Only inputs carry a declared partial. */
  lemma PartialsOnlyOnInputs(c: Component, x: Var)
    requires DeclaredPartial(c, x) != 0.0
    ensures IsInput(c, x)
  {
  }

  /** Every component that is a plain sum declares partial 1 for each of its
      inputs, nacelle entries included. */
  lemma PlainSumPartials(c: Component, x: Var)
    requires Modelled(c) && !c.AltSystemsEquipMass? && !c.AltEmptyMass? && !c.FuelMass?
    requires IsInput(c, x)
    ensures DeclaredPartial(c, x) == 1.0
  {
  }

  /** Structure mass is the nine airframe masses plus every nacelle entry, one
      entry per engine type. */
  lemma StructureIsComponentSum(v: Values, n: nat)
    ensures Compute(StructureMass(n), v)
         == Get(v, Wing) + Get(v, HorizontalTail) + Get(v, VerticalTail) + Get(v, Fins)
          + Get(v, Canard) + Get(v, Fuselage) + Get(v, MainGear) + Get(v, NoseGear)
          + Get(v, Paint) + NacelleSum(v, n)
    ensures forall k :: 0 <= k < n ==>
      Compute(StructureMass(n), Bump(v, Nacelle(k), 1.0)) == Compute(StructureMass(n), v) + 1.0
  {
    forall k | 0 <= k < n
      ensures Compute(StructureMass(n), Bump(v, Nacelle(k), 1.0)) == Compute(StructureMass(n), v) + 1.0
    {
      PartialIsExact(StructureMass(n), v, Nacelle(k), 1.0);
    }
  }

  /** The alternate systems mass is the base plus a 1 % markup of structure,
      propulsion and base, and its declared partials are that formula's
      coefficients. */
  lemma AltSystemsEquipMarkup(v: Values)
    ensures Compute(AltSystemsEquipMass, v)
         == 1.01 * Get(v, SystemsEquipBase) + 0.01 * Get(v, Structure) + 0.01 * Get(v, Propulsion)
    ensures DeclaredPartial(AltSystemsEquipMass, Structure) == 0.01
    ensures DeclaredPartial(AltSystemsEquipMass, Propulsion) == 0.01
    ensures DeclaredPartial(AltSystemsEquipMass, SystemsEquipBase) == 1.01
  {
  }

  /** The alternate empty mass is 1.01 times structure, propulsion and base
      plus the margin. */
  lemma AltEmptyMarkup(v: Values)
    ensures Compute(AltEmptyMass, v)
         == 1.01 * Get(v, Structure) + 1.01 * Get(v, Propulsion) + 1.01 * Get(v, SystemsEquipBase)
          + Get(v, EmptyMargin)
    ensures DeclaredPartial(AltEmptyMass, Structure) == 1.01
    ensures DeclaredPartial(AltEmptyMass, Propulsion) == 1.01
    ensures DeclaredPartial(AltEmptyMass, SystemsEquipBase) == 1.01
    ensures DeclaredPartial(AltEmptyMass, EmptyMargin) == 1.0
  {
  }

  /** Feeding the alternate systems mass into the standard empty-mass formula
      gives exactly the alternate empty mass. */
  lemma AltChainAgrees(v: Values)
    ensures Compute(EmptyMass, v[SystemsEquip := Compute(AltSystemsEquipMass, v)])
         == Compute(AltEmptyMass, v)
  {
  }

  /** The alternate base formula differs from the standard systems formula only
      in its furnishings term. */
  lemma AltBaseMatchesStandard(v: Values)
    ensures Compute(AltSystemsEquipMassBase, v) - Get(v, FurnishingsBase)
         == Compute(SystemsEquipMass, v) - Get(v, Furnishings)
    ensures Get(v, FurnishingsBase) == Get(v, Furnishings)
        ==> Compute(AltSystemsEquipMassBase, v) == Compute(SystemsEquipMass, v)
  {
  }

  /** Fuel is gross minus zero-fuel mass: the two add back up to gross mass,
      fuel is non-negative exactly when gross mass is at least the zero-fuel
      mass, and the partials are +1 and -1. */
  lemma FuelBalance(v: Values)
    ensures Compute(FuelMass, v) + Get(v, ZeroFuel) == Get(v, Gross)
    ensures Compute(FuelMass, v) >= 0.0 <==> Get(v, Gross) >= Get(v, ZeroFuel)
    ensures DeclaredPartial(FuelMass, Gross) == 1.0 && DeclaredPartial(FuelMass, ZeroFuel) == -1.0
  {
  }

  /** The subsystems MassSummation.setup adds, in order, for the alt_mass flag. */
  function Subsystems(altMass: bool, engineCount: nat): seq<Component> {
    if altMass then
      [StructureMass(engineCount), PropulsionMass, AltSystemsEquipMassBase, AltSystemsEquipMass,
       EmptyMassMargin, AltEmptyMass, OperatingMass, ZeroFuelMass, FuelMass]
    else
      [StructureMass(engineCount), PropulsionMass, SystemsEquipMass,
       EmptyMassMargin, EmptyMass, OperatingMass, ZeroFuelMass, FuelMass]
  }

  /** With alt_mass set the group holds both alternate systems components and
      the alternate empty mass; otherwise the standard two.  Never both kinds. */
  lemma AltMassSelection(altMass: bool, engineCount: nat)
    ensures var s := Subsystems(altMass, engineCount);
      && (altMass <==> AltSystemsEquipMassBase in s)
      && (altMass <==> AltSystemsEquipMass in s)
      && (altMass <==> AltEmptyMass in s)
      && (altMass <==> SystemsEquipMass !in s)
      && (altMass <==> EmptyMass !in s)
  {
  }

  /** No two subsystems write the same variable; in particular exactly one
      empty-mass formula is active. */
  lemma OutputsUnique(altMass: bool, engineCount: nat)
    ensures var s := Subsystems(altMass, engineCount);
      forall i, j :: 0 <= i < j < |s| ==> Output(s[i]) != Output(s[j])
  {
  }

  /** The wiring is acyclic in the order of setup: no subsystem reads a
      variable that it or a later subsystem writes. */
  lemma WiringInOrder(altMass: bool, engineCount: nat)
    ensures var s := Subsystems(altMass, engineCount);
      forall i, j, x :: 0 <= i <= j < |s| && IsInput(s[i], x) ==> Output(s[j]) != x
  {
    var s := Subsystems(altMass, engineCount);
    forall i, j, x | 0 <= i <= j < |s| && IsInput(s[i], x)
      ensures Output(s[j]) != x
    {
      InputsBelow(s[i], x);
      LevelsInOrder(altMass, engineCount, i, j);
    }
  }

  /** How far down the roll-up a variable is written: 0 for the leaf inputs. */
  function Level(x: Var): nat {
    if x.Structure? || x.Propulsion? || x.SystemsEquipBase? then 1
    else if x.SystemsEquip? then 2
    else if x.EmptyMargin? then 3
    else if x.Empty? then 4
    else if x.Operating? then 5
    else if x.ZeroFuel? then 6
    else if x.Fuel? then 7
    else 0
  }

  /** Every component reads only variables of a lower level than its output. */
  lemma InputsBelow(c: Component, x: Var)
    requires IsInput(c, x)
    ensures Level(x) < Level(Output(c))
  {
    match c {
      case StructureMass(n) =>
      case PropulsionMass =>
      case SystemsEquipMass =>
      case AltSystemsEquipMassBase =>
      case AltSystemsEquipMass =>
      case EmptyMassMargin =>
      case EmptyMass =>
      case AltEmptyMass =>
      case OperatingMass =>
      case ZeroFuelMass =>
      case FuelMass =>
    }
  }

  /** The subsystems are added in order of the level of their outputs. */
  lemma LevelsInOrder(altMass: bool, engineCount: nat, i: nat, j: nat)
    requires i <= j < |Subsystems(altMass, engineCount)|
    ensures var s := Subsystems(altMass, engineCount);
      Level(Output(s[i])) <= Level(Output(s[j]))
  {
  }

  /** One subsystem's compute: write its output into the namespace. */
  function Step(c: Component, v: Values): Values {
    if Modelled(c) then v[Output(c) := Compute(c, v)] else v
  }

  /** Runs the subsystems in order, each writing its output into the namespace. */
  function Run(s: seq<Component>, v: Values): Values {
    if s == [] then v else Run(s[1..], Step(s[0], v))
  }

  lemma {:induction false} RunAppend(a: seq<Component>, b: seq<Component>, v: Values)
    ensures Run(a + b, v) == Run(b, Run(a, v))
  {
    if a != [] {
      assert (a + b)[1..] == a[1..] + b;
      RunAppend(a[1..], b, Step(a[0], v));
    } else {
      assert a + b == b;
    }
  }

  lemma RunCons(c: Component, rest: seq<Component>, v: Values)
    ensures Run([c] + rest, v) == Run(rest, Step(c, v))
  {
    assert ([c] + rest)[1..] == rest;
  }

  /** The last four subsystems, from the empty-mass formula on. */
  lemma RollUpTail(empty: Component, u: Values)
    requires empty == EmptyMass || empty == AltEmptyMass
    ensures var w := Run([empty, OperatingMass, ZeroFuelMass, FuelMass], u);
      && Get(w, Empty) == Compute(empty, u)
      && Get(w, Structure) == Get(u, Structure) && Get(w, Propulsion) == Get(u, Propulsion)
      && Get(w, SystemsEquip) == Get(u, SystemsEquip) && Get(w, EmptyMargin) == Get(u, EmptyMargin)
      && Get(w, Gross) == Get(u, Gross)
      && Get(w, Fuel) + Get(w, ZeroFuel) == Get(w, Gross)
      && Get(w, ZeroFuel) == Get(w, Operating) + Get(w, Passenger) + Get(w, Baggage) + Get(w, Cargo)
  {
    var u1 := Step(empty, u);
    var u2 := Step(OperatingMass, u1);
    var u3 := Step(ZeroFuelMass, u2);
    var u4 := Step(FuelMass, u3);
    RunCons(empty, [OperatingMass, ZeroFuelMass, FuelMass], u);
    RunCons(OperatingMass, [ZeroFuelMass, FuelMass], u1);
    RunCons(ZeroFuelMass, [FuelMass], u2);
    RunCons(FuelMass, [], u3);
  }

  /** The rolled-up masses are consistent in both modes: fuel and zero-fuel mass
      add up to the (unchanged) gross mass, and empty mass is structure plus
      propulsion plus systems plus margin, also with the alternate formulas. */
  lemma RollUpConsistent(altMass: bool, engineCount: nat, v: Values)
    ensures var w := Run(Subsystems(altMass, engineCount), v);
      && Get(w, Gross) == Get(v, Gross)
      && Get(w, Fuel) + Get(w, ZeroFuel) == Get(w, Gross)
      && Get(w, Empty) == Get(w, Structure) + Get(w, Propulsion) + Get(w, SystemsEquip) + Get(w, EmptyMargin)
      && Get(w, ZeroFuel) == Get(w, Operating) + Get(w, Passenger) + Get(w, Baggage) + Get(w, Cargo)
  {
    var tail := [OperatingMass, ZeroFuelMass, FuelMass];
    var head, empty;
    if altMass {
      head := [StructureMass(engineCount), PropulsionMass, AltSystemsEquipMassBase,
               AltSystemsEquipMass, EmptyMassMargin];
      empty := AltEmptyMass;
      AltHead(engineCount, v);
    } else {
      head := [StructureMass(engineCount), PropulsionMass, SystemsEquipMass, EmptyMassMargin];
      empty := EmptyMass;
      StandardHead(engineCount, v);
    }
    assert Subsystems(altMass, engineCount) == head + ([empty] + tail);
    RunAppend(head, [empty] + tail, v);
    RollUpTail(empty, Run(head, v));
  }

  /** The standard subsystems before the empty mass write structure,
      propulsion and systems mass and leave the margin and gross mass alone. */
  lemma StandardHead(engineCount: nat, v: Values)
    ensures var u := Run([StructureMass(engineCount), PropulsionMass, SystemsEquipMass, EmptyMassMargin], v);
      && Compute(EmptyMass, u) == Get(u, Structure) + Get(u, Propulsion) + Get(u, SystemsEquip) + Get(u, EmptyMargin)
      && Get(u, Gross) == Get(v, Gross)
  {
    var u1 := Step(StructureMass(engineCount), v);
    var u2 := Step(PropulsionMass, u1);
    var u3 := Step(SystemsEquipMass, u2);
    RunCons(StructureMass(engineCount), [PropulsionMass, SystemsEquipMass, EmptyMassMargin], v);
    RunCons(PropulsionMass, [SystemsEquipMass, EmptyMassMargin], u1);
    RunCons(SystemsEquipMass, [EmptyMassMargin], u2);
    RunCons(EmptyMassMargin, [], u3);
  }

  /** The alternate subsystems before the empty mass: the alternate empty
      formula then agrees with structure + propulsion + systems + margin. */
  lemma AltHead(engineCount: nat, v: Values)
    ensures var u := Run([StructureMass(engineCount), PropulsionMass, AltSystemsEquipMassBase,
                          AltSystemsEquipMass, EmptyMassMargin], v);
      && Compute(AltEmptyMass, u) == Get(u, Structure) + Get(u, Propulsion) + Get(u, SystemsEquip) + Get(u, EmptyMargin)
      && Get(u, Gross) == Get(v, Gross)
  {
    var u1 := Step(StructureMass(engineCount), v);
    var u2 := Step(PropulsionMass, u1);
    var u3 := Step(AltSystemsEquipMassBase, u2);
    var u4 := Step(AltSystemsEquipMass, u3);
    RunCons(StructureMass(engineCount), [PropulsionMass, AltSystemsEquipMassBase, AltSystemsEquipMass, EmptyMassMargin], v);
    RunCons(PropulsionMass, [AltSystemsEquipMassBase, AltSystemsEquipMass, EmptyMassMargin], u1);
    RunCons(AltSystemsEquipMassBase, [AltSystemsEquipMass, EmptyMassMargin], u2);
    RunCons(AltSystemsEquipMass, [EmptyMassMargin], u3);
    RunCons(EmptyMassMargin, [], u4);
    AltChainAgrees(u3);
  }
}
