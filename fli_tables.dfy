/** The FLIPATH and FLIXXX tables written for the ANOPP noise tools from the
    mission timeseries of every phase (aviary/utils/FLI_tables_output.py).
    Values are taken as reals; fixed-point formatting (`f'{x:.Nf}'`) and
    `str()` of a number are parameters, since their digits are not modelled. */
module FliTables {
  import opened Results
  import DocTape

  /** The twenty timeseries outputs, in the order they are visited. */
  datatype Output =
    | Time | Distance | Lateral | Altitude | PsiB | ThetaB | PhiB | PsiWB | ThetaWB | PhiWB
    | FlightPathAngle | Alpha | Mach | Throttle | SpeedOfSound | Density | Viscosity
    | Gear | Flap | AbsHumidity

  const OutputNames: seq<Output> := [
    Time, Distance, Lateral, Altitude, PsiB, ThetaB, PhiB, PsiWB, ThetaWB, PhiWB,
    FlightPathAngle, Alpha, Mach, Throttle, SpeedOfSound, Density, Viscosity,
    Gear, Flap, AbsHumidity]

  /** Position of an output in the visiting order. */
  function Rank(o: Output): (k: nat)
    ensures k < |OutputNames| && OutputNames[k] == o
  {
    match o
    case Time => 0 case Distance => 1 case Lateral => 2 case Altitude => 3 case PsiB => 4
    case ThetaB => 5 case PhiB => 6 case PsiWB => 7 case ThetaWB => 8 case PhiWB => 9
    case FlightPathAngle => 10 case Alpha => 11 case Mach => 12 case Throttle => 13
    case SpeedOfSound => 14 case Density => 15 case Viscosity => 16 case Gear => 17
    case Flap => 18 case AbsHumidity => 19
  }

  /** The visiting order lists every output exactly once. */
  lemma RankOfName(m: nat)
    requires m < |OutputNames|
    ensures Rank(OutputNames[m]) == m
  {
  }

  /** A timeseries: numbers, or the gear labels the code makes up itself. */
  datatype Series = Nums(xs: seq<real>) | Labels(ls: seq<string>)

  function Len(s: Series): nat {
    match s
    case Nums(xs) => |xs|
    case Labels(ls) => |ls|
  }

  /** The timeseries the problem reports, by phase name and output. */
  type Store = map<(string, Output), seq<real>>

  /** `str(f'{x:.Nf}')`, `str(f'{-x:.Nf}')` and `str(x)` for a number, left
      abstract.  The negated form is its own function because negating a
      float keeps the sign of zero: `f'{-x:.1f}'` prints "-0.0" where
      `f'{x:.1f}'` prints "0.0". */
  datatype Format = Format(fixed: (real, nat) -> string, negFixed: (real, nat) -> string, show: real -> string)

  /** The arguments of timeseries_output: the phases in order, what the
      problem reports, the gear-up and flaps-up phase names, the flap angle
      and the thrust incidence angle. */
  datatype Job = Job(
    store: Store,
    phases: seq<string>,
    gearUp: string,
    flapsUp: string,
    angleFlaps: real,
    angleThrust: real,
    format: Format)

  /** `phase_names.index(name)` when the name is a phase, else the sentinel 1000. */
  function PhaseIndex(phases: seq<string>, name: string): (r: nat)
    ensures name in phases ==> r < |phases| && phases[r] == name
    ensures name in phases ==> forall j :: 0 <= j < r ==> phases[j] != name
    ensures name !in phases ==> r == 1000
  {
    if name !in phases then 1000
    else if phases[0] == name then 0
    else 1 + PhaseIndex(phases[1..], name)
  }

  /** A series plus a number. */
  function AddScalar(xs: seq<real>, c: real): (r: seq<real>)
    ensures |r| == |xs|
  {
    if xs == [] then [] else [xs[0] + c] + AddScalar(xs[1..], c)
  }

  lemma {:induction false} AddScalarValues(xs: seq<real>, c: real)
    ensures forall i :: 0 <= i < |xs| ==> AddScalar(xs, c)[i] == xs[i] + c
  {
    if xs != [] {
      AddScalarValues(xs[1..], c);
    }
  }

  /** Two series of the same length, added entry by entry. */
  function AddPairwise(xs: seq<real>, ys: seq<real>): (r: seq<real>)
    requires |xs| == |ys|
    ensures |r| == |xs|
  {
    if xs == [] then [] else [xs[0] + ys[0]] + AddPairwise(xs[1..], ys[1..])
  }

  lemma {:induction false} AddPairwiseValues(xs: seq<real>, ys: seq<real>)
    requires |xs| == |ys|
    ensures forall i :: 0 <= i < |xs| ==> AddPairwise(xs, ys)[i] == xs[i] + ys[i]
  {
    if xs != [] {
      AddPairwiseValues(xs[1..], ys[1..]);
    }
  }

  /** `xs += ys` on one-dimensional arrays: `ys` must have the length of `xs`
      or length one (broadcast), else numpy raises ValueError. */
  function AddInPlace(xs: seq<real>, ys: seq<real>): (r: Result<seq<real>, ErrorType>)
    ensures r.Failure? <==> |ys| != |xs| && |ys| != 1
    ensures r.Failure? ==> r.error == ValueError
    ensures r.Success? ==> |r.value| == |xs|
  {
    if |ys| == |xs| then Success(AddPairwise(xs, ys))
    else if |ys| == 1 then Success(AddScalar(xs, ys[0]))
    else Failure(ValueError)
  }

  /** The sum is taken entrywise, or with `ys[0]` broadcast. */
  lemma AddInPlaceValues(xs: seq<real>, ys: seq<real>)
    requires |ys| == |xs| || |ys| == 1
    ensures forall i :: 0 <= i < |xs| ==>
      AddInPlace(xs, ys).value[i] == xs[i] + (if |ys| == |xs| then ys[i] else ys[0])
  {
    if |ys| == |xs| {
      AddPairwiseValues(xs, ys);
    } else {
      AddScalarValues(xs, ys[0]);
    }
  }

  /** `n` copies of `x`. */
  function Full<T>(n: nat, x: T): (r: seq<T>)
    ensures |r| == n
  {
    if n == 0 then [] else [x] + Full(n - 1, x)
  }

  lemma {:induction false} FullValues<T>(n: nat, x: T)
    ensures forall i :: 0 <= i < n ==> Full(n, x)[i] == x
  {
    if n > 0 {
      FullValues(n - 1, x);
    }
  }

  /** The series used for output `o` of phase `p`: the reported one when there
      is one, else the one the code fills in. Only outputs visited earlier in
      the same phase could have been filled before, so the values read while
      filling are the reported ones. */
  function Filled(job: Job, p: string, o: Output): (r: Result<Series, ErrorType>)
    ensures r.Success? && r.value.Labels? ==> o == Gear
  {
    var store := job.store;
    if (p, o) in store then Success(Nums(store[(p, o)]))
    else if o == ThetaB || o == ThetaWB then
      if (p, Alpha) !in store then Failure(KeyError)
      else
        var base := AddScalar(store[(p, Alpha)], job.angleThrust);
        if o == ThetaB && (p, FlightPathAngle) in store then
          var sum :- AddInPlace(base, store[(p, FlightPathAngle)]);
          Success(Nums(sum))
        else Success(Nums(base))
    else if (p, Time) !in store then Failure(KeyError)
    else
      var n := |store[(p, Time)]|;
      var i := PhaseIndex(job.phases, p);
      if o == Throttle then Success(Nums(Full(n, 1.0)))
      else if o == Gear then
        Success(Labels(Full(n, if i >= PhaseIndex(job.phases, job.gearUp) then "4HUP  " else "4HDOWN")))
      else if o == Flap then
        Success(Nums(Full(n, if i >= PhaseIndex(job.phases, job.flapsUp) then 0.0 else job.angleFlaps)))
      else Success(Nums(Full(n, 0.0)))
  }

  /** A reported series is used as it is; the code never overwrites one. */
  lemma FillOnlyWhenAbsent(job: Job, p: string, o: Output)
    requires (p, o) in job.store
    ensures Filled(job, p, o) == Success(Nums(job.store[(p, o)]))
  {
  }

  /** A missing output other than the two body angles is filled with one value
      per time point of its phase: ones for the throttle, zeros for the rest
      (flaps and gear aside); a phase without time raises KeyError. */
  lemma DefaultFill(job: Job, p: string, o: Output)
    requires (p, o) !in job.store && o != ThetaB && o != ThetaWB
    ensures (p, Time) !in job.store <==> Filled(job, p, o) == Failure(KeyError)
    ensures (p, Time) in job.store ==>
      Filled(job, p, o).Success? && Len(Filled(job, p, o).value) == |job.store[(p, Time)]|
    ensures (p, Time) in job.store && o == Throttle ==>
      Filled(job, p, o) == Success(Nums(Full(|job.store[(p, Time)]|, 1.0)))
    ensures (p, Time) in job.store && o != Throttle && o != Gear && o != Flap ==>
      Filled(job, p, o) == Success(Nums(Full(|job.store[(p, Time)]|, 0.0)))
  {
  }

  /** Without a reported gear series, the gear is up ("4HUP  ") in a phase
      at or after the gear-up phase and down ("4HDOWN") before it. When the
      gear-up phase is not a phase at all, its index is taken as 1000, so the
      gear is down in the first thousand phases and up in any later one. */
  lemma GearFill(job: Job, i: nat)
    requires i < |job.phases| && (job.phases[i], Gear) !in job.store && (job.phases[i], Time) in job.store
    requires forall j :: 0 <= j < i ==> job.phases[j] != job.phases[i]
    ensures var r := Filled(job, job.phases[i], Gear);
      var up := (exists j :: 0 <= j <= i && job.phases[j] == job.gearUp)
        || (job.gearUp !in job.phases && i >= 1000);
      r == Success(Labels(Full(|job.store[(job.phases[i], Time)]|, if up then "4HUP  " else "4HDOWN")))
  {
    assert PhaseIndex(job.phases, job.phases[i]) == i;
    if job.gearUp in job.phases && PhaseIndex(job.phases, job.gearUp) <= i {
      assert job.phases[PhaseIndex(job.phases, job.gearUp)] == job.gearUp;
    }
  }

  /** Without a reported flap series, flaps are at zero in a phase at or
      after the flaps-up phase and at the given flap angle before it, with
      the same sentinel 1000 when the flaps-up phase is not a phase. */
  lemma FlapFill(job: Job, i: nat)
    requires i < |job.phases| && (job.phases[i], Flap) !in job.store && (job.phases[i], Time) in job.store
    requires forall j :: 0 <= j < i ==> job.phases[j] != job.phases[i]
    ensures var r := Filled(job, job.phases[i], Flap);
      var up := (exists j :: 0 <= j <= i && job.phases[j] == job.flapsUp)
        || (job.flapsUp !in job.phases && i >= 1000);
      r == Success(Nums(Full(|job.store[(job.phases[i], Time)]|, if up then 0.0 else job.angleFlaps)))
  {
    assert PhaseIndex(job.phases, job.phases[i]) == i;
    if job.flapsUp in job.phases && PhaseIndex(job.phases, job.flapsUp) <= i {
      assert job.phases[PhaseIndex(job.phases, job.flapsUp)] == job.flapsUp;
    }
  }

  /** Without reported body angles, the pitch angle of the body axes is
      alpha plus the thrust incidence plus the flight-path angle (when one is
      reported), and the wind-to-body pitch is alpha plus the incidence. */
  lemma ThetaFill(job: Job, p: string)
    requires (p, Alpha) in job.store
    ensures var alpha := job.store[(p, Alpha)];
      (p, ThetaWB) !in job.store ==>
        Filled(job, p, ThetaWB) == Success(Nums(AddScalar(alpha, job.angleThrust)))
    ensures var alpha := job.store[(p, Alpha)];
      (p, ThetaB) !in job.store && (p, FlightPathAngle) !in job.store ==>
        Filled(job, p, ThetaB) == Success(Nums(AddScalar(alpha, job.angleThrust)))
    ensures var alpha := job.store[(p, Alpha)];
      (p, ThetaB) !in job.store && (p, FlightPathAngle) in job.store
      && |job.store[(p, FlightPathAngle)]| == |alpha| ==>
        && Filled(job, p, ThetaB).Success?
        && var t := Filled(job, p, ThetaB).value;
          t.Nums? && |t.xs| == |alpha| && forall k :: 0 <= k < |alpha| ==>
            t.xs[k] == alpha[k] + job.angleThrust + job.store[(p, FlightPathAngle)][k]
  {
    if (p, Alpha) in job.store {
      var alpha := job.store[(p, Alpha)];
      AddScalarValues(alpha, job.angleThrust);
      if (p, FlightPathAngle) in job.store && |job.store[(p, FlightPathAngle)]| == |alpha| {
        AddInPlaceValues(AddScalar(alpha, job.angleThrust), job.store[(p, FlightPathAngle)]);
      }
    }
  }

  /** Without a reported alpha, a missing body angle raises KeyError. */
  lemma ThetaNeedsAlpha(job: Job, p: string, o: Output)
    requires o == ThetaB || o == ThetaWB
    requires (p, o) !in job.store && (p, Alpha) !in job.store
    ensures Filled(job, p, o) == Failure(KeyError)
  {
  }

  /** `s.rjust(w)`: spaces on the left up to width `w`; never truncates. */
  function Rjust(s: string, w: nat): string {
    if |s| < w then Full(w - |s|, ' ') + s else s
  }

  /** The justified text is max(w, |s|) long, ends in `s` and is padded with
      spaces only. */
  lemma RjustPads(s: string, w: nat)
    ensures var r := Rjust(s, w);
      && |r| == (if |s| < w then w else |s|)
      && r[|r| - |s|..] == s
      && forall i :: 0 <= i < |r| - |s| ==> r[i] == ' '
  {
    if |s| < w {
      FullValues(w - |s|, ' ');
    }
  }

  /** What a column does to a value before formatting it: nothing, negate it
      in the format argument, or multiply it by a derate factor. */
  datatype Scale = AsIs | Negated | Derated(factor: real)

  /** One fixed-point column: its position in the table, the digits after the
      point, the width, the scaling applied before formatting and a suffix. */
  datatype Field = Field(column: nat, decimals: nat, width: nat, scale: Scale, suffix: string)

  /** The FLIPATH column fed by each output. */
  function PathField(o: Output): (r: Option<Field>)
    ensures r.Some? <==> Rank(o) < 10
    ensures r.Some? ==> r.value.column == Rank(o)
  {
    match o
    case Time => Some(Field(0, 2, 8, AsIs, ""))
    case Distance => Some(Field(1, 2, 10, AsIs, ""))
    case Lateral => Some(Field(2, 2, 4, AsIs, ""))
    case Altitude => Some(Field(3, 1, 8, Negated, ""))
    case PsiB => Some(Field(4, 2, 4, AsIs, ""))
    case ThetaB => Some(Field(5, 2, 6, AsIs, ""))
    case PhiB => Some(Field(6, 2, 4, AsIs, ""))
    case PsiWB => Some(Field(7, 2, 4, AsIs, ""))
    case ThetaWB => Some(Field(8, 2, 6, Negated, ""))
    case PhiWB => Some(Field(9, 2, 5, AsIs, "$"))
    case _ => None
  }

  /** The FLIXXX column where gear labels go, unformatted. */
  const GearColumn: nat := 6

  /** The formatted FLIXXX column fed by each output (gear aside). */
  function XxxField(o: Output): (r: Option<Field>)
    ensures r.Some? <==> o == Time || (12 <= Rank(o) < 20 && o != Gear)
    ensures r.Some? ==> r.value.column == if o == Time then 0 else Rank(o) - 11
  {
    match o
    case Time => Some(Field(0, 2, 8, AsIs, ""))
    case Mach => Some(Field(1, 4, 6, AsIs, ""))
    case Throttle => Some(Field(2, 3, 5, Derated(0.9), ""))
    case SpeedOfSound => Some(Field(3, 1, 6, AsIs, ""))
    case Density => Some(Field(4, 8, 10, AsIs, ""))
    case Viscosity => Some(Field(5, 12, 14, AsIs, ""))
    case Flap => Some(Field(7, 1, 4, AsIs, ""))
    case AbsHumidity => Some(Field(8, 3, 6, AsIs, "$"))
    case _ => None
  }

  /** The text of one value in a fixed-point column. */
  function Cell(f: Format, fld: Field, x: real): string {
    Rjust(Digits(f, fld, x) + fld.suffix, fld.width)
  }

  /** The value, negated or derated as the column says, formatted to the
      column's digits. */
  function Digits(f: Format, fld: Field, x: real): string {
    match fld.scale
    case AsIs => f.fixed(x, fld.decimals)
    case Negated => f.negFixed(x, fld.decimals)
    case Derated(k) => f.fixed(x * k, fld.decimals)
  }

  /** Every cell is the value negated or derated as the column says, formatted to the
      column's digits, followed by its suffix and right-justified to its width. */
  lemma CellJustified(f: Format, fld: Field, x: real)
    ensures var text := Digits(f, fld, x) + fld.suffix;
      var c := Cell(f, fld, x);
      && |c| == (if |text| < fld.width then fld.width else |text|)
      && c[|c| - |text|..] == text
      && c[|c| - |fld.suffix|..] == fld.suffix
      && forall i :: 0 <= i < |c| - |text| ==> c[i] == ' '
  {
    var digits := Digits(f, fld, x);
    var text := digits + fld.suffix;
    var c := Cell(f, fld, x);
    RjustPads(text, fld.width);
    assert text[|digits|..] == fld.suffix;
    assert c[|c| - |fld.suffix|..] == c[|c| - |text|..][|digits|..];
  }

  function Cells(f: Format, fld: Field, xs: seq<real>): (r: seq<string>)
    ensures |r| == |xs|
  {
    if xs == [] then [] else [Cell(f, fld, xs[0])] + Cells(f, fld, xs[1..])
  }

  /** The i-th entry of a column is the i-th value's cell. */
  lemma {:induction false} CellsAt(f: Format, fld: Field, xs: seq<real>, i: nat)
    requires i < |xs|
    ensures Cells(f, fld, xs)[i] == Cell(f, fld, xs[i])
  {
    if i > 0 {
      CellsAt(f, fld, xs[1..], i - 1);
    }
  }

  lemma {:induction false} CellsAppend(f: Format, fld: Field, a: seq<real>, b: seq<real>)
    ensures Cells(f, fld, a + b) == Cells(f, fld, a) + Cells(f, fld, b)
  {
    if a != [] {
      assert (a + b)[1..] == a[1..] + b;
      CellsAppend(f, fld, a[1..], b);
    } else {
      assert a + b == b;
    }
  }

  /** Gear entries go into FLIXXX as they are: labels, or reported numbers
      as `str` prints them. */
  function GearCells(f: Format, s: Series): (r: seq<string>)
    ensures |r| == Len(s)
  {
    match s
    case Labels(ls) => ls
    case Nums(xs) => Shown(f, xs)
  }

  function Shown(f: Format, xs: seq<real>): (r: seq<string>)
    ensures |r| == |xs|
  {
    if xs == [] then [] else [f.show(xs[0])] + Shown(f, xs[1..])
  }

  /** The two tables, column by column. */
  datatype Tables = Tables(path: seq<seq<string>>, xxx: seq<seq<string>>)

  const Blank: Tables := Tables(Full(10, []), Full(9, []))

  function Extend(cols: seq<seq<string>>, c: nat, cells: seq<string>): (r: seq<seq<string>>)
    ensures |r| == |cols|
  {
    if c < |cols| then cols[c := cols[c] + cells] else cols
  }

  lemma AppendAssociates<T>(a: seq<T>, b: seq<T>, d: seq<T>)
    ensures a + (b + d) == (a + b) + d
  {
  }

  /** Only column `c` changes: the cells go at its end. */
  lemma ExtendAt(cols: seq<seq<string>>, c: nat, cells: seq<string>)
    ensures forall d :: 0 <= d < |cols| ==>
      Extend(cols, c, cells)[d] == if d == c then cols[d] + cells else cols[d]
  {
  }

  /** The cells a series adds to each table. */
  function Record(t: Tables, f: Format, o: Output, s: Series): (r: Tables)
    requires s.Labels? ==> o == Gear
    ensures |r.path| == |t.path| && |r.xxx| == |t.xxx|
  {
    var path := match PathField(o)
      case None => t.path
      case Some(fld) => Extend(t.path, fld.column, Cells(f, fld, s.xs));
    var xxx :=
      if o == Gear then Extend(t.xxx, GearColumn, GearCells(f, s))
      else match XxxField(o)
        case None => t.xxx
        case Some(fld) => Extend(t.xxx, fld.column, Cells(f, fld, s.xs));
    Tables(path, xxx)
  }

  /** The outputs of phase `p` from position `k` on, added to `t`. */
  function RunPhase(job: Job, t: Tables, p: string, k: nat): Result<Tables, ErrorType>
    decreases |OutputNames| - k
  {
    if k >= |OutputNames| then Success(t)
    else
      var s :- Filled(job, p, OutputNames[k]);
      RunPhase(job, Record(t, job.format, OutputNames[k], s), p, k + 1)
  }

  /** The phases from position `i` on, added to `t`. */
  function RunAll(job: Job, t: Tables, i: nat): Result<Tables, ErrorType>
    decreases |job.phases| - i
  {
    if i >= |job.phases| then Success(t)
    else
      var t' :- RunPhase(job, t, job.phases[i], 0);
      RunAll(job, t', i + 1)
  }

  /** Some output of phase `p` cannot be had. */
  ghost predicate PhaseFails(job: Job, p: string) {
    exists m :: 0 <= m < |OutputNames| && Filled(job, p, OutputNames[m]).Failure?
  }

  /** The tables fail exactly when the series of some output of some phase
      cannot be had. */
  lemma {:induction false} RunPhaseFails(job: Job, t: Tables, p: string, k: nat)
    ensures RunPhase(job, t, p, k).Failure?
      <==> exists m :: k <= m < |OutputNames| && Filled(job, p, OutputNames[m]).Failure?
    decreases |OutputNames| - k
  {
    if k < |OutputNames| {
      RunPhaseStep(job, t, p, k);
      var r := Filled(job, p, OutputNames[k]);
      if r.Success? {
        RunPhaseFails(job, Record(t, job.format, OutputNames[k], r.value), p, k + 1);
        assert (exists m :: k <= m < |OutputNames| && Filled(job, p, OutputNames[m]).Failure?)
          <==> (exists m :: k + 1 <= m < |OutputNames| && Filled(job, p, OutputNames[m]).Failure?);
      }
    }
  }

  /** A whole phase fails exactly when it has an output that cannot be had. */
  lemma PhaseFailsExactly(job: Job, t: Tables, p: string)
    ensures RunPhase(job, t, p, 0).Failure? <==> PhaseFails(job, p)
  {
    RunPhaseFails(job, t, p, 0);
  }

  /** One step of the outer loop: the next phase's tables, or its error. */
  lemma RunAllStep(job: Job, t: Tables, i: nat)
    requires i < |job.phases|
    ensures var r := RunPhase(job, t, job.phases[i], 0);
      RunAll(job, t, i) == if r.Failure? then Failure(r.error) else RunAll(job, r.value, i + 1)
  {
  }

  /** A failing run names a phase that fails. */
  lemma {:induction false} FailingPhase(job: Job, t: Tables, i: nat) returns (j: nat)
    requires RunAll(job, t, i).Failure?
    ensures i <= j < |job.phases| && PhaseFails(job, job.phases[j])
    decreases |job.phases| - i
  {
    var p := job.phases[i];
    PhaseFailsExactly(job, t, p);
    RunAllStep(job, t, i);
    if PhaseFails(job, p) {
      j := i;
    } else {
      j := FailingPhase(job, RunPhase(job, t, p, 0).value, i + 1);
    }
  }

  /** A phase that fails makes the run from any earlier phase fail. */
  lemma {:induction false} FailureAt(job: Job, t: Tables, i: nat, j: nat)
    requires i <= j < |job.phases| && PhaseFails(job, job.phases[j])
    ensures RunAll(job, t, i).Failure?
    decreases j - i
  {
    var p := job.phases[i];
    PhaseFailsExactly(job, t, p);
    RunAllStep(job, t, i);
    var r := RunPhase(job, t, p, 0);
    if r.Success? {
      assert j != i;
      FailureAt(job, r.value, i + 1, j);
    }
  }

  /** The tables fail exactly when some phase fails. */
  lemma RunAllFails(job: Job, t: Tables, i: nat)
    ensures RunAll(job, t, i).Failure? <==>
      exists j :: i <= j < |job.phases| && PhaseFails(job, job.phases[j])
  {
    if RunAll(job, t, i).Failure? {
      var j := FailingPhase(job, t, i);
    } else if j :| i <= j < |job.phases| && PhaseFails(job, job.phases[j]) {
      FailureAt(job, t, i, j);
    }
  }

  /** Relation between the dictionary the code mutates and the reported
      series: reported entries stay; every added entry is the filled series
      and was added after all outputs visited before it in its phase. */
  ghost predicate DictAgrees(job: Job, dict: map<(string, Output), Series>) {
    && (forall k :: k in job.store ==> k in dict && dict[k] == Nums(job.store[k]))
    && (forall k {:trigger dict[k]} :: k in dict && k !in job.store ==> Filled(job, k.0, k.1) == Success(dict[k]))
    && (forall k :: k in dict && k !in job.store ==>
          forall m :: 0 <= m < Rank(k.1) ==> (k.0, OutputNames[m]) in dict)
  }

  /** Appends the formatted values of a series to one column. */
  method ExtendColumn(col: seq<string>, f: Format, fld: Field, xs: seq<real>) returns (r: seq<string>)
    ensures r == col + Cells(f, fld, xs)
  {
    r := col;
    for j := 0 to |xs|
      invariant r == col + Cells(f, fld, xs[..j])
    {
      CellsAppend(f, fld, xs[..j], [xs[j]]);
      assert Cells(f, fld, [xs[j]]) == [Cell(f, fld, xs[j])];
      assert xs[..j] + [xs[j]] == xs[..j + 1];
      r := r + [Cell(f, fld, xs[j])];
    }
    assert xs[..|xs|] == xs;
  }

  /** Appends gear entries to the gear column. */
  method ExtendGear(col: seq<string>, f: Format, s: Series) returns (r: seq<string>)
    ensures r == col + GearCells(f, s)
  {
    r := col;
    var cells := GearCells(f, s);
    for j := 0 to Len(s)
      invariant r == col + cells[..j]
    {
      var n := cells[j];
      assert cells[..j + 1] == cells[..j] + [n];
      r := r + [n];
    }
    assert cells[..Len(s)] == cells;
  }

  /** An output visited after `o` in phase `p` cannot have been added before
      `o` was: it is in the dictionary only when it was reported. */
  lemma NotYetAdded(job: Job, dict: map<(string, Output), Series>, p: string, o: Output, later: Output)
    requires DictAgrees(job, dict) && (p, o) !in dict && Rank(o) < Rank(later)
    ensures (p, later) in dict ==> (p, later) in job.store
  {
    assert OutputNames[Rank(o)] == o;
  }

  /** Time is never filled in: a missing time raises instead. */
  lemma TimeNeverAdded(job: Job, dict: map<(string, Output), Series>, p: string)
    requires DictAgrees(job, dict)
    ensures (p, Time) in dict ==> (p, Time) in job.store
  {
    if (p, Time) in dict {
      var s := dict[(p, Time)];
    }
  }

  /** The series of output `o` of phase `p`, filled into the dictionary first
      when missing. */
  method Fetch(job: Job, dict: map<(string, Output), Series>, p: string, o: Output)
    returns (r: Result<Series, ErrorType>, dict': map<(string, Output), Series>)
    requires DictAgrees(job, dict)
    requires forall m :: 0 <= m < Rank(o) ==> (p, OutputNames[m]) in dict
    ensures r == Filled(job, p, o)
    ensures r.Success? ==> DictAgrees(job, dict') && (p, o) in dict' && dict'[(p, o)] == r.value
    ensures r.Success? ==> forall k :: k in dict ==> k in dict'
  {
    if (p, o) in dict {
      return Success(dict[(p, o)]), dict;
    }
    r := FillMissing(job, dict, p, o);
    dict' := dict;
    if r.Success? {
      DictAgreesAdd(job, dict, p, o, r.value);
      dict' := dict[(p, o) := r.value];
    }
  }

  /** Adding the filled series of the output being visited keeps the
      dictionary in agreement. */
  lemma DictAgreesAdd(job: Job, dict: map<(string, Output), Series>, p: string, o: Output, s: Series)
    requires DictAgrees(job, dict) && (p, o) !in dict
    requires forall m :: 0 <= m < Rank(o) ==> (p, OutputNames[m]) in dict
    requires Filled(job, p, o) == Success(s)
    ensures DictAgrees(job, dict[(p, o) := s])
  {
  }

  /** The filling branch of the inner loop, for an output missing from the
      dictionary. */
  method FillMissing(job: Job, dict: map<(string, Output), Series>, p: string, o: Output)
    returns (r: Result<Series, ErrorType>)
    requires DictAgrees(job, dict) && (p, o) !in dict
    requires forall m :: 0 <= m < Rank(o) ==> (p, OutputNames[m]) in dict
    ensures r == Filled(job, p, o)
  {
    TimeNeverAdded(job, dict, p);
    if o == ThetaB || o == ThetaWB {
      NotYetAdded(job, dict, p, o, Alpha);
      NotYetAdded(job, dict, p, o, FlightPathAngle);
      if (p, Alpha) !in dict {
        return Failure(KeyError);
      }
      var theta := AddScalar(dict[(p, Alpha)].xs, job.angleThrust);
      if o == ThetaB && (p, FlightPathAngle) in dict {
        var sum := AddInPlace(theta, dict[(p, FlightPathAngle)].xs);
        if sum.Failure? {
          return Failure(sum.error);
        }
        theta := sum.value;
      }
      return Success(Nums(theta));
    }
    if (p, Time) !in dict {
      return Failure(KeyError);
    }
    var n := |dict[(p, Time)].xs|;
    if o == Throttle {
      return Success(Nums(Full(n, 1.0)));
    } else if o == Gear {
      var gearUpIndex := if job.gearUp in job.phases then PhaseIndex(job.phases, job.gearUp) else 1000;
      if PhaseIndex(job.phases, p) >= gearUpIndex {
        return Success(Labels(Full(n, "4HUP  ")));
      } else {
        return Success(Labels(Full(n, "4HDOWN")));
      }
    } else if o == Flap {
      var flapsUpIndex := if job.flapsUp in job.phases then PhaseIndex(job.phases, job.flapsUp) else 1000;
      if PhaseIndex(job.phases, p) >= flapsUpIndex {
        return Success(Nums(Full(n, 0.0)));
      } else {
        return Success(Nums(Full(n, job.angleFlaps)));
      }
    } else {
      return Success(Nums(Full(n, 0.0)));
    }
  }

  /** Appends the entries of one series to the columns its output feeds. */
  method AddSeries(t: Tables, f: Format, o: Output, s: Series) returns (r: Tables)
    requires s.Labels? ==> o == Gear
    requires |t.path| == 10 && |t.xxx| == 9
    ensures r == Record(t, f, o, s)
  {
    var path, xxx := t.path, t.xxx;
    match PathField(o) {
      case Some(fld) =>
        var col := ExtendColumn(path[fld.column], f, fld, s.xs);
        path := path[fld.column := col];
      case None =>
    }
    if o == Gear {
      var col := ExtendGear(xxx[GearColumn], f, s);
      xxx := xxx[GearColumn := col];
    } else {
      match XxxField(o) {
        case Some(fld) =>
          var col := ExtendColumn(xxx[fld.column], f, fld, s.xs);
          xxx := xxx[fld.column := col];
        case None =>
      }
    }
    r := Tables(path, xxx);
  }

  /** One step of a phase: the next output's series, or its error. */
  lemma RunPhaseStep(job: Job, t: Tables, p: string, k: nat)
    requires k < |OutputNames|
    ensures var r := Filled(job, p, OutputNames[k]);
      RunPhase(job, t, p, k)
        == if r.Failure? then Failure(r.error)
           else RunPhase(job, Record(t, job.format, OutputNames[k], r.value), p, k + 1)
  {
  }

  /** The inner loop of timeseries_output: every output of phase `p` in turn. */
  method VisitPhase(job: Job, dict: map<(string, Output), Series>, t: Tables, p: string)
    returns (r: Result<Tables, ErrorType>, dict': map<(string, Output), Series>)
    requires DictAgrees(job, dict)
    requires |t.path| == 10 && |t.xxx| == 9
    ensures r == RunPhase(job, t, p, 0)
    ensures r.Success? ==> DictAgrees(job, dict') && |r.value.path| == 10 && |r.value.xxx| == 9
  {
    dict' := dict;
    var cur := t;
    for k := 0 to |OutputNames|
      invariant RunPhase(job, cur, p, k) == RunPhase(job, t, p, 0)
      invariant |cur.path| == 10 && |cur.xxx| == 9
      invariant DictAgrees(job, dict')
      invariant forall m :: 0 <= m < k ==> (p, OutputNames[m]) in dict'
    {
      var next;
      next, dict' := VisitOutput(job, dict', cur, p, k);
      if next.Failure? {
        return Failure(next.error), dict';
      }
      cur := next.value;
    }
    return Success(cur), dict';
  }

  /** The body of the inner loop, for the k-th output of phase `p`. */
  method VisitOutput(job: Job, dict: map<(string, Output), Series>, t: Tables, p: string, k: nat)
    returns (r: Result<Tables, ErrorType>, dict': map<(string, Output), Series>)
    requires k < |OutputNames|
    requires DictAgrees(job, dict)
    requires forall m :: 0 <= m < k ==> (p, OutputNames[m]) in dict
    requires |t.path| == 10 && |t.xxx| == 9
    ensures r.Failure? ==> RunPhase(job, t, p, k) == Failure(r.error)
    ensures r.Success? ==> RunPhase(job, t, p, k) == RunPhase(job, r.value, p, k + 1)
    ensures r.Success? ==> |r.value.path| == 10 && |r.value.xxx| == 9
    ensures r.Success? ==> DictAgrees(job, dict') && forall m :: 0 <= m <= k ==> (p, OutputNames[m]) in dict'
  {
    var o := OutputNames[k];
    RankOfName(k);
    RunPhaseStep(job, t, p, k);
    var series;
    series, dict' := Fetch(job, dict, p, o);
    if series.Failure? {
      return Failure(series.error), dict';
    }
    var next := AddSeries(t, job.format, o, series.value);
    return Success(next), dict';
  }

  /** timeseries_output up to the text: visits every output of every phase,
      fills the missing series into the dictionary and appends the formatted
      values to the FLIPATH and FLIXXX columns. */
  method BuildTables(job: Job) returns (r: Result<Tables, ErrorType>)
    ensures r == RunAll(job, Blank, 0)
  {
    var dict: map<(string, Output), Series> := map k | k in job.store :: Nums(job.store[k]);
    var tables := Blank;
    for i := 0 to |job.phases|
      invariant RunAll(job, tables, i) == RunAll(job, Blank, 0)
      invariant |tables.path| == 10 && |tables.xxx| == 9
      invariant DictAgrees(job, dict)
    {
      var next;
      next, dict := VisitPhase(job, dict, tables, job.phases[i]);
      if next.Failure? {
        return Failure(next.error);
      }
      tables := next.value;
    }
    return Success(tables);
  }

  /** The longest column: the number of rows of the transposed table. */
  function MaxLen(cols: seq<seq<string>>): (r: nat)
    ensures forall c :: 0 <= c < |cols| ==> |cols[c]| <= r
    ensures cols != [] ==> exists c :: 0 <= c < |cols| && |cols[c]| == r
    ensures cols == [] ==> r == 0
  {
    if cols == [] then 0
    else
      var m := MaxLen(cols[1..]);
      if |cols[0]| >= m then |cols[0]| else m
  }

  /** Entry `i` of a column, or what a padded short column prints. */
  function CellAt(col: seq<string>, i: nat): string {
    if i < |col| then col[i] else "None"
  }

  /** Row `i` as written: the entries joined by single spaces, then a newline. */
  function Row(cols: seq<seq<string>>, i: nat): string {
    DocTape.Join(" ", seq(|cols|, c requires 0 <= c < |cols| => CellAt(cols[c], i))) + "\n"
  }

  /** The file text, line by line. */
  function Lines(cols: seq<seq<string>>): (r: seq<string>)
    ensures |r| == MaxLen(cols)
    ensures forall i :: 0 <= i < |r| ==> r[i] == Row(cols, i)
  {
    seq(MaxLen(cols), i requires 0 <= i < MaxLen(cols) => Row(cols, i))
  }

  /** Writes one table: the columns become rows, one line each. */
  method WriteTable(cols: seq<seq<string>>) returns (lines: seq<string>)
    ensures lines == Lines(cols)
  {
    var rows := RowCount(cols);
    lines := [];
    for i := 0 to rows
      invariant |lines| == i
      invariant forall j :: 0 <= j < i ==> lines[j] == Row(cols, j)
    {
      var line := RowText(cols, i);
      lines := lines + [line];
    }
  }

  /** The length of the longest column: the number of rows of the frame. */
  method RowCount(cols: seq<seq<string>>) returns (rows: nat)
    ensures rows == MaxLen(cols)
  {
    rows := 0;
    for c := 0 to |cols|
      invariant rows == MaxLen(cols[..c])
    {
      MaxLenSnoc(cols[..c], cols[c]);
      assert cols[..c + 1] == cols[..c] + [cols[c]];
      if |cols[c]| > rows {
        rows := |cols[c]|;
      }
    }
    assert cols[..|cols|] == cols;
  }

  /** Row `i`: entry `i` of every column, joined by spaces. */
  method RowText(cols: seq<seq<string>>, i: nat) returns (line: string)
    ensures line == Row(cols, i)
  {
    var cells: seq<string> := [];
    for c := 0 to |cols|
      invariant cells == seq(c, d requires 0 <= d < c => CellAt(cols[d], i))
    {
      cells := cells + [if i < |cols[c]| then cols[c][i] else "None"];
    }
    line := DocTape.Join(" ", cells) + "\n";
  }

  lemma {:induction false} MaxLenSnoc(cols: seq<seq<string>>, col: seq<string>)
    ensures MaxLen(cols + [col]) == if |col| > MaxLen(cols) then |col| else MaxLen(cols)
    decreases |cols|
  {
    if cols == [] {
      assert [] + [col] == [col];
      assert [col][1..] == [];
    } else {
      assert (cols + [col])[1..] == cols[1..] + [col];
      MaxLenSnoc(cols[1..], col);
    }
  }

  /** When every column has the same length, there is one line per position
      and each line carries the entries at that position, with no padding. */
  lemma AlignedRows(cols: seq<seq<string>>, n: nat)
    requires |cols| > 0 && forall c :: 0 <= c < |cols| ==> |cols[c]| == n
    ensures |Lines(cols)| == n
    ensures forall i :: 0 <= i < n ==>
      Lines(cols)[i] == DocTape.Join(" ", seq(|cols|, c requires 0 <= c < |cols| => cols[c][i])) + "\n"
  {
    assert MaxLen(cols) == n by {
      assert |cols[0]| <= MaxLen(cols);
      var c :| 0 <= c < |cols| && |cols[c]| == MaxLen(cols);
    }
    forall i | 0 <= i < n
      ensures Lines(cols)[i] == DocTape.Join(" ", seq(|cols|, c requires 0 <= c < |cols| => cols[c][i])) + "\n"
    {
      assert seq(|cols|, c requires 0 <= c < |cols| => CellAt(cols[c], i))
        == seq(|cols|, c requires 0 <= c < |cols| => cols[c][i]);
    }
  }

  /** A phase is regular when it reports time, either alpha or both body
      angles, and every reported series has one value per time point. */
  ghost predicate Regular(job: Job, p: string) {
    && (p, Time) in job.store
    && ((p, Alpha) in job.store || ((p, ThetaB) in job.store && (p, ThetaWB) in job.store))
    && forall o :: (p, o) in job.store ==> |job.store[(p, o)]| == |job.store[(p, Time)]|
  }

  /** Number of time points of the phases from position `i` on. */
  ghost function Samples(job: Job, i: nat): nat
    requires forall j :: 0 <= j < |job.phases| ==> Regular(job, job.phases[j])
    decreases |job.phases| - i
  {
    if i >= |job.phases| then 0
    else
      assert Regular(job, job.phases[i]);
      |job.store[(job.phases[i], Time)]| + Samples(job, i + 1)
  }

  /** In a regular phase every output is filled with one value per time point. */
  lemma RegularFill(job: Job, p: string, o: Output)
    requires Regular(job, p)
    ensures Filled(job, p, o).Success?
    ensures Len(Filled(job, p, o).value) == |job.store[(p, Time)]|
  {
    if (p, o) !in job.store && o != ThetaB && o != ThetaWB {
      DefaultFill(job, p, o);
    }
  }

  /** A series lengthens exactly the columns its output feeds, by its length. */
  lemma RecordGrows(t: Tables, f: Format, o: Output, s: Series, c: nat)
    requires s.Labels? ==> o == Gear
    requires |t.path| == 10 && |t.xxx| == 9
    ensures c < |t.path| ==>
      |Record(t, f, o, s).path[c]| == |t.path[c]| + (if Rank(o) == c then Len(s) else 0)
    ensures c < |t.xxx| ==>
      |Record(t, f, o, s).xxx[c]| == |t.xxx[c]| + (if XxxRank(c) == Rank(o) then Len(s) else 0)
  {
    var r := Record(t, f, o, s);
    match PathField(o) {
      case Some(fld) =>
        assert r.path == Extend(t.path, fld.column, Cells(f, fld, s.xs));
        ExtendAt(t.path, fld.column, Cells(f, fld, s.xs));
      case None =>
        assert r.path == t.path;
    }
    if o == Gear {
      assert r.xxx == Extend(t.xxx, GearColumn, GearCells(f, s));
      ExtendAt(t.xxx, GearColumn, GearCells(f, s));
    } else {
      match XxxField(o) {
        case Some(fld) =>
          assert r.xxx == Extend(t.xxx, fld.column, Cells(f, fld, s.xs));
          ExtendAt(t.xxx, fld.column, Cells(f, fld, s.xs));
          assert XxxRank(c) == Rank(o) <==> c == fld.column;
        case None =>
          assert r.xxx == t.xxx;
      }
    }
  }

  /** `.extend` on the column lists: a series appends its cells to the
      FLIPATH column of its rank and to its FLIXXX column (the gear column
      taking the labels as they are), and leaves every other column as it was. */
  lemma RecordContents(t: Tables, f: Format, o: Output, s: Series, c: nat)
    requires s.Labels? ==> o == Gear
    requires |t.path| == 10 && |t.xxx| == 9
    ensures c < 10 ==>
      Record(t, f, o, s).path[c]
        == t.path[c] + if Rank(o) == c then Cells(f, PathField(o).value, s.xs) else []
    ensures c < 9 ==>
      Record(t, f, o, s).xxx[c]
        == t.xxx[c] + if XxxRank(c) != Rank(o) then []
                      else if o == Gear then GearCells(f, s)
                      else Cells(f, XxxField(o).value, s.xs)
  {
    var r := Record(t, f, o, s);
    match PathField(o) {
      case Some(fld) =>
        assert r.path == Extend(t.path, fld.column, Cells(f, fld, s.xs));
        ExtendAt(t.path, fld.column, Cells(f, fld, s.xs));
      case None =>
        assert r.path == t.path;
    }
    if o == Gear {
      assert r.xxx == Extend(t.xxx, GearColumn, GearCells(f, s));
      ExtendAt(t.xxx, GearColumn, GearCells(f, s));
    } else {
      match XxxField(o) {
        case Some(fld) =>
          assert r.xxx == Extend(t.xxx, fld.column, Cells(f, fld, s.xs));
          ExtendAt(t.xxx, fld.column, Cells(f, fld, s.xs));
          assert XxxRank(c) == Rank(o) <==> c == fld.column;
        case None =>
          assert r.xxx == t.xxx;
      }
    }
  }

  /** The value transforms of the two tables: altitude and the wind-to-body
      pitch go through the negated format, the throttle is derated by 0.9, and
      every other column formats the value as it is. */
  lemma ColumnTransforms(f: Format, o: Output, x: real)
    ensures o == Altitude ==> Digits(f, PathField(o).value, x) == f.negFixed(x, 1)
    ensures o == ThetaWB ==> Digits(f, PathField(o).value, x) == f.negFixed(x, 2)
    ensures PathField(o).Some? && o != Altitude && o != ThetaWB ==>
      Digits(f, PathField(o).value, x) == f.fixed(x, PathField(o).value.decimals)
    ensures o == Throttle ==> Digits(f, XxxField(o).value, x) == f.fixed(x * 0.9, 3)
    ensures XxxField(o).Some? && o != Throttle ==>
      Digits(f, XxxField(o).value, x) == f.fixed(x, XxxField(o).value.decimals)
  {
  }

  /** Only phiWB in FLIPATH and abs_humidity in FLIXXX carry the "$" marker. */
  lemma DollarColumns(o: Output)
    ensures PathField(o).Some? ==> (PathField(o).value.suffix == "$" <==> o == PhiWB)
    ensures XxxField(o).Some? ==> (XxxField(o).value.suffix == "$" <==> o == AbsHumidity)
  {
    assert "$"[0] == '$' && |""| == 0;
  }

  /** The output a FLIXXX column comes from, by rank. */
  function XxxRank(c: nat): nat {
    if c == 0 then 0 else c + 11
  }

  lemma {:induction false} RegularPhase(job: Job, t: Tables, p: string, k: nat)
    requires Regular(job, p) && |t.path| == 10 && |t.xxx| == 9
    ensures RunPhase(job, t, p, k).Success?
    ensures var r := RunPhase(job, t, p, k).value;
      && |r.path| == 10 && |r.xxx| == 9
      && (forall c :: 0 <= c < 10 ==>
            |r.path[c]| == |t.path[c]| + (if k <= c then |job.store[(p, Time)]| else 0))
      && (forall c :: 0 <= c < 9 ==>
            |r.xxx[c]| == |t.xxx[c]| + (if k <= XxxRank(c) then |job.store[(p, Time)]| else 0))
    decreases |OutputNames| - k
  {
    if k < |OutputNames| {
      var o := OutputNames[k];
      RankOfName(k);
      RegularFill(job, p, o);
      var s := Filled(job, p, o).value;
      var t' := Record(t, job.format, o, s);
      forall c | 0 <= c < 10
        ensures |t'.path[c]| == |t.path[c]| + (if Rank(o) == c then Len(s) else 0)
      {
        RecordGrows(t, job.format, o, s, c);
      }
      forall c | 0 <= c < 9
        ensures |t'.xxx[c]| == |t.xxx[c]| + (if XxxRank(c) == Rank(o) then Len(s) else 0)
      {
        RecordGrows(t, job.format, o, s, c);
      }
      RegularPhase(job, t', p, k + 1);
    }
  }

  lemma {:induction false} RegularRun(job: Job, t: Tables, i: nat, n: nat)
    requires forall j :: 0 <= j < |job.phases| ==> Regular(job, job.phases[j])
    requires |t.path| == 10 && |t.xxx| == 9
    requires forall c :: 0 <= c < 10 ==> |t.path[c]| == n
    requires forall c :: 0 <= c < 9 ==> |t.xxx[c]| == n
    ensures RunAll(job, t, i).Success?
    ensures var r := RunAll(job, t, i).value;
      && |r.path| == 10 && |r.xxx| == 9
      && (forall c :: 0 <= c < 10 ==> |r.path[c]| == n + Samples(job, i))
      && (forall c :: 0 <= c < 9 ==> |r.xxx[c]| == n + Samples(job, i))
    decreases |job.phases| - i
  {
    if i < |job.phases| {
      var p := job.phases[i];
      RegularPhase(job, t, p, 0);
      RunAllStep(job, t, i);
      var t' := RunPhase(job, t, p, 0).value;
      assert Samples(job, i) == |job.store[(p, Time)]| + Samples(job, i + 1);
      RegularRun(job, t', i + 1, n + |job.store[(p, Time)]|);
    }
  }

  /** The cells phase `p` adds to FLIPATH column `c`: those of the output of
      rank `c`, formatted for that column. */
  function PathPart(job: Job, p: string, c: nat): seq<string>
    requires c < 10
  {
    RankOfName(c);
    var o := OutputNames[c];
    match Filled(job, p, o)
    case Failure(_) => []
    case Success(s) => Cells(job.format, PathField(o).value, s.xs)
  }

  /** The cells phase `p` adds to FLIXXX column `c`: those of the output of
      rank `XxxRank(c)`, the gear entries as they are. */
  function XxxPart(job: Job, p: string, c: nat): seq<string>
    requires c < 9
  {
    RankOfName(XxxRank(c));
    var o := OutputNames[XxxRank(c)];
    match Filled(job, p, o)
    case Failure(_) => []
    case Success(s) =>
      if o == Gear then GearCells(job.format, s) else Cells(job.format, XxxField(o).value, s.xs)
  }

  /** FLIPATH column `c` as the phases from position `i` on fill it, in order. */
  function PathRun(job: Job, i: nat, c: nat): seq<string>
    requires c < 10
    decreases |job.phases| - i
  {
    if i >= |job.phases| then [] else PathPart(job, job.phases[i], c) + PathRun(job, i + 1, c)
  }

  /** FLIXXX column `c` as the phases from position `i` on fill it, in order. */
  function XxxRun(job: Job, i: nat, c: nat): seq<string>
    requires c < 9
    decreases |job.phases| - i
  {
    if i >= |job.phases| then [] else XxxPart(job, job.phases[i], c) + XxxRun(job, i + 1, c)
  }

  /** The output at position `k` of phase `p` adds to each column exactly the
      cells of that column's part when it is the column's output. */
  lemma RecordPart(job: Job, t: Tables, p: string, k: nat, c: nat)
    requires k < |OutputNames| && Filled(job, p, OutputNames[k]).Success?
    requires |t.path| == 10 && |t.xxx| == 9
    ensures var r := Record(t, job.format, OutputNames[k], Filled(job, p, OutputNames[k]).value);
      && (c < 10 ==> r.path[c] == if k == c then t.path[c] + PathPart(job, p, c) else t.path[c])
      && (c < 9 ==> r.xxx[c] == if k == XxxRank(c) then t.xxx[c] + XxxPart(job, p, c) else t.xxx[c])
  {
    RankOfName(k);
    RecordContents(t, job.format, OutputNames[k], Filled(job, p, OutputNames[k]).value, c);
  }

  /** Visiting the outputs of phase `p` from position `k` on appends to
      FLIPATH column `c` the cells of its output when that output is still to
      come, and nothing otherwise. */
  lemma {:induction false} PhasePathColumns(job: Job, t: Tables, p: string, k: nat, c: nat)
    requires RunPhase(job, t, p, k).Success?
    requires |t.path| == 10 && |t.xxx| == 9 && c < 10
    ensures var r := RunPhase(job, t, p, k).value;
      && |r.path| == 10 && |r.xxx| == 9
      && r.path[c] == if k <= c then t.path[c] + PathPart(job, p, c) else t.path[c]
    decreases |OutputNames| - k
  {
    if k < |OutputNames| {
      var o := OutputNames[k];
      RunPhaseStep(job, t, p, k);
      var t' := Record(t, job.format, o, Filled(job, p, o).value);
      RecordPart(job, t, p, k, c);
      PhasePathColumns(job, t', p, k + 1, c);
    }
  }

  /** Visiting the outputs of phase `p` from position `k` on appends to
      FLIXXX column `c` the cells of its output when that output is still to
      come, and nothing otherwise. */
  lemma {:induction false} PhaseXxxColumns(job: Job, t: Tables, p: string, k: nat, c: nat)
    requires RunPhase(job, t, p, k).Success?
    requires |t.path| == 10 && |t.xxx| == 9 && c < 9
    ensures var r := RunPhase(job, t, p, k).value;
      && |r.path| == 10 && |r.xxx| == 9
      && r.xxx[c] == if k <= XxxRank(c) then t.xxx[c] + XxxPart(job, p, c) else t.xxx[c]
    decreases |OutputNames| - k
  {
    if k < |OutputNames| {
      var o := OutputNames[k];
      RunPhaseStep(job, t, p, k);
      var t' := Record(t, job.format, o, Filled(job, p, o).value);
      RecordPart(job, t, p, k, c);
      PhaseXxxColumns(job, t', p, k + 1, c);
    }
  }

  /** Visiting the phases from position `i` on appends to FLIPATH column `c`,
      phase after phase in mission order, the cells each phase gives it. */
  lemma {:induction false} RunPathColumns(job: Job, t: Tables, i: nat, c: nat)
    requires RunAll(job, t, i).Success?
    requires |t.path| == 10 && |t.xxx| == 9 && c < 10
    ensures var r := RunAll(job, t, i).value;
      |r.path| == 10 && |r.xxx| == 9 && r.path[c] == t.path[c] + PathRun(job, i, c)
    decreases |job.phases| - i
  {
    if i < |job.phases| {
      var p := job.phases[i];
      RunAllStep(job, t, i);
      var t' := RunPhase(job, t, p, 0).value;
      PhasePathColumns(job, t, p, 0, c);
      assert t'.path[c] == t.path[c] + PathPart(job, p, c);
      RunPathColumns(job, t', i + 1, c);
      assert PathRun(job, i, c) == PathPart(job, p, c) + PathRun(job, i + 1, c);
      AppendAssociates(t.path[c], PathPart(job, p, c), PathRun(job, i + 1, c));
    }
  }

  /** Visiting the phases from position `i` on appends to FLIXXX column `c`,
      phase after phase in mission order, the cells each phase gives it. */
  lemma {:induction false} RunXxxColumns(job: Job, t: Tables, i: nat, c: nat)
    requires RunAll(job, t, i).Success?
    requires |t.path| == 10 && |t.xxx| == 9 && c < 9
    ensures var r := RunAll(job, t, i).value;
      |r.path| == 10 && |r.xxx| == 9 && r.xxx[c] == t.xxx[c] + XxxRun(job, i, c)
    decreases |job.phases| - i
  {
    if i < |job.phases| {
      var p := job.phases[i];
      RunAllStep(job, t, i);
      var t' := RunPhase(job, t, p, 0).value;
      PhaseXxxColumns(job, t, p, 0, c);
      assert t'.xxx[c] == t.xxx[c] + XxxPart(job, p, c);
      RunXxxColumns(job, t', i + 1, c);
      assert XxxRun(job, i, c) == XxxPart(job, p, c) + XxxRun(job, i + 1, c);
      AppendAssociates(t.xxx[c], XxxPart(job, p, c), XxxRun(job, i + 1, c));
    }
  }

  /** A successful timeseries_output fills every column of both tables with
      the cells of its output, phase after phase in mission order. */
  lemma TablesInPhaseOrder(job: Job)
    requires RunAll(job, Blank, 0).Success?
    ensures var r := RunAll(job, Blank, 0).value;
      && |r.path| == 10 && |r.xxx| == 9
      && (forall c :: 0 <= c < 10 ==> r.path[c] == PathRun(job, 0, c))
      && (forall c :: 0 <= c < 9 ==> r.xxx[c] == XxxRun(job, 0, c))
  {
    FullValues<seq<string>>(10, []);
    FullValues<seq<string>>(9, []);
    RunPathColumns(job, Blank, 0, 0);
    forall c | 0 <= c < 10
      ensures RunAll(job, Blank, 0).value.path[c] == PathRun(job, 0, c)
    {
      RunPathColumns(job, Blank, 0, c);
    }
    forall c | 0 <= c < 9
      ensures RunAll(job, Blank, 0).value.xxx[c] == XxxRun(job, 0, c)
    {
      RunXxxColumns(job, Blank, 0, c);
    }
  }

  /** When every phase is regular, both files get one line per time point of
      the whole mission, with no padding: line `i` of FLIPATH holds entry `i`
      of each of its ten columns, line `i` of FLIXXX entry `i` of each of its
      nine. */
  lemma OneLinePerTimePoint(job: Job)
    requires forall j :: 0 <= j < |job.phases| ==> Regular(job, job.phases[j])
    ensures RunAll(job, Blank, 0).Success?
    ensures var r := RunAll(job, Blank, 0).value;
      && |r.path| == 10 && |r.xxx| == 9
      && (forall c :: 0 <= c < 10 ==> |r.path[c]| == Samples(job, 0))
      && (forall c :: 0 <= c < 9 ==> |r.xxx[c]| == Samples(job, 0))
      && |Lines(r.path)| == Samples(job, 0)
      && |Lines(r.xxx)| == Samples(job, 0)
      && (forall i :: 0 <= i < Samples(job, 0) ==>
        Lines(r.path)[i] == DocTape.Join(" ", seq(10, c requires 0 <= c < 10 => r.path[c][i])) + "\n")
      && forall i :: 0 <= i < Samples(job, 0) ==>
        Lines(r.xxx)[i] == DocTape.Join(" ", seq(9, c requires 0 <= c < 9 => r.xxx[c][i])) + "\n"
  {
    RegularRun(job, Blank, 0, 0);
    var r := RunAll(job, Blank, 0).value;
    AlignedRows(r.path, Samples(job, 0));
    AlignedRows(r.xxx, Samples(job, 0));
  }
}
