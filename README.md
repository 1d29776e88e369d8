# Aviary: mass roll-up, DocTAPE helpers and FLI tables in Dafny

This project models three parts of the Aviary aircraft design toolkit and
proves properties of the model.

- **FLOPS mass summation** (`mass_summation.dfy`, module `MassSummation`).
  These are the OpenMDAO components that roll the aircraft masses up:
  structure, propulsion, systems and equipment (standard or the `alt_mass`
  variant with a 1 % markup), empty, operating, zero-fuel and fuel mass.
  - Every promoted variable lives in one namespace of real-valued masses. An
    input nobody set reads as 0.0, the default every input declares.
  - Each component's `compute` is a function of that namespace, and its
    `setup_partials` is a table of constant partials.
  - The group's `setup` is the list of subsystems it adds for a given
    `alt_mass` flag. Running them in order writes each output in turn.
- **DocTAPE** (`doctape.dfy`, module `DocTape`), the documentation-testing
  helpers:
  - `gramatical_list` and `check_value` are functions;
  - `check_contains`, `check_args`, `get_attribute_name`, `get_all_keys` and
    `get_value` are methods with loops. Each is proved against a function
    that specifies it;
  - a raised exception is a `Failure`/`Fail` carrying the error class and
    the values its message reports;
  - a dict of dicts is a tree of ordered `(key, value)` entries.
- **FLI tables** (`fli_tables.dfy`, module `FliTables`). `timeseries_output`
  builds the FLIPATH and FLIXXX tables for the ANOPP noise tools, and the
  model follows the code's own loops:
  - `BuildTables` visits every phase (`VisitPhase`), and within it every
    output (`VisitOutput`);
  - a missing series is filled into the dictionary the code mutates
    (`Fetch`, `FillMissing`), and its formatted values are appended to the
    column lists (`AddSeries`, `ExtendColumn`, `ExtendGear`);
  - `WriteTable` turns the columns into space-joined lines.
  - Each method is proved equal to a specification function (`RunAll`,
    `RunPhase`, `Filled`, `Record`, `Lines`). That specification reads only
    the series the problem reports. A ghost invariant (`DictAgrees`) ties the
    mutated dictionary back to it.
- `results.dfy` (module `Results`) holds the `Result`, `Option` and
  `Outcome` wrappers and the Python exception classes.

## Model

| member | source | states |
|---|---|---|
| `MassSummation.Compute` | aviary/subsystems/mass/flops_based/mass_summation.py:103-425 | What each compute writes: a plain sum of its inputs (structure includes the first engine-count nacelle entries), base + 0.01·(structure + propulsion + base) for the alternate systems mass, 1.01·(structure + propulsion + base) + margin for the alternate empty mass, and gross - zero-fuel for fuel. Its properties are the lemmas below. |
| `MassSummation.DeclaredPartial` | aviary/subsystems/mass/flops_based/mass_summation.py:95-425 | The constant each setup_partials declares: 1 for every input of a plain sum (including each nacelle entry), 0.01/1.01 and 1.01/1.0 for the two alternate formulas, +1/-1 for fuel, and 0 for an undeclared pair. The PartialIsExact lemmas relate it to Compute. |
| `MassSummation.StructureIsComponentSum` | aviary/subsystems/mass/flops_based/mass_summation.py:103-117 | Structure mass is wing + horizontal tail + vertical tail + fins + canard + fuselage + main gear + nose gear + paint + the sum of the nacelle vector. Raising any one of the nacelle entries (one per engine) by 1 raises it by exactly 1. |
| `MassSummation.NacelleSumBump` | aviary/subsystems/mass/flops_based/mass_summation.py:95-101 | The nacelle sum moves by d when one of its first n entries moves by d; any other variable does not move it. |
| `MassSummation.PartialIsExact` | aviary/subsystems/mass/flops_based/mass_summation.py:95-117 | For every modelled component and every variable x, raising x by d changes the output by exactly the declared partial times d. A variable without a declared partial changes nothing. |
| `MassSummation.StructurePartialIsExact` | aviary/subsystems/mass/flops_based/mass_summation.py:99-101 | Structure mass: partial 1 on every input, including each nacelle entry, and it is exact. |
| `MassSummation.PropulsionPartialIsExact` | aviary/subsystems/mass/flops_based/mass_summation.py:136-152 | Propulsion mass: partial 1 on each of its four inputs, and it is exact. |
| `MassSummation.SystemsEquipPartialIsExact` | aviary/subsystems/mass/flops_based/mass_summation.py:176-194 | SystemsEquipMass and AltSystemsEquipMassBase: partial 1 on each of the ten inputs, and it is exact. |
| `MassSummation.SystemsPartialIsExact` | aviary/subsystems/mass/flops_based/mass_summation.py:191-194 | The ten-term systems sum moves by d when one of its terms moves by d, and by 0 otherwise. |
| `MassSummation.MarkupPartialIsExact` | aviary/subsystems/mass/flops_based/mass_summation.py:253-273 | The declared 0.01/1.01 partials of AltSystemsEquipMass (and 1.01/1.0 of AltEmptyMass) are exact. |
| `MassSummation.EmptyPartialIsExact` | aviary/subsystems/mass/flops_based/mass_summation.py:291-301 | Empty mass: partial 1 on structure, propulsion, systems and margin, and it is exact. |
| `MassSummation.OperatingPartialIsExact` | aviary/subsystems/mass/flops_based/mass_summation.py:357-371 | Operating mass: partial 1 on each of its seven inputs, and it is exact. |
| `MassSummation.ZeroFuelPartialIsExact` | aviary/subsystems/mass/flops_based/mass_summation.py:389-399 | Zero-fuel mass: partial 1 on each of its four inputs, and it is exact. |
| `MassSummation.FuelPartialIsExact` | aviary/subsystems/mass/flops_based/mass_summation.py:415-425 | Fuel mass: partials +1 on gross and -1 on zero-fuel mass, and they are exact. |
| `MassSummation.PartialsOnlyOnInputs` | aviary/subsystems/mass/flops_based/mass_summation.py:176-177 | A nonzero declared partial is only ever with respect to one of the component's own inputs. |
| `MassSummation.PlainSumPartials` | aviary/subsystems/mass/flops_based/mass_summation.py:291-292 | Every plain-sum component declares partial 1 for each of its inputs. |
| `MassSummation.AltSystemsEquipMarkup` | aviary/subsystems/mass/flops_based/mass_summation.py:266-273 | AltSystemsEquipMass = base + 0.01·(structure + propulsion + base), and its partials are 0.01, 0.01 and 1.01. |
| `MassSummation.AltEmptyMarkup` | aviary/subsystems/mass/flops_based/mass_summation.py:319-336 | AltEmptyMass = 1.01·(structure + propulsion + base) + margin. The declared partials are 1.01 on each of structure, propulsion and base, and 1.0 on margin. |
| `MassSummation.AltChainAgrees` | aviary/subsystems/mass/flops_based/mass_summation.py:271-336 | Feeding AltSystemsEquipMass into the standard EmptyMass formula gives AltEmptyMass on the same inputs. |
| `MassSummation.AltBaseMatchesStandard` | aviary/subsystems/mass/flops_based/mass_summation.py:191-236 | The base formula and SystemsEquipMass differ only in the furnishings term. So they agree whenever the furnishings base equals the furnishings mass. |
| `MassSummation.FuelBalance` | aviary/subsystems/mass/flops_based/mass_summation.py:421-425 | Fuel + zero-fuel = gross; fuel ≥ 0 if and only if gross ≥ zero-fuel; the partials are +1 and -1. |
| `MassSummation.Subsystems` | aviary/subsystems/mass/flops_based/mass_summation.py:18-68 | The components setup adds, in order, for each alt_mass value. AltMassSelection, OutputsUnique and WiringInOrder state its properties. |
| `MassSummation.AltMassSelection` | aviary/subsystems/mass/flops_based/mass_summation.py:30-57 | With alt_mass, the group holds AltSystemsEquipMassBase, AltSystemsEquipMass and AltEmptyMass and neither standard formula; without it, the reverse. |
| `MassSummation.OutputsUnique` | aviary/subsystems/mass/flops_based/mass_summation.py:18-68 | No two subsystems of the group write the same variable, so exactly one empty-mass formula is active. |
| `MassSummation.WiringInOrder` | aviary/subsystems/mass/flops_based/mass_summation.py:22-68 | No subsystem reads a variable that it or a later subsystem writes: setup order is a valid evaluation order. |
| `MassSummation.InputsBelow` | aviary/subsystems/mass/flops_based/mass_summation.py:78-425 | Every component reads only masses written lower down the roll-up than its own output. |
| `MassSummation.LevelsInOrder` | aviary/subsystems/mass/flops_based/mass_summation.py:22-68 | setup adds the subsystems in order of how far down the roll-up their outputs are. |
| `MassSummation.Step` | aviary/subsystems/mass/flops_based/mass_summation.py:103-425 | Running one component writes its compute value to its output variable and nothing else. |
| `MassSummation.Run` | aviary/subsystems/mass/flops_based/mass_summation.py:18-68 | The group runs its subsystems in setup order, each reading the namespace the earlier ones left. RollUpConsistent states the result. |
| `MassSummation.StandardHead` | aviary/subsystems/mass/flops_based/mass_summation.py:22-48 | After structure, propulsion, systems and margin have run, gross mass is untouched. The other conjunct, that the standard empty formula is the sum of those four masses, is the EmptyMass formula itself and holds for any namespace; the lemma states it in this form for RollUpConsistent. |
| `MassSummation.AltHead` | aviary/subsystems/mass/flops_based/mass_summation.py:22-48 | In alt_mass mode, after the alternate systems chain, the alternate empty formula equals structure + propulsion + systems (with markup) + margin. |
| `MassSummation.RollUpTail` | aviary/subsystems/mass/flops_based/mass_summation.py:50-68 | After the empty, operating, zero-fuel and fuel steps, empty mass is the chosen formula's value. Gross and the upstream masses are unchanged, fuel + zero-fuel = gross, and zero-fuel = operating + passengers + baggage + cargo. |
| `MassSummation.RollUpConsistent` | aviary/subsystems/mass/flops_based/mass_summation.py:18-68 | After the whole group runs, in either mode: gross is unchanged, fuel + zero-fuel = gross, empty = structure + propulsion + systems + margin, and zero-fuel = operating + payload. |
| `DocTape.Decorate` | aviary/utils/doctape.py:55-56 | Element i becomes `` `s` `` with add_accents and stays as it is otherwise; the length is kept. |
| `DocTape.GramaticalList` | aviary/utils/doctape.py:55-62 | An empty list raises IndexError. One element is returned as is. Two are joined as "a cc b" with no comma. Three or more are joined with ", ", with "cc " before the last. |
| `DocTape.ListCommas` | aviary/utils/doctape.py:57-62 | With comma-free elements and conjunction, the result has no comma for one or two elements, and exactly n-1 commas for n ≥ 3 elements. |
| `DocTape.CheckValue` | aviary/utils/doctape.py:140-145 | As written. Without an array operand: passes if and only if the operands are equal (primitives by value, other objects by identity), and otherwise raises error_type with the "is not equal to" or "is not" message. With an array operand, `!=` is elementwise: two operands of two or more entries always raise ValueError, even when equal. Two one-entry operands compare as scalars and raise error_type when they differ. |
| `DocTape.CheckValueIntended` | aviary/utils/doctape.py:140-145 | The intended check: passes if and only if the operands are equal, arrays included, and otherwise raises error_type with the message for its kind. |
| `DocTape.CheckValueAgreesWithoutArrays` | aviary/utils/doctape.py:140-145 | Without an array operand, the code as written and the intended check give the same outcome. |
| `DocTape.EqualArraysRaise` | aviary/utils/doctape.py:140-142 | For an array of two or more entries compared with itself, the code raises ValueError where the intended check passes. |
| `DocTape.FirstMissing` | aviary/utils/doctape.py:172-174 | Index of the first expected value absent from actual_values: every earlier one is present. |
| `DocTape.CheckContains` | aviary/utils/doctape.py:169-174 | Passes if and only if every expected value (a single value is wrapped in a list) is in actual_values. Otherwise it raises error_type naming the first missing value. |
| `DocTape.Available` | aviary/utils/doctape.py:208-210 | The signature's (name, default) pairs, in order, without the ignored names. |
| `DocTape.Items` | aviary/utils/doctape.py:205-207 | The names (with defaults for a dict) that the non-exact check visits. A single string is one name. |
| `DocTape.FirstFault` | aviary/utils/doctape.py:217-222 | Index of the first expected argument that is missing or whose default differs; all earlier ones are fine. |
| `DocTape.ExactCheck` | aviary/utils/doctape.py:211-215 | Exact mode passes if and only if the dicts are equal (dict expected) or the sorted names are equal (list expected, as multisets). Otherwise it raises ValueError through check_value. |
| `DocTape.CheckEachArg` | aviary/utils/doctape.py:216-222 | Passes if and only if no expected argument is faulty. Otherwise it raises error_type for the first one: "not a valid argument" or "the default value of … is …". |
| `DocTape.CheckArgs` | aviary/utils/doctape.py:205-222 | A string forces non-exact mode. Exact mode is ExactCheck on the non-ignored signature. Otherwise the per-argument check reports the first fault. |
| `DocTape.FirstWithValue` | aviary/utils/doctape.py:282-284 | Index of the first attribute whose value equals the target; no earlier one matches. |
| `DocTape.GetAttributeName` | aviary/utils/doctape.py:282-287 | Returns the name of the first attribute, in order, whose value equals the target. Fails if and only if no attribute has that value. It raises error_type when the object has a `__name__`, and AttributeError otherwise, because the message reads `__name__`. |
| `DocTape.AppendNew` | aviary/utils/doctape.py:321-322 | Appends each key of the list, in order, unless the accumulator already holds it. AppendNewContents states its properties. |
| `DocTape.Paths` | aviary/utils/doctape.py:290-329 | The keys get_all_keys records from a node, in pre-order, labelled according to track_layers. GetAllKeys proves the method equal to it. |
| `DocTape.AppendNewContents` | aviary/utils/doctape.py:321-322 | Appending only unseen keys keeps what was collected, in place. The result holds exactly the old and new keys and stays free of duplicates. |
| `DocTape.GetAllKeys` | aviary/utils/doctape.py:290-329 | The keys collected equal the accumulator followed by every not-yet-seen (labelled) key in pre-order. It descends into a nested dict even under a key already recorded. |
| `DocTape.UntrackedPathsAreKeys` | aviary/utils/doctape.py:321-328 | Without tracking, the visited keys are exactly the keys found at any depth. |
| `DocTape.UntrackedKeys` | aviary/utils/doctape.py:290-293 | Without tracking, get_all_keys returns each key found at any depth exactly once, and nothing else. |
| `DocTape.SplitDots` | aviary/utils/doctape.py:349 | `split('.')` yields at least one piece, and no piece contains a dot. |
| `DocTape.SplitJoin` | aviary/utils/doctape.py:349-350 | Splitting the dot-join of dot-free keys gives back those keys. |
| `DocTape.JoinSplit` | aviary/utils/doctape.py:349-350 | Dot-joining the pieces of a split gives back the string. |
| `DocTape.Lookup` | aviary/utils/doctape.py:349-351 | Indexes the nested dicts by each key in turn. It fails with KeyError at a missing key, and with a not-subscriptable error (TypeError) at a non-dict value. GetValue proves the method equal to it. |
| `DocTape.LookupStopsAtMissingKey` | aviary/utils/doctape.py:349-351 | get_value raises KeyError at the first key missing from the dict reached so far. |
| `DocTape.GetValue` | aviary/utils/doctape.py:349-351 | The loop returns exactly the lookup of the split key: the value, or the error at the first missing key or non-dict value. |
| `DocTape.TrackedKeysResolve` | aviary/utils/doctape.py:315-328 | With track_layers=True, no dots in keys and no empty top-level key, get_value succeeds on every returned path. |
| `DocTape.RootTracksAsIntended` | aviary/utils/doctape.py:315-320 | With no empty top-level key, tracking from the root labels keys exactly as the intended tracking does. |
| `DocTape.LayerTracksAsIntended` | aviary/utils/doctape.py:317-325 | Under a non-empty layer path, keys are prefixed with "path." at every depth, as intended. |
| `DocTape.TrackedPathsResolveFrom` | aviary/utils/doctape.py:324-328 | Every path the intended tracking records under a node that the lookup reaches resolves with get_value. |
| `DocTape.IntendedPathsResolve` | aviary/utils/doctape.py:315-328 | With the intended tracking and dot-free keys, get_value succeeds on every returned path, including under an empty key. |
| `DocTape.EmptyTopKeyLosesTracking` | aviary/utils/doctape.py:316-320 | For {"": {"x": 1}} the code returns ["", "x"] and get_value("x") raises KeyError. The intended tracking returns ["", ".x"], and ".x" resolves to 1. |
| `FliTables.Rank` | aviary/utils/FLI_tables_output.py:49-50 | Position of each output in the visiting order of output_names. |
| `FliTables.RankOfName` | aviary/utils/FLI_tables_output.py:49-50 | Every listed output appears once: its rank is its position. |
| `FliTables.PhaseIndex` | aviary/utils/FLI_tables_output.py:97 | `phase_names.index(name)` when the name is a phase (its first occurrence), else the sentinel 1000. |
| `FliTables.AddInPlace` | aviary/utils/FLI_tables_output.py:70 | `+=` on arrays raises ValueError exactly when the operand has neither the same length nor length one; otherwise the length is kept. |
| `FliTables.AddInPlaceValues` | aviary/utils/FLI_tables_output.py:70 | Equal lengths add entrywise; a length-one operand is broadcast to every entry. |
| `FliTables.AddScalarValues` | aviary/utils/FLI_tables_output.py:68 | Adding the thrust incidence adds it to every entry. |
| `FliTables.FullValues` | aviary/utils/FLI_tables_output.py:91 | `np.full`/`np.ones`/`np.zeros`: every entry is the fill value. |
| `FliTables.Filled` | aviary/utils/FLI_tables_output.py:65-129 | The series used for an output: the reported one, or the fill the code computes, or its KeyError/ValueError. Gear labels are the only non-numeric series. The fill lemmas below state its cases. |
| `FliTables.FillOnlyWhenAbsent` | aviary/utils/FLI_tables_output.py:65 | A reported series is used as it is and never overwritten. |
| `FliTables.DefaultFill` | aviary/utils/FLI_tables_output.py:87-129 | Missing throttle is ones, and other missing outputs (gear and flap aside) are zeros. Each fill is as long as the phase's time series. Without a time series, KeyError. |
| `FliTables.GearFill` | aviary/utils/FLI_tables_output.py:95-107 | Gear is "4HUP  " at or after the gear-up phase and "4HDOWN" before it. Without such a phase, the sentinel 1000 makes it down in the first thousand phases. |
| `FliTables.FlapFill` | aviary/utils/FLI_tables_output.py:109-121 | Flap is 0 at or after the flaps-up phase and angle_flaps before it, with the same sentinel. |
| `FliTables.ThetaFill` | aviary/utils/FLI_tables_output.py:67-85 | thetaWB = alpha + angle_thrust; thetaB = alpha + angle_thrust, plus flight_path_angle when that series exists. |
| `FliTables.ThetaNeedsAlpha` | aviary/utils/FLI_tables_output.py:67-79 | A missing body angle without an alpha series raises KeyError. |
| `FliTables.Rjust` | aviary/utils/FLI_tables_output.py:134 | `str.rjust(w)`: spaces on the left up to width w. |
| `FliTables.RjustPads` | aviary/utils/FLI_tables_output.py:134 | `rjust(w)` gives max(w, len) characters: spaces, then the text. |
| `FliTables.Digits` | aviary/utils/FLI_tables_output.py:132-192 | The formatted digits of one value. A plain column gives `f'{n:.Nf}'`, a negated column `f'{-n:.Nf}'` (the sign kept for zero), and the throttle `f'{n*0.9:.3f}'`. |
| `FliTables.Cell` | aviary/utils/FLI_tables_output.py:132-192 | One cell: the digits, the suffix, then right-justified to the column width. |
| `FliTables.CellJustified` | aviary/utils/FLI_tables_output.py:132-192 | Each cell is the formatted value (negated or derated as the column says) plus its suffix, right-justified to the column width; the suffix ends the cell. |
| `FliTables.PathField` | aviary/utils/FLI_tables_output.py:132-162 | Exactly the first ten outputs feed FLIPATH, each into the column of its rank. |
| `FliTables.XxxField` | aviary/utils/FLI_tables_output.py:165-192 | Time and the outputs from mach on (gear aside) feed the FLIXXX column of their rank. |
| `FliTables.ColumnTransforms` | aviary/utils/FLI_tables_output.py:143-173 | Altitude and thetaWB are printed through the negated format (`f'{-n:.1f}'`, `f'{-n:.2f}'`), so a zero prints as "-0.0"/"-0.00". Throttle is multiplied by 0.9 before formatting. Every other column formats the value as it is, to its own digits. |
| `FliTables.DollarColumns` | aviary/utils/FLI_tables_output.py:161-191 | "$" is appended to phiWB (FLIPATH) and abs_humidity (FLIXXX) only. |
| `FliTables.CellsAt` | aviary/utils/FLI_tables_output.py:132-135 | Entry i of a column's new cells is the cell of value i. |
| `FliTables.ExtendAt` | aviary/utils/FLI_tables_output.py:135 | `.extend` on one column list: that column gains the cells at its end, and the others are unchanged. |
| `FliTables.Record` | aviary/utils/FLI_tables_output.py:131-192 | The cells one series adds to the tables; both tables keep their number of columns. RecordContents states what they are. |
| `FliTables.RecordContents` | aviary/utils/FLI_tables_output.py:131-192 | A series appends its cells to its FLIPATH and FLIXXX columns (gear labels unformatted) and leaves every other column as it was. |
| `FliTables.RecordGrows` | aviary/utils/FLI_tables_output.py:164-192 | Only the columns an output feeds grow, each by the series' length. |
| `FliTables.RunPhase` | aviary/utils/FLI_tables_output.py:62-192 | The outputs of one phase, from a given one on, in output_names order, each recorded in turn, or the first error. |
| `FliTables.RunAll` | aviary/utils/FLI_tables_output.py:61-192 | The phases, from a given one on, in mission order, or the first error. |
| `FliTables.RunPhaseFails` | aviary/utils/FLI_tables_output.py:62-130 | A phase fails if and only if the series of one of its outputs cannot be had. |
| `FliTables.PhaseFailsExactly` | aviary/utils/FLI_tables_output.py:62-130 | A whole phase fails if and only if one of its outputs cannot be had. |
| `FliTables.FailingPhase` | aviary/utils/FLI_tables_output.py:61-130 | A failing run names a phase, at or after the current one, that fails. |
| `FliTables.FailureAt` | aviary/utils/FLI_tables_output.py:61-130 | A phase that fails makes the run fail from every earlier phase. |
| `FliTables.RunAllFails` | aviary/utils/FLI_tables_output.py:61-130 | The tables fail if and only if some phase fails. |
| `FliTables.ExtendColumn` | aviary/utils/FLI_tables_output.py:132-135 | The node loop appends the cell of every value, in order. |
| `FliTables.ExtendGear` | aviary/utils/FLI_tables_output.py:184-186 | The node loop appends the gear entries unformatted. |
| `FliTables.NotYetAdded` | aviary/utils/FLI_tables_output.py:61-65 | An output visited later in the phase is in the dictionary only if it was reported. |
| `FliTables.TimeNeverAdded` | aviary/utils/FLI_tables_output.py:87-88 | The time series is never filled: when the dictionary has it, it was reported. |
| `FliTables.DictAgreesAdd` | aviary/utils/FLI_tables_output.py:72-129 | Inserting the filled series keeps the dictionary in agreement with the reported series. |
| `FliTables.FillMissing` | aviary/utils/FLI_tables_output.py:67-129 | The fill branch computes exactly the specified fill, or its KeyError/ValueError, reading the mutated dictionary. |
| `FliTables.Fetch` | aviary/utils/FLI_tables_output.py:65-129 | Returns the series used for an output and inserts it when it is new, keeping every entry already there. |
| `FliTables.AddSeries` | aviary/utils/FLI_tables_output.py:131-192 | The two node loops append exactly the series' cells to both tables. |
| `FliTables.VisitOutput` | aviary/utils/FLI_tables_output.py:62-192 | One pass of the output loop is one step of the specification, or its error. |
| `FliTables.VisitPhase` | aviary/utils/FLI_tables_output.py:62-192 | The output loop of a phase computes exactly the specified tables, or the first error. |
| `FliTables.BuildTables` | aviary/utils/FLI_tables_output.py:59-192 | The phase loop computes exactly the specified tables, or the first error. |
| `FliTables.MaxLen` | aviary/utils/FLI_tables_output.py:195-196 | The frame's row count is the length of the longest column. |
| `FliTables.Lines` | aviary/utils/FLI_tables_output.py:195-202 | One line per row: the entries of row i joined by single spaces, then a newline. |
| `FliTables.RowCount` | aviary/utils/FLI_tables_output.py:195-196 | The loop finds the longest column. |
| `FliTables.CellAt` | aviary/utils/FLI_tables_output.py:195-199 | Entry i of a column, or "None" past its end: pandas pads a shorter column with None. |
| `FliTables.RowText` | aviary/utils/FLI_tables_output.py:198-199 | The loop builds row i: entry i of every column, a short column printing "None". |
| `FliTables.WriteTable` | aviary/utils/FLI_tables_output.py:197-202 | The written lines are exactly the specified lines. |
| `FliTables.AlignedRows` | aviary/utils/FLI_tables_output.py:195-202 | With equal-length columns, there are that many lines, and line i holds entry i of every column with no padding. |
| `FliTables.RegularFill` | aviary/utils/FLI_tables_output.py:87-129 | In a regular phase every output is available, one value per time point. |
| `FliTables.RegularPhase` | aviary/utils/FLI_tables_output.py:61-192 | A regular phase lengthens every column of both tables by its number of time points. |
| `FliTables.RegularRun` | aviary/utils/FLI_tables_output.py:59-192 | With regular phases, every column ends with as many entries as there are time points, over the phases in order. |
| `FliTables.PathPart` | aviary/utils/FLI_tables_output.py:131-162 | The cells one phase adds to a FLIPATH column: the formatted series of that column's output. |
| `FliTables.XxxPart` | aviary/utils/FLI_tables_output.py:164-192 | The cells one phase adds to a FLIXXX column: the formatted series of its output, or the gear entries as they are. |
| `FliTables.PathRun` | aviary/utils/FLI_tables_output.py:61-162 | A FLIPATH column over the phases from a given one on: each phase's part, in mission order. |
| `FliTables.XxxRun` | aviary/utils/FLI_tables_output.py:61-192 | A FLIXXX column over the phases from a given one on: each phase's part, in mission order. |
| `FliTables.RecordPart` | aviary/utils/FLI_tables_output.py:131-192 | The output at position k adds its part to the columns it feeds and leaves every other column as it was. |
| `FliTables.PhasePathColumns` | aviary/utils/FLI_tables_output.py:62-162 | Visiting a phase's outputs from position k on appends to FLIPATH column c its part exactly when c's output is still to come. |
| `FliTables.PhaseXxxColumns` | aviary/utils/FLI_tables_output.py:62-192 | Visiting a phase's outputs from position k on appends to FLIXXX column c its part exactly when c's output is still to come. |
| `FliTables.RunPathColumns` | aviary/utils/FLI_tables_output.py:61-162 | A successful run from phase i on leaves FLIPATH column c as it was, followed by each later phase's part in mission order. |
| `FliTables.RunXxxColumns` | aviary/utils/FLI_tables_output.py:61-192 | A successful run from phase i on leaves FLIXXX column c as it was, followed by each later phase's part in mission order. |
| `FliTables.TablesInPhaseOrder` | aviary/utils/FLI_tables_output.py:59-192 | When timeseries_output succeeds, every column of both tables is the concatenation, in mission order, of what each phase gives it. |
| `FliTables.OneLinePerTimePoint` | aviary/utils/FLI_tables_output.py:59-202 | With regular phases, FLIPATH has 10 columns and FLIXXX has 9, all as long as the mission has time points. Both files get one line per time point, and line i of each file holds entry i of each of its columns, space-joined. |

## Left out

- The physics files (the equations of motion, the mission ODE, the standard atmosphere, the motor map) and the tests only wire OpenMDAO components whose code is not part of this model.
- EmptyMassMargin is added by `MassSummation.setup`, but its formula is in `empty_margin.py`, which is not part of this model. Its output, the empty mass margin, is taken as an input of the roll-up.
- The OpenMDAO machinery (options, `add_aviary_input`/`add_aviary_output` metadata, units, `declare_partials` as an API) is left out. The masses are reals, not IEEE doubles, so round-off is not modelled.
- In DocTAPE: `get_previous_line` and `get_variable_name` (stack-frame introspection), `run_command_no_file_error` (subprocess), and `glue_variable`/`glue_keys` (notebook glue) are left out. `expected_error` has no behaviour.
- `check_args` receives the function signature as its ordered (name, default) pairs instead of calling `inspect.signature`.
- Error messages are not rendered as text. A failure carries the exception class and the values the message names.
- `check_value` on arbitrary Python values is modelled with operands that are values of the listed types (compared with `!=`), one-dimensional numpy arrays (compared entrywise), or other objects (compared by identity).
- `DocTape.CheckValue`: an entrywise comparison with no entries passes, as NumPy before 2.2 treats an empty truth value as false. NumPy 2.2 raises ValueError there instead.
- `DocTape.CheckValue`: a list or tuple compared with an array is taken as one value broadcast against the array, not converted entry by entry; arrays of more than one dimension are not modelled.
- `DocTape.CheckContains`: `in` is modelled as membership in a sequence of values. For a string, Python's `in` tests substrings, and for a dict it tests keys; neither case is modelled.
- `DocTape.GetAttributeName`: the object's `__dict__` is given as its ordered (name, value) pairs, and its `__name__` as an optional string (absent for an instance).
- `get_all_keys` mutates the shared `all_keys` list and also returns it. The model threads it as a value, so aliasing between caller and callee is not modelled.
- In the FLI tables, reading the problem's outputs (`list_outputs`, `flatten`) is left out. The reported series come in as a map from (phase, output) to a sequence of reals.
- Fixed-point formatting (`f'{n:.2f}'`, `f'{-n:.2f}'` and the like) and `str()` of a number are left abstract as functions supplied by the caller. Only which of them a column uses, their arguments (derate factor, digits) and the justification around them are modelled.
- `FliTables.Digits`: the values are reals, not IEEE doubles, so a reported -0.0 is the same value as 0.0. The "-0.00" that `f'{n:.2f}'` prints for it is not modelled. The "-0.0" that the negated columns print for a zero is modelled, through the separate negated format.
- The model assumes pandas prints the missing cell of a shorter column as "None". With float-only columns pandas would print "nan"; that text is not modelled.
- The files are not written: the model produces the lines of each file.
- The numeric gear column (a reported gear series) is printed through the abstract `str()`.
- `FliTables.PhaseIndex`: the sentinel 1000 is modelled as written. A mission with more than 1000 phases would treat phases from index 1000 on as gear-up/flaps-up; GearFill and FlapFill state this.

## Findings

| source | as written | input that shows it | evidently intended | confidence | as-written member | corrected member |
|---|---|---|---|---|---|---|
| aviary/utils/doctape.py:315-328 | `current_layer = key` is passed down as track_layers. An empty top-level key makes that value falsy, so the nested keys are recorded without any prefix. | `get_all_keys({"": {"x": 1}}, track_layers=True)` returns `["", "x"]`, and `get_value(d, "x")` raises KeyError | nested keys always carry the parent's path (`".x"`), which get_value resolves | not executed | `DocTape.EmptyTopKeyLosesTracking` | `DocTape.IntendedPathsResolve` |
| aviary/utils/doctape.py:140-142 | `np.ndarray` is in the list of types compared with `!=`, and `if val1 != val2` takes the truth value of the entrywise result | `check_value(np.array([1.0, 2.0]), np.array([1.0, 2.0]))` raises ValueError (the truth value of an array is ambiguous) instead of passing, and error_type is never raised for such arrays | arrays compare as whole values: pass when equal, raise error_type when not | not executed | `DocTape.EqualArraysRaise` | `DocTape.CheckValueIntended` |
