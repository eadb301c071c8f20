# Separation explorer: the recomputation engine, in Dafny

This project models the logic core of the separation explorer dashboard. The dashboard plots gas-separation metrics of porous materials for a chosen pair of gases.

- **Curve sampler** (`sampler.dfy`): reads pressure-indexed curves safely. A curve entry k is the value at (k + 1) * 0.5 bar, and any access past the end of a curve yields the missing value. numpy's NaN is the explicit `Missing` of `Num` (`numeric.dfy`), and `+` and `-` propagate it as NaN arithmetic does.
- **Metric projector** (`projector.dfy`): `gen_data` builds the plotted table for the gas pair (g1, g2) and the pressure indices lp, p1 and p2. It has three families of columns:
  - K: Henry's constants.
  - L: the loading at lp.
  - W: the working capacity `L[p2] - L[p1]`.
  Each family also has significance columns, and the W significance is a sum of counts. `patch_data_l` and `patch_data_w` recompute the L or the W columns of every row.
- **Error-bar builder** (`errorbars.dfy`): `gen_error` draws an error cross through the selected point of each plot. `patch_error_l` and `patch_error_wc` are the partial versions.
- **Controller** (`controller.dfy`): the `Dashboard` class. It holds the gas pair, the pressure indices, the table, the error crosses and the selection, and its callbacks update them when a widget changes.
- **Dataset flattening** (`loader.dfy`): `load_data` in main.py turns the nested JSON dict material -> gas -> field into material -> (gas, field). Python dicts are modelled as their entries in insertion order. A dict comprehension is modelled as successive `d[k] = v` assignments.

The class invariant `Dashboard.Valid()` says that the plotted table is always `gen_data` for the current parameters. The slider callbacks keep this invariant only because patching one family is the same as a full rebuild (`PatchLIsRebuild`, `PatchWIsRebuild`).

The model follows the code, including these points:

- Every dataset row is plotted. No row is filtered out for lacking isotherms.
- A selection of several points clears the error crosses (src/dashboard.py:486-491). The crosses are not drawn for every selected point.
- `wc_callback` with a selection of any size rebuilds the crosses for the first selected index (src/dashboard.py:214-216).
- With a point selected, `pressure_callback` calls the index branch of `patch_error_l`. That branch reads `L_x` before assigning it (src/dashboard.py:398), so it raises every time. `PressureCallback` therefore ends in `Raised(...)` whenever the selection is non-empty, after it has updated lp and the table and before it touches the crosses.
- Nothing stops g1 and g2 from being the same gas.

## Model

| member | source | states |
|---|---|---|
| `Numeric.Sub` | src/dashboard.py:236 | numpy subtraction: the result is NaN exactly when either operand is, and otherwise the exact difference |
| `Numeric.Add` | src/dashboard.py:243 | numpy addition, as in `x[p1] + x[p2]` and the n_K, n_L and n_W sums at lines 253, 260 and 268: NaN exactly when either operand is, otherwise the exact sum |
| `Sampler.Sample` | src/dashboard.py:224-229 | `get_loading`, and `get_err` at lines 328-333: the entry at the index when it is within the curve, Missing otherwise (an empty curve included) |
| `Sampler.WorkingCapacity` | src/dashboard.py:231-236 | `get_wc` equals the NaN-propagating difference of the samples at p2 and p1, and is defined only when both indices are within the curve |
| `Sampler.WcSignificance` | src/dashboard.py:238-243 | `get_nwc` has the same guard but equals the sum of the samples at p1 and p2 |
| `Sampler.SignificanceIsNotCapacity` | src/dashboard.py:231-243 | on one count curve where both are defined, the sum at p1 and p2 exceeds the difference by twice the count at p1, so the two agree only when that count is 0 |
| `Projector.GenData` | src/dashboard.py:245-270 | every column has one entry per dataset row; labels are the dataset's index in order, with no row dropped; n_K, n_L and n_W are the Missing-propagating sums of the gas-1 and gas-2 significance columns |
| `Projector.GenDataRow` | src/dashboard.py:248-269 | row i holds the gas records' Henry constants and counts, the loading at lp or Missing past the curve's end, L[p2] - L[p1] or Missing, and the count sum at p1 and p2 or Missing |
| `Projector.PatchDataL` | src/dashboard.py:272-288 | the five replacement loading columns equal the L columns `gen_data` builds for the same parameters |
| `Projector.PatchDataW` | src/dashboard.py:290-313 | the five replacement working-capacity columns equal the W columns `gen_data` builds for the same parameters |
| `Projector.PatchLIsRebuild` | src/dashboard.py:200-202 | patching the L columns for a new lp gives exactly the full table for that lp; labels, row count, K and W are unchanged |
| `Projector.PatchWIsRebuild` | src/dashboard.py:211-213 | patching the W columns for new p1 and p2 gives exactly the full table for them; labels, row count, K and L are unchanged |
| `ErrorBars.NoErrors` | src/dashboard.py:320-325 | `gen_error()` holds the twelve segment columns, all empty, and no labels column |
| `ErrorBars.CrossAt` | src/dashboard.py:363-376 | four columns of two entries; segment 0 is horizontal and segment 1 vertical, both through the centre; with defined values each segment's midpoint is the centre and its length is twice the error; a missing error makes its segment's ends missing |
| `ErrorBars.ZeroCross` | src/dashboard.py:344-352 | the fallback cross for a missing centre: every entry is 0 |
| `ErrorBars.Loc` | src/dashboard.py:342-343 | `self._data.loc[mat]` finds the first row with that label, and finds none exactly when no row has it |
| `ErrorBars.LocOfUniqueName` | src/dashboard.py:335-343 | a label that occurs once is found at its own row |
| `ErrorBars.GenError` | src/dashboard.py:318-377 | IndexError past the table and KeyError for an unknown label, otherwise: labels `[mat, mat]`; the K cross uses the table's K centre and `eKh` with no fallback; L and W collapse to the zero cross when either centre coordinate is missing, else the L error is `eL[lp]` and the W error is `eL[p1] + eL[p2]` |
| `ErrorBars.GenErrorOnTable` | src/dashboard.py:335-357 | on the table `gen_data` built, every row in range has its crosses; with unique labels they are drawn through that row's plotted point with that row's errors |
| `ErrorBars.PatchErrorL` | src/dashboard.py:379-410 | succeeds exactly when no index is given, and then empties the four L columns; with an index it always fails |
| `ErrorBars.PatchErrorWc` | src/dashboard.py:412-445 | with no index it empties the four W columns; with an index for which `gen_error` succeeds it equals that result's W cross |
| `Controller.SliderIndex` | src/dashboard.py:201 | `int(v * 2) - 1`, also at line 212: the index i with (i + 1) * 0.5 <= v < (i + 2) * 0.5, the last curve point at or below v; never below -1 |
| `Controller.SliderIndexOnGrid` | src/dashboard.py:99-101 | `int(v*2)-1` maps slider position k/2 bar (k in 1..40) to index k - 1, in 0..39 |
| `Controller.SliderIndexInRange` | src/dashboard.py:103-106 | any slider value in 0.5..20 gives an index in 0..39 |
| `Controller.InitialIndicesMatchSliders` | src/dashboard.py:59-62 | the initial lp = 0, p1 = 0, p2 = 9 are the indices of the initial slider values 0.5 and (0.5, 5) |
| `Controller.Dashboard.constructor` | src/dashboard.py:44-66 | starts with the first two gases, the initial indices, the full table, no crosses and no selection |
| `Controller.Dashboard.SelectionCallback` | src/dashboard.py:475-491 | one index builds that row's crosses, and fails only when the index is past the table; zero or several indices clear them |
| `Controller.Dashboard.NewGasCallback` | src/dashboard.py:182-189 | empties a non-empty selection, which clears the crosses, and rebuilds the table for the new gas pair |
| `Controller.Dashboard.Gas1Callback` | src/dashboard.py:75-77 | sets gas 1 and runs the gas change; the other parameters are kept |
| `Controller.Dashboard.Gas2Callback` | src/dashboard.py:79-81 | sets gas 2 and runs the gas change; the other parameters are kept |
| `Controller.Dashboard.PressureCallback` | src/dashboard.py:200-206 | sets lp from the slider and patches only the L columns, keeping the table equal to the full rebuild; raises exactly when a point is selected, leaving the crosses unchanged |
| `Controller.Dashboard.WcCallback` | src/dashboard.py:211-217 | sets p1 and p2 from the slider and patches only the W columns, keeping the table equal to the full rebuild; with a selection it rebuilds the crosses for the first selected index |
| `Loader.Get` | main.py:22-26 | the dict lookup `d[k]` behind `data_new[a][(g, f)] == data[a][g][f]`: nothing exactly when k is not a key, otherwise a value stored under k |
| `Loader.PutGet` | main.py:23-24 | after `d[k] = v`, looking up k gives v and every other key keeps the value it had |
| `Loader.Put` | main.py:23-24 | `d[k] = v` in a comprehension: a new key is appended with its value; an existing key keeps its place and the key order is unchanged; the values it then holds are stated by `PutGet` |
| `Loader.Build` | main.py:22-26 | a dict comprehension's keys are exactly the generated keys, and when no generated key repeats the dict is the generated pairs in order |
| `Loader.BuildOntoFresh` | main.py:22-26 | when the generated keys never repeat, each assignment of a dict comprehension appends, so the dict is the generated pairs in order |
| `Loader.PairsUnique` | main.py:23-24 | the (gas, field) pairs generated for one material are distinct |
| `Loader.PairsCount` | main.py:23-24 | there is one generated pair per field of each gas |
| `Loader.PairsGet` | main.py:23-24 | looking up (g, f) in the generated pairs finds `b[g][f]`, and finds nothing when g or f is absent |
| `Loader.FlattenMaterial` | main.py:23-24 | on a nested dict with unique keys, a material's flattened dict is the generated pairs with no key overwritten; its size is the sum over its gases of their field counts; looking up (g, f) gives `b[g][f]`, and nothing where g or f is absent |
| `Loader.Flatten` | main.py:22-28 | the keys of `data_new`, which become the DataFrame's row index, are the input's material keys; with unique material keys they keep their insertion order, each once, and each maps to its material's flattened dict |
| `Loader.FlattenPreservesValues` | main.py:22-26 | `data_new[a][(g, f)] == data[a][g][f]` for every material, gas and field of the input |
| `Loader.FlattenInnerKeys` | main.py:23-24 | (g, f) is a key of a material's flattened dict exactly when g is one of its gases and f a field of that gas |

## Left out

- Rendering is not modelled: figures, glyphs, colour maps, colour bars, hover tools, axis labels (`top_graph`, `top_graph_labels`, `gen_cmap`, `graph_link`) and the layout. They are presentation only.
- Widget event dispatch is not modelled (`on_change` registration). The callbacks are methods that a caller invokes. `SelectionCallback` first records the new indices, as the selection change that fires it does. The selection change that `new_gas_callback` makes would fire `selection_callback([])`, so `NewGasCallback` applies that callback's effect directly.
- The material details text is not modelled: `gen_details` and every `self.details.text` update. It is Jinja template rendering. The template data it builds reads `L_y1` for `gas2_ehk` at src/dashboard.py:468, where `K_y1` looks intended. That is not modelled either.
- The process glue of main.py is not modelled: file I/O, `json.load`, `curdoc`, and the `Dashboard(load_data(), ...)` call at main.py:33, which does not match the `(doc, data, **templates)` signature.
- `pd.DataFrame.from_dict` is not modelled. The dashboard's typed `Dataset` stands for its result: one row per material key, in the order `Flatten` promises. JSON values are not decoded into typed columns. A gas column missing from the data (a KeyError) is not modelled. A material without data for a gas (a NaN cell in a list column, on which `len` raises) is not modelled either: every row has a record for every gas.
- The `iso` field is not part of `GasRecord`. Only `gen_details` reads it.
- `Loc` takes the first row with the label. pandas returns several rows for a repeated label. The flattened dict never has repeated material keys (`Flatten`), so this case does not arise from `load_data`.
- Floating point is not modelled. Values are exact reals, NaN is `Missing`, and infinities do not occur.
- Slider values below 0.5 bar are not modelled (`requires v >= 0.5`). The sliders cannot produce them. Through Python's negative indexing they would read the last entry of a curve.
- Nothing here models the isotherm loading pipeline, background fetches and stale-result cancellation, the selectivity ranking table, the isotherm row filter or error crosses for several selected points. None of them has code in src/dashboard.py or main.py.
