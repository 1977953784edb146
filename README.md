# LIFEsim options store and stellar-leakage discrete logic, in Dafny

This project models two parts of LIFEsim, a simulator of the noise budget of a
space-based nulling interferometer (the LIFE array).

The first part is the **options store** (`lifesim/util/options.py`). The
`Options` object holds three dictionaries with fixed keys. `array` holds the
instrument options (aperture diameter, quantum efficiency, throughput,
wavelength band, spectral resolution, baseline and its allowed range, baseline
ratio). `other` holds the simulation options (image size, optimal wavelength,
number of plugins). `models` holds the model choices (local-zodi model,
habitable-zone model).
- A named scenario always overwrites a common block of options. For the three
  recognised scenarios it then sets the diameter and the wavelength band.
- A manual setting applies keyword arguments in order. Each one is written
  into the first dictionary that holds its key. It stops with an error at the
  first unknown key, and the earlier keys stay applied.

The model is a class `Options.Options` with three map-valued fields, methods
that update them in place, and a value-level specification (`Options.Store`,
`Options.Scenario`, `Options.Manual`) that the methods are proved against.

The second part is the **discrete part of the stellar-leakage noise source**
(`lifesim/instrument/pn_star.py`, `PhotonNoiseStar.noise`):
- choosing the target star, either the single-system record or a catalog row;
- checking the transmission-map variant against the four recognised ones;
- deriving the map index from the variant's trailing digit;
- building the circular 0/1 mask of the stellar disk over the pixel grid;
- taking the mask-weighted mean transmission `sum(mask * tm) / sum(mask)`, per
  wavelength bin.

All of these are pure functions with lemmas (module `PnStar`). The whole-grid
sums are in module `Grids`. `Wrappers` holds `Option` and `Result`.

`pn_star.py:74-75` checks the variant itself, before any map is requested;
`PnStar.PlanLeakage` models that order.

## Model

| member | source | states |
|---|---|---|
| Options.Initial | lifesim/util/options.py:43-59 | a fresh store holds exactly the documented keys in each dictionary; numeric defaults are 0 or 0.; model names are the empty string |
| Options.KeySetsDisjoint | lifesim/util/options.py:43-59 | the three key sets have 10, 3 and 2 keys and are pairwise disjoint |
| Options.WellFormedKeys | lifesim/util/options.py:43-59 | in a store with the documented keys, the dictionaries are disjoint and a key is known exactly when it is one of the 15 documented keys |
| Options.Options.constructor | lifesim/util/options.py:40-59 | the new object's dictionaries are the initial store, and the object invariant holds |
| Options.CaseBand | lifesim/util/options.py:88-104 | exactly "baseline", "pessimistic" and "optimistic" are recognised; each gives a positive diameter and a non-empty positive band |
| Options.Scenario | lifesim/util/options.py:73-104 | the value-level model of a scenario, with no contract of its own; the Options.Scenario* lemmas and SetScenario characterise it |
| Options.ScenarioSetsCommon | lifesim/util/options.py:73-86 | whatever the scenario name, the 12 common options take the scenario constants |
| Options.RecognisedScenarios | lifesim/util/options.py:76-101 | the three scenarios set diameter/wl_min/wl_max to 2/4/18.5, 1/6/17 and 3.5/3/20; in each, wl_min < wl_max and bl_min <= baseline <= bl_max |
| Options.UnrecognisedScenario | lifesim/util/options.py:73-104 | for an unrecognised name, diameter, wl_min and wl_max keep their previous values (the common options are still overwritten) |
| Options.ScenarioFrame | lifesim/util/options.py:73-101 | a scenario changes no entry other than the documented ones |
| Options.ScenarioKeepsKeys | lifesim/util/options.py:73-101 | on a store with the documented keys, a scenario adds no key |
| Options.ScenarioIdempotent | lifesim/util/options.py:73-101 | applying the same scenario twice gives the same store as applying it once |
| Options.Options.SetScenario | lifesim/util/options.py:61-104 | the new state is the scenario applied to the old state; the returned warning flag is set exactly for an unrecognised name; the key invariant is kept |
| Options.FirstContaining | lifesim/util/options.py:127-133 | the search returns the first dictionary, in the order array, other, models, that holds the key, or nothing when none holds it |
| Options.FirstContainingIs | lifesim/util/options.py:127-133 | when dictionary j is the first to hold the key, the search returns j |
| Options.SetOption | lifesim/util/options.py:127-133 | one setting fails exactly for a key no dictionary holds; otherwise only that key's entry in the first dictionary holding it changes, and no key set changes |
| Options.Manual | lifesim/util/options.py:123-137 | a manual setting never adds or removes keys; it completes exactly when every given key is known; when it stops, it names a given key that is unknown |
| Options.ManualSetsGivenValues | lifesim/util/options.py:123-133 | for known, distinct keys on disjoint dictionaries, each given key ends with its given value and every other entry is unchanged |
| Options.ManualStopsAtFirstUnknown | lifesim/util/options.py:123-137 | the keys before the first unknown key are applied, and the unknown key and all later keys are not |
| Options.ManualKeepsOtherEntries | lifesim/util/options.py:123-133 | an entry whose key is not among the arguments keeps its value |
| Options.ManualIdempotent | lifesim/util/options.py:123-137 | repeating a manual setting with the same arguments changes nothing further, whether it completed or stopped at an unknown key |
| Options.ManualKeepsWellFormed | lifesim/util/options.py:127-131 | a manual setting keeps every dictionary's documented key set |
| Options.Options.Write | lifesim/util/options.py:131 | writing one entry changes that entry of that dictionary only |
| Options.Options.SetManual | lifesim/util/options.py:106-137 | the loop over the arguments, with its inner search that stops at the first match, leaves the state the manual specification gives and returns the unknown key exactly when that specification stops |
| Options.BaselineThenDiameter | lifesim_demo.py:7-10 | the baseline scenario followed by a diameter of 4 completes with diameter 4, wl_min 4 and wl_max 18.5 |
| PnStar.ILoc | lifesim/instrument/pn_star.py:69-71 | positional lookup succeeds exactly for -n <= index < n and reads the row the index names, counting negative indices from the end; otherwise it is an index error |
| PnStar.Field | lifesim/instrument/pn_star.py:65-67 | a record lookup succeeds exactly for a present key; otherwise it is a key error naming that key |
| PnStar.SelectTarget | lifesim/instrument/pn_star.py:64-71 | with no index, the star is the record's radius_s, distance_s and temp_s, or a key error for the first missing one; with an index, all three come from the same catalog row, or an index error |
| PnStar.NegativeIndexSelectsSameRow | lifesim/instrument/pn_star.py:68-71 | index i and index i - n select the same star |
| PnStar.MapIndex | lifesim/instrument/pn_star.py:91 | for every valid variant the trailing-digit index is in 0..3 and names that variant's position in the variant list |
| PnStar.MapIndexInjective | lifesim/instrument/pn_star.py:62-91 | distinct valid variants get distinct indices; the fixed variant "tm3" gets 2 |
| PnStar.PlanLeakage | lifesim/instrument/pn_star.py:64-91 | within the modelled steps (unit conversion left out), target errors come first; an unrecognised variant then fails before any map is requested; otherwise the request is the one variant and the index is its position |
| PnStar.NoisePlan | lifesim/instrument/pn_star.py:61-91 | with the fixed variant and grid size, the modelled steps fail exactly when the target cannot be read; otherwise they request ["tm3"] and read index 2 on a 50 by 50 grid |
| PnStar.DiskTestsAgree | lifesim/instrument/pn_star.py:93-96 | the real-valued test (x-(n-1)/2)^2 + (y-(n-1)/2)^2 < (n/2)^2 holds exactly when (2x-n+1)^2 + (2y-n+1)^2 < n^2 |
| PnStar.Mask | lifesim/instrument/pn_star.py:93-96 | the mask is n by n and 0/1-valued, and is 1 at row y, column x exactly when (2x-n+1)^2 + (2y-n+1)^2 < n^2 |
| PnStar.InDiskMirror | lifesim/instrument/pn_star.py:95 | the disk test is unchanged by x -> n-1-x, by y -> n-1-y and by swapping x and y |
| PnStar.MaskSymmetric | lifesim/instrument/pn_star.py:93-96 | the mask is symmetric under transposition and under both mirrors |
| PnStar.MaskCountBounds | lifesim/instrument/pn_star.py:96-99 | for every grid size n >= 1, 0 < sum(mask) <= n*n, so the leakage divisor is never zero |
| PnStar.FixedMaskNonEmpty | lifesim/instrument/pn_star.py:61-99 | for the fixed size 50 the mask count lies in 1..2500 |
| PnStar.MaskedMean | lifesim/instrument/pn_star.py:99 | with every transmission value in [0,1], the mask-weighted mean is in [0,1] |
| PnStar.LeakageFractions | lifesim/instrument/pn_star.py:87-99 | reading the peer's answer at the map index fails when that entry is missing, or (a simplification, see Left out) is not a stack of n by n maps; otherwise there is one fraction per wavelength bin, each in [0,1] when that bin's map is |
| Grids.Sum | lifesim/instrument/pn_star.py:96 | the whole-grid sum standing for NumPy's `.sum()`, with no contract of its own; Grids.SumBounds and PnStar.MaskCountBounds characterise it |
| Grids.WeightedSum | lifesim/instrument/pn_star.py:99 | the sum of the entrywise product over the last two axes, with no contract of its own; Grids.WeightedSumBounds characterises it |
| Grids.RowSumBounds | lifesim/instrument/pn_star.py:96 | a 0/1 row sums to between 0 and its length, and to at least each of its entries |
| Grids.SumBounds | lifesim/instrument/pn_star.py:96 | a 0/1 grid sums to between 0 and rows times width, and to at least each of its entries |
| Grids.WeightedRowSumBounds | lifesim/instrument/pn_star.py:99 | with 0/1 weights and values in [0,1], a weighted row sum is between 0 and the weights' sum |
| Grids.WeightedSumBounds | lifesim/instrument/pn_star.py:99 | with a 0/1 weight grid and values in [0,1], the weighted sum is between 0 and the weights' sum |

## Left out

- Unit conversion and the leakage product (`pn_star.py:78-81`, `99-105`): the stellar radius in AU, arcseconds and radians, and the product with the black-body flux and the telescope area. These are floating-point numerics, and `black_body` lives in `lifesim.util.radiation`, which is not part of this model.
- Socket registration and dispatch (`pn_star.py:14-15`, `87-91`): `PhotonNoiseStar.__init__`, which registers the `transmission_star` socket through `add_socket`, `run_socket` and the module bus behind both (`lifesim.core.modules`) are not part of this model. The peer's answer to the map request is an abstract input of `PnStar.LeakageFractions`. Line 91 reads entry 2 of an answer to a one-variant request; whether such an entry exists depends on the peer, so a missing entry is modelled as an index error.
- The data context (`self.data.single`, `self.data.catalog`) is passed in as parameters. The catalog is a sequence of rows with the three columns read here. Other catalog columns are left out.
- `PnStar.LeakageFractions`: the peer's map entry is taken to be a stack of one n by n map per wavelength bin, matching the sum over the last two axes; a two-dimensional map corresponds to a stack of one. Any other shape is reported as `ShapeError`, whereas NumPy broadcasting in `star_px * tm_star` (`pn_star.py:99`) accepts shapes such as (1, n), (n, 1), (bins, 1, n) or a scalar and sums them without error; broadcasting is not modelled.
- `PnStar.PlanLeakage` and `PnStar.NoisePlan`: the unit conversion at `pn_star.py:78-81` is left out, so its `ZeroDivisionError` for a single-system record whose `distance_s` is the Python number 0 (raised at line 79, before the map request) is not modelled; the plan is `Ok` in that case.
- `PnStar.MaskedMean`: the mean is over exact reals, not IEEE doubles, so float rounding of the sums is not modelled. The mask test itself needs no rounding: `PnStar.DiskTestsAgree` shows it equals an integer test.
- `PnStar.MapIndex`: it is defined only for the four valid variants. The source calls `int(map_selection[-1])` only after the variant check, so Python's `int()` on other characters is not modelled.
- Python warnings: the scenario warning is the boolean that `Options.Options.SetScenario` returns.
- Floating-point option constants are stored as the exact decimals the source writes. The source's int/float distinction is kept: for example `spec_res` starts as the integer 0 and a scenario sets it to the float 20.
- Keyword arguments are a sequence of (name, value) pairs in call order. `Options.ManualSetsGivenValues` and `Options.ManualIdempotent` require distinct names, which a Python keyword-argument dictionary guarantees.
- Dictionary insertion order is not modelled. The store's behaviour does not depend on it.
- `lifesim/util/habitable.py` (closed-form habitable-zone formulas over floats) is not modelled. The rest of `lifesim_demo.py` (catalog loading, module wiring, optimisation, export) is I/O and glue and is not modelled either; its first two calls are the scenario of `Options.BaselineThenDiameter`.
