# Aerofoil lift from pitot-static readings — a Dafny model

The program turns manometer readings taken at panels around an aerofoil into a
lift force per unit span. It works in three steps:

1. The velocity solver turns a height difference `dh` into a squared flow
   speed by Bernoulli's relation, `v² = 2·ρ_w·g·dh·K/ρ_f`.
2. `pre_process` gives each panel a pressure differential
   `(v∞² − vᵢ²)·ρ_f/2`, relative to the freestream. The panel's angle and
   length are copied alongside.
3. `calculate_lift_per_unit_length` sums `−pᵢ·cos(aᵢ)·lᵢ` over the panels.

The repository has two variants, and each one is modelled in its own module:

- `Validating` (src/main.c) checks for NULL pointers, then output capacity,
  then negative height differences, in that order. It applies the tube-angle
  factor `K`. It stops at the first negative panel and leaves the entries it
  already wrote in place.
- `NonValidating` (main.c) checks only NULL pointers and capacity. It has no `K` and
  no sign check. Its loop copies the angle and length of `raw_data[0]` into
  every output panel. This defect is modelled as written, and a corrected
  loop is modelled beside it (see Findings).

`Panels` holds what both files define in the same way: the two panel records,
the pressure formula and the lift sum. `Pointers.Nullable` stands for a C
pointer that may be NULL.

Modelling choices:

- Arithmetic is over `real`.
- `cos` is a parameter `cos: real -> real`, so no result depends on how it
  is computed.
- A caller-owned buffer is modelled by its contents before and after the
  call. `Nullable<seq<…>>` is the buffer pointer; its length is `out_len`.
  The length of the raw sequence is `raw_data_len`.
- `PreProcessInto` in each module runs the same algorithm over Dafny
  arrays, statement by statement, with `modifies` framing. It is proved to
  leave the array exactly as the pure `PreProcess` says.
- The velocity solver's `out` argument in src/main.c is a `Nullable<real>`.
  The solver returns the result code and what the slot holds afterwards.
- Contracts state pressures in their physical form. A panel's pressure is
  the freestream manometer pressure minus its own, `ρ_w·g·K·(dh∞ − dhᵢ)`.
  `ρ_f` cancels out of this form. It follows from the code's
  `(v∞² − vᵢ²)·ρ_f/2` together with the solver's Bernoulli balance
  `ρ_f·v²/2 = ρ_w·g·dh·K`.

On main.c's sample, `v∞² = 2·10·10·10/10 = 200` and `v₁² = 260`, so panel
1's pressure is `(200 − 260)·10/2 = −300`.
`NonValidating.SampleAsWritten` proves a lift of +300 with the loop as
written, and `NonValidating.SampleCorrected` proves −300 with the corrected
loop.

## Model

| member | source | states |
|---|---|---|
| Validating.VelocitySquaredFromPitotStatic | src/main.c:69-85 | A NULL `out` gives `InputNull`, and a negative `dh` gives `HeightDifferenceNegative`; in both cases the slot is unchanged. `Ok` happens exactly when `out` is non-NULL and `dh ≥ 0`. Then the flow's dynamic pressure `ρ_f·v²/2` equals the corrected manometer pressure `ρ_w·g·dh·K`. |
| Validating.SquaredSpeedNonNegative | src/main.c:74-83 | With positive densities and `g`, and `K ≥ 0`, a successful solve never returns a negative squared speed. |
| Validating.FirstNegativeHeight | src/main.c:115-128 | Returns the index where the loop stops: every panel before it has a height difference ≥ 0, and the panel at it (if any) is negative. |
| Validating.ProcessPanels | src/main.c:115-146 | The loop from index `i` succeeds exactly when no panel from `i` on is negative; otherwise it fails with `HeightDifferenceNegative`. Entries from `i` up to the first negative panel hold the expected panel: manometer-pressure difference, angle and length of `raw[j]`. Every other entry is unchanged. |
| Validating.PreProcess | src/main.c:88-147 | Checks run in order: any NULL gives `InputNull`, then `out_len < raw_data_len` gives `OutputTooShort`, then a negative freestream reading gives `HeightDifferenceNegative`. In all three cases the buffer is unchanged. Otherwise the result is `Ok` exactly when every panel height is ≥ 0. Entries `[0, k)` hold `ρ_w·g·K·(dh∞ − dhⱼ)` with `raw[j]`'s angle and length, where `k` is the first negative panel. Entries `[k, out_len)` are unchanged. |
| Validating.PreProcessInto | src/main.c:88-147 | Over arrays, returns the same code as `PreProcess` and leaves the output array exactly as `PreProcess` describes. |
| Validating.CalculateLiftPerUnitLength | src/main.c:150-165 | The accumulated `lift += −p·cos(a)·l` equals `Lift`, the sum of the panels' contributions. |
| Validating.FreestreamPanelContributesNothing | src/main.c:132 | After a successful `pre_process`, a panel whose reading equals the freestream reading has pressure 0 and contributes no lift. |
| Panels.LiftOfNoPanels | src/main.c:152 | The lift of no panels is 0. |
| Panels.LiftAppend | src/main.c:154-162 | Adding a panel at the end adds exactly `−p·cos(a)·l`. |
| Panels.LiftConcat | src/main.c:150-165 | Lift is additive over concatenation, so each panel contributes independently. |
| Panels.LiftRemove | src/main.c:150-165 | Removing panel `j` removes exactly its contribution. |
| Panels.LiftPermutation | src/main.c:150-165 | Any two orderings of the same panels (equal multisets) give the same lift. |
| Panels.PanelPressure | src/main.c:132 | Expands `(v∞² − v²)·ρ_f/2` into a difference of dynamic pressures; this is a rewriting step the proofs use. With `ρ_f > 0` it also gives the sign convention: the pressure is positive exactly when the local flow is slower than the freestream, and zero exactly when the two speeds match. main.c:85 uses the same formula. |
| Panels.ZeroPressureContributesNothing | src/main.c:155 | A panel with pressure 0 contributes 0, whatever its angle and length. |
| NonValidating.VelocitySquaredFromPitotStatic | main.c:55-60 | Never fails, and has no `K`. For any sign of `dh`, `ρ_f·v²/2 = ρ_w·g·dh`. |
| NonValidating.NegativeHeightGivesNegativeSquare | main.c:55-60 | With positive constants, a negative reading gives a negative "squared" speed, because the code does not check the sign. |
| NonValidating.ProcessPanels | main.c:79-93 | The loop as written: entries `[i, n)` get pressure `ρ_w·g·(dh∞ − dhⱼ)` but the angle and length of `raw[0]`. All other entries are unchanged. |
| NonValidating.PreProcess | main.c:63-96 | Any NULL gives `InputNull`, then `out_len < raw_data_len` gives `OutputTooShort`; in both cases the buffer is unchanged. Otherwise the result is always `Ok`, even for negative readings. Entries `[0, n)` hold the pressure differential with `raw[0]`'s angle and length. Entries `[n, out_len)` are unchanged. |
| NonValidating.PreProcessInto | main.c:63-96 | Over arrays, statement by statement, returns the same code as `PreProcess` and leaves the output array exactly as `PreProcess` describes. |
| NonValidating.ProcessPanelsIndexed | main.c:79-93 | The corrected loop: entries `[i, n)` carry `raw[j]`'s own angle and length. |
| NonValidating.PreProcessIndexed | main.c:63-96 | The same checks as `PreProcess`. On `Ok`, entry `j` carries `raw[j]`'s angle and length; entries past `n` are unchanged. |
| NonValidating.CalculateLiftPerUnitLength | main.c:99-108 | The accumulated `lift -= p·cos(a)·l` equals `Lift`. |
| NonValidating.SampleAsWritten | main.c:112-130 | On the sample data the code returns `Ok` with panels (0, 0, 1) and (−300, 0, 1). Panel 1 loses its angle −π, and the lift is +300. |
| NonValidating.SampleCorrected | main.c:112-130 | With the corrected loop the sample gives panels (0, 0, 1) and (−300, −π, 1), and the lift is −300. |
| NonValidating.AsWrittenLosesPanelGeometry | main.c:87-91 | Take a panel whose angle or length differs from panel 0's. The loop as written outputs a different panel for it than the corrected loop, and the corrected one keeps that panel's own geometry. |

## Findings

| source | as written | input that shows it | evidently intended | confidence | as-written member | corrected member |
|---|---|---|---|---|---|---|
| main.c:89-90 | every output panel takes `raw_data->angle_between_normal_and_vertical` and `raw_data->section_length`, which are the fields of element 0 | the program's sample: panels (10, 0, 1) and (13, −π, 1). Output panel 1 gets angle 0, so the lift is +300 instead of −300 | copy from `raw_data[i]`, as src/main.c:140-141 does | not executed; proved in the model | NonValidating.SampleAsWritten | NonValidating.SampleCorrected |
| main.c:55-60 | no sign check on the height difference | `dh = −1` with `ρ_f = ρ_w = g = 1` gives `v² = −2` | reject negative readings, as src/main.c:74-76 does | not executed; proved in the model | NonValidating.NegativeHeightGivesNegativeSquare | Validating.SquaredSpeedNonNegative |

## Left out

- The uncertainty-library wrappers `uncertain_with_error`, `uncertain_with_fractional_error` and `get_uncertain_error` (src/main.c:167-195) are left out. They are foreign calls selected by compile-time switches, and the model treats every value as a plain nominal real.
- Both `main` functions are left out. They only hold sample arrays, console output and exit codes. main.c's sample values are kept as `NonValidating.SampleData`/`NonValidating.SampleParams`.
- `#ifdef DEBUG` printing is left out, because it is I/O only.
- IEEE double rounding, and the real behaviour of `cos`, are not modelled. Values are exact reals and `cos` is an arbitrary function parameter.
- Validating.PreProcess, NonValidating.PreProcess, NonValidating.PreProcessIndexed and both `PreProcessInto` methods require `ρ_f ≠ 0` only on the path that divides. That path is all pointers non-NULL and enough capacity, plus, in src/main.c, a freestream reading ≥ 0. The code divides there without checking, and the model does not say what a division by zero yields.
- src/main.c's velocity solver dereferences `params` without a NULL check. It is only ever called after `pre_process` has checked, so the model passes `params` by value.
- `raw_data_len` and `out_len` are modelled as the true lengths of the sequences or arrays. A caller that passes a length larger than its buffer gets undefined behaviour in C, and that case is not modelled.
