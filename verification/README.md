# pysra output accumulation, in Dafny

This project models the result-accumulation layer of pysra (`pysra/output.py`).
An output object is called once per analysis run with the calculator (`calc`)
and an optional run name. It records:

- the run's name;
- a vector of response values;
- a vector of references: times, frequencies or depths.

Runs of different lengths are merged into 2-D arrays column by column. Missing
cells are padded with NaN. `iter_results` gives each run back as a
(name, refs, values) triple. An `OutputCollection` calls, or resets, several
outputs in order.

The model has these modules:

- `Arrays`: arrays that are absent, 1-D or 2-D, stored as a list of columns. A cell is `Val(x)` or the sentinel `Missing`, which stands for NaN. `append_arrays` is modelled as documented and as written.
- `Naming`: the decimal label of a run, `'r%d' % i`, and its inverse.
- `Numbers`: complex value cells. Division by zero gives the sentinel.
- `Accumulation`: the state of one output as a value `Acc(refs, values, names)`, and every operation on it as a function:
  - naming, `_add_values`, `_add_refs` and `reset`;
  - the item of `iter_results` at each index;
  - the invariant `Aligned`: one name per column, and refs for every run.
  - Both merges exist twice. `AppendArraysAsWritten` and `MergeRefsAsWritten` follow lines 69 and 121-130 as written. `AppendArrays` and `MergeRefs` are the corrected merges (see Findings), and they differ from those lines. `WithValues`, `WithRefs`, `Step` and the classes use the corrected merges.
- `Collaborators`: the solver, the motion and the profile, which the outputs only call. Each of their operations is a function-valued field, so every result holds whatever they compute. It also models `OutputLocation`.
- `Variants`: the nine concrete outputs as the datatype `Kind`. `Step` is the specification of one call: the outcome, and the state it leaves. A failed run leaves whatever it had recorded before failing.
- `Outputs`: the classes.
  - `Output` updates `refs`, `values` and `names` in place. Each method is proved equal to the function it implements. `AddValues` and `AddRefs` therefore merge with the corrected `AppendArrays` and `MergeRefs`, not with lines 69 and 121-130 as written.
  - `IterResults` loops over the names.
  - `OutputCollection` loops over its members.

A failed run can leave a partial record:

- The label is appended before the location lookup and before the computation.
- A profile output stores its depths before it computes its values.

So, for example, a cyclic-stress-ratio run on a profile with only a half-space
raises at `values[0]` with its name and depths already recorded. The lemma
`Variants.CyclicStressRatioPartialRecord` states that case. `Variants.Step`
models the general case: it returns the partial state of every failed run.

## Model

| member | source | states |
|---|---|---|
| `Arrays.AppendArrays` | pysra/output.py:45-73 | The result is 2-D with one more column than `many` (a 1-D `many` is one column). It has max(rows of `many`, len `single`) rows. Every original column is kept and padded with the sentinel only past its end. The last column is `single`, padded the same way. |
| `Arrays.Pad` | pysra/output.py:67 | Padding gives exactly the requested length: the original cells, then only sentinels. |
| `Arrays.AppendArraysAsWritten` | pysra/output.py:64-73 | As written, a 2-D `many` that is shorter than `single` gains `diff` extra columns. The width is Width(many) + 1 + diff. |
| `Arrays.AsWrittenAgreesWithoutWidening` | pysra/output.py:64-73 | When `many` is 1-D, or no row padding is needed, the code as written equals the documented merge. |
| `Arrays.PadEveryAxisAddsColumns` | pysra/output.py:69 | Merging a 1×2 matrix with a 3-vector: 5 columns as written, against the documented 3. |
| `Naming.NatToString` | pysra/output.py:92 | `'%d' % i` is a non-empty string of decimal digits with no leading zero. |
| `Naming.DecimalRoundTrip` | pysra/output.py:92 | Parsing the label's digits gives the run number back. |
| `Naming.NatToStringInjective` | pysra/output.py:92 | Different run numbers give different labels. |
| `Numbers.Divide` | pysra/output.py:386 | A quotient is present exactly when the divisor is nonzero; a present quotient times the divisor gives the dividend. |
| `Numbers.DivideAll` | pysra/output.py:276-278 | The normalised stress transfer function has the same length. Each cell is present exactly when the original is present and the effective stress is nonzero. Both parts of each cell, times the stress, give back the original. |
| `Numbers.ScaleAll` | pysra/output.py:428 | Scaling keeps the length and the sentinels, and multiplies every present cell by the factor. |
| `Accumulation.WithName` | pysra/output.py:84-93 | Refs and values are unchanged. Exactly one label is appended and earlier labels are kept. A given name is appended verbatim; an unnamed run gets the default label read off the values' shape. |
| `Accumulation.DefaultNameCountsRuns` | pysra/output.py:85-92 | On an aligned state, an unnamed run is labelled `r` + (number of recorded runs + 1). |
| `Accumulation.Push` | pysra/output.py:132-137 | The merged array stays rectangular, gains exactly one column, and has max(old rows, length of the incoming vector) rows. Old columns are kept, padded with sentinels only. The new column is the incoming vector, padded the same way. |
| `Accumulation.WithValues` | pysra/output.py:132-137 | The first values are stored as a 1-D vector. Any later values make a 2-D array one column wider. The result has max(old rows, length of the incoming values) rows. Every earlier column is kept, padded only with sentinels, and the new last column is the incoming values, padded the same way. Refs and names are unchanged. |
| `Accumulation.MergeRefsAsWritten` | pysra/output.py:121-130 | The first refs are stored. Refs of equal length that are close leave the stored refs unchanged. Any other refs widen the stored refs to 2-D. |
| `Accumulation.MergeRefs` | pysra/output.py:121-130 | The first refs are stored as a vector. A stored vector that the incoming refs match in length and are close to is kept unchanged. A 2-D result has max(old rows, length of the incoming refs) rows. Refs aligned to `prior` runs stay aligned to `prior + 1`. Every earlier run keeps its refs, padded only with sentinels. The new run gets the incoming refs, or the shared vector they are close to. |
| `Accumulation.WithRefs` | pysra/output.py:121-130 | Values and names are unchanged, and refs are present afterwards. The first refs are stored as a vector; close refs of equal length keep the stored vector; 2-D refs have max(old rows, length of the incoming refs) rows. Refs aligned to the runs before the current one become aligned to all runs: every earlier run keeps its refs, padded only with sentinels, and the current run gets the incoming refs or the shared vector they are close to. |
| `Accumulation.DefaultName` | pysra/output.py:85-92 | The default label is `r` followed by the decimal digits of the number of value columns + 1. |
| `Accumulation.ResultAt` | pysra/output.py:113-119 | An item exists only for a recorded name, and carries that name. There is none without refs or values, and none for an index past the refs columns. Over a shared refs vector and 1-D values, the item is (name, the shared refs, the values). Item i pairs name i with the shared refs vector or refs column i, and with the 1-D values or values column i. |
| `Accumulation.Cleared` | pysra/output.py:107-111 | Reset empties values and names. It keeps refs exactly when the output has constant refs, and otherwise clears them. |
| `Accumulation.ClearedIsAligned` | pysra/output.py:107-111 | A reset output is aligned again. |
| `Accumulation.AlignedResultsComplete` | pysra/output.py:113-119 | On an aligned state, every recorded name yields a triple carrying that name, that run's column of values, and the shared refs vector or that run's refs column. |
| `Accumulation.ValuesThenRefs` | pysra/output.py:197-206 | Name, then values, then refs keeps the state aligned and keeps every earlier run. It adds this run as the last item under its label. |
| `Accumulation.RefsThenValues` | pysra/output.py:394-407 | The same holds for name, then refs, then values (the profile outputs). |
| `Accumulation.NameThenValues` | pysra/output.py:307-312 | The same holds for name, then values, over a shared frequency vector. The new item carries that vector as its refs. |
| `Accumulation.RunAsWritten` | pysra/output.py:197-206 | An unnamed run merged as the code writes it (values by line 69 as written, refs by lines 121-130 as written) keeps the arrays rectangular and appends the default label. The first values and the first refs are stored as vectors; later values make a wider 2-D array; close refs of equal length keep the stored refs. |
| `Accumulation.SharedThenDivergentRefsMisalign` | pysra/output.py:113-130 | As written: after runs with refs t1, t1, t3 (where \|t3\| ≠ \|t1\|), the second name is paired with t3, and the third name yields nothing (an IndexError). |
| `Accumulation.SharedThenDivergentRefsAligned` | pysra/output.py:113-130 | With `MergeRefs`, the same three runs yield t1, t1 and t3 under r1, r2 and r3. |
| `Collaborators.WaveFieldNamed` | pysra/output.py:144-145 | A name resolves to the member that has that name, and to no other. An unknown name resolves to nothing. |
| `Collaborators.MakeOutputLocation` | pysra/output.py:141-146 | A member is kept as given. A name is normalised to its member at construction, and fails exactly when no member has that name. Depth and index are stored unchanged. |
| `Collaborators.NamedLocationResolvesLikeMember` | pysra/output.py:141-163 | Covers `__init__` and `__call__` (`Collaborators.Resolve`, which looks the location up in the profile). A location built from a member's name equals the one built from the member, and it resolves to the profile's lookup of that member at the given depth and index. A name that no member has builds no location. |
| `Variants.InitialRefs` | pysra/output.py:79-80 | A new output holds no refs, or one vector. The two spectrum outputs start with exactly their frequencies. The time-series and profile outputs start with none. The transfer-function output starts with its constructor frequencies when given, and with none otherwise. |
| `Variants.TimeAxis` | pysra/output.py:205 | `time_step * np.arange(n)`: n times, entry i is i time steps. |
| `Variants.CumTrapz` | pysra/output.py:227 | The cumulative integral has one entry fewer than the samples (none for an empty series), and entry i is the trapezoid integral up to sample i + 1. |
| `Variants.CumTrapzSteps` | pysra/output.py:227 | The cumulative integral starts with the first trapezoid. Each next entry adds the next trapezoid. |
| `Variants.AriasIntensity` | pysra/output.py:225-229 | Arias intensity is one sample shorter than the series (empty for an empty series). Entry i is the scale times the integral of the squared series up to sample i + 1. |
| `Variants.TransferFunction` | pysra/output.py:208-280 | Acceleration and Arias outputs use the acceleration transfer function from the input location, strain outputs the strain one. A stress output keeps the stress transfer function's length; when normalised, a cell is present exactly when the effective stress is nonzero, and then it times the stress gives the original cell. |
| `Variants.ModifiedValues` | pysra/output.py:211-245 | Arias intensity is one sample shorter than the series; strain in percent is 100 times each sample; every other time series is returned unchanged. |
| `Variants.AriasOneSampleShorter` | pysra/output.py:215-229 | Arias intensity integrates exactly the acceleration series of the same run, and is one sample shorter. |
| `Variants.PercentStrainIsHundredfold` | pysra/output.py:241-245 | A strain output in percent records 100 times what the decimal one records, element by element. |
| `Variants.SpectralRatio` | pysra/output.py:386 | The ratio exists exactly when both spectra have the same length. Each entry is present exactly when the input response is nonzero, and then it times the input response gives the output response. |
| `Variants.RatioOfEqualSpectraIsOne` | pysra/output.py:386 | Equal, nonzero responses at both locations give a ratio of 1 at every frequency. |
| `Variants.ProfileDepths` | pysra/output.py:396 | The depths have max(n, 1) entries for n layers. They start with 0, and entry i + 1 is the mid-depth of layer i; the half-space is skipped. |
| `Variants.MaxStrains` | pysra/output.py:406 | The peak strains have max(n, 1) entries for n layers. They start with 0, and entry i + 1 is the strain of layer i; the half-space is skipped. |
| `Variants.CyclicStressRatios` | pysra/output.py:423-428 | The ratios exist exactly when n ≥ 2 (otherwise `values[0]` raises). Then there are n of them, entry 0 equals entry 1, and entry i is 0.65 × the stress ratio of layer max(i - 1, 0), missing where that ratio is. |
| `Variants.TimeSeriesStep` | pysra/output.py:194-206 | A motion that is not a time series fails with nothing recorded; otherwise exactly the run's label is appended. A failed run changes neither values nor refs, and a successful one never shortens the values. The state stays rectangular. |
| `Variants.Step` | pysra/output.py:194-429 | One call of any output leaves rectangular arrays. |
| `Variants.StepEffects` | pysra/output.py:194-429 | Only a time-series output on a motion that is not a time series fails with `NotTimeSeriesMotion`, and it records nothing. Every other call appends exactly its label. A failed call adds no values. A call fails with `NoLayerAboveHalfspace` exactly for a cyclic-stress-ratio profile with fewer than two layers. |
| `Variants.NonTimeSeriesMotionRecordsNothing` | pysra/output.py:194-197 | A time-series output called with a motion that is not a time series fails before it records anything. |
| `Variants.ConstRefStepKeepsRefs` | pysra/output.py:283-387 | Runs of the spectrum outputs never change their refs. |
| `Variants.StepRecordsRun` | pysra/output.py:194-429 | On an aligned state, a successful run of any output keeps every earlier run and stays aligned. It adds exactly one item, under its label. |
| `Variants.TimeSeriesRunRecorded` | pysra/output.py:194-206 | A successful time-series run adds the item (label, time axis `dt * i` with as many entries as values, values). |
| `Variants.ProfileRunRecorded` | pysra/output.py:390-429 | A successful profile run adds the item (label, depths, profile values). A cyclic-stress-ratio run succeeds only with a layer above the half-space. |
| `Variants.CyclicStressRatioPartialRecord` | pysra/output.py:421-428 | On a profile with no layer above the half-space, a cyclic-stress-ratio run fails after recording its label and merging its depths. It records no values. |
| `Variants.UnnamedRunNumbered` | pysra/output.py:84-93 | The m-th unnamed successful run on an aligned state is labelled `r<m>`. |
| `Variants.ThreeUnnamedRuns` | pysra/output.py:84-93 | Three successful unnamed runs of a new output of any kind are named r1, r2, r3. |
| `Outputs.Output.constructor` | pysra/output.py:79-82 | A new output holds its initial refs, no values and no names. |
| `Outputs.Output.NameRun` | pysra/output.py:84-93 | The new state is `WithName` of the old one. |
| `Outputs.Output.AddValues` | pysra/output.py:132-137 | The new state is `WithValues` of the old one. |
| `Outputs.Output.AddRefs` | pysra/output.py:121-130 | The new state is `WithRefs` of the old one. |
| `Outputs.Output.Reset` | pysra/output.py:107-111 | The new state is `Cleared` of the old one, and it is aligned. |
| `Outputs.Output.Invoke` | pysra/output.py:194-429 | The outcome and the new state are exactly what `Step` gives for the output's kind. Constant-reference outputs keep their frequencies. |
| `Outputs.Output.IterResults` | pysra/output.py:113-119 | Item i is the i-th triple. The generator raises exactly when there are no refs, or some name has no refs or values column, and it raises at the first such name. On an aligned state with runs, it yields one item per name. |
| `Outputs.OutputCollection.constructor` | pysra/output.py:32-33 | The collection holds the given outputs in order. |
| `Outputs.OutputCollection.Invoke` | pysra/output.py:35-38 | Members run in order, and the first failure stops the loop. Members before the failing one record the run fully. The failing member keeps its partial record, and the members after it are unchanged. |
| `Outputs.OutputCollection.Reset` | pysra/output.py:40-42 | Every member is reset, and every member ends aligned. |

## Left out

- Floating point: numbers are exact reals. NaN and ±inf are all represented by the one sentinel `Missing`, and the model does not tell NaN from inf.
- The `np.allclose` comparison at line 125 is an abstract predicate `close`. Its tolerance is not modelled. The `ValueError` it can raise when 2-D refs do not broadcast against the incoming refs is not modelled either.
- `GRAVITY * np.pi / 2` (line 228) is an abstract constant, `Calc.ariasScale`.
- The solver, the motion and the profile are opaque functions: transfer functions, `calc_time_series`, `calc_osc_accels`, `profile.location`, `stress_vert`. They are not part of this model, and neither is `pysra/motion.py`. The wave-field member names are taken to be `outcrop`, `within` and `incoming_only`.
- A location the profile cannot resolve is modelled as the error `LocationNotFound`. Whatever exception the profile raises is not modelled.
- `Variants.SpectralRatio`: numpy broadcasting of a length-1 spectrum against a longer one is not modelled. Every length mismatch counts as a failure.
- `Outputs.Output.IterResults`: it returns all the items, plus a flag saying whether the generator raised. The laziness of the generator is not modelled, and neither is which exception it raises (AttributeError or IndexError).
- `Outputs.OutputCollection.Invoke`: members must be distinct objects. A Python collection that holds the same output twice, so that it runs twice per call, is not modelled.
- In-place updates of arrays returned by collaborators (`values *= 100.` at line 244, `tf /= …` at line 278) are modelled as new values. Aliasing with the collaborator's own arrays is not modelled.
- `xlabel`, `ylabel`, `periods` and the read-only properties (`times`, `freqs`, `damped`, `osc_damping`) are not modelled. They only format or return stored state.
- The abstract `__call__` methods of `LocationBasedOutput` and `RatioBasedOutput`, which raise `NotImplementedError`, are not modelled. Only the concrete outputs can be built.
- A bare `TimeSeriesOutput` is not modelled. Its `__call__` records the run's label and then raises `NotImplementedError` at `_get_trans_func` (line 209).
- A bare `ProfileBasedOutput` is not modelled. Its `__call__` records a label and the depths but never any values (lines 394-397), which would leave a state with refs for a run and no values column.
- `OutputCollection` is a `collections.UserList` (line 31). The model keeps only its construction, `__call__` and `reset`. The list API inherited from `UserList` (append, insert, remove, indexing and so on) is not modelled, and `outputs` is fixed at construction.
- `Outputs.Output.constructor`: the assertions at lines 236 and 258, that a strain or stress time series sits at a `within` location, become the precondition `WellConfigured(k)`. Building such an output at another location is excluded, not modelled as a failure.
- Constructor refs are taken as a 1-D vector, and line 62's `ndim == 1` assertion holds by the types.
- `tests/test_motion.py` (reading motion files and FFTs) and `setup.py` (packaging) are not modelled. Neither exercises this layer.

## Findings

| source | as written | input that shows it | evidently intended | confidence | as-written member | corrected member |
|---|---|---|---|---|---|---|
| pysra/output.py:69 | `np.pad(many, ((0, diff),), …)` applies the pad width to both axes of a 2-D `many`. This adds `diff` all-NaN columns as well as `diff` rows. | `many` = [[1, 2]] (1 row, 2 columns), `single` = [3, 4, 5]. The result has 5 columns (`Arrays.PadEveryAxisAddsColumns`). | As lines 56-60 document: only rows are padded, and the result has exactly one more column (3). | high, not executed | `Arrays.AppendArraysAsWritten` | `Arrays.AppendArrays` |
| pysra/output.py:121-130 | Refs that differ from a vector shared by k earlier runs are appended as ONE column beside that vector, whatever k is. With k ≥ 2, `_refs` has fewer columns than `_names` has labels, so `iter_results` (lines 113-119) pairs later names with the wrong refs and raises IndexError at the last name. Constructor refs of an `AccelTransferFunctionOutput` that differ from the first run's frequencies (k = 0) also leave an extra column. | Three unnamed time-series runs whose time axes are t1, t1 and t3, with \|t3\| ≠ \|t1\| (`Accumulation.SharedThenDivergentRefsMisalign`). | Each run keeps its own refs column, aligned with its name. A shared vector is first spread to one column per earlier run, and once the refs are per-run columns every later run appends its own (`Accumulation.SharedThenDivergentRefsAligned`). | medium, not executed | `Accumulation.MergeRefsAsWritten` | `Accumulation.MergeRefs` |
