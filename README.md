# S1/S2 pulse-finding parameters and their flattening

This project models `missed.py`, a small piece of a particle-detector
waveform analysis. It holds two things:

- `S12Params` is the settings record of one pulse finder (S1 or S2). It holds a
  time window and a length window, both `minmax` intervals, a `stride` and a
  `rebin_stride`. Every field has a default: time (1, 2), length (3, 4),
  both strides 1.
- `unpack_s12params` takes a pair `(s1par, s2par)` and returns a flat mapping
  of nine named scalars. The
  first set gives `s1_tmin`, `s1_tmax`, `s1_lmin` and `s1_lmax`. The second
  set gives `s2_tmin`, `s2_tmax`, `s2_lmin`, `s2_lmax` and `s2_rebin_stride`.
  `stride` is never emitted, and `rebin_stride` is emitted only for the
  second set.

The Dafny module `Missed` (in `missed.dfy`) models these as values:

- `MinMax` stands for the external interval type.
- `S12Params` is a datatype.
- `New` is the constructor with optional keyword arguments. An omitted
  argument is `None`.
- `Default` is `S12Params()` called with no arguments.
- `Unpack` is the flattening function. It returns a `map<string, Value>`.
  A `Value` is either a real interval bound `R` or an integer stride `I`.

`Unpack` is specified against two helpers, which are not part of the source.
`Observe` picks out the five things a pair contributes to the mapping: four
intervals and the second set's rebin stride. `Repack` reads a flat mapping
back into those five things. `Unpack` followed by `Repack` gives back exactly
what `Observe` picked out. `UnpackImage` shows that `Repack` accepts exactly
the mappings `Unpack` can produce.

## Model

| member | source | states |
|---|---|---|
| `Missed.New` | missed.py:5-10 | each field equals its keyword argument when one is given, and otherwise its default: time (1, 2), length (3, 4), stride 1, rebin_stride 1 |
| `Missed.Default` | missed.py:5-6 | the no-argument constructor gives time (1, 2), length (3, 4), stride 1 and rebin_stride 1 |
| `Missed.NewStoresArguments` | missed.py:7-10 | the four given arguments are stored unchanged, with no validation: an interval with min > max is accepted as is |
| `Missed.Unpack` | missed.py:13-26 | the result's key set is exactly the nine names, and reading it back gives the two sets' time and length intervals and the second set's rebin stride |
| `Missed.UnpackHasNineEntries` | missed.py:15-26 | the mapping has nine entries, no more and no fewer |
| `Missed.UnpackFirstSet` | missed.py:14-19 | s1_tmin, s1_tmax, s1_lmin and s1_lmax are the first set's time.min, time.max, length.min and length.max |
| `Missed.UnpackSecondSet` | missed.py:14-25 | s2_tmin, s2_tmax, s2_lmin and s2_lmax are the second set's time and length bounds, and s2_rebin_stride is its rebin_stride |
| `Missed.UnpackIgnoresExactlyStrides` | missed.py:15-26 | two pairs give the same mapping if and only if they differ at most in the first set's stride and rebin_stride and the second set's stride |
| `Missed.UnpackImage` | missed.py:15-26 | a mapping is an output of the flattening if and only if it has exactly the nine keys, real bounds under the eight bound keys and an integer under s2_rebin_stride, so each value is an input field copied verbatim |
| `Missed.UnpackDefaults` | missed.py:5-26 | flattening two default sets gives bounds 1, 2, 3, 4 for both sets and s2_rebin_stride 1 |
| `Missed.UnpackExample` | missed.py:13-26 | windows (10, 20) and (1, 5) for S1, windows (100, 200) and (2, 9) with rebin stride 3 for S2, flatten to those nine values under their names |

## Left out

- The internals of `minmax` (imported from `invisible_cities.types.ic_types`) are not part of this model. `minmax` is modelled as a plain pair of bounds; any check its own constructor performs is not modelled.
- Interval bounds are modelled as `real`. Nothing is computed on them, so floating-point behaviour plays no part.
- Python's shared default-argument objects are not modelled. Nothing in missed.py mutates the shared default objects, so value semantics loses nothing here.
- The input pair is a Dafny tuple. The run-time error for a sequence whose length is not two cannot arise, and errors raised by duck typing are not modelled.
- `Missed.Unpack` returns a Dafny `map`. The insertion order of the Python `dict` is not modelled.
