/**
  A model of missed.py: the S12Params record that holds the settings of the
  S1 and S2 pulse finders of a particle-detector waveform analysis, and
  unpack_s12params, which flattens a pair of such records into one flat
  mapping of named scalars.

  The interval type `minmax` comes from another package; it is modelled as a
  plain two-field value whose bounds are copied and never computed on.
*/
module Missed {

  datatype Option<T> = None | Some(value: T)

  /** The external `minmax` interval. Nothing in this model checks that min <= max. */
  datatype MinMax = MinMax(min: real, max: real)

  /** One parameter set: a time window, a length window and two strides. */
  datatype S12Params = S12Params(time: MinMax, length: MinMax, stride: int, rebin_stride: int)

  /** A scalar of the flat mapping: an interval bound or an integer stride. */
  datatype Value = R(r: real) | I(i: int)

  // ---------------------------------------------------------------------------
  // Construction with keyword defaults
  // ---------------------------------------------------------------------------

  const DefaultTime: MinMax := MinMax(1.0, 2.0)
  const DefaultLength: MinMax := MinMax(3.0, 4.0)
  const DefaultStride: int := 1
  const DefaultRebinStride: int := 1

  function ArgOr<T>(arg: Option<T>, default: T): T {
    match arg
    case Some(v) => v
    case None => default
  }

  /**
    The constructor S12Params(time=..., length=..., stride=..., rebin_stride=...):
    an omitted keyword argument (None) takes its default, a given one is
    stored as it is. No argument is validated.
  */
  function New(time: Option<MinMax>, length: Option<MinMax>, stride: Option<int>, rebin_stride: Option<int>): (p: S12Params)
    ensures time.Some? ==> p.time == time.value
    ensures time.None? ==> p.time.min == 1.0 && p.time.max == 2.0
    ensures length.Some? ==> p.length == length.value
    ensures length.None? ==> p.length.min == 3.0 && p.length.max == 4.0
    ensures stride.Some? ==> p.stride == stride.value
    ensures stride.None? ==> p.stride == 1
    ensures rebin_stride.Some? ==> p.rebin_stride == rebin_stride.value
    ensures rebin_stride.None? ==> p.rebin_stride == 1
  {
    S12Params(ArgOr(time, DefaultTime), ArgOr(length, DefaultLength),
              ArgOr(stride, DefaultStride), ArgOr(rebin_stride, DefaultRebinStride))
  }

  /** S12Params() with no arguments: time (1, 2), length (3, 4), both strides 1. */
  function Default(): (p: S12Params)
    ensures p.time.min == 1.0 && p.time.max == 2.0
    ensures p.length.min == 3.0 && p.length.max == 4.0
    ensures p.stride == 1 && p.rebin_stride == 1
  {
    New(None, None, None, None)
  }

  // ---------------------------------------------------------------------------
  // Flattening
  // ---------------------------------------------------------------------------

  const S1TMin := "s1_tmin"
  const S1TMax := "s1_tmax"
  const S1LMin := "s1_lmin"
  const S1LMax := "s1_lmax"
  const S2TMin := "s2_tmin"
  const S2TMax := "s2_tmax"
  const S2RebinStride := "s2_rebin_stride"
  const S2LMin := "s2_lmin"
  const S2LMax := "s2_lmax"

  /** The nine names the flat mapping carries. */
  const UnpackedKeys: set<string> :=
    {S1TMin, S1TMax, S1LMin, S1LMax, S2TMin, S2TMax, S2RebinStride, S2LMin, S2LMax}

  /**
    unpack_s12params: the first set of the pair gives the s1_* entries, the
    second the s2_* entries. Neither stride is emitted, and rebin_stride only
    for the second set.
  */
  function Unpack(s12params: (S12Params, S12Params)): (m: map<string, Value>)
    ensures m.Keys == UnpackedKeys
    ensures Repack(m) == Some(Observe(s12params))
  {
    var (s1par, s2par) := s12params;
    map[
      S1TMin := R(s1par.time.min),
      S1TMax := R(s1par.time.max),
      S1LMin := R(s1par.length.min),
      S1LMax := R(s1par.length.max),

      S2TMin := R(s2par.time.min),
      S2TMax := R(s2par.time.max),
      S2RebinStride := I(s2par.rebin_stride),
      S2LMin := R(s2par.length.min),
      S2LMax := R(s2par.length.max)
    ]
  }

  // ---------------------------------------------------------------------------
  // What the flat mapping keeps: the observed part of a pair, and the inverse
  // of Unpack on it
  // ---------------------------------------------------------------------------

  /** The fields of a pair that unpack_s12params reads. */
  datatype Observed = Observed(s1Time: MinMax, s1Length: MinMax, s2Time: MinMax, s2Length: MinMax, s2RebinStride: int)

  function Observe(s12params: (S12Params, S12Params)): Observed {
    Observed(s12params.0.time, s12params.0.length, s12params.1.time, s12params.1.length, s12params.1.rebin_stride)
  }

  function RealAt(m: map<string, Value>, k: string): Option<real> {
    if k in m && m[k].R? then Some(m[k].r) else None
  }

  function IntAt(m: map<string, Value>, k: string): Option<int> {
    if k in m && m[k].I? then Some(m[k].i) else None
  }

  /**
    Reads a flat mapping back: it succeeds exactly on a mapping with the nine
    keys, the eight bounds real and the rebin stride an integer.
  */
  function Repack(m: map<string, Value>): Option<Observed> {
    if m.Keys == UnpackedKeys
       && RealAt(m, S1TMin).Some? && RealAt(m, S1TMax).Some?
       && RealAt(m, S1LMin).Some? && RealAt(m, S1LMax).Some?
       && RealAt(m, S2TMin).Some? && RealAt(m, S2TMax).Some?
       && RealAt(m, S2LMin).Some? && RealAt(m, S2LMax).Some?
       && IntAt(m, S2RebinStride).Some?
    then
      Some(Observed(
        MinMax(m[S1TMin].r, m[S1TMax].r), MinMax(m[S1LMin].r, m[S1LMax].r),
        MinMax(m[S2TMin].r, m[S2TMax].r), MinMax(m[S2LMin].r, m[S2LMax].r),
        m[S2RebinStride].i))
    else
      None
  }

  // ---------------------------------------------------------------------------
  // Properties
  // ---------------------------------------------------------------------------

  /** The constructor stores given arguments as they are, with no check on the bounds. */
  lemma NewStoresArguments(time: MinMax, length: MinMax, stride: int, rebin_stride: int)
    ensures New(Some(time), Some(length), Some(stride), Some(rebin_stride)) == S12Params(time, length, stride, rebin_stride)
  {
  }

  /** The flat mapping has nine entries, no more and no fewer. */
  lemma UnpackHasNineEntries(s12params: (S12Params, S12Params))
    ensures |Unpack(s12params)| == 9
  {
  }

  /** The s1_* entries are the first set's interval bounds. */
  lemma UnpackFirstSet(s12params: (S12Params, S12Params))
    ensures Unpack(s12params)[S1TMin] == R(s12params.0.time.min)
    ensures Unpack(s12params)[S1TMax] == R(s12params.0.time.max)
    ensures Unpack(s12params)[S1LMin] == R(s12params.0.length.min)
    ensures Unpack(s12params)[S1LMax] == R(s12params.0.length.max)
  {
  }

  /** The s2_* entries are the second set's interval bounds and rebin stride. */
  lemma UnpackSecondSet(s12params: (S12Params, S12Params))
    ensures Unpack(s12params)[S2TMin] == R(s12params.1.time.min)
    ensures Unpack(s12params)[S2TMax] == R(s12params.1.time.max)
    ensures Unpack(s12params)[S2LMin] == R(s12params.1.length.min)
    ensures Unpack(s12params)[S2LMax] == R(s12params.1.length.max)
    ensures Unpack(s12params)[S2RebinStride] == I(s12params.1.rebin_stride)
  {
  }

  /**
    Two pairs flatten to the same mapping exactly when they differ at most in
    the first set's stride and rebin stride and the second set's stride.
  */
  lemma UnpackIgnoresExactlyStrides(p: (S12Params, S12Params), q: (S12Params, S12Params))
    ensures Unpack(p) == Unpack(q) <==>
            q == (p.0.(stride := q.0.stride, rebin_stride := q.0.rebin_stride), p.1.(stride := q.1.stride))
  {
  }

  /**
    The mappings unpack_s12params can produce are exactly those Repack
    accepts: the nine keys, real bounds and an integer rebin stride.
  */
  lemma UnpackImage(m: map<string, Value>)
    ensures Repack(m).Some? <==> exists s12params :: Unpack(s12params) == m
  {
    if Repack(m).Some? {
      var f := Repack(m).value;
      var s12params := (New(Some(f.s1Time), Some(f.s1Length), None, None),
                        New(Some(f.s2Time), Some(f.s2Length), None, Some(f.s2RebinStride)));
      assert Unpack(s12params) == m;
    }
  }

  /** Both sets left at their defaults. */
  lemma UnpackDefaults()
    ensures Unpack((Default(), Default())) ==
            map[S1TMin := R(1.0), S1TMax := R(2.0), S1LMin := R(3.0), S1LMax := R(4.0),
                S2TMin := R(1.0), S2TMax := R(2.0), S2RebinStride := I(1), S2LMin := R(3.0), S2LMax := R(4.0)]
  {
  }

  /** Worked example: explicit windows, the second set with rebin stride 3. */
  lemma UnpackExample()
    ensures Unpack((New(Some(MinMax(10.0, 20.0)), Some(MinMax(1.0, 5.0)), None, None),
                    New(Some(MinMax(100.0, 200.0)), Some(MinMax(2.0, 9.0)), None, Some(3)))) ==
            map[S1TMin := R(10.0), S1TMax := R(20.0), S1LMin := R(1.0), S1LMax := R(5.0),
                S2TMin := R(100.0), S2TMax := R(200.0), S2RebinStride := I(3), S2LMin := R(2.0), S2LMax := R(9.0)]
  {
  }
}
