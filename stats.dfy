/** Index bookkeeping of meegkit/utils/stats.py: the window schedule and input
    checks of rolling_corr, and the harmonic, peak and noise-bin selection and
    shape handling of snr_spectrum. Arrays are described by their shapes. */
module Stats {
  import opened Arrays

  // ---------------------------------------------------------------------------
  // rolling_corr
  // ---------------------------------------------------------------------------

  /** The exceptions rolling_corr raises. */
  datatype CorrError =
    | NoTimeAxis            // IndexError: `shape[0]` of a 0-d array
    | DataTooManyDims       // AttributeError('Data must be 2D or 3D.')
    | TimeAxisMismatch      // AttributeError('X and y must share the same time axis.')
    | ReferenceTooManyDims  // AttributeError('y must be at most 2D.')

  /** `np.squeeze`: drop every axis of length 1. */
  function Squeeze(shape: seq<nat>): (r: seq<nat>)
    ensures |r| <= |shape|
    ensures forall k | 0 <= k < |r| :: r[k] != 1
  {
    if |shape| == 0 then []
    else if shape[0] == 1 then Squeeze(shape[1..])
    else [shape[0]] + Squeeze(shape[1..])
  }

  /** `np.squeeze` keeps the other axes in order: the result is the shape
      read at increasing positions, and every axis whose length is not 1 is
      one of them. */
  lemma SqueezeKeepsOrder(shape: seq<nat>)
    ensures exists idx: seq<int> :: Embeds(idx, Squeeze(shape), shape)
              && forall j | 0 <= j < |shape| && shape[j] != 1 :: j in idx
  {
    var idx := SqueezePositions(shape);
  }

  /** The positions behind SqueezeKeepsOrder. */
  lemma {:induction false} SqueezePositions(shape: seq<nat>) returns (idx: seq<int>)
    ensures Embeds(idx, Squeeze(shape), shape)
    ensures forall j | 0 <= j < |shape| && shape[j] != 1 :: j in idx
  {
    if |shape| == 0 {
      idx := [];
    } else {
      var x, rest := shape[0], shape[1..];
      assert shape == [x] + rest;
      var tail := SqueezePositions(rest);
      forall j | 1 <= j < |shape| && shape[j] != 1 ensures j in ShiftUp(tail) && j in [0] + ShiftUp(tail) {
        assert rest[j - 1] == shape[j];
        InShiftUp(tail, j);
      }
      if x == 1 {
        EmbedsSkip(x, Squeeze(rest), rest, tail);
        idx := ShiftUp(tail);
      } else {
        EmbedsKeep(x, Squeeze(rest), rest, tail);
        idx := [0] + ShiftUp(tail);
      }
    }
  }

  /** The reference signal's shape after line 62-63. */
  function ReferenceShape(ys: seq<nat>): seq<nat>
  {
    if |ys| == 3 then Squeeze(ys) else ys
  }

  /** `theshapeof(X)`: (n_times, n_chans, n_epochs), missing axes counted as 1. */
  datatype Layout = Layout(nTimes: nat, nChans: nat, nEpochs: nat, window: int)

  /** Lines 60-71: the default window and the three shape checks, in the
      order the source performs them. */
  function CheckRolling(xs: seq<nat>, ys: seq<nat>, window: Option<int>): (r: Result<Layout, CorrError>)
    ensures r.Ok? ==> 1 <= |xs| <= 3 && 1 <= |ReferenceShape(ys)| <= 2
    ensures r.Ok? ==> r.value.nTimes == xs[0] == ReferenceShape(ys)[0]
    ensures r.Ok? ==> r.value.window == if window.Some? then window.value else xs[0] as int - 1
    ensures var y := ReferenceShape(ys);
            r.Ok? <==> 1 <= |xs| <= 3 && 1 <= |y| <= 2 && y[0] == xs[0]
    ensures |xs| > 3 && (window.Some? || |xs| > 0) ==> r == Err(DataTooManyDims)
    ensures (|xs| == 0 || |ReferenceShape(ys)| == 0) && |xs| <= 3 ==> r == Err(NoTimeAxis)
    ensures 1 <= |xs| <= 3 && |ReferenceShape(ys)| > 0 && ReferenceShape(ys)[0] != xs[0] ==> r == Err(TimeAxisMismatch)
    ensures 1 <= |xs| <= 3 && |ReferenceShape(ys)| > 2 && ReferenceShape(ys)[0] == xs[0] ==> r == Err(ReferenceTooManyDims)
  {
    if window.None? && |xs| == 0 then Err(NoTimeAxis)
    else
      var w := if window.Some? then window.value else xs[0] as int - 1;
      var y := ReferenceShape(ys);
      if |xs| > 3 then Err(DataTooManyDims)
      else if |y| == 0 || |xs| == 0 then Err(NoTimeAxis)
      else if y[0] != xs[0] then Err(TimeAxisMismatch)
      else if |y| > 2 then Err(ReferenceTooManyDims)
      else Ok(Layout(xs[0], if |xs| > 1 then xs[1] else 1, if |xs| > 2 then xs[2] else 1, w))
  }

  /** A 3-D reference whose extra axes have length 1 is squeezed to 1-D and
      accepted; one with two longer extra axes stays 3-D and is refused. */
  lemma ReferenceSqueezed(n: nat, e: nat)
    requires n >= 2 && e >= 2
    ensures CheckRolling([n, 4, e], [n, 1, 1], Some(2)).Ok?
    ensures CheckRolling([n, 4, e], [n, e, e], Some(2)) == Err(ReferenceTooManyDims)
  {
    assert Squeeze([n, 1, 1]) == [n] by {
      assert [n, 1, 1][1..] == [1, 1];
      assert [1, 1][1..] == [1];
      assert [1][1..] == [];
    }
    assert Squeeze([n, e, e]) == [n, e, e] by {
      assert [e][1..] == [];
      assert Squeeze([e]) == [e];
      assert [e, e][1..] == [e];
      assert Squeeze([e, e]) == [e, e];
      assert [n, e, e][1..] == [e, e];
    }
  }

  /** `np.arange(start, 0, -step)[::-1]`: ascending by step, ending at start,
      and starting at the smallest positive value reachable from start. */
  ghost predicate Schedule(start: int, step: nat, bins: seq<int>)
  {
    && (forall k | 0 <= k < |bins| - 1 :: bins[k + 1] == bins[k] + step)
    && (|bins| > 0 ==> bins[|bins| - 1] == start && 1 <= bins[0] && bins[0] - step < 1)
    && (|bins| == 0 ==> start < 1)
  }

  /** Line 72: the window start indices. */
  method TimeBins(nTimes: int, window: int, step: nat) returns (bins: seq<int>)
    requires step >= 1
    ensures Schedule(nTimes - window, step, bins)
    ensures forall k | 0 <= k < |bins| :: 1 <= bins[k] && bins[k] + window <= nTimes
  {
    var start := nTimes - window;
    var t := start;
    bins := [];
    while t > 0
      invariant t <= start
      invariant forall k | 0 <= k < |bins| - 1 :: bins[k + 1] == bins[k] + step
      invariant |bins| > 0 ==> bins[|bins| - 1] == start && bins[0] == t + step && 1 <= bins[0]
      invariant |bins| == 0 ==> t == start
      invariant forall k | 0 <= k < |bins| :: 1 <= bins[k] <= start
      decreases t
    {
      bins := [t] + bins;
      t := t - step;
    }
  }

  /** Window starts grow by at least one per position, so the schedule is
      strictly increasing. */
  lemma {:induction false} ScheduleIncreasing(start: int, step: nat, bins: seq<int>)
    requires step >= 1 && Schedule(start, step, bins)
    ensures forall a, b | 0 <= a <= b < |bins| :: bins[a] + (b - a) <= bins[b]
    ensures Increasing(bins)
  {
    forall a, b | 0 <= a <= b < |bins| ensures bins[a] + (b - a) <= bins[b] {
      GrowsFrom(start, step, bins, a, b);
    }
  }

  lemma {:induction false} GrowsFrom(start: int, step: nat, bins: seq<int>, a: nat, b: nat)
    requires step >= 1 && Schedule(start, step, bins) && a <= b < |bins|
    ensures bins[a] + (b - a) <= bins[b]
    decreases b - a
  {
    if a < b {
      GrowsFrom(start, step, bins, a + 1, b);
      assert bins[a + 1] == bins[a] + step;
    }
  }

  /** Dropping the last window start leaves the schedule that ends one step earlier. */
  lemma ScheduleInit(start: int, step: nat, bins: seq<int>)
    requires step >= 1 && Schedule(start, step, bins) && |bins| > 0
    ensures Schedule(start - step, step, bins[..|bins| - 1])
  {
  }

  /** No window start is missed: start - m * step is in the schedule whenever
      it is at least 1. */
  lemma {:induction false} ScheduleComplete(start: int, step: nat, bins: seq<int>, m: nat)
    requires step >= 1 && Schedule(start, step, bins)
    requires start - m * step >= 1
    ensures start - m * step in bins
  {
    StepMultiple(m, step);
    assert |bins| > 0;
    if m == 0 {
      assert bins[|bins| - 1] == start;
    } else {
      var init := bins[..|bins| - 1];
      ScheduleInit(start, step, bins);
      ScheduleComplete(start - step, step, init, m - 1);
      assert start - m * step in init;
    }
  }

  /** m steps are one step more than m - 1 steps, and never negative. */
  lemma StepMultiple(m: nat, step: nat)
    ensures m * step >= 0
    ensures m >= 1 ==> m * step == (m - 1) * step + step
  {
  }

  /** With the default window n_times - 1 there is exactly one window, at t = 1. */
  lemma DefaultWindowSingleBin(nTimes: int, step: nat, bins: seq<int>)
    requires step >= 1 && Schedule(nTimes - (nTimes - 1), step, bins)
    ensures bins == [1]
  {
    ScheduleIncreasing(1, step, bins);
    assert |bins| > 0;
    assert bins[0] + (|bins| - 1) <= bins[|bins| - 1];
  }

  /** The result of rolling_corr: window starts, the correlation array (with an
      epoch axis even when it is squeezed away), its shape, and the times. */
  datatype Rolling = Rolling(timebins: seq<int>, corr: seq<seq<seq<real>>>, corrShape: seq<nat>, tCorr: seq<real>)

  /** Lines 74-80: `corr[i, ch, ep]` for every window i, channel and epoch. */
  method FillCorr(bins: seq<int>, nc: nat, ne: nat, coef: (int, nat, nat) -> real)
    returns (corr: seq<seq<seq<real>>>)
    ensures |corr| == |bins|
    ensures forall i | 0 <= i < |bins| :: |corr[i]| == nc
    ensures forall i, ch | 0 <= i < |bins| && 0 <= ch < nc :: |corr[i][ch]| == ne
    ensures forall i, ch, ep | 0 <= i < |bins| && 0 <= ch < nc && 0 <= ep < ne ::
              corr[i][ch][ep] == coef(bins[i], ch, ep)
  {
    var a := new real[|bins|, nc, ne];
    var i := 0;
    while i < |bins|
      invariant 0 <= i <= |bins|
      invariant forall i', ch, ep | 0 <= i' < i && 0 <= ch < nc && 0 <= ep < ne ::
                  a[i', ch, ep] == coef(bins[i'], ch, ep)
    {
      FillWindow(a, i, bins[i], coef);
      i := i + 1;
    }
    corr := seq(|bins|, i requires 0 <= i < |bins| reads a =>
              seq(nc, ch requires 0 <= ch < nc reads a =>
                seq(ne, ep requires 0 <= ep < ne reads a => a[i, ch, ep])));
  }

  /** The epoch and channel loops of lines 76-80 for the window at t. */
  method FillWindow(a: array3<real>, i: nat, t: int, coef: (int, nat, nat) -> real)
    requires i < a.Length0
    modifies a
    ensures forall ch, ep | 0 <= ch < a.Length1 && 0 <= ep < a.Length2 :: a[i, ch, ep] == coef(t, ch, ep)
    ensures forall i', ch, ep | 0 <= i' < a.Length0 && i' != i && 0 <= ch < a.Length1 && 0 <= ep < a.Length2 ::
              a[i', ch, ep] == old(a[i', ch, ep])
  {
    var ep := 0;
    while ep < a.Length2
      invariant 0 <= ep <= a.Length2
      invariant forall ch, e | 0 <= ch < a.Length1 && 0 <= e < ep :: a[i, ch, e] == coef(t, ch, e)
      invariant forall i', ch, e | 0 <= i' < a.Length0 && i' != i && 0 <= ch < a.Length1 && 0 <= e < a.Length2 ::
                  a[i', ch, e] == old(a[i', ch, e])
    {
      FillEpoch(a, i, ep, t, coef);
      ep := ep + 1;
    }
  }

  /** The channel loop of lines 78-80 for one window and epoch. */
  method FillEpoch(a: array3<real>, i: nat, ep: nat, t: int, coef: (int, nat, nat) -> real)
    requires i < a.Length0 && ep < a.Length2
    modifies a
    ensures forall ch | 0 <= ch < a.Length1 :: a[i, ch, ep] == coef(t, ch, ep)
    ensures forall i', ch, e | 0 <= i' < a.Length0 && 0 <= ch < a.Length1 && 0 <= e < a.Length2 && (i' != i || e != ep) ::
              a[i', ch, e] == old(a[i', ch, e])
  {
    var ch := 0;
    while ch < a.Length1
      invariant 0 <= ch <= a.Length1
      invariant forall c | 0 <= c < ch :: a[i, c, ep] == coef(t, c, ep)
      invariant forall i', c, e | 0 <= i' < a.Length0 && 0 <= c < a.Length1 && 0 <= e < a.Length2 && (i' != i || e != ep) ::
                  a[i', c, e] == old(a[i', c, e])
    {
      a[i, ch, ep] := coef(t, ch, ep);
      ch := ch + 1;
    }
  }

  /** `rolling_corr(X, y, window, fs, step)` on the shapes of X and y.
      `coef(t, ch, ep)` stands for the correlation of channel ch and epoch ep
      over the window starting at t, that is over `WindowSamples`; what the
      code as written correlates on 2-D data is `TakeLast`. */
  method RollingCorr(xs: seq<nat>, ys: seq<nat>, window: Option<int>, fs: real, step: nat,
                     coef: (int, nat, nat) -> real)
    returns (r: Result<Rolling, CorrError>)
    requires step >= 1 && fs != 0.0
    ensures r.Err? <==> CheckRolling(xs, ys, window).Err?
    ensures r.Err? ==> r.error == CheckRolling(xs, ys, window).error
    ensures r.Ok? ==>
      var L := CheckRolling(xs, ys, window).value;
      var bins := r.value.timebins;
      && Schedule(L.nTimes - L.window, step, bins)
      && (forall k | 0 <= k < |bins| :: 1 <= bins[k] && bins[k] + L.window <= L.nTimes)
      && r.value.corrShape == (if L.nEpochs == 1 then [|bins|, L.nChans] else [|bins|, L.nChans, L.nEpochs])
      && |r.value.corr| == |bins| == |r.value.tCorr|
      && (forall i | 0 <= i < |bins| :: r.value.tCorr[i] == ((bins[i] + L.window) as real) / fs)
      && (forall i | 0 <= i < |bins| :: |r.value.corr[i]| == L.nChans)
      && (forall i, ch | 0 <= i < |bins| && 0 <= ch < L.nChans :: |r.value.corr[i][ch]| == L.nEpochs)
      && (forall i, ch, ep | 0 <= i < |bins| && 0 <= ch < L.nChans && 0 <= ep < L.nEpochs ::
            r.value.corr[i][ch][ep] == coef(bins[i], ch, ep))
  {
    var checked := CheckRolling(xs, ys, window);
    if checked.Err? {
      return Err(checked.error);
    }
    var L := checked.value;
    var bins := TimeBins(L.nTimes, L.window, step);
    var nb, nc, ne := |bins|, L.nChans, L.nEpochs;
    var corr := FillCorr(bins, nc, ne, coef);
    var shape := if ne == 1 then [nb, nc] else [nb, nc, ne];
    var tCorr := seq(nb, k requires 0 <= k < nb => ((bins[k] + L.window) as real) / fs);
    r := Ok(Rolling(bins, corr, shape, tCorr));
  }

  /** A sample of a sliced signal: its time index and its epoch. */
  datatype Sample = Sample(time: int, epoch: nat)

  /** Lines 77 and 79: `np.take(S[t:t + window, ...], ep, -1)`, where S is the
      signal with the channel already selected, `axes` is the number of axes
      left and nEpochs is the length of the last one when there are two.
      With one axis the last axis is time, so the call picks the single
      sample at t + ep. With two axes it picks epoch ep over the whole
      window. Either way it raises (None) when ep is past the last axis. */
  function TakeLast(axes: nat, t: int, window: nat, ep: nat, nEpochs: nat): (r: Option<seq<Sample>>)
    requires axes == 1 || axes == 2
    ensures axes == 1 ==> (r.Some? <==> ep < window)
    ensures axes == 1 && r.Some? ==> r.value == [Sample(t + ep, 0)]
    ensures axes == 2 ==> (r.Some? <==> ep < nEpochs)
    ensures axes == 2 && r.Some? ==> |r.value| == window
    ensures axes == 2 && r.Some? ==> forall k | 0 <= k < window :: r.value[k] == Sample(t + k, ep)
  {
    if axes == 1 then
      if ep < window then Some([Sample(t + ep, 0)]) else None
    else if ep < nEpochs then
      Some(seq(window, k requires 0 <= k < window => Sample(t + k, ep)))
    else None
  }

  /** What a rolling correlation is meant to correlate: every sample of the
      window starting at t, in epoch ep (epoch 0 for data without epochs). */
  function WindowSamples(t: int, window: nat, ep: nat): (r: seq<Sample>)
    ensures |r| == window
    ensures forall k | 0 <= k < window :: r[k].time == t + k && r[k].epoch == ep
  {
    seq(window, k requires 0 <= k < window => Sample(t + k, ep))
  }

  /** On 2-D X (one axis left once the channel is selected) the code correlates
      one sample per window, where a window of two or more samples is meant. */
  lemma TwoDimDataTakesOneSample(t: int, window: nat, nEpochs: nat)
    requires window >= 2
    ensures TakeLast(1, t, window, 0, nEpochs) == Some([Sample(t, 0)])
    ensures |WindowSamples(t, window, 0)| == window
    ensures |TakeLast(1, t, window, 0, nEpochs).value| < |WindowSamples(t, window, 0)|
  {
  }

  /** On 3-D X the code and the intended window agree for every epoch the
      signal has. */
  lemma ThreeDimDataTakesWindow(t: int, window: nat, ep: nat, nEpochs: nat)
    requires ep < nEpochs
    ensures TakeLast(2, t, window, ep, nEpochs) == Some(WindowSamples(t, window, ep))
  {
  }

  // ---------------------------------------------------------------------------
  // snr_spectrum
  // ---------------------------------------------------------------------------

  /** ValueError: data must have shape (n_trials, n_chans, n_freqs) or (n_chans, n_freqs). */
  datatype SnrError = NotTwoOrThreeD

  datatype SnrLayout = SnrLayout(nTrials: nat, nChans: nat, nFreqs: nat)

  /** Lines 318-328. */
  function SnrShape(shape: seq<nat>): (r: Result<SnrLayout, SnrError>)
    ensures r.Err? <==> |shape| != 2 && |shape| != 3
    ensures r.Ok? ==> r.value.nFreqs == shape[|shape| - 1]
    ensures r.Ok? ==> r.value.nTrials == (if |shape| == 3 then shape[0] else 1)
    ensures r.Ok? ==> r.value.nChans == shape[|shape| - 2]
  {
    if |shape| == 3 then Ok(SnrLayout(shape[0], shape[1], shape[2]))
    else if |shape| == 2 then Ok(SnrLayout(1, shape[0], shape[1]))
    else Err(NotTwoOrThreeD)
  }

  /** Lines 331-332 and 398-399: the SNR array has the reshaped (n_trials * n_chans,
      n_freqs) shape, and is folded back to 3-D only when both counts exceed 1. */
  function OutputShape(L: SnrLayout): (s: seq<nat>)
    ensures L.nTrials > 1 && L.nChans > 1 ==> s == [L.nTrials, L.nChans, L.nFreqs]
    ensures L.nTrials <= 1 || L.nChans <= 1 ==> s == [L.nTrials * L.nChans, L.nFreqs]
  {
    if (if L.nTrials < L.nChans then L.nTrials else L.nChans) > 1 then [L.nTrials, L.nChans, L.nFreqs]
    else [L.nTrials * L.nChans, L.nFreqs]
  }

  /** Line 344: harmonic h of bin iBin is used when its frequency is positive
      and does not exceed the last frequency. */
  predicate Accepted(freqs: seq<real>, iBin: nat, h: int)
    requires iBin < |freqs|
  {
    freqs[iBin] > 0.0 && Harmonic(freqs, iBin, h) <= freqs[|freqs| - 1]
  }

  /** `freqs[i_bin] * (h + 1)`, the frequency of harmonic h. */
  function Harmonic(freqs: seq<real>, iBin: nat, h: int): real
    requires iBin < |freqs|
  {
    freqs[iBin] * ((h + 1) as real)
  }

  /** One harmonic further: the accepted harmonics below h being exactly those
      below n, harmonic h is accepted only when n == h, and if it is not, no
      later one is. */
  lemma AcceptedStep(freqs: seq<real>, iBin: nat, h: nat, n: nat, nHarm: int)
    requires iBin < |freqs| && n <= h
    requires forall g | 0 <= g < h :: Accepted(freqs, iBin, g) <==> g < n
    ensures Accepted(freqs, iBin, h) ==> n == h
    ensures !Accepted(freqs, iBin, h) ==> forall g | h < g < nHarm :: !Accepted(freqs, iBin, g)
  {
    if Accepted(freqs, iBin, h) && h > 0 {
      AcceptedPrefix(freqs, iBin, h - 1, h);
    }
    forall g | h < g < nHarm && Accepted(freqs, iBin, g) ensures Accepted(freqs, iBin, h) {
      AcceptedPrefix(freqs, iBin, h, g);
    }
  }

  /** The accepted harmonics form a prefix 0, 1, ..., k - 1. */
  lemma AcceptedPrefix(freqs: seq<real>, iBin: nat, g: int, h: int)
    requires iBin < |freqs| && 0 <= g <= h && Accepted(freqs, iBin, h)
    ensures Accepted(freqs, iBin, g)
  {
    var f := freqs[iBin];
    assert Harmonic(freqs, iBin, g) <= Harmonic(freqs, iBin, h) by {
      assert (g + 1) as real <= (h + 1) as real;
      assert f * ((h + 1) as real) - f * ((g + 1) as real) == f * (((h + 1) - (g + 1)) as real);
    }
  }

  /** np.argmin: k is the first index of least distance to target. */
  predicate IsFirstArgMin(freqs: seq<real>, target: real, k: int)
  {
    && 0 <= k < |freqs|
    && (forall j | 0 <= j < |freqs| :: Abs(target - freqs[k]) <= Abs(target - freqs[j]))
    && (forall j | 0 <= j < k :: Abs(target - freqs[k]) < Abs(target - freqs[j]))
  }

  /** `int(np.argmin(np.abs(target - freqs)))`. */
  method ArgMinDistance(freqs: seq<real>, target: real) returns (k: nat)
    requires |freqs| > 0
    ensures IsFirstArgMin(freqs, target, k)
  {
    k := 0;
    var j := 1;
    while j < |freqs|
      invariant 1 <= j <= |freqs| && k < j
      invariant forall m | 0 <= m < j :: Abs(target - freqs[k]) <= Abs(target - freqs[m])
      invariant forall m | 0 <= m < k :: Abs(target - freqs[k]) < Abs(target - freqs[m])
    {
      if Abs(target - freqs[j]) < Abs(target - freqs[k]) {
        k := j;
      }
      j := j + 1;
    }
  }

  /** `[t for t in tmp if t >= 0 and t < n_freqs]`. */
  function InBounds(s: seq<int>, nFreqs: nat): (r: seq<int>)
    ensures |r| <= |s|
    ensures forall t :: t in r <==> t in s && 0 <= t < nFreqs
    ensures Increasing(s) ==> Increasing(r)
  {
    if |s| == 0 then []
    else
      var rest := InBounds(s[1..], nFreqs);
      assert Increasing(s) ==> Increasing(s[1..]);
      assert Increasing(s) ==> forall k | 0 <= k < |rest| :: s[0] < rest[k] by {
        if Increasing(s) {
          forall k | 0 <= k < |rest| ensures s[0] < rest[k] {
            assert rest[k] in rest;
            var m :| 0 < m < |s| && s[m] == rest[k];
          }
        }
      }
      if 0 <= s[0] < nFreqs then [s[0]] + rest else rest
  }

  /** The clipped list keeps the original order: it is s read at increasing
      positions, and every position of s holding a value in [0, n_freqs) is
      one of them. */
  lemma InBoundsKeepsOrder(s: seq<int>, nFreqs: nat)
    ensures exists idx: seq<int> :: Embeds(idx, InBounds(s, nFreqs), s)
              && forall j | 0 <= j < |s| && 0 <= s[j] < nFreqs :: j in idx
  {
    var idx := InBoundsPositions(s, nFreqs);
  }

  /** The positions behind InBoundsKeepsOrder. */
  lemma {:induction false} InBoundsPositions(s: seq<int>, nFreqs: nat) returns (idx: seq<int>)
    ensures Embeds(idx, InBounds(s, nFreqs), s)
    ensures forall j | 0 <= j < |s| && 0 <= s[j] < nFreqs :: j in idx
  {
    if |s| == 0 {
      idx := [];
    } else {
      var x, rest := s[0], s[1..];
      assert s == [x] + rest;
      var tail := InBoundsPositions(rest, nFreqs);
      forall j | 1 <= j < |s| && 0 <= s[j] < nFreqs ensures j in ShiftUp(tail) && j in [0] + ShiftUp(tail) {
        assert rest[j - 1] == s[j];
        InShiftUp(tail, j);
      }
      if 0 <= x < nFreqs {
        EmbedsKeep(x, InBounds(rest, nFreqs), rest, tail);
        idx := [0] + ShiftUp(tail);
      } else {
        EmbedsSkip(x, InBounds(rest, nFreqs), rest, tail);
        idx := ShiftUp(tail);
      }
    }
  }

  /** Lines 354-362: the n_avg bins below and the n_avg bins above the peak p,
      each skipping skipbins bins next to it, clipped to [0, n_freqs). */
  function NoiseBins(p: int, skipbins: int, nAvg: int, nFreqs: nat): (r: seq<int>)
    ensures |r| <= 2 * (if nAvg > 0 then nAvg else 0)
    ensures forall t :: t in r <==>
              (0 <= t < nFreqs &&
               ((p - skipbins - nAvg <= t < p - skipbins) || (p + skipbins + 1 <= t < p + skipbins + 1 + nAvg)))
    ensures skipbins >= 0 ==> Increasing(r)
  {
    var low := IntRange(p - skipbins - nAvg, p - skipbins);
    var high := IntRange(p + skipbins + 1, p + skipbins + 1 + nAvg);
    assert skipbins >= 0 ==> Increasing(low + high);
    InBounds(low + high, nFreqs)
  }

  /** With skipbins >= 0 every noise bin lies more than skipbins and at most
      skipbins + n_avg bins from the peak. */
  lemma NoiseBinsDistance(p: int, skipbins: int, nAvg: int, nFreqs: nat, t: int)
    requires skipbins >= 0 && t in NoiseBins(p, skipbins, nAvg, nFreqs)
    ensures 0 <= t < nFreqs
    ensures skipbins < (if t < p then p - t else t - p) <= skipbins + nAvg
  {
  }

  /** Clipping keeps a sequence whose values already lie in [0, n_freqs). */
  lemma {:induction false} InBoundsKeepsAll(s: seq<int>, nFreqs: nat)
    requires forall k | 0 <= k < |s| :: 0 <= s[k] < nFreqs
    ensures InBounds(s, nFreqs) == s
  {
    if |s| > 0 {
      InBoundsKeepsAll(s[1..], nFreqs);
    }
  }

  /** The example of line 352, computed as the code does: peak 54, n_avg 3,
      skipbins 1 gives six bins, three on either side. */
  lemma NoiseBinsExample()
    ensures NoiseBins(54, 1, 3, 100) == [50, 51, 52, 56, 57, 58]
  {
    var low, high := IntRange(50, 53), IntRange(56, 59);
    assert low == [50, 51, 52];
    assert high == [56, 57, 58];
    assert NoiseBins(54, 1, 3, 100) == InBounds(low + high, 100);
    InBoundsKeepsAll(low + high, 100);
  }

  /** The peaks and noise bins chosen for one frequency bin. */
  datatype BinSelection = BinSelection(peaks: seq<int>, noise: seq<seq<int>>)

  /** What lines 339-363 compute for bin iBin: one peak per accepted harmonic,
      in harmonic order, each the nearest frequency bin to the harmonic, and
      its noise bins. */
  ghost predicate SelectionSpec(freqs: seq<real>, iBin: nat, nHarm: int, nAvg: int, skipbins: int,
                                nFreqs: nat, sel: BinSelection)
    requires iBin < |freqs|
  {
    && |sel.peaks| == |sel.noise|
    && |sel.peaks| <= (if nHarm > 0 then nHarm else 0)
    && (forall h | 0 <= h < nHarm :: Accepted(freqs, iBin, h) <==> h < |sel.peaks|)
    && (forall h | 0 <= h < |sel.peaks| ::
          IsFirstArgMin(freqs, Harmonic(freqs, iBin, h), sel.peaks[h])
          && sel.noise[h] == NoiseBins(sel.peaks[h], skipbins, nAvg, nFreqs))
  }

  /** The harmonic loop of lines 341-363 for one frequency bin. */
  method SelectBins(freqs: seq<real>, iBin: nat, nHarm: int, nAvg: int, skipbins: int, nFreqs: nat)
    returns (sel: BinSelection)
    requires iBin < |freqs|
    ensures SelectionSpec(freqs, iBin, nHarm, nAvg, skipbins, nFreqs, sel)
  {
    var peaks: seq<int> := [];
    var noise: seq<seq<int>> := [];
    var h := 0;
    while h < nHarm
      invariant 0 <= h <= (if nHarm > 0 then nHarm else 0)
      invariant |peaks| == |noise| && |peaks| <= h
      invariant forall g | 0 <= g < h :: Accepted(freqs, iBin, g) <==> g < |peaks|
      invariant forall g | 0 <= g < |peaks| ::
                  IsFirstArgMin(freqs, Harmonic(freqs, iBin, g), peaks[g])
                  && noise[g] == NoiseBins(peaks[g], skipbins, nAvg, nFreqs)
    {
      AcceptedStep(freqs, iBin, h, |peaks|, nHarm);
      if Accepted(freqs, iBin, h) {
        var k := ArgMinDistance(freqs, Harmonic(freqs, iBin, h));
        peaks := peaks + [k];
        // bin_peaks[h] is the peak just appended: the accepted harmonics are a prefix
        noise := noise + [NoiseBins(peaks[h], skipbins, nAvg, nFreqs)];
      }
      h := h + 1;
    }
    sel := BinSelection(peaks, noise);
  }

  /** The bin selection of snr_spectrum and the shape of its result. */
  datatype SnrPlan = SnrPlan(outShape: seq<nat>, bins: seq<BinSelection>)

  /** `snr_spectrum(data, freqs, n_avg, n_harm, skipbins)` without the ratio:
      the shape checks, the loop over frequency bins and the result shape. */
  method SnrSpectrum(shape: seq<nat>, freqs: seq<real>, nAvg: int, nHarm: int, skipbins: int)
    returns (r: Result<SnrPlan, SnrError>)
    requires (|shape| == 2 || |shape| == 3) ==> |freqs| == shape[|shape| - 1]
    ensures r.Err? <==> |shape| != 2 && |shape| != 3
    ensures r.Ok? ==>
      var L := SnrShape(shape).value;
      && r.value.outShape == OutputShape(L)
      && |r.value.bins| == L.nFreqs
      && forall b | 0 <= b < L.nFreqs ::
           SelectionSpec(freqs, b, nHarm, nAvg, skipbins, L.nFreqs, r.value.bins[b])
  {
    var layout := SnrShape(shape);
    if layout.Err? {
      return Err(layout.error);
    }
    var L := layout.value;
    var bins: seq<BinSelection> := [];
    var b := 0;
    while b < L.nFreqs
      invariant 0 <= b <= L.nFreqs && |bins| == b
      invariant forall c | 0 <= c < b :: SelectionSpec(freqs, c, nHarm, nAvg, skipbins, L.nFreqs, bins[c])
    {
      var sel := SelectBins(freqs, b, nHarm, nAvg, skipbins, L.nFreqs);
      bins := bins + [sel];
      b := b + 1;
    }
    r := Ok(SnrPlan(OutputShape(L), bins));
  }
}
