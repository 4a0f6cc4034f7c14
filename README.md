# meegkit denoising and statistics helpers, modelled in Dafny

This project models the helper routines that the rest of meegkit's
denoising methods rely on, and proves properties of them:

- from `meegkit/utils/denoise.py`:
  - `demean`: weighted or plain column means, removed from the data.
  - `wpwr`: weighted power and total weight.
  - `find_outlier_samples`: three absolute-threshold passes, interleaved with
    re-demeaning, followed by an optional relative power threshold.
  - `find_outlier_trials`: normalised trial deviations, then recursive
    rejection over a list of thresholds that it consumes with `pop(0)`.
- from `meegkit/utils/stats.py`:
  - `rolling_corr`: the argument checks, the window-start schedule
    (`timebins`), the shape of the correlation array and the time vector
    `t_corr`.
  - `snr_spectrum`: the shape checks, and for every frequency bin the choice
    of harmonics, peak bins and neighbouring noise bins, plus the shape of
    the result.

Values are exact reals. Arrays are 2-D (samples × channels, or channels ×
trials). The module layout is:

- `Arrays` (arrays.dfy): the shared results, matrices, sums and lemmas.
- `Denoise` (denoise.dfy).
- `Stats` (stats.dfy).

Python exceptions are modelled as `Result.Err`, with one constructor per
kind of error. `Stats.NoTimeAxis` stands for both IndexErrors of
`rolling_corr` (`X.shape[0]` at stats.py line 61 and `y.shape[0]` or
`X.shape[0]` at line 66).

The code works in place in several spots, and the model does the same:

- `find_outlier_samples` masks a weight buffer in place. `Denoise.FindOutlierSamples`
  does this on an `array2<real>`, and each in-place step is proved equal to a
  function on values. Its relative step is the corrected one (see
  "## Findings"). The step as written is modelled on values only, by
  `Denoise.OutlierSamplesAsWritten`.
- `find_outlier_trials` consumes its threshold list. The list is a class,
  `Denoise.ThresholdList`, whose `PopFront` removes the first entry. The
  recursive method `Denoise.OutlierTrialsRec` empties the list and returns
  exactly `Denoise.OutlierTrials` of the original threshold list.
- The loops of `rolling_corr` and `snr_spectrum` (the time-bin schedule, the
  correlation fill, the harmonic loop and `argmin`) are methods with loop
  invariants. Each is proved against a predicate that states its result
  outright.

## Model

| member | source | states |
|---|---|---|
| Arrays.SumShift | meegkit/utils/denoise.py:46 | Subtracting a constant m from n values lowers their sum by n·m. Used by the zero-mean lemmas. |
| Arrays.DotShift | meegkit/utils/denoise.py:40-46 | The weighted sum of x − m equals the weighted sum of x minus m times the weight total. |
| Arrays.SumColSums | meegkit/utils/denoise.py:185-187 | Adding up the column sums of a matrix gives the sum of all its entries. So the per-trial deviations add up to `np.sum` over the whole array. |
| Arrays.IntRange | meegkit/utils/denoise.py:226 | `np.arange(a, b)` and `range(n)`: b − a consecutive integers from a, increasing, holding exactly the integers in [a, b). Also used for the noise-bin ranges at stats.py lines 354-358. |
| Arrays.IncreasingFull | meegkit/utils/denoise.py:225-226 | n strictly increasing indices below n are all of 0..n−1. So "fewer kept than trials" is the same as "something was rejected". |
| Denoise.Demean | meegkit/utils/denoise.py:32-49 | It raises exactly when the weights are not all zero and either their row count differs from X, or their column count is neither 1 nor X's. A row mismatch raises the "same number of samples" error. Otherwise the shape is kept, there is one mean per column, and every output entry is the input entry minus its column's mean. |
| Denoise.DemeanWeightedBalance | meegkit/utils/denoise.py:39-46 | With usable weights whose column total is nonzero, the weighted sum of the demeaned column is exactly 0. |
| Denoise.DemeanFallbackBalance | meegkit/utils/denoise.py:47-49 | With all-zero weights, the mean of a column is its plain average and the demeaned column sums to 0. |
| Denoise.DemeanSingleColumnWeights | meegkit/utils/denoise.py:39-41 | A one-column weight array gives the same result as that column repeated across every channel. tests/test_utils.py:155-168 expects this equivalence. |
| Denoise.BroadcastMul | meegkit/utils/denoise.py:105 | numpy broadcasting of `X * weights`: the result shape follows the broadcast rule, and each entry is the product of the entries that broadcasting pairs. |
| Denoise.Wpwr | meegkit/utils/denoise.py:96-112 | Non-empty weights that do not broadcast against X raise. The power is never negative. Empty weights give the power Σx² and the total weight X.size. Weights that broadcast give the total weight Σw and the power Σ(x·w)² over the broadcast product, so an n × 1 weight column counts each wᵢ against every channel. |
| Denoise.WpwrSameShape | meegkit/utils/denoise.py:104-107 | With weights of X's shape, the total weight is the sum of all weights and the power is the sum of (x·w)². |
| Denoise.WpwrUnitWeights | meegkit/utils/denoise.py:104-110 | Unit weights give the same power and total weight as passing no weights. |
| Denoise.Mask | meegkit/utils/denoise.py:124 | It zeroes exactly the weights whose sample has \|x\| > toobig1 and keeps the others. |
| Denoise.ZeroRows | meegkit/utils/denoise.py:139-140 | In the corrected reading, it zeroes the whole weight row of every sample with some channel whose power exceeds toobig2 times that channel's weighted mean power. Other rows are unchanged. |
| Denoise.AbsolutePassesZeroExactly | meegkit/utils/denoise.py:121-131 | After the three absolute passes, every weight is 0 or 1. A weight is 0 exactly when the sample exceeded toobig1 in the raw data, or in the data demeaned after the first or the second pass. |
| Denoise.OutlierSamplesNoThresholds | meegkit/utils/denoise.py:132-136 | With no absolute threshold and no relative threshold, every weight is 1. |
| Denoise.RelativeStepZeroesRows | meegkit/utils/denoise.py:136-140 | In the corrected reading of the relative step, a weight is 0 exactly when the absolute step zeroed it or its sample's row exceeded the relative threshold. |
| Denoise.OutlierSamplesOnlyZeroes | meegkit/utils/denoise.py:115-144 | Every weight that is returned is 0 or 1. |
| Denoise.TiledRowsAllOrNothing | meegkit/utils/denoise.py:138-140 | Comparing a tiled mean with itself gives the same verdict for every row, so either all rows or none are zeroed. |
| Denoise.AsWrittenAllOrNothing | meegkit/utils/denoise.py:136-140 | As written, the relative step zeroes every weight row or none of them. |
| Denoise.ExampleMeanPower | meegkit/utils/denoise.py:137 | For the samples 0, 0, 0, 10 in one channel, the mean power is 25. |
| Denoise.TiledOneChannelZeroes | meegkit/utils/denoise.py:138-140 | With one channel whose mean power m satisfies m² > m·toobig2, the tiled comparison zeroes every weight row. |
| Denoise.AsWrittenZeroesQuietSamples | meegkit/utils/denoise.py:136-140 | For the samples 0, 0, 0, 10 with toobig2 = 2, the code as written zeroes all four weights. |
| Denoise.CorrectedZeroesLoudSample | meegkit/utils/denoise.py:136-140 | On the same input, the corrected step zeroes only the sample at 10. |
| Denoise.OutlierSamples | meegkit/utils/denoise.py:115-140 | The weights have X's shape. The corrected function, whose behaviour the lemmas above state. |
| Denoise.OutlierSamplesAsWritten | meegkit/utils/denoise.py:136-140 | The weights have X's shape. The relative step as the code performs it. |
| Denoise.NewOnes | meegkit/utils/denoise.py:121 | It returns a fresh n × c buffer of ones. |
| Denoise.MaskInPlace | meegkit/utils/denoise.py:124 | It masks the buffer in place. Its new contents are `Mask` of its old contents. |
| Denoise.ZeroRowsInPlace | meegkit/utils/denoise.py:139-140 | It zeroes rows in place. Its new contents are `ZeroRows` of its old contents. |
| Denoise.FindOutlierSamples | meegkit/utils/denoise.py:115-144 | The loop-and-buffer implementation returns exactly `OutlierSamples`, so it performs the corrected relative step. |
| Denoise.TrialScore | meegkit/utils/denoise.py:183-187 | A trial's deviation is NaN exactly when the total power of X is 0. Otherwise it is non-negative, and it is the trial's squared deviation from the trial mean times n_trials, divided by the total power. |
| Denoise.ZeroMeanDeviationsTotal | meegkit/utils/denoise.py:183-187 | When every trial mean is 0, the squared deviations of all trials add up to the total power. |
| Denoise.DeviationsSumToTrials | meegkit/utils/denoise.py:183-187 | When every trial mean is 0 and the power is nonzero, the scores add up to n_trials. So they average to 1, and the normaliser is the average deviation. |
| Denoise.ZeroMeanThresholdMeaning | meegkit/utils/denoise.py:150-151 | When every trial mean is 0, a trial is kept by t exactly when its squared deviation is below t times the average squared deviation, as the docstring says. |
| Denoise.WhereBelow | meegkit/utils/denoise.py:188 | `np.where(d < thresh)[0]` is strictly increasing, has indices below n, and contains j exactly when d[j] is below the threshold. NaN is never below. |
| Denoise.SetDiff | meegkit/utils/denoise.py:222 | `np.setdiff1d` is increasing, takes its values from its first argument, and contains exactly the members of the first argument that are not in the second. |
| Denoise.Rejected | meegkit/utils/denoise.py:224-226 | The rejected trials are increasing, lie below n_trials, and are exactly the trials that were not kept. The list is empty when every trial is kept. |
| Denoise.FirstKept | meegkit/utils/denoise.py:183-188 | The trials kept by the first threshold are exactly those whose deviation is below it. |
| Denoise.Kept | meegkit/utils/denoise.py:188-222 | The recursion over the remaining thresholds keeps an increasing subset of the first threshold's kept trials. With one threshold it keeps exactly those. With more, the k-th trial kept by the first threshold survives exactly when trial k of `X[:, idx]` is kept under the remaining thresholds, so the survivors are re-scored among themselves. |
| Denoise.OutlierTrials | meegkit/utils/denoise.py:183-228 | `d` has one entry per trial. `bads` is increasing and below n_trials, and holds exactly the trials that are not kept. |
| Denoise.SingleThreshold | meegkit/utils/denoise.py:188-226 | With one threshold, a trial is rejected exactly when its deviation is not below the threshold. |
| Denoise.NoThresholdRejectsNothing | meegkit/utils/denoise.py:170-171 | With the default threshold ∞, nothing is rejected unless X has zero power, in which case every deviation is NaN and every trial is rejected. |
| Denoise.MoreThresholdsRejectMore | meegkit/utils/denoise.py:218-222 | Extra thresholds leave `d` unchanged and never bring back a trial that the first threshold rejected. tests/test_utils.py:220-224 relies on this. |
| Denoise.ThresholdList.PopFront | meegkit/utils/denoise.py:218 | `thresh.pop(0)` returns the first threshold and leaves the rest. |
| Denoise.OutlierTrialsRec | meegkit/utils/denoise.py:183-228 | The recursive call consumes the whole list and returns `OutlierTrials` of the thresholds it held on entry. |
| Denoise.FindOutlierTrials | meegkit/utils/denoise.py:170-228 | It fails exactly in these cases. More than 3 dimensions raise "X should be 2D or 3D". Fewer than 2 raise the unpacking error. An empty list or array raises IndexError at `thresh[0]`. A non-empty ndarray or tuple raises AttributeError at `thresh.pop(0)` (line 218). On error, a list argument is left unchanged. Otherwise the list is emptied and the result is `OutlierTrials` with [∞], [t] or the list's thresholds. |
| Denoise.FindOutlierTrialsCorrected | meegkit/utils/denoise.py:170-228 | The intended variant: the same errors, except that a non-empty ndarray or tuple is accepted. Its thresholds are consumed in order and the result is `OutlierTrials` of them. |
| Stats.Squeeze | meegkit/utils/stats.py:62-63 | `np.squeeze` never lengthens a shape and leaves no axis of length 1. `SqueezeKeepsOrder` states which axes it keeps. |
| Stats.SqueezeKeepsOrder | meegkit/utils/stats.py:62-63 | The squeezed shape is the input shape read at increasing positions, and every axis whose length is not 1 is among them. With the line above, this means exactly the length-1 axes are dropped and the order is kept. |
| Stats.CheckRolling | meegkit/utils/stats.py:60-71 | The default window is n_times − 1. The checks pass exactly when X has 1 to 3 axes, the squeezed y has 1 or 2, and they share n_times. Each failure has its own error. More than 3 data dimensions raise "Data must be 2D or 3D". A missing time axis raises an IndexError. A time-axis mismatch raises "same time axis". A matching y with more than 2 axes raises "y must be at most 2D". |
| Stats.ReferenceSqueezed | meegkit/utils/stats.py:62-69 | A 3-D reference with singleton extra axes is squeezed and passes the checks of lines 62-69. One with longer extra axes stays 3-D and raises "y must be at most 2D". |
| Stats.TimeBins | meegkit/utils/stats.py:72 | The window starts form the reversed `arange(n_times − window, 0, −step)`. Each window start t satisfies 1 ≤ t and t + window ≤ n_times. |
| Stats.ScheduleIncreasing | meegkit/utils/stats.py:72 | Window starts grow by at least one per position, so they are strictly increasing. |
| Stats.ScheduleComplete | meegkit/utils/stats.py:72 | Every value n_times − window − m·step that is at least 1 is a window start. |
| Stats.DefaultWindowSingleBin | meegkit/utils/stats.py:60-61 | With the default window there is exactly one window, at t = 1. |
| Stats.FillCorr | meegkit/utils/stats.py:74-80 | The filled array has one entry per (window, channel, epoch), and entry [i][ch][ep] is the coefficient of window bins[i] for that channel and epoch. |
| Stats.FillWindow | meegkit/utils/stats.py:76-80 | It fills every (channel, epoch) entry of window i and leaves the other windows unchanged. |
| Stats.FillEpoch | meegkit/utils/stats.py:78-80 | It fills every channel of one window and epoch and leaves every other entry unchanged. |
| Stats.RollingCorr | meegkit/utils/stats.py:36-90 | It raises the errors of lines 60-69 exactly as `CheckRolling` states. Failures inside the loop are not modelled (see "## Left out"). It fills one correlation per (window, channel, epoch), and drops the epoch axis from the shape when there is one epoch. `t_corr[i]` is (timebins[i] + window)/fs, and its length equals `corr.shape[0]`. |
| Stats.TakeLast | meegkit/utils/stats.py:77-79 | `np.take(S[t:t + window, ...], ep, -1)`. When one axis is left after the channel is selected, it picks the single sample at t + ep, and it raises when ep is outside the window. When two axes are left, it picks epoch ep over every sample of the window, and it raises when ep is not below the signal's epoch count. |
| Stats.WindowSamples | meegkit/utils/stats.py:74-80 | The samples a window correlation is meant to use: times t to t + window − 1 of one epoch. |
| Stats.TwoDimDataTakesOneSample | meegkit/utils/stats.py:77-79 | With 2-D X (or 1-D y) and a window of at least two samples, the code takes the single sample at time t, fewer than the window holds. |
| Stats.ThreeDimDataTakesWindow | meegkit/utils/stats.py:77-79 | With 3-D X (or 2-D y), the code takes exactly the intended window samples. |
| Stats.SnrShape | meegkit/utils/stats.py:318-328 | Only 2-D or 3-D data are accepted. It reads n_trials (1 for 2-D), n_chans and n_freqs. |
| Stats.OutputShape | meegkit/utils/stats.py:331-399 | The SNR is folded back to (n_trials, n_chans, n_freqs) only when both counts exceed 1. Otherwise it stays (n_trials·n_chans, n_freqs). |
| Stats.AcceptedPrefix | meegkit/utils/stats.py:344 | If harmonic h is accepted, so is every harmonic below it. |
| Stats.AcceptedStep | meegkit/utils/stats.py:341-349 | The accepted harmonics form a prefix. So `bin_peaks[h]` is always the peak just appended, and the indexing at line 354 cannot fail. |
| Stats.ArgMinDistance | meegkit/utils/stats.py:348 | `np.argmin` finds the first index of least distance to the harmonic. |
| Stats.InBounds | meegkit/utils/stats.py:362 | The clipped bins are exactly the bins in [0, n_freqs), and they stay increasing when the input is. `InBoundsKeepsOrder` states the order. |
| Stats.InBoundsKeepsOrder | meegkit/utils/stats.py:362 | The clipped list is the input read at increasing positions, and every position whose bin lies in [0, n_freqs) is among them. So the comprehension keeps exactly those entries, in their original order. |
| Stats.NoiseBins | meegkit/utils/stats.py:354-362 | A bin is a noise bin exactly when it lies in [0, n_freqs) and within n_avg bins beyond skipbins on either side of the peak. There are at most 2·n_avg, and they are increasing when skipbins ≥ 0. |
| Stats.NoiseBinsDistance | meegkit/utils/stats.py:354-362 | With skipbins ≥ 0, every noise bin lies more than skipbins and at most skipbins + n_avg bins from its peak. |
| Stats.NoiseBinsExample | meegkit/utils/stats.py:352-358 | Peak 54 with n_avg 3 and skipbins 1 gives the bins 50, 51, 52, 56, 57 and 58. |
| Stats.SelectBins | meegkit/utils/stats.py:339-363 | For one bin: peaks are appended exactly for the accepted harmonics, in order. Each peak is the first bin nearest to its harmonic, and each noise list is `NoiseBins` of its peak. |
| Stats.SnrSpectrum | meegkit/utils/stats.py:318-399 | It raises exactly for data that are neither 2-D nor 3-D. Otherwise it makes one selection per frequency bin, each as `SelectBins` states, and the result has `OutputShape`. |

## Left out

- Demean: a weight column whose total is 0 (with other weights nonzero) gets mean 0 in the model. numpy gives NaN there when the weighted sum is also 0, and ±inf when signed weights sum to 0 but the weighted sum is nonzero.
- Demean: the 3-D handling (`theshapeof`, `unfold`, `fold`, lines 28-30 and 51-55) is treated as the identity on 2-D data. `meegkit/utils/matrix.py` is not part of this model. The model assumes that `theshapeof` pads missing trailing axes with 1.
- Wpwr: 1-D weight vectors and weights with a third axis are not modelled. Weights are 2-D and broadcast by numpy's rule.
- OutlierSamples: inherits Demean's mean-0 convention. A channel whose every weight is zeroed, while some other weight is nonzero, gets mean power 0, so the corrected step zeroes every row where that channel is nonzero. numpy's NaN mean there would zero no row.
- OutlierSamples: `toobig2` is one number (or None, or 0, which the source treats as false). A list of relative thresholds is not modelled.
- FindOutlierTrials: the plotting branch (`show=True`, lines 190-216) is left out. Its recursive call on the kept trials only feeds the plot.
- TrialScore: the scores are normalised by the mean power per trial (line 187). That equals the average deviation that lines 150-151 describe only when every trial mean is 0 (`DeviationsSumToTrials`, `ZeroMeanThresholdMeaning`). Otherwise the model follows the code's normaliser.
- FindOutlierTrials: only 2-D data are given a view; a 3-D X is represented by its reshape to (n_samples·n_chans, n_trials).
- Denoise.ThresholdList.PopFront: requires a non-empty list. The Python `pop(0)` on an empty list is never reached, because `thresh[0]` raises first.
- RollingCorr: the correlation coefficients themselves are a parameter `coef`, read as the correlation over `WindowSamples`. The samples the code actually hands to `np.corrcoef` are modelled separately by `TakeLast`, and the correlation arithmetic is not modelled.
- RollingCorr: what the loop body (lines 77-80) does on 2-D X is not reflected in its result. On every 2-D X the channel's slice has one axis, so `np.take` picks the single sample X[t, ch] (`TwoDimDataTakesOneSample`). Each entry then correlates two single values when y is 1-D. When y is 2-D it raises for a window of two or more samples, and gives NaN for a window of one. The method still returns the correlations given by `coef` there. Two other failures in the loop body are not reflected in its result either. With a 1-D X, the indexing `X[t:t + window, ch, ...]` at line 79 raises before `np.take` runs. With a y that has fewer epoch columns than X, `np.take` at line 77 raises; `TakeLast` models this raise, but `RollingCorr` does not use it.
- RollingCorr: requires step ≥ 1 and fs ≠ 0. With step = 0, `np.arange` raises. A negative step gives `np.arange(n_times − window, 0, |step|)`. That range is empty unless n_times − window is negative. Otherwise, after `[::-1]`, its starts are negative and descending, and Python reads them from the end of the data. fs = 0 gives inf or NaN times rather than an error. None of these cases is modelled.
- SnrSpectrum: the noise-corrected ratio (lines 366-395, including the mean/median pooling and the replacement of inf, 0 and NaN by 1) involves square roots and medians of spectra and is left out. The model computes the selected peak and noise bins on which that ratio is built.
- SnrSpectrum: requires len(freqs) == n_freqs once the shape is accepted. The source does not check this.
- Other functions in the two files (`mean_over_trials`, `rms`, `robust_mean`, `bootstrap_ci`, `bootstrap_snr`, `cronbach`) are outside the modelled core. So are `meegkit/utils/cca.py` and `meegkit/dss.py`, whose canonical-correlation and denoising algorithms build on the helpers.

## Findings

| source | as written | input that shows it | evidently intended | confidence | as-written member | corrected member |
|---|---|---|---|---|---|---|
| meegkit/utils/denoise.py:136-140 | `X` is overwritten by the tiled mean power, so `X ** 2 > X * toobig2` compares the mean with itself. Every row gives the same verdict, and all weights or none are zeroed. | One channel with samples 0, 0, 0, 10, toobig1 None, toobig2 2: the mean power is 25 and 25² > 25·2, so all four weights become 0. | Compare each sample's power with toobig2 times its channel's mean power, zeroing only the sample at 10. | medium, not executed | Denoise.AsWrittenZeroesQuietSamples | Denoise.CorrectedZeroesLoudSample |
| meegkit/utils/denoise.py:156-218 | The docstring allows "float or array of floats" for `thresh`, but line 218 calls `thresh.pop(0)`, which only a list has. | `thresh = np.array([2.0])` on valid 2-D data: `thresh[0]` at line 188 succeeds, then line 218 raises AttributeError. | Any sequence of thresholds is consumed in order, as a list would be. | medium, not executed | Denoise.FindOutlierTrials | Denoise.FindOutlierTrialsCorrected |
| meegkit/utils/stats.py:77-79 | On 2-D X, `X[t:t + window, ch, ...]` has one axis, so `np.take(..., ep, -1)` with ep = 0 picks the single sample X[t, ch] (and y[t] for a 1-D y). No window is correlated. | X of shape (10, 2), y of shape (10,), window 5: each of corr[i, ch] correlates X[t, ch] with y[t] instead of 5 samples of each. | Correlate channel ch and epoch ep over every sample of the window, as 3-D data already do. | medium, not executed | Stats.TwoDimDataTakesOneSample | Stats.WindowSamples |
