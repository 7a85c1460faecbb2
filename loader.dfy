/**
  `wait_until_loader_hidden` of gather_utils.py: poll the `#loader`
  visibility until it has been hidden for `require_stable_samples`
  consecutive polls.

  The polls are the finite sequence `samples`, one per call of
  `is_loader_visible` that fits before the deadline: `Ok(true)` for
  "visible", `Ok(false)` for "hidden", `Err(e)` for the exception the probe
  raised. Running out of samples is reaching the deadline.
 */
module Loader {
  import opened Common

  /** The run length that ends the wait: a threshold below 1 is met by the first hidden sample. */
  function Need(requireStableSamples: int): (m: nat)
    ensures m >= 1 && m >= requireStableSamples
  {
    if requireStableSamples > 1 then requireStableSamples else 1
  }

  /** Samples `k - m + 1` to `k` are all "hidden". */
  predicate RunEndsAt(samples: seq<Result<bool>>, k: int, m: nat)
  {
    m - 1 <= k < |samples| && forall j :: k - m + 1 <= j <= k ==> samples[j] == Ok(false)
  }

  /** No run of `m` hidden samples ends before index `k`. */
  predicate NoRunBefore(samples: seq<Result<bool>>, k: int, m: nat)
  {
    forall j :: 0 <= j < k ==> !RunEndsAt(samples, j, m)
  }

  /** Every sample before index `k` was taken without an exception. */
  predicate NoErrorBefore(samples: seq<Result<bool>>, k: int)
  {
    forall j :: 0 <= j < k && j < |samples| ==> samples[j].Ok?
  }

  /**
    The polling loop. True as soon as the first run of `Need(...)`
    consecutive hidden samples is complete; False when the samples run out
    without one; the probe's exception when it raises before either.
   */
  method WaitUntilLoaderHidden(samples: seq<Result<bool>>, requireStableSamples: int) returns (r: Result<bool>)
    ensures r == Ok(true) ==>
              exists k :: && 0 <= k < |samples| && RunEndsAt(samples, k, Need(requireStableSamples))
                          && NoRunBefore(samples, k, Need(requireStableSamples)) && NoErrorBefore(samples, k)
    ensures r == Ok(false) ==>
              NoRunBefore(samples, |samples|, Need(requireStableSamples)) && NoErrorBefore(samples, |samples|)
    ensures r.Err? ==>
              exists e :: && 0 <= e < |samples| && samples[e] == Err(r.error)
                          && NoRunBefore(samples, e, Need(requireStableSamples)) && NoErrorBefore(samples, e)
    ensures (exists k :: && 0 <= k < |samples| && RunEndsAt(samples, k, Need(requireStableSamples))
                         && NoErrorBefore(samples, k)) ==> r == Ok(true)
  {
    var m := Need(requireStableSamples);
    var stable: nat := 0;
    var i := 0;
    while i < |samples|
      invariant 0 <= stable <= i <= |samples|
      invariant stable < m
      invariant forall j :: i - stable <= j < i ==> samples[j] == Ok(false)
      invariant i > stable ==> samples[i - stable - 1] != Ok(false)
      invariant NoRunBefore(samples, i, m)
      invariant NoErrorBefore(samples, i)
      decreases |samples| - i
    {
      match samples[i] {
        case Err(e) =>
          return Err(e);
        case Ok(visible) =>
          if !visible {
            stable := stable + 1;
            if stable >= m {
              assert RunEndsAt(samples, i, m);
              return Ok(true);
            }
            assert !RunEndsAt(samples, i, m) by {
              if i >= m - 1 {
                assert samples[i + 1 - stable - 1] != Ok(false);
              }
            }
          } else {
            stable := 0;
          }
      }
      i := i + 1;
    }
    r := Ok(false);
  }

  /** A visible sample inside a window breaks the run: the counter starts again after it. */
  lemma VisibleResets(samples: seq<Result<bool>>, v: nat, m: nat)
    requires v < |samples| && samples[v] == Ok(true)
    ensures forall k :: v <= k < v + m && k < |samples| ==> !RunEndsAt(samples, k, m)
  {
    forall k | v <= k < v + m && k < |samples|
      ensures !RunEndsAt(samples, k, m)
    {
      assert k - m + 1 <= v <= k && samples[v] != Ok(false);
    }
  }
}
