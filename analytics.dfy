/**
 * The analytics counters the ad gate updates through `incrementAdsWatched`
 * and `incrementAdsSkipped`. Their store is not part of this model: each
 * counter is a natural number that an increment raises by one.
 */
module Analytics {

  class Counters {
    var adsWatched: nat
    var adsSkipped: nat

    /** A fresh analytics state: both counters at zero. */
    constructor ()
      ensures adsWatched == 0 && adsSkipped == 0
    {
      adsWatched, adsSkipped := 0, 0;
    }

    /** `incrementAdsWatched`: one more watched ad, skips unchanged. */
    method IncrementAdsWatched()
      modifies this
      ensures adsWatched == old(adsWatched) + 1
      ensures adsSkipped == old(adsSkipped)
    {
      adsWatched := adsWatched + 1;
    }

    /** `incrementAdsSkipped`: one more skipped ad, watches unchanged. */
    method IncrementAdsSkipped()
      modifies this
      ensures adsSkipped == old(adsSkipped) + 1
      ensures adsWatched == old(adsWatched)
    {
      adsSkipped := adsSkipped + 1;
    }
  }
}
