/**
 * Choice of the asset universe (app.py lines 230-234, and the test at line 171).
 *
 * An uploaded CSV becomes a list of tickers cut to its first 100 entries; without
 * an upload (or with an empty list) the dashboard uses its cached default data.
 */
module Tickers {
  import opened Outcomes

  const MaxTickers: nat := 100

  /** `[:100]`: the first MaxTickers tickers, or all of them when there are fewer. */
  function Truncate(tickers: seq<string>): (r: seq<string>)
    ensures r <= tickers
    ensures |r| <= MaxTickers
    ensures |tickers| <= MaxTickers ==> r == tickers
    ensures |tickers| >= MaxTickers ==> |r| == MaxTickers
  {
    tickers[..if |tickers| < MaxTickers then |tickers| else MaxTickers]
  }

  /** app.py:230-234: the truncated upload, or no list at all. */
  function SelectAssets(uploaded: Option<seq<string>>): (r: Option<seq<string>>)
    ensures r.Some? <==> uploaded.Some?
    ensures r.Some? ==> |r.value| <= MaxTickers && r.value <= uploaded.value
  {
    match uploaded
    case None => None
    case Some(tickers) => Some(Truncate(tickers))
  }

  /** app.py:171: `not asset_list` holds for a missing list and for an empty one. */
  predicate UsesCachedData(assetList: Option<seq<string>>) {
    assetList.None? || assetList.value == []
  }

  /** Truncating twice is truncating once. */
  lemma TruncateIdempotent(tickers: seq<string>)
    ensures Truncate(Truncate(tickers)) == Truncate(tickers)
  {
  }

  /** When the dashboard downloads data for an uploaded list, that list has between 1 and 100 tickers, in upload order. */
  lemma DownloadedUniverseSize(uploaded: Option<seq<string>>)
    ensures !UsesCachedData(SelectAssets(uploaded)) ==>
              uploaded.Some? &&
              1 <= |SelectAssets(uploaded).value| <= MaxTickers &&
              SelectAssets(uploaded).value == uploaded.value[..|SelectAssets(uploaded).value|]
  {
  }
}
