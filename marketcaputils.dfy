/** `fetchAndCalculateMarketCap` and its module-level cache: market-cap
    details per bonding curve, kept for five minutes under the lowercased
    curve address. */
module MarketCapUtils {
  import opened Wrappers
  import opened JsString

  const CacheTtl: int := 5 * 60 * 1000
  const HardcodedTotalSupply: string := "1000000"

  /** `MarketCapDetails`; every field may be absent. */
  datatype Details = Details(
    actualProviderTokenAddress: Option<string>,
    tokenTotalSupply: Option<string>,
    tokenPriceInCordex: Option<string>,
    marketCap: Option<string>,
    tokenDecimals: Option<int>)

  datatype CacheEntry = CacheEntry(data: Details, timestamp: int)

  function CacheKey(bondingCurveAddress: string): (r: string)
    ensures |r| == |bondingCurveAddress| && ToLower(r) == r
  {
    ToLowerIdempotent(bondingCurveAddress);
    ToLower(bondingCurveAddress)
  }

  /** The cached details for `key` at time `now`, if the entry is younger
      than the TTL. */
  function Lookup(cache: map<string, CacheEntry>, key: string, now: int): (r: Option<Details>)
    ensures r.Some? <==> key in cache && now - cache[key].timestamp < CacheTtl
    ensures r.Some? ==> r.value == cache[key].data
  {
    if key in cache && now - cache[key].timestamp < CacheTtl then Some(cache[key].data) else None
  }

  /** The details a fresh fetch computes, or the partial record the catch
      returns when reading the token's decimals throws. `token` is what
      `getProviderTokenAddressFromBondingCurve` gave (it never throws, and
      maps the zero address to null), `price` what `getCurrentPrice` gave
      (it never throws either), and `marketCap` the two-decimal product
      of supply and price, None when the price is not positive. */
  function FreshDetails(token: Option<string>, decimals: Result<int>, price: string,
                        marketCap: Option<string>): (r: Result<Details>)
    ensures token.None? ==> r == Ok(Details(None, None, None, None, None))
    ensures token.Some? && decimals.Err? ==> r.Err?
    ensures r.Ok? && token.Some? ==>
      r.value.tokenTotalSupply == Some(HardcodedTotalSupply) && r.value.actualProviderTokenAddress == token
      && r.value.tokenDecimals == Some(decimals.value) && r.value.tokenPriceInCordex == Some(price)
  {
    match token
    case None => Ok(Details(None, None, None, None, None))
    case Some(t) =>
      match decimals
      case Err(m) => Err(m)
      case Ok(d) =>
        var mc := if HardcodedTotalSupply != "" && price != "" then marketCap else None;
        Ok(Details(Some(t), Some(HardcodedTotalSupply), Some(price), mc, Some(d)))
  }

  /** The record the catch block returns once `token` has been stored: the
      address, and every other field undefined. */
  function PartialDetails(token: Option<string>): (r: Details)
    ensures r.marketCap.None? && r.tokenTotalSupply.None? && r.tokenPriceInCordex.None? && r.tokenDecimals.None?
    ensures r.actualProviderTokenAddress == token
  {
    Details(token, None, None, None, None)
  }

  class MarketCapCache {
    /** `marketCapCache`, keyed by lowercased curve address. */
    var entries: map<string, CacheEntry>

    constructor ()
      ensures entries == map[]
    {
      entries := map[];
    }

    method FetchAndCalculateMarketCap(hasClient: bool, bondingCurveAddress: string, now: int,
                                      token: Option<string>, decimals: Result<int>, price: string,
                                      marketCap: Option<string>)
      returns (r: Option<Details>)
      modifies this
      ensures !hasClient || bondingCurveAddress == "" ==> r.None? && entries == old(entries)
      ensures hasClient && bondingCurveAddress != "" ==>
        var key := CacheKey(bondingCurveAddress);
        var cached := Lookup(old(entries), key, now);
        var computed := FreshDetails(token, decimals, price, marketCap);
        if cached.Some? then r == cached && entries == old(entries)
        else if computed.Ok? then r == Some(computed.value) && entries == old(entries)[key := CacheEntry(computed.value, now)]
        else r == Some(PartialDetails(token)) && entries == old(entries)
    {
      if !hasClient || bondingCurveAddress == "" {
        return None;
      }
      var cacheKey := ToLower(bondingCurveAddress);
      var currentTime := now;
      if cacheKey in entries && currentTime - entries[cacheKey].timestamp < CacheTtl {
        return Some(entries[cacheKey].data);
      }
      var details := Details(None, None, None, None, None);
      details := details.(actualProviderTokenAddress := token);
      if details.actualProviderTokenAddress.Some? {
        if decimals.Err? {
          return Some(Details(details.actualProviderTokenAddress, None, None, None, None));
        }
        details := details.(tokenDecimals := Some(decimals.value));
        details := details.(tokenTotalSupply := Some(HardcodedTotalSupply));
        details := details.(tokenPriceInCordex := Some(price));
        if details.tokenTotalSupply.value != "" && details.tokenPriceInCordex.value != "" {
          details := details.(marketCap := marketCap);
        } else {
          details := details.(marketCap := None);
        }
      } else {
        details := details.(marketCap := None);
      }
      entries := entries[cacheKey := CacheEntry(details, currentTime)];
      return Some(details);
    }
  }

  /** Addresses that differ only in letter case share one cache entry: a
      store under one is a hit for the other until the TTL runs out. */
  lemma SharedEntryAcrossCase(cache: map<string, CacheEntry>, a: string, b: string, d: Details, stored: int, now: int)
    requires EqualsIgnoreCase(a, b)
    requires stored <= now < stored + CacheTtl
    ensures Lookup(cache[CacheKey(a) := CacheEntry(d, stored)], CacheKey(b), now) == Some(d)
  {
  }

  /** An entry expires exactly when the TTL has elapsed. */
  lemma EntryExpires(cache: map<string, CacheEntry>, key: string, now: int)
    requires key in cache && now >= cache[key].timestamp + CacheTtl
    ensures Lookup(cache, key, now).None?
  {
  }
}
