/** BSE scrip codes: the process-wide cache of NSE symbol -> BSE code, the
    cascade of lookups `resolve_bse_code` tries on a cache miss
    (stock_backend.py:44-196) and the eviction done when a BSE reply turns out
    to belong to another company (stock_backend.py:1043-1050).

    Each lookup strategy is an HTTP call; here its parsed reply is an input,
    with "" or [] standing for a failed request or an unusable reply. */
module ScripCodes {
  import opened Text

  /** One row of a fetchComp or Search reply: the NSE symbol it lists and the
      BSE code next to it. */
  datatype Listing = Listing(nseSymbol: string, scripCode: string)

  /** The parsed replies of the six strategies, in the order they are tried. */
  datatype Lookups = Lookups(
    package: string,          // `bse` package lookup, `bse_code` or ""
    fetchComp: seq<Listing>,  // fetchComp table
    search: seq<Listing>,     // Search table
    msource: seq<string>,     // Msource rows, their `scripcode`
    header: string,           // getScripHeaderData code, or ""
    isin: seq<string>)        // fetchComp-by-ISIN rows, their `scripcode`

  datatype Strategy = Package | FetchComp | Search | Msource | ScripHeader | NseIsin

  /** The order in which the strategies are tried. */
  const Order: seq<Strategy> := [Package, FetchComp, Search, Msource, ScripHeader, NseIsin]

  datatype Resolution = Cached(code: string) | Found(code: string, strategy: Strategy) | NotFound

  /** What `resolve_bse_code` returns for a resolution. */
  function CodeOf(r: Resolution): string {
    if r.NotFound? then "" else r.code
  }

  // ---------------------------------------------------------------------------
  // One strategy at a time

  /** A listing names the symbol when its upper-cased NSE symbol equals it. */
  predicate ListsSymbol(l: Listing, base: string) {
    Upper(l.nseSymbol) == base && l.scripCode != ""
  }

  /** The code of the first listing that names the symbol with a non-empty
      code, or "": rows that name the symbol without a code are passed over. */
  function ListingCode(listings: seq<Listing>, base: string): (code: string)
    ensures code != "" <==> exists i :: 0 <= i < |listings| && ListsSymbol(listings[i], base)
    ensures code != "" ==> exists i :: 0 <= i < |listings| && ListsSymbol(listings[i], base) && listings[i].scripCode == code
  {
    if listings == [] then ""
    else if ListsSymbol(listings[0], base) then listings[0].scripCode
    else
      var c := ListingCode(listings[1..], base);
      assert c != "" ==> exists i :: 0 <= i < |listings[1..]| && ListsSymbol(listings[1..][i], base) && listings[1..][i].scripCode == c;
      c
  }

  /** The scan over a fetchComp or Search table. */
  method ScanListings(listings: seq<Listing>, base: string) returns (code: string)
    ensures code == ListingCode(listings, base)
  {
    var i := 0;
    while i < |listings|
      invariant 0 <= i <= |listings|
      invariant ListingCode(listings[i..], base) == ListingCode(listings, base)
    {
      var l := listings[i];
      assert listings[i..][0] == l && listings[i..][1..] == listings[i + 1..];
      if Upper(l.nseSymbol) == base {
        if l.scripCode != "" {
          return l.scripCode;
        }
      }
      i := i + 1;
    }
    return "";
  }

  /** The code of the first row, or "" (`data[0]` / `items[0]`). */
  function FirstRowCode(rows: seq<string>): string {
    if rows == [] then "" else rows[0]
  }

  /** The code a strategy yields on its own, "" when it fails. */
  function StrategyCode(s: Strategy, base: string, lookups: Lookups): (code: string)
    ensures s == ScripHeader && code != "" ==> code != "0"
    ensures s == ScripHeader ==> (code == "" <==> lookups.header in {"", "0"}) && (code != "" ==> code == lookups.header)
  {
    match s
    case Package => lookups.package
    case FetchComp => ListingCode(lookups.fetchComp, base)
    case Search => ListingCode(lookups.search, base)
    case Msource => FirstRowCode(lookups.msource)
    case ScripHeader => if lookups.header == "0" then "" else lookups.header
    case NseIsin => FirstRowCode(lookups.isin)
  }

  // ---------------------------------------------------------------------------
  // The cascade

  /** The lookups tried on a cache miss, as the chain of early returns is written. */
  function Lookup(base: string, lookups: Lookups): (r: Resolution)
    ensures !r.Cached?
    ensures r.Found? ==> r.code != "" && r.code == StrategyCode(r.strategy, base, lookups)
  {
    if lookups.package != "" then Found(lookups.package, Package)
    else if ListingCode(lookups.fetchComp, base) != "" then Found(ListingCode(lookups.fetchComp, base), FetchComp)
    else if ListingCode(lookups.search, base) != "" then Found(ListingCode(lookups.search, base), Search)
    else if FirstRowCode(lookups.msource) != "" then Found(FirstRowCode(lookups.msource), Msource)
    else if lookups.header != "" && lookups.header != "0" then Found(lookups.header, ScripHeader)
    else if FirstRowCode(lookups.isin) != "" then Found(FirstRowCode(lookups.isin), NseIsin)
    else NotFound
  }

  /** `resolve_bse_code`: the cache first, then the cascade. */
  function ResolveCode(codes: map<string, string>, base: string, lookups: Lookups): (r: Resolution)
    ensures base in codes ==> r == Cached(codes[base])
    ensures base !in codes ==> !r.Cached?
  {
    if base in codes then Cached(codes[base]) else Lookup(base, lookups)
  }

  /** The cache after a resolution: every strategy but the package writes its
      code back. */
  function CacheAfter(codes: map<string, string>, base: string, lookups: Lookups): map<string, string> {
    match ResolveCode(codes, base, lookups)
    case Found(c, s) => if s == Package then codes else codes[base := c]
    case _ => codes
  }

  /** The cascade is "first success in order": it settles on the first
      strategy of `Order` whose own code is non-empty, and finds nothing
      exactly when every strategy fails. */
  lemma LookupIsFirstSuccess(base: string, lookups: Lookups)
    ensures Lookup(base, lookups).Found? ==>
      exists i :: 0 <= i < |Order| && Order[i] == Lookup(base, lookups).strategy
        && StrategyCode(Order[i], base, lookups) == Lookup(base, lookups).code != ""
        && forall j :: 0 <= j < i ==> StrategyCode(Order[j], base, lookups) == ""
    ensures Lookup(base, lookups).NotFound? <==>
      forall i :: 0 <= i < |Order| ==> StrategyCode(Order[i], base, lookups) == ""
  {
    var codes := OwnCodes(base, lookups);
    var i := FirstNonEmptyIndex(codes);
    if i < 6 {
      FoundAtFirstNonEmpty(base, lookups, codes, i);
      assert Order[i] == Lookup(base, lookups).strategy;
    }
    NotFoundWhenAllEmpty(base, lookups, codes);
  }

  /** Each strategy's own code, in `Order`. */
  function OwnCodes(base: string, lookups: Lookups): (codes: seq<string>)
    ensures |codes| == |Order|
    ensures forall i :: 0 <= i < |Order| ==> codes[i] == StrategyCode(Order[i], base, lookups)
  {
    [lookups.package, ListingCode(lookups.fetchComp, base), ListingCode(lookups.search, base),
     FirstRowCode(lookups.msource), StrategyCode(ScripHeader, base, lookups), FirstRowCode(lookups.isin)]
  }

  lemma FoundAtFirstNonEmpty(base: string, lookups: Lookups, codes: seq<string>, i: nat)
    requires codes == OwnCodes(base, lookups)
    requires i < 6 && codes[i] != "" && forall j :: 0 <= j < i ==> codes[j] == ""
    ensures Lookup(base, lookups) == Found(codes[i], Order[i])
  {
    if i > 0 { assert codes[0] == ""; }
    if i > 1 { assert codes[1] == ""; }
    if i > 2 { assert codes[2] == ""; }
    if i > 3 { assert codes[3] == ""; }
    if i > 4 { assert codes[4] == ""; }
  }

  lemma NotFoundWhenAllEmpty(base: string, lookups: Lookups, codes: seq<string>)
    requires codes == OwnCodes(base, lookups)
    ensures Lookup(base, lookups).NotFound? <==> forall j :: 0 <= j < 6 ==> codes[j] == ""
  {
    if Lookup(base, lookups).NotFound? {
      assert codes[0] == "" && codes[1] == "" && codes[2] == "";
      assert codes[3] == "" && codes[4] == "" && codes[5] == "";
    } else if codes[0] != "" {
    } else if codes[1] != "" {
    } else if codes[2] != "" {
    } else if codes[3] != "" {
    } else if codes[4] != "" {
    } else {
      assert codes[5] != "";
    }
  }

  /** The index of the first non-empty string, or `|codes|`. */
  function FirstNonEmptyIndex(codes: seq<string>): (i: nat)
    ensures i <= |codes|
    ensures i < |codes| ==> codes[i] != ""
    ensures forall j :: 0 <= j < i ==> codes[j] == ""
  {
    if codes == [] then 0
    else if codes[0] != "" then 0
    else 1 + FirstNonEmptyIndex(codes[1..])
  }

  /** The lookups of a cache miss, tried in turn until one yields a code. */
  method RunLookups(base: string, lookups: Lookups) returns (r: Resolution)
    ensures r == Lookup(base, lookups)
  {
    if lookups.package != "" {
      return Found(lookups.package, Package);
    }
    var code := ScanListings(lookups.fetchComp, base);
    if code != "" {
      return Found(code, FetchComp);
    }
    code := ScanListings(lookups.search, base);
    if code != "" {
      return Found(code, Search);
    }
    if lookups.msource != [] && lookups.msource[0] != "" {
      return Found(lookups.msource[0], Msource);
    }
    if lookups.header != "" && lookups.header != "0" {
      return Found(lookups.header, ScripHeader);
    }
    if lookups.isin != [] && lookups.isin[0] != "" {
      return Found(lookups.isin[0], NseIsin);
    }
    return NotFound;
  }

  // ---------------------------------------------------------------------------
  // The cache object

  const SeedCodes: map<string, string> := map[
    "TCI" := "532349",
    "HIKAL" := "524735",
    "IEX" := "540768",
    "SOLARA" := "541540",
    "ENTERO" := "544122",
    "NEULANDLAB" := "524558",
    "LAURUSLABS" := "540222",
    "CANBK" := "532483",
    "TCIEXP" := "540212"]

  /** No cached code is empty. */
  predicate ValidCodes(codes: map<string, string>) {
    forall k :: k in codes ==> codes[k] != ""
  }

  /** `_BSE_CODE_CACHE`: NSE symbol -> BSE scrip code. */
  class ScripCodeCache {
    var codes: map<string, string>

    ghost predicate Valid()
      reads this
    {
      ValidCodes(codes)
    }

    /** The cache as the module defines it: nine hard-coded symbols. */
    constructor ()
      ensures codes == SeedCodes
      ensures Valid()
    {
      codes := SeedCodes;
    }

    /** `resolve_bse_code(base)`. */
    method Resolve(base: string, lookups: Lookups) returns (code: string)
      requires Valid()
      modifies this
      ensures code == CodeOf(ResolveCode(old(codes), base, lookups))
      ensures codes == CacheAfter(old(codes), base, lookups)
      ensures Valid()
    {
      if base in codes {
        return codes[base];
      }
      var r := RunLookups(base, lookups);
      code := CodeOf(r);
      if r.Found? && r.strategy != Package {
        codes := codes[base := code];
      }
    }

    /** `_BSE_CODE_CACHE.pop(base, None)`. */
    method Evict(base: string)
      requires Valid()
      modifies this
      ensures codes == old(codes) - {base}
      ensures base !in codes
      ensures Valid()
    {
      codes := codes - {base};
    }
  }

  // ---------------------------------------------------------------------------
  // Properties of the cascade and of the cache

  /** A cached symbol is answered without consulting any lookup: the result
      and the cache are the same whatever the strategies would have said. */
  lemma CachedNeedsNoLookup(codes: map<string, string>, base: string, l1: Lookups, l2: Lookups)
    requires base in codes
    ensures ResolveCode(codes, base, l1) == ResolveCode(codes, base, l2) == Cached(codes[base])
    ensures CacheAfter(codes, base, l1) == codes
  {
  }

  /** The returned code is "" exactly when the symbol is neither cached nor
      found, given a cache without empty codes. */
  lemma EmptyCodeIffNotFound(codes: map<string, string>, base: string, lookups: Lookups)
    requires ValidCodes(codes)
    ensures CodeOf(ResolveCode(codes, base, lookups)) == "" <==> ResolveCode(codes, base, lookups).NotFound?
  {
  }

  /** getScripHeaderData's "0" is never returned as a code. */
  lemma HeaderZeroRejected(codes: map<string, string>, base: string, lookups: Lookups)
    requires lookups.header == "0"
    ensures ResolveCode(codes, base, lookups) != Found("0", ScripHeader)
  {
  }

  /** Resolution touches the cache at the symbol's own key only, and only by
      adding it. */
  lemma CacheOnlyAddsBase(codes: map<string, string>, base: string, lookups: Lookups)
    ensures var after := CacheAfter(codes, base, lookups);
      && after.Keys <= codes.Keys + {base}
      && (forall k :: k in codes ==> k in after && after[k] == codes[k])
  {
  }

  /** Write-back: after a code found by fetchComp, Search, Msource,
      getScripHeaderData or the ISIN route, the next resolution of the same
      symbol is a cache hit with the same code, whatever the lookups say then.
      A code found by the package is not written back, so the next call runs
      the cascade again. */
  lemma SecondResolveHitsCache(codes: map<string, string>, base: string, first: Lookups, second: Lookups)
    requires ResolveCode(codes, base, first).Found?
    ensures ResolveCode(codes, base, first).strategy != Package ==>
      ResolveCode(CacheAfter(codes, base, first), base, second) == Cached(ResolveCode(codes, base, first).code)
    ensures ResolveCode(codes, base, first).strategy == Package ==>
      ResolveCode(CacheAfter(codes, base, first), base, second) == Lookup(base, second)
  {
  }

  /** The nine seeded symbols resolve from the cache, e.g. ENTERO to 544122. */
  lemma SeededSymbolResolves(lookups: Lookups)
    ensures ResolveCode(SeedCodes, "ENTERO", lookups) == Cached("544122")
    ensures ValidCodes(SeedCodes)
  {
  }
}
