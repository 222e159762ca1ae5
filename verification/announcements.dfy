/** The watchlist announcement feed, `get_announcements`
    (stock_backend.py:955-1280): for every symbol, BSE announcements by scrip
    code, then the last-48-hours BSE list, then NSE; the merged list is sorted
    newest first, de-duplicated, remembered per symbol set and truncated to
    60 records.

    Provider replies are inputs: `None` is a failed request or a body that was
    not JSON, `Some(items)` the items taken out of the JSON envelope; an absent
    or null key is the empty string. `parsedDate` is what `parse_date` made of
    the item's date, as a timestamp in seconds; `now` is the clock. */
module Announcements {
  import opened Wrappers
  import opened Text
  import opened Lists
  import opened Filings
  import ScripCodes

  /** One feed record (`symbol`, `company`, `title`, `date`, `date_ts`,
      `category`, `exchange`, `attachment_url`). */
  datatype Announcement = Announcement(
    symbol: string,
    company: string,
    title: string,
    date: string,
    stamp: int,
    category: string,
    exchange: string,
    attachmentUrl: string)

  function Stamp(a: Announcement): int {
    a.stamp
  }

  /** `dt.timestamp() if dt else 0`: an unparseable date sorts as the epoch. */
  function StampOr0(parsedDate: Option<int>): int {
    if parsedDate.Some? then parsedDate.value else 0
  }

  /** `sym.replace('.NS','').replace('.BO','')`. */
  function BaseSymbol(symbol: string): string {
    Replace(Replace(symbol, ".NS", ""), ".BO", "")
  }

  // ---------------------------------------------------------------------------
  // parse_items, BSE records

  /** One record of a BSE AnnGetData or AnnSubCategoryGetData reply. */
  datatype BseAnnItem = BseAnnItem(
    newsId: string,          // NEWSID
    attachmentName: string,  // ATTACHMENTNAME
    headline: string,        // HEADLINE
    newsSub: string,         // NEWSSUB
    newsDate: string,        // NEWS_DT
    dateTime: string,        // DT_TM
    longName: string,        // SLONGNAME
    companyName: string,     // COMPANYNAME
    categoryName: string,    // CATEGORYNAME
    newsCatName: string,     // NEWSCATNAME
    parsedDate: Option<int>) // parse_date of the record's date

  const SecondsPerDay := 86400

  /** `(datetime.now() - dt).days`: whole days, rounded down. */
  function AgeDays(stamp: int, now: int): int {
    (now - stamp) / SecondsPerDay
  }

  function BseRawDate(item: BseAnnItem): string {
    Strip(Or(item.newsDate, item.dateTime))
  }

  function BseCompany(item: BseAnnItem, base: string): string {
    Or(item.longName, Or(item.companyName, base))
  }

  /** The record built from a BSE item. */
  function BseAnnouncement(item: BseAnnItem, symbol: string, base: string, now: int): (a: Announcement)
    ensures a.title != "" && a.exchange == "BSE" && a.symbol == symbol
    ensures a.attachmentUrl == "" <==> Strip(item.newsId) == "" && Strip(item.attachmentName) == ""
  {
    var newsId := Strip(item.newsId);
    var att := Strip(item.attachmentName);
    var title := Strip(Or(item.headline, item.newsSub));
    var rawDt := BseRawDate(item);
    var cat := Or(item.categoryName, Or(item.newsCatName, "General"));
    var age := if rawDt != "" && item.parsedDate.Some? then Some(AgeDays(item.parsedDate.value, now)) else None;
    BseAttUrlCases(newsId, att, age);
    Announcement(symbol, BseCompany(item, base), Or(title, "Corporate Announcement"), rawDt,
      StampOr0(item.parsedDate), cat, "BSE", BseAttUrl(newsId, att, age))
  }

  /** The de-spaced upper-case company name the scrip check looks in. */
  function CompanyKey(item: BseAnnItem, base: string): string {
    Replace(Upper(BseCompany(item, base)), " ", "")
  }

  /** The scrip check: the company name contains neither the first four
      letters of the symbol nor the symbol. */
  predicate WrongCompany(item: BseAnnItem, base: string) {
    var co, sym := CompanyKey(item, base), Upper(base);
    !Contains(co, Take(sym, 4)) && !Contains(co, sym)
  }

  predicate AnyWrongCompany(items: seq<BseAnnItem>, base: string) {
    AnyOf(items, WrongFor(base))
  }

  function WrongFor(base: string): BseAnnItem -> bool {
    item => WrongCompany(item, base)
  }

  /** The second half of the scrip check never decides anything: the symbol
      contains its own first four letters, so a record passes exactly when
      its company name contains those four letters. */
  lemma WrongCompanyByPrefix(item: BseAnnItem, base: string)
    ensures WrongCompany(item, base) <==> !Contains(CompanyKey(item, base), Take(Upper(base), 4))
  {
    var co, sym := CompanyKey(item, base), Upper(base);
    if Contains(co, sym) {
      if |sym| >= 4 {
        ContainsPrefixOfPattern(co, sym, 4);
        assert Take(sym, 4) == sym[..4];
      } else {
        assert Take(sym, 4) == sym;
      }
    }
  }

  /** The records of a BSE reply, one per item. */
  function BseAnnouncements(items: seq<BseAnnItem>, symbol: string, base: string, now: int): seq<Announcement> {
    Map(items, BseRecord(symbol, base, now))
  }

  function BseRecord(symbol: string, base: string, now: int): BseAnnItem -> Announcement {
    item => BseAnnouncement(item, symbol, base, now)
  }

  /** `parse_items(items, symbol, base, 'BSE', verify_scrip)`: with the check
      on, one wrong-company record empties the whole batch. */
  function BseParsed(items: seq<BseAnnItem>, symbol: string, base: string, verify: bool, now: int): seq<Announcement> {
    if verify && AnyWrongCompany(items, base) then [] else BseAnnouncements(items, symbol, base, now)
  }

  /** `parse_items` on a BSE reply. A wrong-company record also drops the
      symbol's scrip code from the cache. */
  method ParseBseItems(scrip: ScripCodes.ScripCodeCache, items: seq<BseAnnItem>, symbol: string, base: string, verify: bool, now: int)
    returns (out: seq<Announcement>)
    requires scrip.Valid()
    modifies scrip
    ensures out == BseParsed(items, symbol, base, verify, now)
    ensures scrip.codes == if verify && AnyWrongCompany(items, base) then old(scrip.codes) - {base} else old(scrip.codes)
    ensures scrip.Valid()
  {
    out := [];
    for i := 0 to |items|
      invariant out == BseAnnouncements(items[..i], symbol, base, now)
      invariant verify ==> !AnyWrongCompany(items[..i], base)
      invariant scrip.codes == old(scrip.codes)
    {
      var a := BseAnnouncement(items[i], symbol, base, now);
      AnyOfSnoc(items, i, WrongFor(base));
      if verify && WrongCompany(items[i], base) {
        scrip.Evict(base);
        return [];
      }
      MapSnoc(items, i, BseRecord(symbol, base, now));
      out := out + [a];
    }
    assert items[..|items|] == items;
  }

  // ---------------------------------------------------------------------------
  // parse_items, NSE records

  /** One record of an NSE corporate-announcements reply. */
  datatype NseAnnItem = NseAnnItem(
    attchmntFile: string,
    desc: string,
    subject: string,
    anDt: string,
    date: string,
    comp: string,
    company: string,
    smIndustry: string,
    category: string,
    parsedDate: Option<int>)  // parse_date of an_dt or date

  function NseAnnouncement(item: NseAnnItem, symbol: string, base: string): (a: Announcement)
    ensures a.title != "" && a.exchange == "NSE" && a.symbol == symbol
    ensures a.attachmentUrl == "" <==> Strip(item.attchmntFile) == ""
  {
    var att := Strip(item.attchmntFile);
    var title := Strip(Or(item.desc, item.subject));
    var rawDt := Strip(Or(item.anDt, item.date));
    var company := Or(item.comp, Or(item.company, base));
    var cat := Or(item.smIndustry, Or(item.category, "General"));
    Announcement(symbol, company, Or(title, "Corporate Announcement"), rawDt,
      StampOr0(item.parsedDate), cat, "NSE", if att != "" then NseDocUrl(att) else "")
  }

  function NseAnnouncements(items: seq<NseAnnItem>, symbol: string, base: string): seq<Announcement> {
    Map(items, NseRecord(symbol, base))
  }

  function NseRecord(symbol: string, base: string): NseAnnItem -> Announcement {
    item => NseAnnouncement(item, symbol, base)
  }

  /** `parse_items` on an NSE reply: one record per item, no check. */
  method ParseNseItems(items: seq<NseAnnItem>, symbol: string, base: string) returns (out: seq<Announcement>)
    ensures out == NseAnnouncements(items, symbol, base)
  {
    out := [];
    for i := 0 to |items|
      invariant out == NseAnnouncements(items[..i], symbol, base)
    {
      MapSnoc(items, i, NseRecord(symbol, base));
      out := out + [NseAnnouncement(items[i], symbol, base)];
    }
    assert items[..|items|] == items;
  }

  // ---------------------------------------------------------------------------
  // The NSE fallback

  /** `nse_ts`: the sort key of an NSE item. */
  function NseStamp(item: NseAnnItem): int {
    StampOr0(item.parsedDate)
  }

  /** The window start: 48 hours plus a 6-hour allowance for IST. */
  function RecentCutoff(now: int): int {
    now - (48 + 6) * 3600
  }

  /** An item dated at or after the cutoff; an undated one never is. */
  predicate Recent(item: NseAnnItem, cutoff: int) {
    item.parsedDate.Some? && item.parsedDate.value >= cutoff
  }

  /** The reply sorted newest first, then cut to the window. */
  function NseWindow(items: seq<NseAnnItem>, cutoff: int): seq<NseAnnItem> {
    Filter(SortDesc(items, NseStamp), item => Recent(item, cutoff))
  }

  /** The two NSE URLs in turn: the first whose reply has items in the window
      supplies the records; a reply with only stale items is passed over. */
  function NseFallback(replies: seq<Option<seq<NseAnnItem>>>, symbol: string, base: string, now: int): (r: seq<Announcement>)
  {
    if replies == [] then []
    else
      var window := if replies[0].Some? then NseWindow(replies[0].value, RecentCutoff(now)) else [];
      if window != [] then NseAnnouncements(window, symbol, base)
      else NseFallback(replies[1..], symbol, base, now)
  }

  /** The NSE records are recent NSE records: every one comes from an item of
      some reply dated inside the window, and there are none only when no
      reply has an item inside the window. */
  lemma {:induction false} NseFallbackRecent(replies: seq<Option<seq<NseAnnItem>>>, symbol: string, base: string, now: int)
    ensures var r := NseFallback(replies, symbol, base, now);
      && (forall a :: a in r ==> a.exchange == "NSE" && a.symbol == symbol && a.stamp >= RecentCutoff(now))
      && (r == [] <==> forall i :: 0 <= i < |replies| && replies[i].Some? ==> NseWindow(replies[i].value, RecentCutoff(now)) == [])
  {
    if replies != [] {
      NseFallbackRecent(replies[1..], symbol, base, now);
      var window := if replies[0].Some? then NseWindow(replies[0].value, RecentCutoff(now)) else [];
      if window != [] {
        WindowRecordsRecent(replies[0].value, symbol, base, RecentCutoff(now));
      } else {
        assert forall i :: 1 <= i < |replies| ==> replies[i] == replies[1..][i - 1];
      }
    }
  }

  /** The records of a window are NSE records of the symbol, none older than
      the cutoff. */
  lemma WindowRecordsRecent(items: seq<NseAnnItem>, symbol: string, base: string, cutoff: int)
    ensures forall a :: a in NseAnnouncements(NseWindow(items, cutoff), symbol, base) ==>
      a.exchange == "NSE" && a.symbol == symbol && a.stamp >= cutoff
  {
    var window := NseWindow(items, cutoff);
    var r := NseAnnouncements(window, symbol, base);
    forall a | a in r
      ensures a.exchange == "NSE" && a.symbol == symbol && a.stamp >= cutoff
    {
      var k :| 0 <= k < |r| && r[k] == a;
      assert Recent(window[k], cutoff);
      RecentRecordStamp(window[k], symbol, base, cutoff);
    }
  }

  /** The record of an item in the window is stamped no earlier than the
      cutoff. */
  lemma RecentRecordStamp(item: NseAnnItem, symbol: string, base: string, cutoff: int)
    requires Recent(item, cutoff)
    ensures NseAnnouncement(item, symbol, base).stamp >= cutoff
  {
  }

  /** The loop over the two NSE URLs, stopping at the first reply with items
      in the window. */
  method NseFallbackLoop(replies: seq<Option<seq<NseAnnItem>>>, symbol: string, base: string, now: int) returns (parsed: seq<Announcement>)
    ensures parsed == NseFallback(replies, symbol, base, now)
  {
    parsed := [];
    for i := 0 to |replies|
      invariant NseFallback(replies[i..], symbol, base, now) == NseFallback(replies, symbol, base, now)
    {
      assert replies[i..][0] == replies[i] && replies[i..][1..] == replies[i + 1..];
      if replies[i].Some? && replies[i].value != [] {
        var sorted := SortDesc(replies[i].value, NseStamp);
        var cutoff := RecentCutoff(now);
        var window := Filter(sorted, item => Recent(item, cutoff));
        if window != [] {
          parsed := ParseNseItems(window, symbol, base);
          return;
        }
      }
    }
  }

  // ---------------------------------------------------------------------------
  // One symbol

  /** Everything the providers said about one symbol. */
  datatype SymbolReplies = SymbolReplies(
    annGetData: Option<seq<BseAnnItem>>,       // BSE AnnGetData, last 7 days
    annSubCat: Option<seq<BseAnnItem>>,        // BSE AnnSubCategoryGetData, last 2 days
    msource: seq<string>,                      // Msource hits, their `scripcode`
    nse: seq<Option<seq<NseAnnItem>>>)         // the NSE announcement URLs, in order

  /** What one symbol adds: its records, whether the scrip check failed, and
      the code Msource offered ("" for none). */
  datatype Fetched = Fetched(anns: seq<Announcement>, evicted: bool, newCode: string)

  /** The per-symbol cascade: each provider runs only while no earlier one
      produced a record (`got`); the BSE providers need a scrip code; Msource
      proposes a code that no other symbol has. */
  function FetchSymbol(symbol: string, base: string, code: string, known: set<string>, r: SymbolReplies, now: int): Fetched {
    var first := if code != "" && r.annGetData.Some? then BseParsed(r.annGetData.value, symbol, base, true, now) else [];
    var evicted := code != "" && r.annGetData.Some? && AnyWrongCompany(r.annGetData.value, base);
    var second := if first == [] && code != "" && r.annSubCat.Some? then BseParsed(r.annSubCat.value, symbol, base, false, now) else [];
    var got := first != [] || second != [];
    var hit := ScripCodes.FirstRowCode(r.msource);
    var newCode := if !got && hit != "" && hit !in known then hit else "";
    var third := if got then [] else NseFallback(r.nse, symbol, base, now);
    Fetched(first + second + third, evicted, newCode)
  }

  /** The cascade as the loop body writes it. */
  method FetchSymbolAnnouncements(scrip: ScripCodes.ScripCodeCache, symbol: string, base: string, code: string,
                                  known: set<string>, r: SymbolReplies, now: int)
    returns (anns: seq<Announcement>, newCode: string)
    requires scrip.Valid()
    modifies scrip
    ensures var f := FetchSymbol(symbol, base, code, known, r, now);
      && anns == f.anns && newCode == f.newCode
      && scrip.codes == (if f.evicted then old(scrip.codes) - {base} else old(scrip.codes))
    ensures scrip.Valid()
  {
    anns := [];
    var got := false;
    if code != "" && r.annGetData.Some? {
      var parsed := ParseBseItems(scrip, r.annGetData.value, symbol, base, true, now);
      anns := anns + parsed;
      got := parsed != [];
    }
    if !got && code != "" && r.annSubCat.Some? {
      var parsed := ParseBseItems(scrip, r.annSubCat.value, symbol, base, false, now);
      anns := anns + parsed;
      got := parsed != [];
    }
    newCode := "";
    if !got && r.msource != [] {
      var hit := r.msource[0];
      if hit != "" && hit !in known {
        newCode := hit;
      }
    }
    if !got {
      var parsed := NseFallbackLoop(r.nse, symbol, base, now);
      anns := anns + parsed;
    }
  }

  /** The providers are tried in order and the first with records supplies
      all of the symbol's records: records come from exactly one exchange,
      NSE only when both BSE lists gave nothing, and every record carries
      the symbol. A failed company check discards the whole AnnGetData batch:
      the records are then those the symbol would get with no AnnGetData
      reply at all. */
  lemma FetchSymbolFirstProvider(symbol: string, base: string, code: string, known: set<string>, r: SymbolReplies, now: int)
    ensures var f := FetchSymbol(symbol, base, code, known, r, now);
      && (forall a :: a in f.anns ==> a.symbol == symbol)
      && ((exists a :: a in f.anns && a.exchange == "NSE") ==> forall a :: a in f.anns ==> a.exchange == "NSE")
      && (code == "" ==> forall a :: a in f.anns ==> a.exchange == "NSE")
      && (f.newCode != "" ==> f.newCode !in known && forall a :: a in f.anns ==> a.exchange == "NSE")
      && (f.evicted ==> code != "" && f.anns == FetchSymbol(symbol, base, code, known, r.(annGetData := None), now).anns)
  {
    var f := FetchSymbol(symbol, base, code, known, r, now);
    NseFallbackRecent(r.nse, symbol, base, now);
    if r.annGetData.Some? {
      BseParsedRecords(r.annGetData.value, symbol, base, true, now);
    }
    if r.annSubCat.Some? {
      BseParsedRecords(r.annSubCat.value, symbol, base, false, now);
    }
  }

  /** Parsed BSE records are BSE records of the symbol. */
  lemma BseParsedRecords(items: seq<BseAnnItem>, symbol: string, base: string, verify: bool, now: int)
    ensures forall a :: a in BseParsed(items, symbol, base, verify, now) ==> a.symbol == symbol && a.exchange == "BSE"
  {
    var r := BseParsed(items, symbol, base, verify, now);
    forall a | a in r ensures a.symbol == symbol && a.exchange == "BSE" {
      var k :| 0 <= k < |r| && r[k] == a;
    }
  }

  // ---------------------------------------------------------------------------
  // All symbols

  /** The loop state: the records so far, the scrip codes of this request
      (`bse_codes`) and the process-wide scrip-code cache. */
  datatype Gathering = Gathering(anns: seq<Announcement>, codes: map<string, string>, scrip: map<string, string>)

  /** One turn of the per-symbol loop. */
  function Step(g: Gathering, symbol: string, replies: string -> SymbolReplies, now: int): Gathering {
    var base := BaseSymbol(symbol);
    var code := if base in g.codes then g.codes[base] else "";
    var f := FetchSymbol(symbol, base, code, g.codes.Values, replies(symbol), now);
    Gathering(
      g.anns + f.anns,
      if f.newCode != "" then g.codes[base := f.newCode] else g.codes,
      if f.evicted then g.scrip - {base} else g.scrip)
  }

  /** The state after the loop has seen `symbols`, written from the back. */
  function Gather(symbols: seq<string>, g: Gathering, replies: string -> SymbolReplies, now: int): Gathering {
    if symbols == [] then g
    else Step(Gather(symbols[..|symbols| - 1], g, replies, now), symbols[|symbols| - 1], replies, now)
  }

  /** Scrip codes only ever leave the process-wide cache during the loop. */
  lemma {:induction false} GatherOnlyEvicts(symbols: seq<string>, g: Gathering, replies: string -> SymbolReplies, now: int)
    ensures var after := Gather(symbols, g, replies, now).scrip;
      && after.Keys <= g.scrip.Keys
      && forall k :: k in after ==> after[k] == g.scrip[k]
  {
    if symbols != [] {
      GatherOnlyEvicts(symbols[..|symbols| - 1], g, replies, now);
    }
  }

  // ---------------------------------------------------------------------------
  // Sort and de-duplicate

  /** Two records are the same announcement when they agree on the symbol,
      the first 50 characters of the title and the day. */
  function DedupKey(a: Announcement): (string, string, string) {
    (a.symbol, Take(a.title, 50), Take(a.date, 10))
  }

  /** The sorted, de-duplicated list. */
  function Deduped(all: seq<Announcement>): seq<Announcement> {
    FirstPerKey(SortDesc(all, Stamp), DedupKey)
  }

  /** A feed list is newest first with no two records sharing a key. */
  predicate Tidy(s: seq<Announcement>) {
    && SortedDesc(s, Stamp)
    && forall i, j :: 0 <= i < j < |s| ==> DedupKey(s[i]) != DedupKey(s[j])
  }

  /** The de-duplicated list is newest first, has one record per key and
      loses no key: every key of the input is there, carried by the first
      record with that key in sorted order. */
  lemma DedupedTidy(all: seq<Announcement>)
    ensures Tidy(Deduped(all))
    ensures KeysOf(Deduped(all), DedupKey) == KeysOf(all, DedupKey)
    ensures |Deduped(all)| <= |all|
  {
    var sorted := SortDesc(all, Stamp);
    SortDescSorted(all, Stamp);
    FirstPerKeySorted(sorted, DedupKey, Stamp);
    FirstPerKeyUnique(sorted, DedupKey);
    FirstPerKeyKeys(sorted, DedupKey);
    assert forall x :: x in sorted <==> x in all by {
      assert multiset(sorted) == multiset(all);
      forall x ensures x in sorted <==> x in all {
        assert x in sorted <==> x in multiset(sorted);
        assert x in all <==> x in multiset(all);
      }
    }
  }

  /** The same announcement at two URLs is listed once: the newer record is
      kept, or the earlier-listed one when both have the same stamp. */
  lemma SameKeyCollapses(a: Announcement, b: Announcement)
    requires DedupKey(a) == DedupKey(b) && a.stamp >= b.stamp
    ensures Deduped([a, b]) == [a]
  {
    SortDescOfTwo(a, b, Stamp);
    FirstPerKeyOfTwo(a, b, DedupKey);
  }

  /** Records with different keys are both listed, whether or not they share
      an attachment URL. */
  lemma DifferentKeysKept(a: Announcement, b: Announcement)
    requires DedupKey(a) != DedupKey(b) && a.stamp >= b.stamp
    ensures Deduped([a, b]) == [a, b]
  {
    SortDescOfTwo(a, b, Stamp);
    FirstPerKeyOfTwo(a, b, DedupKey);
  }

  // ---------------------------------------------------------------------------
  // The stale-result cache

  /** The list served: this request's list when it has records, else the list
      remembered for the same symbol set, else nothing. */
  function Served(entries: map<set<string>, seq<Announcement>>, key: set<string>, deduped: seq<Announcement>): seq<Announcement> {
    if deduped != [] then deduped else if key in entries then entries[key] else []
  }

  /** Every remembered list is a tidy, non-empty feed. */
  predicate GoodEntries(entries: map<set<string>, seq<Announcement>>) {
    forall k :: k in entries ==> entries[k] != [] && Tidy(entries[k])
  }

  /** The response is empty only when this request found nothing and nothing
      was remembered for the symbol set; a remembered list is served as is. */
  lemma ServedEmptyIff(entries: map<set<string>, seq<Announcement>>, key: set<string>, deduped: seq<Announcement>)
    requires GoodEntries(entries)
    ensures Served(entries, key, deduped) == [] <==> deduped == [] && key !in entries
    ensures deduped == [] && key in entries ==> Served(entries, key, deduped) == entries[key]
    ensures deduped != [] ==> Served(entries, key, deduped) == deduped
  {
  }

  /** Remembering a tidy list keeps every remembered list tidy, and what is
      served is tidy too. */
  lemma RememberKeepsTidy(entries: map<set<string>, seq<Announcement>>, key: set<string>, deduped: seq<Announcement>)
    requires GoodEntries(entries) && Tidy(deduped)
    ensures Tidy(Served(entries, key, deduped))
    ensures GoodEntries(if deduped != [] then entries[key := deduped] else entries)
  {
  }

  /** Once a request has saved a list, a later request for the same symbol
      set that finds nothing is served that list; other symbol sets are
      served what they were before. */
  lemma SavedThenServed(entries: map<set<string>, seq<Announcement>>, key: set<string>, saved: seq<Announcement>)
    requires saved != []
    ensures Served(entries[key := saved], key, []) == saved
    ensures forall k :: k != key ==> Served(entries[key := saved], k, []) == Served(entries, k, [])
  {
  }

  /** `_ann_cache` and `_ann_cache_time`, keyed by the set of symbols asked for. */
  class AnnouncementCache {
    var entries: map<set<string>, seq<Announcement>>
    var savedAt: map<set<string>, int>

    /** The cache never holds an empty list. */
    ghost predicate Valid()
      reads this
    {
      forall k :: k in entries ==> entries[k] != []
    }

    constructor ()
      ensures entries == map[] && savedAt == map[]
      ensures Valid()
    {
      entries := map[];
      savedAt := map[];
    }

    /** Saves a non-empty list with its time; for an empty one serves what
        was saved before. */
    method Remember(key: set<string>, deduped: seq<Announcement>, now: int) returns (served: seq<Announcement>)
      requires Valid()
      modifies this
      ensures served == Served(old(entries), key, deduped)
      ensures entries == if deduped != [] then old(entries)[key := deduped] else old(entries)
      ensures savedAt == if deduped != [] then old(savedAt)[key := now] else old(savedAt)
      ensures Valid()
    {
      served := deduped;
      if deduped != [] {
        entries := entries[key := deduped];
        savedAt := savedAt[key := now];
      } else if key in entries {
        served := entries[key];
      }
    }
  }

  // ---------------------------------------------------------------------------
  // The endpoint

  const ResponseLimit := 60

  /** The per-symbol loop of `get_announcements`. */
  method FetchAll(scrip: ScripCodes.ScripCodeCache, symbols: seq<string>, codes: map<string, string>,
                  replies: string -> SymbolReplies, now: int)
    returns (all: seq<Announcement>, bseCodes: map<string, string>)
    requires scrip.Valid()
    modifies scrip
    ensures Gather(symbols, Gathering([], codes, old(scrip.codes)), replies, now) == Gathering(all, bseCodes, scrip.codes)
    ensures scrip.Valid()
  {
    all := [];
    bseCodes := codes;
    ghost var g0 := Gathering([], codes, old(scrip.codes));
    for i := 0 to |symbols|
      invariant Gather(symbols[..i], g0, replies, now) == Gathering(all, bseCodes, scrip.codes)
      invariant scrip.Valid()
    {
      var symbol := symbols[i];
      var base := BaseSymbol(symbol);
      var code := if base in bseCodes then bseCodes[base] else "";
      var parsed, newCode := FetchSymbolAnnouncements(scrip, symbol, base, code, bseCodes.Values, replies(symbol), now);
      all := all + parsed;
      if newCode != "" {
        bseCodes := bseCodes[base := newCode];
      }
      assert symbols[..i + 1][..i] == symbols[..i];
    }
    assert symbols[..|symbols|] == symbols;
  }

  /** `get_announcements`. `codes` is `bse_codes` as the code-gathering step
      leaves it; `replies` gives each symbol's provider replies. */
  method GetAnnouncements(scrip: ScripCodes.ScripCodeCache, cache: AnnouncementCache, symbols: seq<string>,
                          codes: map<string, string>, replies: string -> SymbolReplies, now: int)
    returns (response: seq<Announcement>)
    requires scrip.Valid() && cache.Valid() && GoodEntries(cache.entries)
    modifies scrip, cache
    ensures symbols == [] ==>
      && response == [] && scrip.codes == old(scrip.codes)
      && cache.entries == old(cache.entries) && cache.savedAt == old(cache.savedAt)
    ensures symbols != [] ==>
      var key := set s | s in symbols;
      var g := Gather(symbols, Gathering([], codes, old(scrip.codes)), replies, now);
      var deduped := Deduped(g.anns);
      && scrip.codes == g.scrip
      && response == Truncate(Served(old(cache.entries), key, deduped), ResponseLimit)
      && cache.entries == (if deduped != [] then old(cache.entries)[key := deduped] else old(cache.entries))
      && cache.savedAt == (if deduped != [] then old(cache.savedAt)[key := now] else old(cache.savedAt))
    ensures |response| <= ResponseLimit && Tidy(response)
    ensures scrip.Valid() && cache.Valid() && GoodEntries(cache.entries)
  {
    if symbols == [] {
      return [];
    }
    var key := set s | s in symbols;
    var all, bseCodes := FetchAll(scrip, symbols, codes, replies, now);
    var sorted := SortDesc(all, Stamp);
    var deduped := KeepFirstPerKey(sorted, DedupKey);
    DedupedTidy(all);
    ghost var before := cache.entries;
    var served := cache.Remember(key, deduped, now);
    RememberKeepsTidy(before, key, deduped);
    response := Truncate(served, ResponseLimit);
    TruncateKeeps(served, ResponseLimit, DedupKey, Stamp);
  }
}
