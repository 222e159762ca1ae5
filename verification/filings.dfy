/** Filing documents as `deepdive_fetch` collects them: the BSE filing list
    (`bse_filings`), the NSE annual-report list (`nse_annual_reports`), the
    keyword-filtered NSE announcement list (`nse_announcements`), the BSE
    document URL rule (`bse_att_url` and its inlined copy) and the per-category
    order in which these providers are tried.

    Provider replies are inputs: `None` stands for a request that failed, a
    non-2xx status or a body that was not JSON; `Some(items)` is the item list
    already taken out of its JSON envelope. A JSON key that is absent or null
    is the empty string here. The filing date's age in days (`parse_date` of
    the date against the clock) is an input too: `None` when the date is
    missing or does not parse. */
module Filings {
  import opened Wrappers
  import opened Text
  import opened Lists

  /** A normalised filing record. `newsId` and `attachment` are empty for NSE. */
  datatype Doc = Doc(
    title: string,
    url: string,
    altUrls: seq<string>,
    date: string,
    source: string,
    newsId: string,
    attachment: string)

  /** Python's `a or b` on strings. */
  function Or(a: string, b: string): string {
    if a != "" then a else b
  }

  // ---------------------------------------------------------------------------
  // BSE document URLs

  const BseAnnouncementPage := "https://www.bseindia.com/corporates/ann.html?newsid="
  const BseCorpFiling := "https://www.bseindia.com/xml-data/corpfiling/"
  const NseArchive := "https://nsearchives.nseindia.com/corporate/"

  /** The storage folder: filings at most 30 days old live in AttachLive,
      older ones and those without a usable date in AttachHis. */
  function AttachFolder(ageDays: Option<int>): string {
    match ageDays
    case Some(d) => if d <= 30 then "AttachLive" else "AttachHis"
    case None => "AttachHis"
  }

  function AttachmentUrl(attachment: string, ageDays: Option<int>): string {
    BseCorpFiling + AttachFolder(ageDays) + "/" + attachment
  }

  /** `bse_att_url(news_id, att, raw_dt)` (stock_backend.py:1005-1027). */
  function BseAttUrl(newsId: string, attachment: string, ageDays: Option<int>): string {
    if newsId != "" then BseAnnouncementPage + newsId
    else if attachment != "" then AttachmentUrl(attachment, ageDays)
    else ""
  }

  /** The announcement page wins over the attachment; the folder is AttachLive
      exactly when the date parsed and is at most 30 days old; the URL is empty
      exactly when both identifiers are. */
  lemma BseAttUrlCases(newsId: string, attachment: string, ageDays: Option<int>)
    ensures var url := BseAttUrl(newsId, attachment, ageDays);
      && (url == "" <==> newsId == "" && attachment == "")
      && (newsId != "" ==> StartsWith(url, BseAnnouncementPage) && url[|BseAnnouncementPage|..] == newsId)
      && (StartsWith(url, BseCorpFiling + "AttachLive/")
          <==> newsId == "" && attachment != "" && ageDays.Some? && ageDays.value <= 30)
      && (StartsWith(url, BseCorpFiling + "AttachHis/")
          <==> newsId == "" && attachment != "" && (ageDays.None? || ageDays.value > 30))
  {
    var url := BseAttUrl(newsId, attachment, ageDays);
    var live, his := BseCorpFiling + "AttachLive/", BseCorpFiling + "AttachHis/";
    if newsId != "" {
      assert url[|BseAnnouncementPage|..] == newsId;
      assert url[25] != live[25] && url[25] != his[25];
    } else if attachment != "" {
      if ageDays.Some? && ageDays.value <= 30 {
        assert url == live + attachment;
        assert url[|BseCorpFiling| + 6] != his[|BseCorpFiling| + 6];
      } else {
        assert url == his + attachment;
        assert url[|BseCorpFiling| + 6] != live[|BseCorpFiling| + 6];
      }
    }
  }

  /** The NSE document link: an absolute URL is kept, a file name is placed
      under the NSE archive. */
  function NseDocUrl(attachment: string): (url: string)
    ensures attachment != "" ==> url != ""
  {
    if StartsWith(attachment, "http") then attachment else NseArchive + attachment
  }

  // ---------------------------------------------------------------------------
  // BSE filing list (stock_backend.py:1343-1401)

  /** One record of the BSE AnnGetData reply, with the alternative key
      spellings the code reads. */
  datatype BseFilingItem = BseFilingItem(
    attachmentName: string,   // ATTACHMENTNAME
    fileName: string,         // Filename
    newsId: string,           // NEWSID
    newsIdAlt: string,        // NewsId
    headline: string,         // HEADLINE
    newsSub: string,          // NEWSSUB
    newsSubAlt: string,       // News_Sub
    newsDate: string,         // NEWS_DT
    dateTime: string,         // DT_TM
    ageDays: Option<int>)     // age of parse_date(date)

  /** The document built for one item, or `None` when the item has neither a
      news id nor an attachment and is skipped (the `continue`). */
  function BseFilingDoc(item: BseFilingItem): Option<Doc> {
    var att := Strip(Or(item.attachmentName, item.fileName));
    var newsId := Strip(Or(item.newsId, item.newsIdAlt));
    var title := Strip(Or(item.headline, Or(item.newsSub, item.newsSubAlt)));
    var date := Take(Strip(Or(item.newsDate, item.dateTime)), 10);
    var folder := AttachFolder(item.ageDays);
    if newsId != "" then
      var altUrls := if att != "" then [BseCorpFiling + folder + "/" + att] else [];
      Some(Doc(title, BseAnnouncementPage + newsId, altUrls, date, "BSE", newsId, att))
    else if att != "" then
      Some(Doc(title, BseCorpFiling + folder + "/" + att, [], date, "BSE", newsId, att))
    else None
  }

  /** The list `bse_filings` returns: nothing without a scrip code or a reply,
      otherwise one document per usable item, in reply order. */
  function BseFilingDocs(code: string, reply: Option<seq<BseFilingItem>>): seq<Doc> {
    if code == "" || reply.None? then [] else Somes(reply.value, BseFilingDoc)
  }

  /** `bse_filings(category)` for a scrip code and the category's reply. */
  method BseFilings(code: string, reply: Option<seq<BseFilingItem>>) returns (docs: seq<Doc>)
    ensures docs == BseFilingDocs(code, reply)
  {
    if code == "" || reply.None? {
      return [];
    }
    var items := reply.value;
    docs := [];
    for i := 0 to |items|
      invariant docs == Somes(items[..i], BseFilingDoc)
    {
      SomesSnoc(items, i, BseFilingDoc);
      var d := BseFilingDoc(items[i]);
      if d.Some? {
        docs := docs + [d.value];
      }
    }
    assert items[..|items|] == items;
  }

  /** Usable BSE items: those with a news id or an attachment after trimming. */
  predicate HasBseReference(item: BseFilingItem) {
    Strip(Or(item.newsId, item.newsIdAlt)) != "" || Strip(Or(item.attachmentName, item.fileName)) != ""
  }

  /** Every BSE document carries a non-empty link that agrees with
      `bse_att_url`; alternative links exist exactly when both a news id and an
      attachment do; and an item is dropped exactly when it has neither. */
  lemma BseFilingDocShape(item: BseFilingItem)
    ensures BseFilingDoc(item).Some? <==> HasBseReference(item)
    ensures BseFilingDoc(item).Some? ==>
      var d := BseFilingDoc(item).value;
      && d.url != ""
      && d.url == BseAttUrl(d.newsId, d.attachment, item.ageDays)
      && (d.altUrls != [] <==> d.newsId != "" && d.attachment != "")
      && (d.altUrls != [] ==> d.altUrls == [AttachmentUrl(d.attachment, item.ageDays)])
  {
  }

  /** The list has one document per usable item, in reply order, and every
      document is a BSE document with a non-empty link. */
  lemma BseFilingDocsShape(items: seq<BseFilingItem>)
    ensures var docs, usable := Somes(items, BseFilingDoc), Filter(items, HasBseReference);
      && |docs| == |usable|
      && (forall i :: 0 <= i < |usable| ==> BseFilingDoc(usable[i]) == Some(docs[i]))
      && (forall d :: d in docs ==> d.url != "" && d.source == "BSE")
  {
    forall x ensures HasBseReference(x) == BseFilingDoc(x).Some? {
      BseFilingDocShape(x);
    }
    SomesOfKept(items, BseFilingDoc, HasBseReference);
    SomesFrom(items, BseFilingDoc);
    forall d | d in Somes(items, BseFilingDoc) ensures d.url != "" && d.source == "BSE" {
      var x :| x in items && BseFilingDoc(x) == Some(d);
      BseFilingDocShape(x);
    }
  }

  // ---------------------------------------------------------------------------
  // NSE lists (stock_backend.py:1447-1485)

  /** One record of an NSE reply, with the alternative key spellings read. */
  datatype NseItem = NseItem(
    fileName: string,       // fileName
    attchmntFile: string,   // attchmntFile
    attachment: string,     // attachment
    date: string,           // date
    anDt: string,           // an_dt
    name: string,           // name
    desc: string)           // desc

  function NseAnnualReportDoc(item: NseItem): Option<Doc> {
    var att := Strip(Or(item.fileName, Or(item.attchmntFile, item.attachment)));
    var date := Take(Strip(Or(item.date, item.anDt)), 10);
    var title := Strip(Or(item.name, Or(item.desc, "Annual Report " + Take(date, 4))));
    if att != "" then Some(Doc(title, NseDocUrl(att), [], date, "NSE", "", "")) else None
  }

  function NseAnnualReportDocs(reply: Option<seq<NseItem>>): seq<Doc> {
    if reply.None? then [] else Somes(reply.value, NseAnnualReportDoc)
  }

  /** `nse_annual_reports()` for the reply of the annual-reports endpoint. */
  method NseAnnualReports(reply: Option<seq<NseItem>>) returns (docs: seq<Doc>)
    ensures docs == NseAnnualReportDocs(reply)
  {
    docs := [];
    if reply.None? || reply.value == [] {
      return;
    }
    var items := reply.value;
    for i := 0 to |items|
      invariant docs == Somes(items[..i], NseAnnualReportDoc)
    {
      SomesSnoc(items, i, NseAnnualReportDoc);
      var d := NseAnnualReportDoc(items[i]);
      if d.Some? {
        docs := docs + [d.value];
      }
    }
    assert items[..|items|] == items;
  }

  /** `any(kw in text for kw in keywords)` */
  predicate AnyKeyword(text: string, keywords: seq<string>) {
    exists k | 0 <= k < |keywords| :: Contains(text, keywords[k])
  }

  function NseAnnouncementDoc(item: NseItem, keywords: seq<string>): Option<Doc> {
    var title := Strip(item.desc);
    var att := Strip(item.attchmntFile);
    var date := Take(Strip(item.anDt), 10);
    if att == "" then None
    else if AnyKeyword(Lower(title), keywords) then Some(Doc(title, NseDocUrl(att), [], date, "NSE", "", ""))
    else None
  }

  function NseAnnouncementDocs(reply: Option<seq<NseItem>>, keywords: seq<string>): seq<Doc> {
    if reply.None? then [] else Somes(reply.value, KeywordDoc(keywords))
  }

  function KeywordDoc(keywords: seq<string>): NseItem -> Option<Doc> {
    (item: NseItem) => NseAnnouncementDoc(item, keywords)
  }

  /** `nse_announcements(filter_kws)` for the reply of the announcements endpoint. */
  method NseAnnouncements(reply: Option<seq<NseItem>>, keywords: seq<string>) returns (docs: seq<Doc>)
    ensures docs == NseAnnouncementDocs(reply, keywords)
  {
    docs := [];
    if reply.None? || reply.value == [] {
      return;
    }
    var items := reply.value;
    for i := 0 to |items|
      invariant docs == Somes(items[..i], KeywordDoc(keywords))
    {
      SomesSnoc(items, i, KeywordDoc(keywords));
      var d := NseAnnouncementDoc(items[i], keywords);
      if d.Some? {
        docs := docs + [d.value];
      }
    }
    assert items[..|items|] == items;
  }

  /** An NSE announcement is kept when it has an attachment and its
      lower-cased description names one of the keywords. */
  function KeywordMatch(keywords: seq<string>): NseItem -> bool {
    (item: NseItem) => Strip(item.attchmntFile) != "" && AnyKeyword(Lower(Strip(item.desc)), keywords)
  }

  /** The keyword filter keeps exactly the items with an attachment whose
      lower-cased description contains one of the keywords, in reply order,
      and gives each a non-empty link. */
  lemma NseAnnouncementFilter(items: seq<NseItem>, keywords: seq<string>)
    ensures var docs, kept := Somes(items, KeywordDoc(keywords)), Filter(items, KeywordMatch(keywords));
      && |docs| == |kept|
      && (forall i :: 0 <= i < |kept| ==> NseAnnouncementDoc(kept[i], keywords) == Some(docs[i]))
      && (forall d :: d in docs ==> d.url != "" && AnyKeyword(Lower(d.title), keywords))
  {
    SomesOfKept(items, KeywordDoc(keywords), KeywordMatch(keywords));
    SomesFrom(items, KeywordDoc(keywords));
  }

  /** Annual reports: one per item with an attachment, in reply order, each
      an NSE document with a non-empty link. */
  lemma NseAnnualReportLinks(items: seq<NseItem>)
    ensures var docs, kept := Somes(items, NseAnnualReportDoc), Filter(items, HasNseAttachment);
      && |docs| == |kept|
      && (forall i :: 0 <= i < |kept| ==> NseAnnualReportDoc(kept[i]) == Some(docs[i]))
      && (forall d :: d in docs ==> d.url != "" && d.source == "NSE")
  {
    SomesOfKept(items, NseAnnualReportDoc, HasNseAttachment);
    SomesFrom(items, NseAnnualReportDoc);
  }

  predicate HasNseAttachment(item: NseItem) {
    Strip(Or(item.fileName, Or(item.attchmntFile, item.attachment))) != ""
  }

  // ---------------------------------------------------------------------------
  // Provider order per document category (stock_backend.py:1604-1611, 1642-1650, 1679-1683)

  const AnnualReportCategory := "Annual Report"
  const ConcallCategory := "Analysts/Institutional Investor Meet/Con. Call Updates"
  const InvestorMeetCategory := "Analysts/Institutional Investor Meet"
  const PresentationCategory := "Investor Presentation"

  const AnnualKeywords := ["annual report", "annual-report", "integrated annual"]
  const TranscriptKeywords := ["concall", "con call", "conference call", "earnings call",
                               "analyst meet", "institutional investor", "transcript",
                               "investor meet", "con-call", "earnings transcript"]
  const PresentationKeywords := ["investor presentation", "presentation", "corporate presentation",
                                 "analyst day", "investor day"]

  datatype SourceType = Annual | Transcript | Presentation | Unknown(name: string)

  /** What the providers answered during one request. Every BSE category and
      the two NSE endpoints are asked at most once. */
  datatype ProviderReplies = ProviderReplies(
    bse: map<string, seq<BseFilingItem>>,          // category -> reply; absent = failed
    nseAnnualReports: Option<seq<NseItem>>,
    nseAnnouncements: Option<seq<NseItem>>)

  function BseReply(replies: ProviderReplies, category: string): Option<seq<BseFilingItem>> {
    if category in replies.bse then Some(replies.bse[category]) else None
  }

  /** The first non-empty list, or the empty list when all are empty. */
  function FirstNonEmpty<T>(lists: seq<seq<T>>): (r: seq<T>) {
    if lists == [] then []
    else if lists[0] != [] then lists[0]
    else FirstNonEmpty(lists[1..])
  }

  lemma {:induction false} FirstNonEmptyIsFirst<T>(lists: seq<seq<T>>)
    ensures var r := FirstNonEmpty(lists);
      && (r == [] <==> forall i :: 0 <= i < |lists| ==> lists[i] == [])
      && (r != [] ==> exists i :: 0 <= i < |lists| && r == lists[i]
                                  && forall j :: 0 <= j < i ==> lists[j] == [])
  {
    if lists != [] && lists[0] == [] {
      FirstNonEmptyIsFirst(lists[1..]);
      var r := FirstNonEmpty(lists);
      if r != [] {
        var i :| 0 <= i < |lists[1..]| && r == lists[1..][i] && forall j :: 0 <= j < i ==> lists[1..][j] == [];
        assert r == lists[i + 1];
        assert forall j :: 0 <= j < i + 1 ==> lists[j] == [] by {
          forall j | 0 <= j < i + 1 ensures lists[j] == [] {
            if j > 0 { assert lists[j] == lists[1..][j - 1]; }
          }
        }
      }
    }
  }

  lemma FirstNonEmptyOfTwo<T>(a: seq<T>, b: seq<T>)
    ensures FirstNonEmpty([a, b]) == if a != [] then a else b
  {
    assert [a, b][1..] == [b];
    assert [b][1..] == [];
    assert FirstNonEmpty([b]) == b by {
      assert [b][0] == b;
    }
  }

  lemma FirstNonEmptyOfThree<T>(a: seq<T>, b: seq<T>, c: seq<T>)
    ensures FirstNonEmpty([a, b, c]) == if a != [] then a else if b != [] then b else c
  {
    assert [a, b, c][1..] == [b, c];
    FirstNonEmptyOfTwo(b, c);
  }

  /** The candidate lists of one source type, in the order they are tried. */
  function ProviderLists(sourceType: SourceType, code: string, replies: ProviderReplies): seq<seq<Doc>> {
    match sourceType
    case Annual => [
      BseFilingDocs(code, BseReply(replies, AnnualReportCategory)),
      NseAnnualReportDocs(replies.nseAnnualReports),
      NseAnnouncementDocs(replies.nseAnnouncements, AnnualKeywords)]
    case Transcript => [
      BseFilingDocs(code, BseReply(replies, ConcallCategory)),
      BseFilingDocs(code, BseReply(replies, InvestorMeetCategory)),
      NseAnnouncementDocs(replies.nseAnnouncements, TranscriptKeywords)]
    case Presentation => [
      BseFilingDocs(code, BseReply(replies, PresentationCategory)),
      NseAnnouncementDocs(replies.nseAnnouncements, PresentationKeywords)]
    case Unknown(_) => []
  }

  /** `all_docs` for one source type: each provider is asked only while the
      ones before it gave nothing, so the result is the first non-empty list. */
  method CollectDocs(sourceType: SourceType, code: string, replies: ProviderReplies) returns (docs: seq<Doc>)
    ensures docs == FirstNonEmpty(ProviderLists(sourceType, code, replies))
  {
    docs := [];
    match sourceType {
      case Annual =>
        FirstNonEmptyOfThree(BseFilingDocs(code, BseReply(replies, AnnualReportCategory)),
          NseAnnualReportDocs(replies.nseAnnualReports),
          NseAnnouncementDocs(replies.nseAnnouncements, AnnualKeywords));
        docs := BseFilings(code, BseReply(replies, AnnualReportCategory));
        if docs == [] {
          docs := NseAnnualReports(replies.nseAnnualReports);
        }
        if docs == [] {
          docs := NseAnnouncements(replies.nseAnnouncements, AnnualKeywords);
        }
      case Transcript =>
        FirstNonEmptyOfThree(BseFilingDocs(code, BseReply(replies, ConcallCategory)),
          BseFilingDocs(code, BseReply(replies, InvestorMeetCategory)),
          NseAnnouncementDocs(replies.nseAnnouncements, TranscriptKeywords));
        docs := BseFilings(code, BseReply(replies, ConcallCategory));
        if docs == [] {
          docs := BseFilings(code, BseReply(replies, InvestorMeetCategory));
        }
        if docs == [] {
          docs := NseAnnouncements(replies.nseAnnouncements, TranscriptKeywords);
        }
      case Presentation =>
        FirstNonEmptyOfTwo(BseFilingDocs(code, BseReply(replies, PresentationCategory)),
          NseAnnouncementDocs(replies.nseAnnouncements, PresentationKeywords));
        docs := BseFilings(code, BseReply(replies, PresentationCategory));
        if docs == [] {
          docs := NseAnnouncements(replies.nseAnnouncements, PresentationKeywords);
        }
      case Unknown(_) =>
    }
  }

  /** Every document any provider list holds carries a non-empty link. */
  lemma ProviderListLinks(sourceType: SourceType, code: string, replies: ProviderReplies)
    ensures forall l, d :: l in ProviderLists(sourceType, code, replies) && d in l ==> d.url != ""
  {
    var lists := ProviderLists(sourceType, code, replies);
    match sourceType
    case Annual =>
      BseListLinked(code, replies, AnnualReportCategory);
      NseAnnualReportsLinked(replies);
      NseAnnouncementsLinked(replies, AnnualKeywords);
      AllLinked(lists);
    case Transcript =>
      BseListLinked(code, replies, ConcallCategory);
      BseListLinked(code, replies, InvestorMeetCategory);
      NseAnnouncementsLinked(replies, TranscriptKeywords);
      AllLinked(lists);
    case Presentation =>
      BseListLinked(code, replies, PresentationCategory);
      NseAnnouncementsLinked(replies, PresentationKeywords);
      AllLinked(lists);
    case Unknown(_) =>
  }

  predicate Linked(docs: seq<Doc>) {
    forall d :: d in docs ==> d.url != ""
  }

  lemma AllLinked(lists: seq<seq<Doc>>)
    requires forall i :: 0 <= i < |lists| ==> Linked(lists[i])
    ensures forall l, d :: l in lists && d in l ==> d.url != ""
  {
  }

  lemma BseListLinked(code: string, replies: ProviderReplies, category: string)
    ensures Linked(BseFilingDocs(code, BseReply(replies, category)))
  {
    if code != "" && BseReply(replies, category).Some? {
      BseFilingDocsShape(BseReply(replies, category).value);
    }
  }

  lemma NseAnnualReportsLinked(replies: ProviderReplies)
    ensures Linked(NseAnnualReportDocs(replies.nseAnnualReports))
  {
    if replies.nseAnnualReports.Some? {
      NseAnnualReportLinks(replies.nseAnnualReports.value);
    }
  }

  lemma NseAnnouncementsLinked(replies: ProviderReplies, keywords: seq<string>)
    ensures Linked(NseAnnouncementDocs(replies.nseAnnouncements, keywords))
  {
    if replies.nseAnnouncements.Some? {
      NseAnnouncementFilter(replies.nseAnnouncements.value, keywords);
    }
  }
}
