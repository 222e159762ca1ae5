/** Concall lists: the "seen-set" de-duplication by link that both concall
    endpoints run (stock_backend.py:1977-1992 and 2819-2825), and the quarter
    relabelling the first of them applies to the entries it keeps. */
module Concalls {
  import opened Wrappers
  import opened Text
  import opened Lists
  import opened FiscalCalendar

  /** A concall document: its link and its quarter label ("" when it has
      none); the title stands for the other fields, which ride along. */
  datatype Concall = Concall(title: string, url: string, quarter: string)

  function UrlOf(c: Concall): string {
    c.url
  }

  predicate HasUrl(c: Concall) {
    c.url != ""
  }

  // ---------------------------------------------------------------------------
  // De-duplication by link

  /** What the loop keeps: entries without a link are skipped, and of the
      others the first per link is kept. */
  function UrlDeduped(docs: seq<Concall>): seq<Concall> {
    FirstPerKey(Filter(docs, HasUrl), UrlOf)
  }

  /** The loop of the concall list endpoint (stock_backend.py:2819-2825):
      the seen-set loop over links, keeping each entry as it is. */
  method DedupByUrl(docs: seq<Concall>) returns (out: seq<Concall>)
    ensures out == UrlDeduped(docs)
  {
    out := KeepFirstPerKeyIf(docs, HasUrl, UrlOf, (c: Concall) => c);
  }

  /** The entry at `i` is the first with its link, and the link is not empty. */
  predicate IsFirstUrl(docs: seq<Concall>, i: int)
    requires 0 <= i < |docs|
  {
    docs[i].url != "" && forall k :: 0 <= k < i ==> docs[k].url != docs[i].url
  }

  /** A reference written position by position: the entries that are the
      first with their non-empty link, in input order. */
  function FirstUrlEntries(docs: seq<Concall>): seq<Concall> {
    if docs == [] then []
    else
      var n := |docs| - 1;
      FirstUrlEntries(docs[..n]) + (if IsFirstUrl(docs, n) then [docs[n]] else [])
  }

  /** The links left after skipping the entries without one. */
  lemma FilterUrlKeys(docs: seq<Concall>)
    ensures KeysOf(Filter(docs, HasUrl), UrlOf) == KeysOf(docs, UrlOf) - {""}
  {
    FilterKeysOf(docs, HasUrl, UrlOf, "");
  }

  /** The loop keeps exactly the first entry per non-empty link, in input
      order: it agrees with the position-by-position reference. */
  lemma {:induction false} UrlDedupedIsFirstPerUrl(docs: seq<Concall>)
    ensures UrlDeduped(docs) == FirstUrlEntries(docs)
  {
    if docs != [] {
      var n := |docs| - 1;
      var front, d := docs[..n], docs[n];
      UrlDedupedIsFirstPerUrl(front);
      FilteredFirstPerKeySnoc(docs, n, HasUrl, UrlOf);
      assert docs[..n + 1] == docs;
      FilterUrlKeys(front);
      KeysOfPrefix(docs, UrlOf, n, UrlOf(d));
      assert IsFirstUrl(docs, n) <==> HasUrl(d) && UrlOf(d) !in KeysOf(Filter(front, HasUrl), UrlOf);
    }
  }

  /** The kept entries all have links, no link appears twice, and every
      non-empty link of the input is kept. */
  lemma UrlDedupedShape(docs: seq<Concall>)
    ensures var r := UrlDeduped(docs);
      && (forall j :: 0 <= j < |r| ==> r[j].url != "")
      && (forall j1, j2 :: 0 <= j1 < j2 < |r| ==> r[j1].url != r[j2].url)
      && KeysOf(r, UrlOf) == KeysOf(docs, UrlOf) - {""}
  {
    var f := Filter(docs, HasUrl);
    FirstPerKeyUnique(f, UrlOf);
    FirstPerKeyKeys(f, UrlOf);
    FilterUrlKeys(docs);
    FirstPerKeyPositions(f, UrlOf);
  }

  // ---------------------------------------------------------------------------
  // Quarter relabelling: `re.search(r'Q(\d)\s+FY(\d{2})', quarter)`

  /** The pattern `Q\d`, at least `minSpace` whitespace characters, then
      `FY\d\d`, matched at position `i`. Whitespace is matched greedily and
      "F" is not whitespace, so the run of whitespace is taken whole. */
  predicate QuarterFyAt(q: string, i: nat, minSpace: nat) {
    && i + 2 <= |q| && q[i] == 'Q' && IsDigit(q[i + 1])
    && var j := SkipSpace(q, i + 2);
    && j >= i + 2 + minSpace && j + 4 <= |q|
    && q[j] == 'F' && q[j + 1] == 'Y' && IsDigit(q[j + 2]) && IsDigit(q[j + 3])
  }

  /** The leftmost match at or after `i`, as `re.search` finds it. */
  function FirstQuarterFy(q: string, i: nat, minSpace: nat): (r: Option<nat>)
    ensures r.Some? ==> i <= r.value && QuarterFyAt(q, r.value, minSpace)
    ensures r.None? ==> forall k :: i <= k < |q| ==> !QuarterFyAt(q, k, minSpace)
    decreases |q| - i
  {
    if i >= |q| then None
    else if QuarterFyAt(q, i, minSpace) then Some(i)
    else FirstQuarterFy(q, i + 1, minSpace)
  }

  /** `f"Q{q_num} 20{fy_short}"` for a match at `i`. */
  function YearLabel(q: string, i: nat, minSpace: nat): (r: string)
    requires QuarterFyAt(q, i, minSpace)
    ensures |r| == 7 && 'F' !in r
  {
    var j := SkipSpace(q, i + 2);
    ['Q', q[i + 1], ' ', '2', '0', q[j + 2], q[j + 3]]
  }

  /** The relabelling with at least `minSpace` whitespace characters between
      the quarter and "FY". */
  function RelabelWith(q: string, minSpace: nat): string {
    if q != "" && Contains(q, "FY") then
      match FirstQuarterFy(q, 0, minSpace)
      case Some(i) => YearLabel(q, i, minSpace)
      case None => q
    else q
  }

  /** The relabelling as written: `\s+` asks for at least one whitespace
      character between the quarter and "FY". */
  function RelabelQuarter(q: string): string {
    RelabelWith(q, 1)
  }

  /** The relabelling the comment describes for the labels this list holds:
      `\s*` also accepts the unspaced "Q3FY26" form. */
  function RelabelQuarterFixed(q: string): string {
    RelabelWith(q, 0)
  }

  /** Relabelling twice is relabelling once: a new label has no "FY". */
  lemma RelabelIdempotent(q: string, minSpace: nat)
    ensures RelabelWith(RelabelWith(q, minSpace), minSpace) == RelabelWith(q, minSpace)
  {
    var r := RelabelWith(q, minSpace);
    if r != q {
      NotContainsMissingChar(r, "FY", 'F');
    }
  }

  /** The spaced form of the comment becomes the year form, in both versions. */
  lemma SpacedLabelRelabelled(minSpace: nat)
    requires minSpace <= 1
    ensures RelabelWith("Q1 FY25", minSpace) == "Q1 2025"
  {
    var q := "Q1 FY25";
    assert SkipSpace(q, 3) == 3;
    assert SkipSpace(q, 2) == 3;
    assert QuarterFyAt(q, 0, minSpace);
    ContainsAt(q, "FY", 3);
  }

  /** A label without whitespace is never matched by `\s+`. */
  lemma {:induction false} UnspacedNeverMatches(q: string, i: nat)
    requires forall k :: 0 <= k < |q| ==> !IsSpace(q[k])
    ensures FirstQuarterFy(q, i, 1) == None
    decreases |q| - i
  {
    if i < |q| {
      if i + 2 <= |q| {
        assert SkipSpace(q, i + 2) == i + 2;
      }
      UnspacedNeverMatches(q, i + 1);
    }
  }

  /** As written, the relabelling leaves every transcript label
      (stock_backend.py:1955-1969, e.g. "Q3FY26") unchanged, although those
      labels are what the concall list holds. */
  lemma TranscriptLabelUnchanged(month: Month, year: nat)
    ensures RelabelQuarter(TranscriptLabel(month, year)) == TranscriptLabel(month, year)
  {
    var q := TranscriptLabel(month, year);
    var yy := LastTwo(NatToString(FiscalYearEnding(month, year)));
    LastTwoOfNatToString(FiscalYearEnding(month, year));
    assert q == QuarterName(month) + "FY" + yy;
    forall k | 0 <= k < |q| ensures !IsSpace(q[k]) {
      if k >= 4 {
        assert q[k] == yy[k - 4];
      }
    }
    UnspacedNeverMatches(q, 0);
  }

  /** With `\s*`, a transcript label of a fiscal year 2000-2099 becomes the
      "Q3 2026" form that the BSE fallback writes (stock_backend.py:2733-2741). */
  lemma TranscriptLabelRelabelledFixed(month: Month, year: nat)
    requires 2000 <= FiscalYearEnding(month, year) <= 2099
    ensures RelabelQuarterFixed(TranscriptLabel(month, year)) == BseConcallLabel(month, year)
  {
    var fy := FiscalYearEnding(month, year);
    var q := TranscriptLabel(month, year);
    var qn, yy := QuarterName(month), LastTwo(NatToString(fy));
    NatToStringTwentyHundreds(fy);
    assert |yy| == 2 && IsDigit(yy[0]) && IsDigit(yy[1]);
    assert q == qn + "FY" + yy;
    assert q[2] == 'F' && q[3] == 'Y' && q[4] == yy[0] && q[5] == yy[1];
    assert SkipSpace(q, 2) == 2;
    assert QuarterFyAt(q, 0, 0);
    ContainsAt(q, "FY", 2);
    assert YearLabel(q, 0, 0) == qn + " " + ("20" + yy);
  }

  /** `str(n)` of a year 2000-2099 is "20" followed by its last two digits. */
  lemma NatToStringTwentyHundreds(n: nat)
    requires 2000 <= n <= 2099
    ensures NatToString(n) == "20" + LastTwo(NatToString(n))
    ensures |LastTwo(NatToString(n))| == 2 && AllDigits(LastTwo(NatToString(n)))
  {
    assert n / 10 / 10 == 20;
    assert NatToString(20) == "20" by {
      assert NatToString(2) == "2";
    }
    assert NatToString(n / 10) == "20" + [DigitChar(n / 10 % 10)];
    assert NatToString(n) == "20" + [DigitChar(n / 10 % 10), DigitChar(n % 10)];
  }

  // ---------------------------------------------------------------------------
  // The first endpoint: de-duplicate, then relabel what is kept

  /** An entry with its quarter relabelled as written (`\s+`). */
  function Relabeled(c: Concall): Concall {
    c.(quarter := RelabelQuarter(c.quarter))
  }

  /** An entry with its quarter relabelled by the corrected pattern (`\s*`). */
  function RelabeledFixed(c: Concall): Concall {
    c.(quarter := RelabelQuarterFixed(c.quarter))
  }

  /** The loop of stock_backend.py:1977-1992 as written: the same seen-set
      loop over links, relabelling the quarter of each entry it keeps. */
  method DedupAndRelabel(docs: seq<Concall>) returns (out: seq<Concall>)
    ensures out == Map(UrlDeduped(docs), Relabeled)
  {
    out := KeepFirstPerKeyIf(docs, HasUrl, UrlOf, Relabeled);
  }

  /** The same loop with the corrected relabelling. */
  method DedupAndRelabelFixed(docs: seq<Concall>) returns (out: seq<Concall>)
    ensures out == Map(UrlDeduped(docs), RelabeledFixed)
  {
    out := KeepFirstPerKeyIf(docs, HasUrl, UrlOf, RelabeledFixed);
  }

  /** As written, the loop changes no label of a list whose labels hold no
      whitespace, as the transcript labels of stock_backend.py:1969 do: it is
      the de-duplication by link alone. */
  lemma UnspacedLabelsKept(docs: seq<Concall>)
    requires forall c, k :: c in docs && 0 <= k < |c.quarter| ==> !IsSpace(c.quarter[k])
    ensures Map(UrlDeduped(docs), Relabeled) == UrlDeduped(docs)
  {
    var kept := Filter(docs, HasUrl);
    forall x | x in kept
      ensures Relabeled(x) == x
    {
      var i :| 0 <= i < |kept| && kept[i] == x;
      assert x in docs;
      UnspacedNeverMatches(x.quarter, 0);
    }
    MapFixedPerKey(kept, UrlOf, Relabeled);
  }

  /** With the corrected relabelling, a kept transcript entry carries the
      "Q3 2026" label of the BSE fallback. */
  lemma TranscriptEntryRelabelledFixed(c: Concall, month: Month, year: nat)
    requires c.quarter == TranscriptLabel(month, year)
    requires 2000 <= FiscalYearEnding(month, year) <= 2099
    ensures RelabeledFixed(c).quarter == BseConcallLabel(month, year)
    ensures Relabeled(c) == c
  {
    TranscriptLabelRelabelledFixed(month, year);
    TranscriptLabelUnchanged(month, year);
  }
}
