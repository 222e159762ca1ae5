/** The temporal matcher of `deepdive_fetch`: `best_year` picks the annual
    report of a fiscal year, `best_quarter` the concall document of a fiscal
    quarter. Both score every candidate on its lower-cased title and date (never
    its URL), sort the scores descending with Python's stable sort and take the
    head, which is returned only when its score reaches a threshold. */
module TemporalMatcher {
  import opened Wrappers
  import opened Text
  import opened Lists
  import opened Filings

  /** `(doc['title'] + ' ' + doc['date']).lower()` */
  function MatchText(d: Doc): string {
    Lower(d.title + " " + d.date)
  }

  function ScoreOf(p: (int, Doc)): int {
    p.0
  }

  /** `scored.sort(key=lambda x: -x[0])`, then `scored[0]`, returned only when
      its score reaches the threshold. */
  function PickBest(scored: seq<(int, Doc)>, threshold: int): Option<Doc> {
    if scored == [] then None
    else
      var top := SortDesc(scored, ScoreOf)[0];
      if top.0 >= threshold then Some(top.1) else None
  }

  /** The pick is the first candidate with the top score, and there is a pick
      exactly when some candidate reaches the threshold. */
  lemma PickBestIsFirstTop(scored: seq<(int, Doc)>, threshold: int)
    ensures PickBest(scored, threshold).Some?
        <==> exists k :: 0 <= k < |scored| && scored[k].0 >= threshold
    ensures PickBest(scored, threshold).Some? ==>
      exists k :: IsFirstMax(scored, ScoreOf, k) && scored[k].0 >= threshold
                  && PickBest(scored, threshold).value == scored[k].1
  {
    if scored != [] {
      SortDescHead(scored, ScoreOf);
      var k :| IsFirstMax(scored, ScoreOf, k) && SortDesc(scored, ScoreOf)[0] == scored[k];
      assert PickBest(scored, threshold) == if scored[k].0 >= threshold then Some(scored[k].1) else None;
      if exists j :: 0 <= j < |scored| && scored[j].0 >= threshold {
        var j :| 0 <= j < |scored| && scored[j].0 >= threshold;
        assert ScoreOf(scored[j]) <= ScoreOf(scored[k]);
      }
    }
  }

  /** `s[k]` is the first candidate with the highest score. */
  predicate IsFirstTop(scores: seq<int>, k: int) {
    && 0 <= k < |scores|
    && (forall j :: 0 <= j < |scores| ==> scores[j] <= scores[k])
    && (forall j :: 0 <= j < k ==> scores[j] < scores[k])
  }

  lemma IsFirstTopOfScores(scored: seq<(int, Doc)>, scores: seq<int>, k: int)
    requires |scores| == |scored| && forall j :: 0 <= j < |scored| ==> scores[j] == scored[j].0
    requires IsFirstMax(scored, ScoreOf, k)
    ensures IsFirstTop(scores, k)
  {
    forall j | 0 <= j < |scored|
      ensures scores[j] <= scores[k]
    {
      assert ScoreOf(scored[j]) <= ScoreOf(scored[k]);
    }
    forall j | 0 <= j < k
      ensures scores[j] < scores[k]
    {
      assert ScoreOf(scored[j]) < ScoreOf(scored[k]);
    }
  }

  // ---------------------------------------------------------------------------
  // Fiscal year (stock_backend.py:1491-1534)

  /** The six patterns with their weights, most specific first; for 2025 they
      are "2024-25", "2024-2025", "24-25", "fy25", "fy 25" and "fy2025". */
  function YearPatterns(yr: int): seq<(string, int)> {
    PatternsFor(IntToString(yr - 1), IntToString(yr))
  }

  /** The patterns for a year written `yrStr` whose predecessor is written `prev`. */
  function PatternsFor(prev: string, yrStr: string): seq<(string, int)> {
    var yrS := LastTwo(yrStr);
    var prevS := LastTwo(prev);
    [(prev + "-" + yrS, 10), (prev + "-" + yrStr, 10), (prevS + "-" + yrS, 9),
     ("fy" + yrS, 8), ("fy " + yrS, 8), ("fy" + yrStr, 7)]
  }

  /** The largest weight among the patterns that occur in `t`; 0 when none does. */
  function PatternMax(t: string, pats: seq<(string, int)>): (m: int)
    ensures m >= 0
    ensures forall k :: 0 <= k < |pats| && Contains(t, pats[k].0) ==> m >= pats[k].1
    ensures m == 0 || exists k :: 0 <= k < |pats| && Contains(t, pats[k].0) && m == pats[k].1
  {
    if pats == [] then 0
    else
      var front := PatternMax(t, pats[..|pats| - 1]);
      var last := pats[|pats| - 1];
      assert forall k :: 0 <= k < |pats| - 1 ==> pats[..|pats| - 1][k] == pats[k];
      if Contains(t, last.0) && last.1 > front then last.1 else front
  }

  /** The score of one candidate: the best pattern weight, else 3 when the
      four-digit year is in the title, else 2 when it is in the date. */
  function YearScore(d: Doc, yr: int): int {
    var best := PatternMax(MatchText(d), YearPatterns(yr));
    var yrStr := IntToString(yr);
    if best == 0 && Contains(d.title, yrStr) then 3
    else if best == 0 && Contains(d.date, yrStr) then 2
    else best
  }

  /** Taking the maximum makes the most specific pattern found decide the
      score: the weights, read as a priority list. */
  lemma YearScoreByPriority(d: Doc, yr: int)
    ensures var t, y, p := MatchText(d), IntToString(yr), IntToString(yr - 1);
      YearScore(d, yr)
        == if Contains(t, p + "-" + LastTwo(y)) || Contains(t, p + "-" + y) then 10
           else if Contains(t, LastTwo(p) + "-" + LastTwo(y)) then 9
           else if Contains(t, "fy" + LastTwo(y)) || Contains(t, "fy " + LastTwo(y)) then 8
           else if Contains(t, "fy" + y) then 7
           else if Contains(d.title, y) then 3
           else if Contains(d.date, y) then 2
           else 0
  {
    PatternsByPriority(MatchText(d), IntToString(yr - 1), IntToString(yr));
  }

  /** The pattern maximum over the year patterns, as a priority list. */
  lemma PatternsByPriority(t: string, p: string, y: string)
    ensures PatternMax(t, PatternsFor(p, y))
        == if Contains(t, p + "-" + LastTwo(y)) || Contains(t, p + "-" + y) then 10
           else if Contains(t, LastTwo(p) + "-" + LastTwo(y)) then 9
           else if Contains(t, "fy" + LastTwo(y)) || Contains(t, "fy " + LastTwo(y)) then 8
           else if Contains(t, "fy" + y) then 7
           else 0
  {
    var pats := PatternsFor(p, y);
    var ys, ps := LastTwo(y), LastTwo(p);
    assert pats[0] == (p + "-" + ys, 10) && pats[1] == (p + "-" + y, 10);
    assert pats[2] == (ps + "-" + ys, 9);
    assert pats[3] == ("fy" + ys, 8) && pats[4] == ("fy " + ys, 8);
    assert pats[5] == ("fy" + y, 7);
    var m := PatternMax(t, pats);
    if m != 0 {
      var k :| 0 <= k < |pats| && Contains(t, pats[k].0) && m == pats[k].1;
      assert k == 0 || k == 1 || k == 2 || k == 3 || k == 4 || k == 5;
    }
  }

  function YearScores(docs: seq<Doc>, yr: int): seq<int> {
    ScoresBy(docs, YearScoreOf(yr))
  }

  /** The scores of the candidates, in order. */
  function ScoresBy(docs: seq<Doc>, score: Doc -> int): seq<int> {
    seq(|docs|, k requires 0 <= k < |docs| => score(docs[k]))
  }

  /** The pick among scored candidates is the first with the top score, and
      there is one exactly when some candidate reaches the threshold. */
  lemma PickBestOfScored(docs: seq<Doc>, score: Doc -> int, threshold: int)
    ensures var r, scores := PickBest(ScoredBy(docs, score), threshold), ScoresBy(docs, score);
      && (r.Some? <==> exists k :: 0 <= k < |docs| && score(docs[k]) >= threshold)
      && (r.Some? ==> exists k :: IsFirstTop(scores, k) && scores[k] >= threshold && r.value == docs[k])
  {
    var scored := ScoredBy(docs, score);
    PickBestIsFirstTop(scored, threshold);
    var r := PickBest(scored, threshold);
    if r.Some? {
      var k :| IsFirstMax(scored, ScoreOf, k) && scored[k].0 >= threshold && r.value == scored[k].1;
      IsFirstTopOfScores(scored, ScoresBy(docs, score), k);
      assert score(docs[k]) >= threshold;
    } else {
      forall k | 0 <= k < |docs|
        ensures score(docs[k]) < threshold
      {
        assert scored[k].0 == score(docs[k]);
      }
    }
  }

  /** Each candidate paired with its score, in order. */
  function ScoredBy(docs: seq<Doc>, score: Doc -> int): seq<(int, Doc)> {
    seq(|docs|, k requires 0 <= k < |docs| => (score(docs[k]), docs[k]))
  }

  lemma ScoredByAppend(docs: seq<Doc>, score: Doc -> int, i: int)
    requires 0 <= i < |docs|
    ensures ScoredBy(docs[..i + 1], score) == ScoredBy(docs[..i], score) + [(score(docs[i]), docs[i])]
  {
  }

  function YearScoreOf(yr: int): Doc -> int {
    d => YearScore(d, yr)
  }

  function YearScored(docs: seq<Doc>, yr: int): seq<(int, Doc)> {
    ScoredBy(docs, YearScoreOf(yr))
  }

  /** What `best_year(docs, year)` returns. `Some(v)` stands for a request
      year that is the JSON integer `v` or its plain decimal string, for which
      `str(yr)` and `int(yr)` agree; `None` stands for a year that `int(yr)`
      rejects (absent, or text that is not a number), where the request ends
      in the error reply (`Err`). Values that `int` accepts but `str` spells
      differently, such as `2025.0` or `" 2025"`, are not modelled. */
  function MatchYear(docs: seq<Doc>, year: Option<int>): Outcome<Option<Doc>> {
    if docs == [] then Ok(None)
    else if year.None? then Err("year is not an integer")
    else Ok(PickBest(YearScored(docs, year.value), 2))
  }

  /** The inner loop of `best_year`: the best weight among the patterns found. */
  method BestPatternWeight(t: string, patterns: seq<(string, int)>) returns (best: int)
    ensures best == PatternMax(t, patterns)
  {
    best := 0;
    for j := 0 to |patterns|
      invariant best == PatternMax(t, patterns[..j])
    {
      assert patterns[..j + 1][..j] == patterns[..j];
      if Contains(t, patterns[j].0) {
        best := if patterns[j].1 > best then patterns[j].1 else best;
      }
    }
    assert patterns[..|patterns|] == patterns;
  }

  /** The score `best_year` gives one candidate. */
  method ScoreYearCandidate(doc: Doc, yr: int) returns (best: int)
    ensures best == YearScore(doc, yr)
  {
    var yrStr := IntToString(yr);
    best := BestPatternWeight(MatchText(doc), YearPatterns(yr));
    if best == 0 && Contains(doc.title, yrStr) {
      best := 3;
    }
    if best == 0 && Contains(doc.date, yrStr) {
      best := 2;
    }
  }

  /** `best_year(docs, yr)` */
  method BestYear(docs: seq<Doc>, year: Option<int>) returns (r: Outcome<Option<Doc>>)
    ensures r == MatchYear(docs, year)
  {
    if docs == [] {
      return Ok(None);
    }
    if year.None? {
      return Err("year is not an integer");
    }
    var yr := year.value;
    var scored: seq<(int, Doc)> := [];
    for i := 0 to |docs|
      invariant scored == ScoredBy(docs[..i], YearScoreOf(yr))
    {
      var best := ScoreYearCandidate(docs[i], yr);
      ScoredByAppend(docs, YearScoreOf(yr), i);
      scored := scored + [(best, docs[i])];
    }
    assert docs[..|docs|] == docs;
    var sorted := SortDesc(scored, ScoreOf);
    var top := sorted[0];
    r := if top.0 >= 2 then Ok(Some(top.1)) else Ok(None);
  }

  /** `best_year` returns nothing for an empty list; otherwise it returns a
      document exactly when one scores at least 2, and then the first of those
      with the highest score. */
  lemma MatchYearFirstBest(docs: seq<Doc>, yr: int)
    ensures var r := MatchYear(docs, Some(yr));
      var scores := YearScores(docs, yr);
      && r.Ok?
      && (docs == [] ==> r.value.None?)
      && (r.value.Some? <==> exists k :: 0 <= k < |docs| && YearScore(docs[k], yr) >= 2)
      && (r.value.Some? ==> exists k :: IsFirstTop(scores, k) && scores[k] >= 2 && r.value.value == docs[k])
  {
    PickBestOfScored(docs, YearScoreOf(yr), 2);
  }

  lemma YearScoreAtMostTen(d: Doc, yr: int)
    ensures 0 <= YearScore(d, yr) <= 10
  {
    YearScoreByPriority(d, yr);
  }

  /** A candidate that scores the maximum, 10, is the one returned unless an
      earlier candidate scores 10 as well. */
  lemma TopYearScoreWins(docs: seq<Doc>, yr: int, k: int)
    requires 0 <= k < |docs| && YearScore(docs[k], yr) == 10
    requires forall j :: 0 <= j < k ==> YearScore(docs[j], yr) < 10
    ensures MatchYear(docs, Some(yr)) == Ok(Some(docs[k]))
  {
    MatchYearFirstBest(docs, yr);
    var scores := YearScores(docs, yr);
    var r := MatchYear(docs, Some(yr));
    var f :| IsFirstTop(scores, f) && scores[f] >= 2 && r.value.value == docs[f];
    YearScoreAtMostTen(docs[f], yr);
    FirstTopAtBound(scores, f, k, 10);
  }

  /** When `scores[k]` reaches a bound no score exceeds and no earlier score
      reaches it, `k` is the first top position. */
  lemma FirstTopAtBound(scores: seq<int>, f: int, k: int, bound: int)
    requires IsFirstTop(scores, f) && scores[f] <= bound
    requires 0 <= k < |scores| && scores[k] == bound
    requires forall j :: 0 <= j < k ==> scores[j] < bound
    ensures f == k
  {
  }

  /** "Annual Report 2024-25" scores the maximum, 10, for the fiscal year
      2025, whatever its date. */
  lemma AnnualReportScore(a: Doc)
    requires a.title == "Annual Report 2024-25"
    ensures YearScore(a, 2025) == 10
  {
    TitleInMatchText(a, "2024-25", 14);
    RangePattern2025();
    RangeScoresTen(a, 2025);
  }

  /** For 2025 the range pattern is "2024-25", which lower-casing keeps. */
  lemma RangePattern2025()
    ensures IntToString(2025 - 1) + "-" + LastTwo(IntToString(2025)) == "2024-25" == Lower("2024-25")
  {
    IntToString2025();
    IntToString2024();
    assert LastTwo("2025") == "25" by {
      assert "2025"[2..] == "25";
    }
    assert "2024" + "-" + "25" == "2024-25";
    assert forall i :: 0 <= i < |"2024-25"| ==> !('A' <= "2024-25"[i] <= 'Z') by {
      forall i | 0 <= i < |"2024-25"| ensures !('A' <= "2024-25"[i] <= 'Z') {
        assert "2024-25"[i] in "0123456789-";
      }
    }
    LowerWithoutCapitals("2024-25");
  }

  /** A string without capitals is its own lower-case form. */
  lemma LowerWithoutCapitals(s: string)
    requires forall i :: 0 <= i < |s| ==> !('A' <= s[i] <= 'Z')
    ensures Lower(s) == s
  {
    var l := Lower(s);
    forall i | 0 <= i < |s| ensures l[i] == s[i] {
      assert LowerChar(s[i]) == s[i];
    }
  }

  lemma IntToString2024()
    ensures IntToString(2024) == "2024"
  {
    assert NatToString(2) == "2";
    assert NatToString(20) == "20";
    assert NatToString(202) == "202";
  }

  /** A candidate whose text holds the range "2024-25" form of the year scores 10. */
  lemma RangeScoresTen(d: Doc, yr: int)
    requires Contains(MatchText(d), IntToString(yr - 1) + "-" + LastTwo(IntToString(yr)))
    ensures YearScore(d, yr) == 10
  {
    YearScoreByPriority(d, yr);
  }

  /** Of "Annual Report 2024-25" and "Annual Report 2023-24", the first is
      returned for the fiscal year 2025. */
  lemma AnnualReportExample(a: Doc, b: Doc)
    requires a.title == "Annual Report 2024-25" && b.title == "Annual Report 2023-24"
    ensures MatchYear([a, b], Some(2025)) == Ok(Some(a))
  {
    AnnualReportScore(a);
    TopYearScoreWins([a, b], 2025, 0);
  }

  /** A title that holds a pattern at position `i` puts its lower-cased form
      into the matched text. */
  lemma TitleInMatchText(d: Doc, p: string, i: nat)
    requires i + |p| <= |d.title| && d.title[i..i + |p|] == p
    ensures Contains(MatchText(d), Lower(p))
  {
    ContainsAt(d.title, p, i);
    ContainsInfix("", d.title, " " + d.date, p);
    assert "" + d.title + (" " + d.date) == d.title + " " + d.date;
    ContainsLower(d.title + " " + d.date, p);
  }

  // ---------------------------------------------------------------------------
  // Fiscal quarter (stock_backend.py:1540-1595)

  /** The terms derived from a quarter query such as "Q3FY26": the lower-case
      quarter token, the fiscal-year suffix, the full fiscal year, the calendar
      year before it and the month names of the quarter. */
  datatype QuarterTerms = QuarterTerms(
    qnLo: string, fy: string, fyFull: string, calYr: string, months: seq<string>)

  /** `q_cal_months.get(qn, [])` (stock_backend.py:1553-1559) */
  function QuarterMonthNames(qn: string): seq<string> {
    if qn == "Q1" then ["april", "may", "june"]
    else if qn == "Q2" then ["july", "august", "september"]
    else if qn == "Q3" then ["october", "november", "december"]
    else if qn == "Q4" then ["january", "february", "march"]
    else []
  }

  /** The query terms, or `None` where `int(fy_full)` raises. */
  function QuarterTermsOf(qtr: string): Option<QuarterTerms> {
    var q := Upper(qtr);
    TermsOf(Take(q, 2), Replace(Drop(q, 2), "FY", ""))
  }

  /** The terms for the quarter part `qn` and the fiscal-year part `fy`. */
  function TermsOf(qn: string, fy: string): Option<QuarterTerms> {
    var fyFull := "20" + fy;
    match ParseInt(fyFull)
    case None => None
    case Some(v) => Some(QuarterTerms(Lower(qn), fy, fyFull, IntToString(v - 1), QuarterMonthNames(qn)))
  }

  function Combos(terms: QuarterTerms): seq<string> {
    [terms.qnLo + "fy" + terms.fy, terms.qnLo + " fy" + terms.fy,
     terms.qnLo + "fy " + terms.fy, terms.qnLo + "-fy" + terms.fy]
  }

  /** The four independent signals of the quarter score. */
  function ComboSignal(t: string, terms: QuarterTerms): int {
    if AnyKeyword(t, Combos(terms)) then 10 else 0
  }

  function QuarterTokenSignal(t: string, terms: QuarterTerms): int {
    if Contains(" " + t + " ", " " + terms.qnLo + " ") then 5
    else if Contains(t, terms.qnLo) then 3
    else 0
  }

  function FiscalYearSignal(t: string, terms: QuarterTerms): int {
    if Contains(t, "fy" + terms.fy) || Contains(t, "fy " + terms.fy) then 6
    else if Contains(t, terms.fyFull) then 5
    else if Contains(t, terms.calYr) then 3
    else 0
  }

  function MonthSignal(t: string, terms: QuarterTerms): int {
    if AnyKeyword(t, terms.months) then 3 else 0
  }

  /** The score of one candidate: the sum of the four signals, each counted at
      most once. */
  function QuarterScore(d: Doc, terms: QuarterTerms): (s: int)
    ensures 0 <= s <= 24
  {
    var t := MatchText(d);
    ComboSignal(t, terms) + QuarterTokenSignal(t, terms) + FiscalYearSignal(t, terms) + MonthSignal(t, terms)
  }

  /** A combined token such as "q3fy26" also contains the bare quarter token and
      a fiscal-year token, so a candidate that has one scores at least 19. */
  lemma ComboImpliesTokens(d: Doc, terms: QuarterTerms)
    requires ComboSignal(MatchText(d), terms) == 10
    ensures QuarterTokenSignal(MatchText(d), terms) >= 3
    ensures FiscalYearSignal(MatchText(d), terms) == 6
    ensures QuarterScore(d, terms) >= 19
  {
    CombosHoldParts(MatchText(d), terms);
  }

  /** Each combination holds the quarter token and the fiscal-year token. */
  lemma CombosHoldParts(t: string, terms: QuarterTerms)
    requires AnyKeyword(t, Combos(terms))
    ensures Contains(t, terms.qnLo)
    ensures Contains(t, "fy" + terms.fy) || Contains(t, "fy " + terms.fy)
  {
    var combos, q, fy := Combos(terms), terms.qnLo, terms.fy;
    var k :| 0 <= k < |combos| && Contains(t, combos[k]);
    if k == 0 {
      assert combos[k] == q + ("fy" + fy);
      ContainsConcatParts(t, q, "fy" + fy);
    } else if k == 1 {
      assert combos[k] == (q + " ") + ("fy" + fy);
      ContainsConcatParts(t, q + " ", "fy" + fy);
      ContainsConcatParts(t, q, " ");
    } else if k == 2 {
      assert combos[k] == q + ("fy " + fy);
      ContainsConcatParts(t, q, "fy " + fy);
    } else {
      assert combos[k] == (q + "-") + ("fy" + fy);
      ContainsConcatParts(t, q + "-", "fy" + fy);
      ContainsConcatParts(t, q, "-");
    }
  }

  function QuarterScoreOf(terms: QuarterTerms): Doc -> int {
    d => QuarterScore(d, terms)
  }

  function QuarterScores(docs: seq<Doc>, terms: QuarterTerms): seq<int> {
    ScoresBy(docs, QuarterScoreOf(terms))
  }

  function QuarterScored(docs: seq<Doc>, terms: QuarterTerms): seq<(int, Doc)> {
    ScoredBy(docs, QuarterScoreOf(terms))
  }

  /** What `best_quarter(docs, qtr)` returns; `Err` where `int(fy_full)`
      raises and the request ends in the error reply. */
  function MatchQuarter(docs: seq<Doc>, qtr: string): Outcome<Option<Doc>> {
    if docs == [] then Ok(None)
    else
      match QuarterTermsOf(qtr)
      case None => Err("quarter does not end in a fiscal year")
      case Some(terms) => Ok(PickBest(QuarterScored(docs, terms), 5))
  }

  /** The body of the scoring loop of `best_quarter` for one candidate. */
  method ScoreQuarterCandidate(doc: Doc, terms: QuarterTerms) returns (s: int)
    ensures s == QuarterScore(doc, terms)
  {
    var t := MatchText(doc);
    var combos := Combos(terms);
    s := 0;
    var c := 0;
    while c < |combos|
      invariant 0 <= c <= |combos|
      invariant s == 0 && forall j :: 0 <= j < c ==> !Contains(t, combos[j])
    {
      if Contains(t, combos[c]) {
        s := s + 10;
        break;
      }
      c := c + 1;
    }
    assert s == ComboSignal(t, terms);
    if Contains(" " + t + " ", " " + terms.qnLo + " ") {
      s := s + 5;
    } else if Contains(t, terms.qnLo) {
      s := s + 3;
    }
    if Contains(t, "fy" + terms.fy) || Contains(t, "fy " + terms.fy) {
      s := s + 6;
    } else if Contains(t, terms.fyFull) {
      s := s + 5;
    } else if Contains(t, terms.calYr) {
      s := s + 3;
    }
    if AnyKeyword(t, terms.months) {
      s := s + 3;
    }
  }

  /** `best_quarter(docs, qtr)` */
  method BestQuarter(docs: seq<Doc>, qtr: string) returns (r: Outcome<Option<Doc>>)
    ensures r == MatchQuarter(docs, qtr)
  {
    if docs == [] {
      return Ok(None);
    }
    var parsed := QuarterTermsOf(qtr);
    if parsed.None? {
      return Err("quarter does not end in a fiscal year");
    }
    var terms := parsed.value;
    var scored := ScoreQuarterCandidates(docs, terms);
    var sorted := SortDesc(scored, ScoreOf);
    var top := sorted[0];
    r := if top.0 >= 5 then Ok(Some(top.1)) else Ok(None);
  }

  /** The scoring loop of `best_quarter`: one (score, candidate) pair per
      candidate, in order. */
  method ScoreQuarterCandidates(docs: seq<Doc>, terms: QuarterTerms) returns (scored: seq<(int, Doc)>)
    ensures scored == QuarterScored(docs, terms)
  {
    scored := [];
    for i := 0 to |docs|
      invariant scored == ScoredBy(docs[..i], QuarterScoreOf(terms))
    {
      var s := ScoreQuarterCandidate(docs[i], terms);
      ScoredByAppend(docs, QuarterScoreOf(terms), i);
      scored := scored + [(s, docs[i])];
    }
    assert docs[..|docs|] == docs;
  }

  /** `best_quarter` returns nothing for an empty list; for a query it can
      read, it returns a document exactly when one scores at least 5, and then
      the first of those with the highest score. */
  lemma MatchQuarterFirstBest(docs: seq<Doc>, qtr: string)
    requires QuarterTermsOf(qtr).Some?
    ensures var terms := QuarterTermsOf(qtr).value;
      var r := MatchQuarter(docs, qtr);
      var scores := QuarterScores(docs, terms);
      && r.Ok?
      && (docs == [] ==> r.value.None?)
      && (r.value.Some? <==> exists k :: 0 <= k < |docs| && QuarterScore(docs[k], terms) >= 5)
      && (r.value.Some? ==> exists k :: IsFirstTop(scores, k) && scores[k] >= 5 && r.value.value == docs[k])
  {
    PickBestOfScored(docs, QuarterScoreOf(QuarterTermsOf(qtr).value), 5);
  }

  /** The query "Q3FY26" reads as the quarter token "q3", the suffix "26", the
      fiscal year 2026, the calendar year 2025 and the months October to
      December. */
  lemma Q3FY26Terms()
    ensures QuarterTermsOf("Q3FY26")
         == Some(QuarterTerms("q3", "26", "2026", "2025", ["october", "november", "december"]))
  {
    Q3FY26Parts();
    Q3And26Terms();
  }

  lemma Q3And26Terms()
    ensures TermsOf("Q3", "26") == Some(QuarterTerms("q3", "26", "2026", "2025", ["october", "november", "december"]))
  {
    assert "20" + "26" == "2026";
    ParseInt2026();
    assert ParseInt("20" + "26") == Some(2026);
    assert TermsOf("Q3", "26")
        == Some(QuarterTerms(Lower("Q3"), "26", "2026", IntToString(2025), QuarterMonthNames("Q3")));
    LowerQ3();
    IntToString2025();
    MonthsOfQ3();
  }

  lemma MonthsOfQ3()
    ensures QuarterMonthNames("Q3") == ["october", "november", "december"]
  {
    assert "Q3"[1] != "Q1"[1] && "Q3"[1] != "Q2"[1];
  }

  lemma LowerQ3FY26()
    ensures Lower("Q3FY26") == "q3fy26"
  {
    var l := Lower("Q3FY26");
    assert l[0] == LowerChar('Q') == 'q' && l[1] == LowerChar('3') == '3';
    assert l[2] == LowerChar('F') == 'f' && l[3] == LowerChar('Y') == 'y';
    assert l[4] == LowerChar('2') == '2' && l[5] == LowerChar('6') == '6';
  }

  lemma LowerQ3()
    ensures Lower("Q3") == "q3"
  {
    var l := Lower("Q3");
    assert l[0] == LowerChar('Q') == 'q';
    assert l[1] == LowerChar('3') == '3';
  }

  lemma IntToString2025()
    ensures IntToString(2025) == "2025"
  {
    assert NatToString(2) == "2";
    assert NatToString(20) == "20";
    assert NatToString(202) == "202";
  }

  lemma Q3FY26Parts()
    ensures QuarterTermsOf("Q3FY26") == TermsOf("Q3", "26")
  {
    assert Upper("Q3FY26") == "Q3FY26";
    assert Take("Q3FY26", 2) == "Q3";
    assert Drop("Q3FY26", 2) == "FY26";
    assert Replace("FY26", "FY", "") == "26" by {
      assert Replace("26", "FY", "") == "26";
    }
  }

  lemma ParseInt2026()
    ensures ParseInt("2026") == Some(2026)
  {
    StripUnspaced("2026");
    assert "2026"[..3] == "202" && "202"[..2] == "20" && "20"[..1] == "2";
    assert DigitsValue("2") == 2;
    assert DigitsValue("20") == 20;
    assert DigitsValue("202") == 202;
  }

  /** A single candidate that reaches the threshold is returned. */
  lemma SingleQuarterCandidate(d: Doc, qtr: string, terms: QuarterTerms)
    requires QuarterTermsOf(qtr) == Some(terms) && QuarterScore(d, terms) >= 5
    ensures MatchQuarter([d], qtr) == Ok(Some(d))
  {
    MatchQuarterFirstBest([d], qtr);
    assert QuarterScore([d][0], terms) >= 5;
  }

  const Q3FY26Query := QuarterTerms("q3", "26", "2026", "2025", ["october", "november", "december"])

  /** "Q3FY26 Earnings Call Transcript" scores at least 10 for the query
      "Q3FY26", from the combined token, whatever its date. */
  lemma TranscriptScore(d: Doc)
    requires d.title == "Q3FY26 Earnings Call Transcript"
    ensures QuarterScore(d, Q3FY26Query) >= 10
  {
    TitleInMatchText(d, "Q3FY26", 0);
    LowerQ3FY26();
    assert Combos(Q3FY26Query)[0] == "q3fy26";
    assert ComboSignal(MatchText(d), Q3FY26Query) == 10;
    ComboImpliesTokens(d, Q3FY26Query);
  }

  /** ... and is returned. */
  lemma TranscriptExample(d: Doc)
    requires d.title == "Q3FY26 Earnings Call Transcript"
    ensures MatchQuarter([d], "Q3FY26") == Ok(Some(d))
  {
    Q3FY26Terms();
    TranscriptScore(d);
    SingleQuarterCandidate(d, "Q3FY26", Q3FY26Query);
  }

  // ---------------------------------------------------------------------------
  // A candidate without markers

  /** A text without digits. */
  predicate NoDigits(s: string) {
    forall c :: c in s ==> !IsDigit(c)
  }

  /** A text without digits and without any of the letters q, f, m, l, j, g
      and c in either case: every quarter token, fiscal-year token and month
      name holds one of those characters. */
  predicate Unmarked(s: string) {
    forall c :: c in s ==> !IsDigit(c) && c !in "qfmljgcQFMLJGC"
  }

  /** A character that neither the title nor the date holds, in either case,
      is not in the matched text. */
  lemma MatchTextAvoids(d: Doc, c: char)
    requires c != ' ' && c !in d.title && c !in d.date
    requires 'a' <= c <= 'z' ==> UpperChar(c) !in d.title && UpperChar(c) !in d.date
    ensures c !in MatchText(d) && c !in " " + MatchText(d) + " "
  {
    NotInLower(d.title + " " + d.date, c);
  }

  /** The matched text of an unmarked candidate holds no digit and none of
      the marker letters. */
  lemma UnmarkedText(d: Doc, c: char)
    requires Unmarked(d.title) && Unmarked(d.date)
    requires IsDigit(c) || c in "qfmljgc"
    ensures c !in MatchText(d) && c !in " " + MatchText(d) + " "
  {
    if 'a' <= c <= 'z' {
      assert UpperChar(c) in "QFMLJGC";
    }
    MatchTextAvoids(d, c);
  }

  /** Each month name holds one of the letters l, m, j, g, c, f. */
  lemma MonthNameLetters(qn: string, k: int)
    requires 0 <= k < |QuarterMonthNames(qn)|
    ensures var m := QuarterMonthNames(qn)[k];
      'l' in m || 'm' in m || 'j' in m || 'g' in m || 'c' in m || 'f' in m
  {
  }

  /** Every year pattern ends in the units digit of the year. */
  lemma YearPatternsEndInUnitsDigit(yr: int)
    ensures var y, pats := IntToString(yr), YearPatterns(yr);
      y != [] && forall k :: 0 <= k < |pats| ==> pats[k].0 != [] && pats[k].0[|pats[k].0| - 1] == y[|y| - 1]
  {
    IntToStringEndsInDigit(yr);
    PatternsEndLikeYear(IntToString(yr - 1), IntToString(yr));
  }

  lemma PatternsEndLikeYear(p: string, y: string)
    requires y != []
    ensures var pats := PatternsFor(p, y);
      forall k :: 0 <= k < |pats| ==> pats[k].0 != [] && pats[k].0[|pats[k].0| - 1] == y[|y| - 1]
  {
    var ys, ps := LastTwo(y), LastTwo(p);
    var u := y[|y| - 1];
    assert ys != [] && ys[|ys| - 1] == u by {
      if |y| >= 2 {
        assert y == y[..|y| - 2] + ys;
      }
    }
    var pats := PatternsFor(p, y);
    forall k | 0 <= k < |pats|
      ensures pats[k].0 != [] && pats[k].0[|pats[k].0| - 1] == u
    {
      var tail := if k == 1 || k == 5 then y else ys;
      var head := if k == 0 || k == 1 then p + "-" else if k == 2 then ps + "-" else if k == 4 then "fy " else "fy";
      assert pats[k].0 == head + tail;
    }
  }

  /** A candidate whose title and date hold no digit scores 0 for every
      fiscal year and is never returned: every pattern, and the year itself,
      ends in a digit. */
  lemma UnmarkedYear(d: Doc, yr: int)
    requires NoDigits(d.title) && NoDigits(d.date)
    ensures YearScore(d, yr) == 0
    ensures MatchYear([d], Some(yr)) == Ok(None)
  {
    var t, y := MatchText(d), IntToString(yr);
    IntToStringEndsInDigit(yr);
    YearPatternsEndInUnitsDigit(yr);
    var digit := y[|y| - 1];
    MatchTextAvoids(d, digit);
    var pats := YearPatterns(yr);
    forall k | 0 <= k < |pats|
      ensures !Contains(t, pats[k].0)
    {
      NotContainsMissingChar(t, pats[k].0, digit);
    }
    NotContainsMissingChar(d.title, y, digit);
    NotContainsMissingChar(d.date, y, digit);
    assert PatternMax(t, pats) == 0;
    SingleYearCandidateBelow(d, yr);
  }

  /** A single candidate that scores below 2 is not returned. */
  lemma SingleYearCandidateBelow(d: Doc, yr: int)
    requires YearScore(d, yr) < 2
    ensures MatchYear([d], Some(yr)) == Ok(None)
  {
    MatchYearFirstBest([d], yr);
    assert [d][0] == d;
  }

  /** A single candidate that scores below 5 is not returned. */
  lemma SingleQuarterCandidateBelow(d: Doc, qtr: string, terms: QuarterTerms)
    requires QuarterTermsOf(qtr) == Some(terms) && QuarterScore(d, terms) < 5
    ensures MatchQuarter([d], qtr) == Ok(None)
  {
    MatchQuarterFirstBest([d], qtr);
    assert [d][0] == d;
  }

  /** Letters every month name holds one of. */
  predicate HasMonthLetter(m: string) {
    'l' in m || 'm' in m || 'j' in m || 'g' in m || 'c' in m || 'f' in m
  }

  /** The shape of the terms of a query that starts with "Q". */
  predicate QueryShape(terms: QuarterTerms) {
    && terms.qnLo != [] && terms.qnLo[0] == 'q'
    && terms.fyFull != [] && terms.fyFull[0] == '2'
    && terms.calYr != [] && IsDigit(terms.calYr[|terms.calYr| - 1])
    && forall k :: 0 <= k < |terms.months| ==> HasMonthLetter(terms.months[k])
  }

  lemma QueryShapeOf(qtr: string)
    requires qtr != [] && (qtr[0] == 'Q' || qtr[0] == 'q')
    requires QuarterTermsOf(qtr).Some?
    ensures QueryShape(QuarterTermsOf(qtr).value)
  {
    var u := Upper(qtr);
    assert u[0] == UpperChar(qtr[0]) == 'Q';
    var qn := Take(u, 2);
    assert qn[0] == u[0];
    TermsShape(qn, Replace(Drop(u, 2), "FY", ""));
  }

  lemma TermsShape(qn: string, fy: string)
    requires qn != [] && qn[0] == 'Q'
    requires TermsOf(qn, fy).Some?
    ensures QueryShape(TermsOf(qn, fy).value)
  {
    var terms := TermsOf(qn, fy).value;
    var v := ParseInt("20" + fy).value;
    assert terms.calYr == IntToString(v - 1);
    IntToStringEndsInDigit(v - 1);
    assert terms.qnLo[0] == LowerChar(qn[0]);
    assert terms.fyFull[0] == ("20" + fy)[0];
    forall k | 0 <= k < |terms.months|
      ensures HasMonthLetter(terms.months[k])
    {
      MonthNameLetters(qn, k);
    }
  }

  /** An unmarked candidate scores 0 for every quarter query that starts
      with "Q", so it is never returned for those. */
  lemma UnmarkedQuarter(d: Doc, qtr: string)
    requires Unmarked(d.title) && Unmarked(d.date)
    requires qtr != [] && (qtr[0] == 'Q' || qtr[0] == 'q')
    requires QuarterTermsOf(qtr).Some?
    ensures QuarterScore(d, QuarterTermsOf(qtr).value) == 0
    ensures MatchQuarter([d], qtr) == Ok(None)
  {
    var terms := QuarterTermsOf(qtr).value;
    QueryShapeOf(qtr);
    UnmarkedScore(d, terms);
    SingleQuarterCandidateBelow(d, qtr, terms);
  }

  /** No signal fires on an unmarked candidate. */
  lemma UnmarkedScore(d: Doc, terms: QuarterTerms)
    requires Unmarked(d.title) && Unmarked(d.date)
    requires QueryShape(terms)
    ensures QuarterScore(d, terms) == 0
  {
    var t := MatchText(d);
    UnmarkedText(d, 'q');
    UnmarkedText(d, 'f');
    UnmarkedText(d, '2');
    forall k | 0 <= k < |Combos(terms)|
      ensures !Contains(t, Combos(terms)[k])
    {
      assert Combos(terms)[k][0] == 'q';
      NotContainsMissingChar(t, Combos(terms)[k], 'q');
    }
    NotContainsMissingChar(" " + t + " ", " " + terms.qnLo + " ", 'q');
    NotContainsMissingChar(t, terms.qnLo, 'q');
    NotContainsMissingChar(t, "fy" + terms.fy, 'f');
    NotContainsMissingChar(t, "fy " + terms.fy, 'f');
    NotContainsMissingChar(t, terms.fyFull, '2');
    var digit := terms.calYr[|terms.calYr| - 1];
    UnmarkedText(d, digit);
    NotContainsMissingChar(t, terms.calYr, digit);
    forall k | 0 <= k < |terms.months|
      ensures !Contains(t, terms.months[k])
    {
      UnmarkedMonth(d, terms.months[k]);
    }
  }

  lemma UnmarkedMonth(d: Doc, m: string)
    requires Unmarked(d.title) && Unmarked(d.date)
    requires HasMonthLetter(m)
    ensures !Contains(MatchText(d), m)
  {
    var t := MatchText(d);
    var c := if 'l' in m then 'l' else if 'm' in m then 'm' else if 'j' in m then 'j'
             else if 'g' in m then 'g' else if 'c' in m then 'c' else 'f';
    UnmarkedText(d, c);
    NotContainsMissingChar(t, m, c);
  }
}
