/** The article feed and the filter that decides which articles are shown
    (the body of `fetchArticles` in src/App.tsx). */
module Feed {
  import opened Strings
  import opened Seqs

  /** One news item. `publishedAt` is a timestamp in milliseconds; the source
      stores its ISO text, which the filter never reads. */
  datatype Article = Article(
    id: int,
    title: string,
    url: string,
    publishedAt: int,
    summary: string,
    tags: string,
    sourceId: int,
    paywalled: int)

  /** The free-text test: the lower-cased query occurs in the lower-cased
      title, summary or raw tags text. */
  predicate MatchesQuery(a: Article, query: string)
  {
    var q := Lower(query);
    Contains(Lower(a.title), q) || Contains(Lower(a.summary), q) || Contains(Lower(a.tags), q)
  }

  /** The tag test: a case-sensitive substring test on the raw tags text,
      not a test on its comma-separated entries. */
  predicate HasTag(a: Article, tag: string)
  {
    Contains(a.tags, tag)
  }

  /** What the two filters together demand of a shown article; an empty
      query or an empty tag demands nothing. */
  predicate Keeps(a: Article, query: string, tag: string)
  {
    (query == "" || MatchesQuery(a, query)) && (tag == "" || HasTag(a, tag))
  }

  /** The query step: skipped when the query is empty. */
  function ByQuery(articles: seq<Article>, query: string): (r: seq<Article>)
    ensures forall a :: a in r ==> a in articles && (query == "" || MatchesQuery(a, query))
    ensures forall a :: a in articles && (query == "" || MatchesQuery(a, query)) ==> a in r
  {
    if query != "" then
      FilterMembers(articles, a => MatchesQuery(a, query));
      Filter(articles, a => MatchesQuery(a, query))
    else articles
  }

  /** The tag step: skipped when no tag is selected. */
  function ByTag(articles: seq<Article>, tag: string): (r: seq<Article>)
    ensures forall a :: a in r ==> a in articles && (tag == "" || HasTag(a, tag))
    ensures forall a :: a in articles && (tag == "" || HasTag(a, tag)) ==> a in r
  {
    if tag != "" then
      FilterMembers(articles, a => HasTag(a, tag));
      Filter(articles, a => HasTag(a, tag))
    else articles
  }

  /** The articles shown for a query and a selected tag: the query step,
      then the tag step. An article is shown exactly when it passes both. */
  function Visible(articles: seq<Article>, query: string, tag: string): (r: seq<Article>)
    ensures |r| <= |articles|
    ensures forall a :: a in r ==> a in articles && Keeps(a, query, tag)
    ensures forall a :: a in articles && Keeps(a, query, tag) ==> a in r
  {
    ByTag(ByQuery(articles, query), tag)
  }

  /** ByQuery as a filter whose predicate is total (true when the query is
      empty). */
  lemma ByQueryIsFilter(articles: seq<Article>, query: string)
    ensures ByQuery(articles, query) == Filter(articles, a => query == "" || MatchesQuery(a, query))
  {
    var p := (a: Article) => query == "" || MatchesQuery(a, query);
    if query == "" {
      FilterAll(articles, p);
    } else {
      FilterExt(articles, a => MatchesQuery(a, query), p);
    }
  }

  /** ByTag as a filter whose predicate is total (true when no tag is
      selected). */
  lemma ByTagIsFilter(articles: seq<Article>, tag: string)
    ensures ByTag(articles, tag) == Filter(articles, a => tag == "" || HasTag(a, tag))
  {
    var p := (a: Article) => tag == "" || HasTag(a, tag);
    if tag == "" {
      FilterAll(articles, p);
    } else {
      FilterExt(articles, a => HasTag(a, tag), p);
    }
  }

  /** With an empty query and no selected tag every article is shown, in the
      order given. */
  lemma VisibleIdentity(articles: seq<Article>)
    ensures Visible(articles, "", "") == articles
  {
  }

  /** The shown articles are exactly the positions of the input whose
      article passes both tests, in their original order. */
  lemma VisibleSelects(articles: seq<Article>, query: string, tag: string) returns (idx: seq<nat>)
    ensures IsEmbedding(idx, Visible(articles, query, tag), articles)
    ensures forall i :: 0 <= i < |articles| ==> (i in idx <==> Keeps(articles[i], query, tag))
  {
    var pq := (a: Article) => query == "" || MatchesQuery(a, query);
    var pt := (a: Article) => tag == "" || HasTag(a, tag);
    var both := (a: Article) => Keeps(a, query, tag);
    ByQueryIsFilter(articles, query);
    ByTagIsFilter(ByQuery(articles, query), tag);
    FilterFuse(articles, pq, pt, both);
    idx := FilterSelects(articles, both);
  }

  /** The result is a subsequence of the input. */
  lemma VisiblePreservesOrder(articles: seq<Article>, query: string, tag: string)
    ensures IsSubsequence(Visible(articles, query, tag), articles)
  {
    var idx := VisibleSelects(articles, query, tag);
  }

  /** Applying the tag step before the query step shows the same articles
      in the same order. */
  lemma VisibleTagFirst(articles: seq<Article>, query: string, tag: string)
    ensures Visible(articles, query, tag) == ByQuery(ByTag(articles, tag), query)
  {
    var pq := (a: Article) => query == "" || MatchesQuery(a, query);
    var pt := (a: Article) => tag == "" || HasTag(a, tag);
    ByQueryIsFilter(articles, query);
    ByTagIsFilter(ByQuery(articles, query), tag);
    ByTagIsFilter(articles, tag);
    ByQueryIsFilter(ByTag(articles, tag), query);
    FilterCommute(articles, pq, pt);
  }

  /** The query test ignores the case of ASCII letters in the query. */
  lemma VisibleIgnoresQueryCase(articles: seq<Article>, query: string, tag: string)
    ensures Visible(articles, query, tag) == Visible(articles, Lower(query), tag)
  {
    LowerIdempotent(query);
    LowerEmpty(query);
    if query != "" {
      FilterExt(articles, a => MatchesQuery(a, query), a => MatchesQuery(a, Lower(query)));
    }
  }

  // ---------------------------------------------------------------------
  // The built-in feed
  // ---------------------------------------------------------------------

  const Day := 24 * 60 * 60 * 1000

  // The texts of the five built-in articles.
  const RvuTitle := "Hospital Systems Increase RVU-Based Compensation Models by 15%"
  const RvuUrl := "https://example.com/rvu-compensation-2025"
  const RvuSummary :=
    "\U{2022} Major health systems are shifting toward RVU-based models\n\U{2022} Average increase of 15% in RVU rates across specialties\n\U{2022} Primary care physicians seeing largest gains\n\U{2022} Expected to impact 2025-2026 contract negotiations"
  const RvuTags := "RVU, Compensation, Market Trends"

  const FtcTitle := "FTC Issues New Guidelines on Non-Compete Clauses for Physicians"
  const FtcUrl := "https://example.com/ftc-noncompete-update"
  const FtcSummary :=
    "\U{2022} FTC proposes ban on non-compete agreements nationwide\n\U{2022} Significant implications for physician contracts\n\U{2022} Healthcare industry seeks exemptions\n\U{2022} Implementation timeline uncertain pending legal challenges"
  const FtcTags := "Non-Compete, Legal, Contract"

  const BonusTitle := "Average Signing Bonuses Reach Record Highs in Competitive Markets"
  const BonusUrl := "https://example.com/signing-bonus-trends"
  const BonusSummary :=
    "\U{2022} Signing bonuses up 22% year-over-year\n\U{2022} Orthopedic surgeons commanding $100K+ bonuses\n\U{2022} Rural areas offering additional incentives\n\U{2022} Student loan repayment becoming standard benefit"
  const BonusTags := "Signing Bonus, Compensation, Market Trends"

  const CallPayTitle := "Call Pay Structures Evolve: Hybrid Models Gain Traction"
  const CallPayUrl := "https://example.com/call-pay-evolution"
  const CallPaySummary :=
    "\U{2022} Hospitals experimenting with tiered call pay systems\n\U{2022} Base rate plus per-encounter fees becoming popular\n\U{2022} Emergency medicine leading innovation\n\U{2022} Work-life balance considerations driving changes"
  const CallPayTags := "Call Pay, Compensation, Contract"

  const BenefitsTitle := "Benefits Packages Expand Beyond Traditional Health Insurance"
  const BenefitsUrl := "https://example.com/physician-benefits-2025"
  const BenefitsSummary :=
    "\U{2022} Mental health support and wellness programs standard\n\U{2022} Childcare assistance emerging as key benefit\n\U{2022} Flexible scheduling options in demand\n\U{2022} Financial planning services increasingly common"
  const BenefitsTags := "Benefits, Compensation, Market Trends"

  /** The five built-in articles, newest first; `now` is the clock reading in
      milliseconds when the feed is built. */
  function MockArticles(now: int): (r: seq<Article>)
  {
    [ Article(1, RvuTitle, RvuUrl, now - 2 * Day, RvuSummary, RvuTags, 1, 0),
      Article(2, FtcTitle, FtcUrl, now - 5 * Day, FtcSummary, FtcTags, 2, 0),
      Article(3, BonusTitle, BonusUrl, now - 7 * Day, BonusSummary, BonusTags, 1, 0),
      Article(4, CallPayTitle, CallPayUrl, now - 10 * Day, CallPaySummary, CallPayTags, 3, 0),
      Article(5, BenefitsTitle, BenefitsUrl, now - 12 * Day, BenefitsSummary, BenefitsTags, 2, 0) ]
  }

  /** The tags texts of the built-in feed. */
  lemma MockTags(now: int)
    ensures var m := MockArticles(now);
      |m| == 5 && m[0].tags == RvuTags && m[1].tags == FtcTags && m[2].tags == BonusTags
      && m[3].tags == CallPayTags && m[4].tags == BenefitsTags
  {
  }

  // Where `Legal`, `Compensation` and `LEGAL` occur in those texts.

  lemma LegalOccurrences()
    ensures Contains(FtcTags, "Legal")
    ensures !Contains(RvuTags, "Legal") && !Contains(BonusTags, "Legal")
    ensures !Contains(CallPayTags, "Legal") && !Contains(BenefitsTags, "Legal")
  {
    assert OccursAt(FtcTags, "Legal", 13);
    WithoutCapitalL("Legal");
  }

  lemma UpperLegalOccurrences()
    ensures !Contains(RvuTags, "LEGAL") && !Contains(FtcTags, "LEGAL") && !Contains(BonusTags, "LEGAL")
    ensures !Contains(CallPayTags, "LEGAL") && !Contains(BenefitsTags, "LEGAL")
  {
    NotContainsByChar(FtcTags, "LEGAL", 'E');
    WithoutCapitalL("LEGAL");
  }

  /** Only the non-compete article's tags text holds a capital L, so no word
      with one occurs in the other four. */
  lemma WithoutCapitalL(w: string)
    requires 'L' in w
    ensures !Contains(RvuTags, w) && !Contains(BonusTags, w)
    ensures !Contains(CallPayTags, w) && !Contains(BenefitsTags, w)
  {
    NotContainsByChar(RvuTags, w, 'L');
    NotContainsByChar(BonusTags, w, 'L');
    WithoutCapitalLLater(w);
  }

  lemma WithoutCapitalLLater(w: string)
    requires 'L' in w
    ensures !Contains(CallPayTags, w) && !Contains(BenefitsTags, w)
  {
    NotContainsByChar(CallPayTags, w, 'L');
    NotContainsByChar(BenefitsTags, w, 'L');
  }

  lemma CompensationOccurrences()
    ensures !Contains(FtcTags, "Compensation")
    ensures Contains(RvuTags, "Compensation") && Contains(BonusTags, "Compensation")
    ensures Contains(CallPayTags, "Compensation") && Contains(BenefitsTags, "Compensation")
  {
    NotContainsByChar(FtcTags, "Compensation", 'i');
    CompensationFound();
  }

  lemma CompensationFound()
    ensures Contains(RvuTags, "Compensation") && Contains(BonusTags, "Compensation")
    ensures Contains(CallPayTags, "Compensation") && Contains(BenefitsTags, "Compensation")
  {
    assert OccursAt(RvuTags, "Compensation", 5);
    CompensationInBonus();
    CompensationInCallPay();
    CompensationInBenefits();
  }

  lemma CompensationInBonus()
    ensures Contains(BonusTags, "Compensation")
  {
    assert OccursAt(BonusTags, "Compensation", 15);
  }

  lemma CompensationInCallPay()
    ensures Contains(CallPayTags, "Compensation")
  {
    assert OccursAt(CallPayTags, "Compensation", 10);
  }

  lemma CompensationInBenefits()
    ensures Contains(BenefitsTags, "Compensation")
  {
    assert OccursAt(BenefitsTags, "Compensation", 10);
  }

  /** A five-article feed where only the second article has the tag. */
  lemma OnlySecondTagged(m: seq<Article>, tag: string)
    requires |m| == 5 && tag != ""
    requires HasTag(m[1], tag)
    requires !HasTag(m[0], tag) && !HasTag(m[2], tag) && !HasTag(m[3], tag) && !HasTag(m[4], tag)
    ensures Visible(m, "", tag) == [m[1]]
  {
    var p := (a: Article) => HasTag(a, tag);
    assert Visible(m, "", tag) == Filter(m, p);
    var tail := m[2..];
    assert tail == [m[2], m[3], m[4]];
    FilterNone(tail, p);
    FilterUnfold(m[1..], p);
    assert m[1..][1..] == tail;
    FilterUnfold(m, p);
  }

  /** A five-article feed where all but the second article have the tag. */
  lemma AllButSecondTagged(m: seq<Article>, tag: string)
    requires |m| == 5 && tag != ""
    requires !HasTag(m[1], tag)
    requires HasTag(m[0], tag) && HasTag(m[2], tag) && HasTag(m[3], tag) && HasTag(m[4], tag)
    ensures Visible(m, "", tag) == [m[0], m[2], m[3], m[4]]
  {
    var p := (a: Article) => HasTag(a, tag);
    assert Visible(m, "", tag) == Filter(m, p);
    KeepAllButSecond(m, p);
  }

  lemma KeepAllButSecond<T>(m: seq<T>, p: T -> bool)
    requires |m| == 5
    requires !p(m[1]) && p(m[0]) && p(m[2]) && p(m[3]) && p(m[4])
    ensures Filter(m, p) == [m[0], m[2], m[3], m[4]]
  {
    FilterStep(m, 4, p, []);
    FilterStep(m, 3, p, [m[4]]);
    FilterStep(m, 2, p, [m[3], m[4]]);
    FilterStep(m, 1, p, [m[2], m[3], m[4]]);
    FilterStep(m, 0, p, [m[2], m[3], m[4]]);
  }

  /** One step of a filter over the suffix of m that starts at i. */
  lemma FilterStep<T>(m: seq<T>, i: nat, p: T -> bool, rest: seq<T>)
    requires i < |m| && Filter(m[i + 1..], p) == rest
    ensures Filter(m[i..], p) == (if p(m[i]) then [m[i]] else []) + rest
  {
    assert m[i..][1..] == m[i + 1..];
  }

  /** Selecting `Legal` shows only the non-compete article. */
  lemma MockTagLegal(now: int)
    ensures Visible(MockArticles(now), "", "Legal") == [MockArticles(now)[1]]
  {
    MockTags(now);
    LegalOccurrences();
    OnlySecondTagged(MockArticles(now), "Legal");
  }

  /** Selecting `Compensation` shows every article except the non-compete
      one, in feed order. */
  lemma MockTagCompensation(now: int)
    ensures var m := MockArticles(now);
      Visible(m, "", "Compensation") == [m[0], m[2], m[3], m[4]]
  {
    MockTags(now);
    CompensationOccurrences();
    AllButSecondTagged(MockArticles(now), "Compensation");
  }

  /** The tag test is case-sensitive: `LEGAL` matches nothing. */
  lemma MockTagCaseSensitive(now: int)
    ensures Visible(MockArticles(now), "", "LEGAL") == []
  {
    MockTags(now);
    UpperLegalOccurrences();
    NoneTagged(MockArticles(now), "LEGAL");
  }

  /** A five-article feed where no article has the tag. */
  lemma NoneTagged(m: seq<Article>, tag: string)
    requires |m| == 5 && tag != ""
    requires !HasTag(m[0], tag) && !HasTag(m[1], tag) && !HasTag(m[2], tag)
    requires !HasTag(m[3], tag) && !HasTag(m[4], tag)
    ensures Visible(m, "", tag) == []
  {
    var p := (a: Article) => HasTag(a, tag);
    assert Visible(m, "", tag) == Filter(m, p);
    assert m == [m[0], m[1], m[2], m[3], m[4]];
    FilterNone(m, p);
  }
}
