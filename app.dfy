/**
 * The news batch: one scored record per feed entry, and the overall
 * score and label of a batch.
 *
 * The feed download and the HTML stripper are foreign code: the feed is an
 * input sequence of entries and the stripper an opaque function on strings.
 * Scores are exact reals; Python's `round(x, 2)` is modelled by `Round2`.
 */
module App {
  import opened Sentiment

  // ---------------------------------------------------------------------
  // Rounding to two decimals
  // ---------------------------------------------------------------------

  /** The nearest integer, ties to the even one. */
  function RoundHalfEven(x: real): (n: int)
    ensures x - 0.5 <= n as real <= x + 0.5
    ensures (n as real - x == 0.5 || x - n as real == 0.5) ==> n % 2 == 0
  {
    var f := x.Floor;
    var frac := x - f as real;
    if frac < 0.5 then f
    else if frac > 0.5 then f + 1
    else if f % 2 == 0 then f
    else f + 1
  }

  /** `round(x, 2)` on an exact value. */
  function Round2(x: real): (r: real)
    ensures -0.005 <= r - x <= 0.005
    ensures (r * 100.0).Floor as real == r * 100.0
  {
    RoundHalfEven(x * 100.0) as real / 100.0
  }

  lemma RoundHalfEvenMonotone(x: real, y: real)
    requires x <= y
    ensures RoundHalfEven(x) <= RoundHalfEven(y)
  {
  }

  /** Rounding never reverses an order. */
  lemma Round2Monotone(x: real, y: real)
    requires x <= y
    ensures Round2(x) <= Round2(y)
  {
    RoundHalfEvenMonotone(x * 100.0, y * 100.0);
  }

  /** A value with at most two decimals is left as it is. */
  lemma Round2OfHundredths(n: int)
    ensures Round2(n as real / 100.0) == n as real / 100.0
  {
    assert (n as real / 100.0) * 100.0 == n as real;
    assert (n as real).Floor == n;
  }

  /** Rounding twice is rounding once. */
  lemma Round2Idempotent(x: real)
    ensures Round2(Round2(x)) == Round2(x)
  {
    Round2OfHundredths(RoundHalfEven(x * 100.0));
  }

  /** A score in [lo, hi] stays there when lo and hi have two decimals. */
  lemma Round2WithinHundredths(x: real, lo: int, hi: int)
    requires lo as real / 100.0 <= x <= hi as real / 100.0
    ensures lo as real / 100.0 <= Round2(x) <= hi as real / 100.0
  {
    Round2Monotone(lo as real / 100.0, x);
    Round2Monotone(x, hi as real / 100.0);
    Round2OfHundredths(lo);
    Round2OfHundredths(hi);
  }

  lemma Round2InUnitRange(x: real)
    requires -1.0 <= x <= 1.0
    ensures -1.0 <= Round2(x) <= 1.0
  {
    Round2WithinHundredths(x, -100, 100);
  }

  // ---------------------------------------------------------------------
  // Records
  // ---------------------------------------------------------------------

  /** A feed entry; `description` is None when the entry carries none. */
  datatype Entry = Entry(title: string, link: string, description: Option<string>)

  /** The record shown for one article. */
  datatype Article = Article(title: string, link: string, summary: string, score: real, sentiment: Label)

  /** Only the first twenty entries of the feed are shown. */
  const MaxArticles: nat := 20

  /** `clean_html(entry.get("description", ""))`. */
  function Summary(cleanHtml: string -> string, e: Entry): (s: string)
    ensures e.description.Some? ==> s == cleanHtml(e.description.value)
    ensures e.description.None? ==> s == cleanHtml("")
  {
    match e.description
    case Some(d) => cleanHtml(d)
    case None => cleanHtml("")
  }

  /** The sentiment of an entry: its title and cleaned summary, space-separated. */
  function EntrySentiment(nlp: Nlp, cleanHtml: string -> string, e: Entry): (r: SentimentResult)
    ensures -1.0 <= r.compound <= 1.0
    ensures r.compound == nlp.polarity(Preprocess(nlp, e.title + " " + Summary(cleanHtml, e)))
    ensures r.sentiment == Classify(r.compound)
  {
    GetSentiment(nlp, e.title + " " + Summary(cleanHtml, e))
  }

  /**
   * The record built for one entry. Its score is the rounded compound of the
   * same sentiment call whose label it carries, so the score lies in [-1, 1],
   * within 0.005 of the compound, and on the side of the label's threshold.
   */
  function MakeArticle(nlp: Nlp, cleanHtml: string -> string, e: Entry): (a: Article)
    ensures a.title == e.title && a.link == e.link && a.summary == Summary(cleanHtml, e)
    ensures a.sentiment == EntrySentiment(nlp, cleanHtml, e).sentiment
    ensures a.score == Round2(EntrySentiment(nlp, cleanHtml, e).compound)
    ensures -0.005 <= a.score - EntrySentiment(nlp, cleanHtml, e).compound <= 0.005
    ensures -1.0 <= a.score <= 1.0
    ensures a.sentiment == Positive ==> a.score >= PositiveThreshold
    ensures a.sentiment == Negative ==> a.score <= NegativeThreshold
    ensures a.sentiment == Neutral ==> NegativeThreshold <= a.score <= PositiveThreshold
  {
    var summary := Summary(cleanHtml, e);
    var sr := GetSentiment(nlp, e.title + " " + summary);
    RoundedScoreAgreesWithLabel(sr.compound);
    Article(e.title, e.link, summary, Round2(sr.compound), sr.sentiment)
  }

  /** The record's fields, one by one. */
  lemma MakeArticleFields(nlp: Nlp, cleanHtml: string -> string, e: Entry)
    ensures MakeArticle(nlp, cleanHtml, e) ==
      Article(e.title, e.link, Summary(cleanHtml, e),
              Round2(GetSentiment(nlp, e.title + " " + Summary(cleanHtml, e)).compound),
              GetSentiment(nlp, e.title + " " + Summary(cleanHtml, e)).sentiment)
  {
  }

  /** Rounding a compound keeps it in [-1, 1] and on its label's side of the thresholds. */
  lemma RoundedScoreAgreesWithLabel(c: real)
    requires -1.0 <= c <= 1.0
    ensures -1.0 <= Round2(c) <= 1.0
    ensures Classify(c) == Positive ==> Round2(c) >= PositiveThreshold
    ensures Classify(c) == Negative ==> Round2(c) <= NegativeThreshold
    ensures Classify(c) == Neutral ==> NegativeThreshold <= Round2(c) <= PositiveThreshold
  {
    Round2InUnitRange(c);
    if c >= PositiveThreshold {
      Round2WithinHundredths(c, 5, 100);
    } else if c <= NegativeThreshold {
      Round2WithinHundredths(c, -100, -5);
    } else {
      Round2WithinHundredths(c, -5, 5);
    }
  }

  /** `feed.entries[:20]`: the first twenty entries, or all of them when there are fewer. */
  function FirstEntries(entries: seq<Entry>): (r: seq<Entry>)
    ensures |r| == if |entries| < MaxArticles then |entries| else MaxArticles
    ensures forall k :: 0 <= k < |r| ==> r[k] == entries[k]
  {
    if |entries| < MaxArticles then entries else entries[..MaxArticles]
  }

  /** The records of a run of entries, one per entry, in order. */
  function MakeArticles(nlp: Nlp, cleanHtml: string -> string, entries: seq<Entry>): (r: seq<Article>)
    ensures |r| == |entries|
  {
    if entries == [] then []
    else MakeArticles(nlp, cleanHtml, entries[..|entries| - 1]) + [MakeArticle(nlp, cleanHtml, entries[|entries| - 1])]
  }

  /** Record k of a run is the record of entry k. */
  lemma {:induction false} MakeArticlesAt(nlp: Nlp, cleanHtml: string -> string, entries: seq<Entry>, k: nat)
    requires k < |entries|
    ensures MakeArticles(nlp, cleanHtml, entries)[k] == MakeArticle(nlp, cleanHtml, entries[k])
  {
    var init := entries[..|entries| - 1];
    if k < |init| {
      MakeArticlesAt(nlp, cleanHtml, init, k);
    }
  }

  /** Every record of a run scores in [-1, 1]. */
  lemma MakeArticlesInRange(nlp: Nlp, cleanHtml: string -> string, entries: seq<Entry>)
    ensures forall k :: 0 <= k < |entries| ==> -1.0 <= MakeArticles(nlp, cleanHtml, entries)[k].score <= 1.0
  {
    forall k | 0 <= k < |entries|
      ensures -1.0 <= MakeArticles(nlp, cleanHtml, entries)[k].score <= 1.0
    {
      MakeArticlesAt(nlp, cleanHtml, entries, k);
    }
  }

  /**
   * `fetch_news` after the download: the records of the first twenty
   * entries, one per entry, in feed order.
   */
  method FetchNews(nlp: Nlp, cleanHtml: string -> string, entries: seq<Entry>) returns (articles: seq<Article>)
    ensures |articles| == if |entries| < MaxArticles then |entries| else MaxArticles
    ensures articles == MakeArticles(nlp, cleanHtml, FirstEntries(entries))
  {
    var batch := FirstEntries(entries);
    articles := [];
    for i := 0 to |batch|
      invariant articles == MakeArticles(nlp, cleanHtml, batch[..i])
    {
      var entry := batch[i];
      var summary := Summary(cleanHtml, entry);
      var result := GetSentiment(nlp, entry.title + " " + summary);
      var article := Article(entry.title, entry.link, summary, Round2(result.compound), result.sentiment);
      MakeArticleFields(nlp, cleanHtml, entry);
      assert batch[..i + 1][..i] == batch[..i];
      articles := articles + [article];
    }
    assert batch[..|batch|] == batch;
  }

  /** Fetched record k is the record of feed entry k. */
  lemma FetchedArticleAt(nlp: Nlp, cleanHtml: string -> string, entries: seq<Entry>, k: nat)
    requires k < |FirstEntries(entries)|
    ensures MakeArticles(nlp, cleanHtml, FirstEntries(entries))[k] == MakeArticle(nlp, cleanHtml, entries[k])
  {
    MakeArticlesAt(nlp, cleanHtml, FirstEntries(entries), k);
  }

  // ---------------------------------------------------------------------
  // calculate_overall_sentiment
  // ---------------------------------------------------------------------

  /** `sum(a["score"] for a in articles)`, added left to right. */
  function SumScores(articles: seq<Article>): (r: real)
    ensures articles == [] ==> r == 0.0
    ensures (forall k :: 0 <= k < |articles| ==> articles[k].score == 0.0) ==> r == 0.0
  {
    if articles == [] then 0.0
    else SumScores(articles[..|articles| - 1]) + articles[|articles| - 1].score
  }

  /** The arithmetic mean: the count times the mean gives back the sum. */
  function Mean(articles: seq<Article>): (m: real)
    requires articles != []
    ensures m * |articles| as real == SumScores(articles)
  {
    SumScores(articles) / |articles| as real
  }

  /** The overall label: a mean of at least 1 is Positive, exactly 0 Neutral, any other Negative. */
  function OverallLabel(mean: real): (l: Label)
    ensures l == Positive <==> mean >= 1.0
    ensures l == Neutral <==> mean == 0.0
    ensures l == Negative <==> mean < 1.0 && mean != 0.0
  {
    if mean >= 1.0 then Positive
    else if mean == 0.0 then Neutral
    else Negative
  }

  datatype Overall = Overall(score: real, sentiment: Label)

  /**
   * `calculate_overall_sentiment`: the label is chosen on the unrounded
   * mean, the score returned is the rounded mean.
   */
  function OverallSentiment(articles: seq<Article>): (r: Overall)
    ensures articles == [] ==> r == Overall(0.0, Neutral)
    ensures articles != [] ==> r.sentiment == OverallLabel(Mean(articles))
    ensures articles != [] ==> r.score == Round2(Mean(articles))
    ensures articles != [] ==> -0.005 <= r.score - Mean(articles) <= 0.005
  {
    if articles == [] then Overall(0.0, Neutral)
    else
      var avg := Mean(articles);
      Overall(Round2(avg), OverallLabel(avg))
  }

  /** Summing two batches one after another adds their sums. */
  lemma {:induction false} SumScoresAppend(a: seq<Article>, b: seq<Article>)
    ensures SumScores(a + b) == SumScores(a) + SumScores(b)
  {
    if b != [] {
      var init := b[..|b| - 1];
      assert (a + b)[..|a + b| - 1] == a + init;
      assert (a + b)[|a + b| - 1] == b[|b| - 1];
      SumScoresAppend(a, init);
    } else {
      assert a + b == a;
    }
  }

  /** Scores of at most 1 add up to at most their count, and reach it only when each is 1. */
  lemma {:induction false} SumAtMostCount(articles: seq<Article>)
    requires forall k :: 0 <= k < |articles| ==> articles[k].score <= 1.0
    ensures SumScores(articles) <= |articles| as real
    ensures SumScores(articles) == |articles| as real ==> forall k :: 0 <= k < |articles| ==> articles[k].score == 1.0
  {
    if articles != [] {
      var init := articles[..|articles| - 1];
      SumAtMostCount(init);
      assert forall k :: 0 <= k < |init| ==> init[k] == articles[k];
    }
  }

  /** Scores of at least -1 add up to at least minus their count. */
  lemma {:induction false} SumAtLeastMinusCount(articles: seq<Article>)
    requires forall k :: 0 <= k < |articles| ==> -1.0 <= articles[k].score
    ensures -(|articles| as real) <= SumScores(articles)
  {
    if articles != [] {
      var init := articles[..|articles| - 1];
      assert forall k :: 0 <= k < |init| ==> init[k] == articles[k];
      SumAtLeastMinusCount(init);
    }
  }

  /** Scores all equal to 1 add up to their count. */
  lemma {:induction false} SumOfOnes(articles: seq<Article>)
    requires forall k :: 0 <= k < |articles| ==> articles[k].score == 1.0
    ensures SumScores(articles) == |articles| as real
  {
    if articles != [] {
      var init := articles[..|articles| - 1];
      assert forall k :: 0 <= k < |init| ==> init[k] == articles[k];
      SumOfOnes(init);
    }
  }

  lemma MeanAtLeastOne(sum: real, n: real)
    requires n > 0.0 && sum / n >= 1.0
    ensures sum >= n
  {
  }

  lemma MeanWithinUnit(sum: real, n: real)
    requires n > 0.0 && -n <= sum <= n
    ensures -1.0 <= sum / n <= 1.0
  {
  }

  /**
   * With article scores at most 1, the batch is Positive overall exactly when
   * it is non-empty and every article scores 1.
   */
  lemma OverallPositiveIffAllOne(articles: seq<Article>)
    requires forall k :: 0 <= k < |articles| ==> articles[k].score <= 1.0
    ensures OverallSentiment(articles).sentiment == Positive <==>
      articles != [] && forall k :: 0 <= k < |articles| ==> articles[k].score == 1.0
  {
    if articles != [] {
      var n := |articles| as real;
      SumAtMostCount(articles);
      if forall k :: 0 <= k < |articles| ==> articles[k].score == 1.0 {
        SumOfOnes(articles);
      }
      if Mean(articles) >= 1.0 {
        MeanAtLeastOne(SumScores(articles), n);
      }
    }
  }

  /** With article scores in [-1, 1], the overall score is in [-1, 1]. */
  lemma OverallScoreInRange(articles: seq<Article>)
    requires forall k :: 0 <= k < |articles| ==> -1.0 <= articles[k].score <= 1.0
    ensures -1.0 <= OverallSentiment(articles).score <= 1.0
  {
    if articles != [] {
      var n := |articles| as real;
      SumAtMostCount(articles);
      SumAtLeastMinusCount(articles);
      MeanWithinUnit(SumScores(articles), n);
      Round2InUnitRange(Mean(articles));
    }
  }

  /** The overall rule is stricter than the per-article rule on the positive side. */
  lemma OverallPositiveIsArticlePositive(mean: real)
    requires OverallLabel(mean) == Positive
    ensures Classify(mean) == Positive
  {
  }

  /** A mean of 0.5 is Positive per article but Negative overall. */
  lemma HalfMeanIsNegativeOverall()
    ensures Classify(0.5) == Positive && OverallLabel(0.5) == Negative
  {
  }

  /** A batch whose scores after the first are all 0 sums to the first score. */
  lemma SumOfLeadingScore(articles: seq<Article>)
    requires articles != []
    requires forall k :: 1 <= k < |articles| ==> articles[k].score == 0.0
    ensures SumScores(articles) == articles[0].score
  {
    var rest := articles[1..];
    assert forall k :: 0 <= k < |rest| ==> rest[k].score == 0.0;
    assert [articles[0]][..0] == [];
    SumScoresAppend([articles[0]], rest);
    assert [articles[0]] + rest == articles;
  }

  /**
   * Ten fetched scores 0.01, 0.0, ..., 0.0 have mean 0.001: the label is
   * Negative while the rounded score shown is 0.0.
   */
  lemma TinyMeanRoundsToZeroButIsNegative(articles: seq<Article>)
    requires |articles| == 10
    requires articles[0].score == 0.01
    requires forall k :: 1 <= k < |articles| ==> articles[k].score == 0.0
    ensures OverallSentiment(articles) == Overall(0.0, Negative)
  {
    SumOfLeadingScore(articles);
    assert Mean(articles) == 0.001;
    assert (0.001 * 100.0).Floor == 0;
  }

  /** Rounded scores 1.0 and 1.0 give (1.0, Positive); 0.5 and -0.5 give (0.0, Neutral). */
  lemma ExampleBatches(a: Article, b: Article, c: Article, d: Article)
    requires a.score == 1.0 && b.score == 1.0
    requires c.score == 0.5 && d.score == -0.5
    ensures OverallSentiment([a, b]) == Overall(1.0, Positive)
    ensures OverallSentiment([c, d]) == Overall(0.0, Neutral)
  {
    assert [a, b][..1] == [a] && [a][..0] == [];
    assert SumScores([a]) == 1.0;
    assert SumScores([a, b]) == 2.0;
    assert [c, d][..1] == [c] && [c][..0] == [];
    assert SumScores([c]) == 0.5;
    assert SumScores([c, d]) == 0.0;
    Round2OfHundredths(100);
    Round2OfHundredths(0);
  }

  /** The overall view of the fetched batch: Positive only if every shown article scores 1. */
  method News(nlp: Nlp, cleanHtml: string -> string, entries: seq<Entry>) returns (articles: seq<Article>, overall: Overall)
    ensures |articles| == if |entries| < MaxArticles then |entries| else MaxArticles
    ensures articles == MakeArticles(nlp, cleanHtml, FirstEntries(entries))
    ensures overall == OverallSentiment(articles)
    ensures -1.0 <= overall.score <= 1.0
    ensures overall.sentiment == Positive <==>
      articles != [] && forall k :: 0 <= k < |articles| ==> articles[k].score == 1.0
  {
    articles := FetchNews(nlp, cleanHtml, entries);
    overall := OverallSentiment(articles);
    MakeArticlesInRange(nlp, cleanHtml, FirstEntries(entries));
    OverallPositiveIffAllOne(articles);
    OverallScoreInRange(articles);
  }
}
