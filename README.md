# Sentiment analysis of news — model of the scoring pipeline

This project models the sentiment pipeline of a small news web application.

- **Text normaliser** (`preprocess_text`). It lowercases the text and deletes the characters of Python's `string.punctuation`. It then tokenises, drops stopwords, lemmatises each surviving token (keeping the token itself when the lemmatiser fails) and joins the result with single spaces.
- **Per-article classifier** (`get_sentiment`). It scores the normalised text with the VADER polarity engine. A compound of 0.05 or more is Positive, one of -0.05 or less is Negative, and anything else is Neutral.
- **Batch construction** (the loop of `fetch_news`). It builds one record per feed entry, for at most the first 20 entries, in feed order.
- **Overall aggregation** (`calculate_overall_sentiment`). It takes the mean of the rounded article scores and labels it with its own rule: a mean of at least 1 is Positive, exactly 0 is Neutral, and anything else is Negative. The label is decided on the unrounded mean, and the score returned is the rounded mean.

Module `Sentiment` (sentiment.dfy) models `sentiment.py`. Module `App` (app.dfy) models the core of `app.py`.

The NLP singletons are loaded once and only read afterwards. They are bundled as the datatype `Sentiment.Nlp`, whose members are opaque functions passed to every operation:
- a stopword set;
- a tokenizer `string -> seq<string>`;
- a lemmatiser `string -> Option<string>`, where `None` stands for a raised exception;
- the polarity engine `string -> Compound`, where `Compound` is the subset type of reals in [-1, 1] that the engine documents.

The feed is an input sequence of `Entry` values. The HTML stripper is an opaque `string -> string`. Scores are exact reals. Python's `round(x, 2)` is `App.Round2`: round half to even at two decimals, computed on the exact value.

## Model

| member | source | states |
|---|---|---|
| Sentiment.IsPunctuationMatchesPunctuation | sentiment.py:32 | the four ASCII ranges of `IsPunctuation` hold exactly the 32 characters of `Punctuation`, the text of `string.punctuation` |
| Sentiment.ToLower | sentiment.py:32 | the lowered character is never upper case; A-Z move to a-z and every other character is kept; being punctuation is unchanged |
| Sentiment.Lower | sentiment.py:32 | lowering keeps the length, leaves no upper-case character and lowers character by character |
| Sentiment.StripPunctuation | sentiment.py:32 | the result is no longer than the input and holds exactly the input's non-punctuation characters |
| Sentiment.Normalize | sentiment.py:32 | after the first step no character is punctuation and none is upper case |
| Sentiment.StripPunctuationAppend | sentiment.py:32 | deleting punctuation distributes over concatenation, so the kept characters stay in order |
| Sentiment.StripPunctuationOfClean | sentiment.py:32 | punctuation-free text is left unchanged |
| Sentiment.LowerOfLower | sentiment.py:32 | text with no upper-case character is left unchanged by lowering |
| Sentiment.NormalizeIdempotent | sentiment.py:32 | applying the first step twice gives the same text as applying it once |
| Sentiment.SafeLemmatize | sentiment.py:21-26 | the lemmatiser's answer when it succeeds, the word itself when it fails |
| Sentiment.CleanTokens | sentiment.py:38 | the comprehension never yields more tokens than it is given; `CleanTokensIsFilterThenMap` and `CleanTokensAt` characterise it fully |
| Sentiment.RemoveStopwords | sentiment.py:38 | the filter never lengthens the token list |
| Sentiment.RemoveStopwordsMembers | sentiment.py:38 | a token is in the filtered list iff it is an input token and not a stopword |
| Sentiment.LemmatizeAll | sentiment.py:38 | lemmatising keeps one output per token, at the same position; no token is dropped |
| Sentiment.CleanTokensIsFilterThenMap | sentiment.py:38 | the comprehension equals safe lemmatisation applied to the stopword-filtered tokens (filter before lemmatise) |
| Sentiment.RemoveStopwordsAppend | sentiment.py:38 | the filter distributes over concatenation, so survivors keep their relative order |
| Sentiment.KeptPositionsLength | sentiment.py:38 | there is one kept position per surviving token |
| Sentiment.KeptPositionsPick | sentiment.py:38 | survivor k is the token at kept position k; the positions strictly increase and each names a non-stopword |
| Sentiment.KeptPositionsComplete | sentiment.py:38 | every non-stopword position is among the kept positions |
| Sentiment.CleanTokensAt | sentiment.py:38 | cleaned token k is the safe lemma of the non-stopword token at kept position k |
| Sentiment.CleanTokensCount | sentiment.py:38 | the cleaned-token count equals the number of non-stopwords and is at most the tokenizer's count |
| Sentiment.AllStopwordsCleanToNothing | sentiment.py:38 | a token list made only of stopwords cleans to the empty list |
| Sentiment.Join | sentiment.py:40 | the join of no tokens is ""; otherwise its length is the tokens' total length plus one separator between each pair of neighbours; `SplitJoin` is its inverse |
| Sentiment.SplitOnSpace | sentiment.py:40 | splitting on a space always gives at least one piece |
| Sentiment.SplitOnSpaceAppend | sentiment.py:40 | splitting `t + " " + u` gives `t` followed by the pieces of `u` when `t` has no space |
| Sentiment.SplitOnSpaceWord | sentiment.py:40 | a space-free word splits into itself |
| Sentiment.SplitJoin | sentiment.py:40 | splitting the space-join of a non-empty list of space-free tokens gives the list back |
| Sentiment.JoinEmpty | sentiment.py:40 | the join is empty iff there are no tokens or one empty token |
| Sentiment.Preprocess | sentiment.py:29-40 | the output is the space-join of safe lemmatisation over the stopword-filtered tokens of the lowered, punctuation-free text |
| Sentiment.PreprocessSplitsIntoCleanTokens | sentiment.py:35-40 | with space-free cleaned tokens, the output splits back into exactly those tokens, no more of them than the tokenizer produced |
| Sentiment.AllStopwordsPreprocessToEmpty | sentiment.py:29-40 | text whose tokens are all stopwords preprocesses to "" |
| Sentiment.EmptyPreprocessesToEmpty | sentiment.py:29-40 | "" preprocesses to "" when the tokenizer gives no token for "" |
| Sentiment.LabelNamesDistinct | sentiment.py:56-60 | two labels have the same name (`"Positive"`, `"Negative"`, `"Neutral"`) iff they are the same label |
| Sentiment.Classify | sentiment.py:55-60 | Positive iff compound >= 0.05, Negative iff compound <= -0.05, Neutral iff -0.05 < compound < 0.05; exactly one label for every compound |
| Sentiment.ClassifyMonotone | sentiment.py:55-60 | a higher compound never gets a lower label |
| Sentiment.GetSentiment | sentiment.py:43-62 | the compound is the engine's score of the preprocessed text, unchanged and in [-1, 1], and the label is the threshold label of that compound |
| Sentiment.EmptyTextIsNeutral | sentiment.py:51-62 | empty text gives (0.0, Neutral) when the engine scores "" as 0 |
| App.RoundHalfEven | app.py:58 | the nearest integer, within 1/2, with ties going to the even integer |
| App.Round2 | app.py:58 | the rounded value is within 0.005 of the input and is a whole number of hundredths |
| App.RoundHalfEvenMonotone | app.py:58 | rounding to an integer is monotone |
| App.Round2Monotone | app.py:58 | rounding to two decimals is monotone |
| App.Round2OfHundredths | app.py:58 | a value that is already a whole number of hundredths is unchanged |
| App.Round2Idempotent | app.py:77 | rounding twice is the same as rounding once |
| App.Round2WithinHundredths | app.py:58 | a value between two two-decimal bounds stays between them after rounding |
| App.Round2InUnitRange | app.py:58 | rounding keeps a value in [-1, 1] |
| App.RoundedScoreAgreesWithLabel | app.py:53-59 | a rounded compound stays in [-1, 1] and on its label's side of the ±0.05 thresholds (Neutral between -0.05 and 0.05 inclusive) |
| App.Summary | app.py:52 | the cleaned description when the entry has one, the cleaned empty string otherwise |
| App.EntrySentiment | app.py:53 | the sentiment of `title + " " + summary`: the engine's compound of its preprocessed text, in [-1, 1], with its threshold label |
| App.MakeArticle | app.py:52-60 | the record copies title and link, and its summary is the cleaned description. Its label and its score come from one sentiment call, and the score is that call's compound rounded to two decimals. So the score is within 0.005 of the compound, in [-1, 1] and consistent with the label |
| App.FirstEntries | app.py:51 | `feed.entries[:20]`: min(20, number of entries) entries, entry k unchanged |
| App.MakeArticles | app.py:51-60 | one record per entry |
| App.MakeArticlesAt | app.py:51-60 | record k of a run is the record of entry k |
| App.MakeArticlesInRange | app.py:58 | every record of a run scores in [-1, 1] |
| App.FetchNews | app.py:48-61 | the loop returns exactly min(20, number of entries) records: the records of the first twenty entries, in feed order |
| App.FetchedArticleAt | app.py:51-60 | fetched record k is the record built from feed entry k |
| App.OverallLabel | app.py:70-75 | Positive iff mean >= 1, Neutral iff mean == 0, Negative iff mean < 1 and mean != 0 (so 0.5 and every negative mean are Negative) |
| App.SumScores | app.py:68 | the sum of no scores is 0, and so is a sum of zero scores |
| App.SumScoresAppend | app.py:68 | the sum of two runs one after the other is the sum of their sums |
| App.Mean | app.py:68 | the count times the mean gives back the sum |
| App.OverallSentiment | app.py:63-77 | an empty list gives (0, Neutral). Otherwise the label is the overall rule on the unrounded mean, and the score is that mean rounded to two decimals, so within 0.005 of it |
| App.SumAtMostCount | app.py:68 | scores of at most 1 sum to at most their count, reaching it only when every score is 1 |
| App.SumAtLeastMinusCount | app.py:68 | scores of at least -1 sum to at least minus their count |
| App.SumOfOnes | app.py:68 | scores all equal to 1 sum to their count |
| App.OverallPositiveIffAllOne | app.py:68-71 | with scores at most 1, the overall label is Positive iff the list is non-empty and every score is 1 |
| App.OverallScoreInRange | app.py:68-77 | with scores in [-1, 1], the overall score is in [-1, 1] |
| App.OverallPositiveIsArticlePositive | app.py:70-71 | a mean labelled Positive overall is also Positive under the per-article rule |
| App.HalfMeanIsNegativeOverall | app.py:70-75 | a mean of 0.5 is Positive per article but Negative overall |
| App.SumOfLeadingScore | app.py:68 | scores that are 0 after the first sum to the first score |
| App.TinyMeanRoundsToZeroButIsNegative | app.py:68-77 | ten fetched scores 0.01, 0.0, ..., 0.0 have mean 0.001, giving the score 0.0 with the label Negative |
| App.ExampleBatches | app.py:63-77 | rounded scores [1.0, 1.0] give (1.0, Positive); [0.5, -0.5] give (0.0, Neutral) |
| App.News | app.py:108-109 | the fetched records and their overall view: the overall score is in [-1, 1], and the view is Positive iff some article is shown and every shown article scores 1 |

## Left out

- Lowercasing covers ASCII A-Z only. Python's `str.lower` also lowers non-ASCII letters; the model keeps them unchanged.
- The tokenizer is opaque. Nothing is claimed about how NLTK splits words (for example, `cannot` into `can not`).
- Idempotence of the whole preprocessing is not stated. It depends on the opaque tokenizer and lemmatiser; only the lower-and-strip step is proved idempotent (`NormalizeIdempotent`).
- The VADER rules, WordNet lemmatisation and the stopword list are foreign code, modelled as opaque members of `Nlp`. The engine's [-1, 1] range is assumed through the `Compound` type. A failing engine is not modelled: the polarity function is total. Any lemmatiser exception is `None`.
- Floating point is not modelled. `sum`, `/` and `round` work on exact reals. `Round2` rounds half to even on the exact value, so cases where IEEE representation decides the result (`round(2.675, 2)` gives 2.67) are not reproduced. The thresholds 0.05 and -0.05 are exact decimals.
- `calculate_overall_sentiment` returns the integer `0` for an empty list; the model returns the real `0.0`.
- An entry without a `title` or `link` makes the source raise `AttributeError`. The model's `Entry` always carries both. A missing description is `None` and becomes `clean_html("")`, as `entry.get("description", "")` does.
- The feed download (`feedparser.parse`), `clean_html` (BeautifulSoup) and the NLTK downloads are I/O or foreign libraries: the feed is an input sequence and `clean_html` an opaque function.
- The Flask routes and session handling (`login`, `news`, `logout`), the SQLite user store (`init_db`, `check_user`, `add_user`), `datetime.now()` and the demo prints under `__main__` are web, database and console plumbing. `App.News` models only the two calls at the heart of the `news` route.
- The batch is capped at 20 entries inside `fetch_news`, as the code does (`feed.entries[:20]`).
