/**
 * The text normaliser and the per-article sentiment classifier.
 *
 * The NLP resources that the program loads once at start-up (the English
 * stopword set, the word tokenizer, the WordNet lemmatiser and the VADER
 * polarity engine) are foreign code. They are modelled as one read-only
 * bundle, `Nlp`, whose members are opaque functions that every operation
 * receives as a parameter.
 */
module Sentiment {

  datatype Option<+T> = None | Some(value: T)

  /** The three labels, rendered by the templates under their names. */
  datatype Label = Positive | Negative | Neutral {
    function Name(): string {
      match this
      case Positive => "Positive"
      case Negative => "Negative"
      case Neutral => "Neutral"
    }
  }

  /** The three strings the source returns name three different labels. */
  lemma LabelNamesDistinct(a: Label, b: Label)
    ensures a.Name() == b.Name() <==> a == b
  {
    if a != b {
      assert a.Name()[1] != b.Name()[1] || |a.Name()| != |b.Name()|;
    }
  }

  /** A compound polarity score; the engine documents the range [-1, 1]. */
  type Compound = r: real | -1.0 <= r <= 1.0 witness 0.0

  /**
   * The process-wide singletons: the stopword set, the tokenizer, a
   * lemmatiser that may fail (None), and the polarity engine's compound score.
   */
  datatype Nlp = Nlp(
    stopWords: set<string>,
    tokenize: string -> seq<string>,
    lemmatize: string -> Option<string>,
    polarity: string -> Compound)

  // ---------------------------------------------------------------------
  // Step 1: lowercase, then delete punctuation
  // ---------------------------------------------------------------------

  /** Python's `string.punctuation`, character for character. */
  const Punctuation: string := "!\"#$%&'()*+,-./:;<=>?@[\\]^_`{|}~"

  /** Membership in `Punctuation`, by the four ASCII ranges its 32 characters fill. */
  predicate IsPunctuation(c: char) {
    ('!' <= c <= '/') || (':' <= c <= '@') || ('[' <= c <= '`') || ('{' <= c <= '~')
  }

  /** The four ranges hold exactly the 32 characters of `Punctuation`. */
  lemma IsPunctuationMatchesPunctuation(c: char)
    ensures |Punctuation| == 32
    ensures IsPunctuation(c) <==> c in Punctuation
  {
  }

  predicate IsUpper(c: char) {
    'A' <= c <= 'Z'
  }

  function ToLower(c: char): (d: char)
    ensures !IsUpper(d)
    ensures IsUpper(c) ==> d as int == c as int + 32
    ensures !IsUpper(c) ==> d == c
    ensures IsPunctuation(d) <==> IsPunctuation(c)
  {
    if IsUpper(c) then (c as int + 32) as char else c
  }

  function Lower(s: string): (r: string)
    ensures |r| == |s|
    ensures forall i :: 0 <= i < |r| ==> !IsUpper(r[i])
    ensures forall i :: 0 <= i < |r| ==> r[i] == ToLower(s[i])
  {
    seq(|s|, i requires 0 <= i < |s| => ToLower(s[i]))
  }

  /** `translate` with every punctuation character mapped to deletion. */
  function StripPunctuation(s: string): (r: string)
    ensures |r| <= |s|
    ensures forall c :: c in r <==> c in s && !IsPunctuation(c)
  {
    if s == [] then []
    else if IsPunctuation(s[0]) then StripPunctuation(s[1..])
    else [s[0]] + StripPunctuation(s[1..])
  }

  /** The text after the first line of preprocessing: lower-cased, punctuation-free. */
  function Normalize(text: string): (r: string)
    ensures |r| <= |text|
    ensures forall i :: 0 <= i < |r| ==> !IsPunctuation(r[i]) && !IsUpper(r[i])
  {
    StripPunctuation(Lower(text))
  }

  /** Deleting punctuation keeps every other character, in order. */
  lemma {:induction false} StripPunctuationAppend(a: string, b: string)
    ensures StripPunctuation(a + b) == StripPunctuation(a) + StripPunctuation(b)
  {
    if a == [] {
      assert a + b == b;
    } else {
      assert (a + b)[1..] == a[1..] + b;
      StripPunctuationAppend(a[1..], b);
    }
  }

  lemma {:induction false} StripPunctuationOfClean(s: string)
    requires forall i :: 0 <= i < |s| ==> !IsPunctuation(s[i])
    ensures StripPunctuation(s) == s
  {
    if s != [] {
      StripPunctuationOfClean(s[1..]);
    }
  }

  lemma LowerOfLower(s: string)
    requires forall i :: 0 <= i < |s| ==> !IsUpper(s[i])
    ensures Lower(s) == s
  {
  }

  /** Running the first step twice changes nothing more. */
  lemma NormalizeIdempotent(text: string)
    ensures Normalize(Normalize(text)) == Normalize(text)
  {
    var n := Normalize(text);
    LowerOfLower(n);
    StripPunctuationOfClean(n);
  }

  // ---------------------------------------------------------------------
  // Steps 2-5: stopword filter, lemmatise with fallback, join
  // ---------------------------------------------------------------------

  /** The lemmatiser's answer, or the word itself when the lemmatiser fails. */
  function SafeLemmatize(lemmatize: string -> Option<string>, word: string): (r: string)
    ensures lemmatize(word).Some? ==> r == lemmatize(word).value
    ensures lemmatize(word).None? ==> r == word
  {
    match lemmatize(word)
    case Some(base) => base
    case None => word
  }

  /**
   * The list comprehension over the tokens: a token survives when it is
   * not a stopword, and a survivor is replaced by its safe lemma.
   */
  function CleanTokens(nlp: Nlp, tokens: seq<string>): (r: seq<string>)
    ensures |r| <= |tokens|
  {
    if tokens == [] then []
    else if tokens[0] in nlp.stopWords then CleanTokens(nlp, tokens[1..])
    else [SafeLemmatize(nlp.lemmatize, tokens[0])] + CleanTokens(nlp, tokens[1..])
  }

  /** The stopword filter on its own. */
  function RemoveStopwords(stopWords: set<string>, tokens: seq<string>): (r: seq<string>)
    ensures |r| <= |tokens|
  {
    if tokens == [] then []
    else if tokens[0] in stopWords then RemoveStopwords(stopWords, tokens[1..])
    else [tokens[0]] + RemoveStopwords(stopWords, tokens[1..])
  }

  /** A token is in the filtered list exactly when it is a token and no stopword. */
  lemma {:induction false} RemoveStopwordsMembers(stopWords: set<string>, tokens: seq<string>, t: string)
    ensures t in RemoveStopwords(stopWords, tokens) <==> t in tokens && t !in stopWords
  {
    if tokens != [] {
      RemoveStopwordsMembers(stopWords, tokens[1..], t);
      assert tokens == [tokens[0]] + tokens[1..];
    }
  }

  /** Safe lemmatisation of every token: one output per input, in place. */
  function LemmatizeAll(lemmatize: string -> Option<string>, tokens: seq<string>): (r: seq<string>)
    ensures |r| == |tokens|
    ensures forall i :: 0 <= i < |r| ==> r[i] == SafeLemmatize(lemmatize, tokens[i])
  {
    if tokens == [] then []
    else [SafeLemmatize(lemmatize, tokens[0])] + LemmatizeAll(lemmatize, tokens[1..])
  }

  /** The comprehension filters first and lemmatises afterwards. */
  lemma {:induction false} CleanTokensIsFilterThenMap(nlp: Nlp, tokens: seq<string>)
    ensures CleanTokens(nlp, tokens) == LemmatizeAll(nlp.lemmatize, RemoveStopwords(nlp.stopWords, tokens))
  {
    if tokens != [] {
      CleanTokensIsFilterThenMap(nlp, tokens[1..]);
    }
  }

  /** The stopword filter distributes over concatenation (order is kept). */
  lemma {:induction false} RemoveStopwordsAppend(stopWords: set<string>, a: seq<string>, b: seq<string>)
    ensures RemoveStopwords(stopWords, a + b) == RemoveStopwords(stopWords, a) + RemoveStopwords(stopWords, b)
  {
    if a == [] {
      assert a + b == b;
    } else {
      assert (a + b)[1..] == a[1..] + b;
      RemoveStopwordsAppend(stopWords, a[1..], b);
    }
  }

  /** The positions of the tokens that survive the filter. */
  function KeptPositions(stopWords: set<string>, tokens: seq<string>): seq<nat>
  {
    if tokens == [] then []
    else
      var shifted := Shift(KeptPositions(stopWords, tokens[1..]));
      if tokens[0] in stopWords then shifted else [0] + shifted
  }

  function Shift(p: seq<nat>): (q: seq<nat>)
    ensures |q| == |p|
    ensures forall k :: 0 <= k < |q| ==> q[k] == p[k] + 1
  {
    seq(|p|, k requires 0 <= k < |p| => p[k] + 1)
  }

  lemma {:induction false} KeptPositionsLength(stopWords: set<string>, tokens: seq<string>)
    ensures |KeptPositions(stopWords, tokens)| == |RemoveStopwords(stopWords, tokens)|
  {
    if tokens != [] {
      KeptPositionsLength(stopWords, tokens[1..]);
    }
  }

  /**
   * The surviving tokens are the tokens at `KeptPositions`; those positions
   * are strictly increasing and each names a non-stopword.
   */
  lemma {:induction false} KeptPositionsPick(stopWords: set<string>, tokens: seq<string>)
    ensures |KeptPositions(stopWords, tokens)| == |RemoveStopwords(stopWords, tokens)|
    ensures forall k :: 0 <= k < |KeptPositions(stopWords, tokens)| ==>
      var p := KeptPositions(stopWords, tokens)[k];
      p < |tokens| && tokens[p] !in stopWords && RemoveStopwords(stopWords, tokens)[k] == tokens[p]
    ensures forall k, l :: 0 <= k < l < |KeptPositions(stopWords, tokens)| ==>
      KeptPositions(stopWords, tokens)[k] < KeptPositions(stopWords, tokens)[l]
  {
    KeptPositionsLength(stopWords, tokens);
    if tokens != [] {
      KeptPositionsPick(stopWords, tokens[1..]);
      var idx := KeptPositions(stopWords, tokens);
      var rest := KeptPositions(stopWords, tokens[1..]);
      var tail := RemoveStopwords(stopWords, tokens[1..]);
      var all := RemoveStopwords(stopWords, tokens);
      forall k | 0 <= k < |rest|
        ensures rest[k] + 1 < |tokens| && tokens[rest[k] + 1] == tail[k]
      {
        assert tokens[1..][rest[k]] == tokens[rest[k] + 1];
      }
      if tokens[0] in stopWords {
        assert idx == Shift(rest) && all == tail;
      } else {
        assert idx == [0] + Shift(rest) && all == [tokens[0]] + tail;
        forall k | 1 <= k < |idx| ensures idx[k] == rest[k - 1] + 1 && all[k] == tail[k - 1] {
        }
      }
    }
  }

  /** Every non-stopword position is among `KeptPositions`: no survivor is lost. */
  lemma {:induction false} KeptPositionsComplete(stopWords: set<string>, tokens: seq<string>, j: nat)
    requires j < |tokens| && tokens[j] !in stopWords
    ensures j in KeptPositions(stopWords, tokens)
  {
    var rest := KeptPositions(stopWords, tokens[1..]);
    if j > 0 {
      assert tokens[1..][j - 1] == tokens[j];
      KeptPositionsComplete(stopWords, tokens[1..], j - 1);
      var k :| 0 <= k < |rest| && rest[k] == j - 1;
      assert Shift(rest)[k] == j;
    }
  }

  /** The k-th cleaned token is the safe lemma of the k-th surviving token. */
  lemma CleanTokensAt(nlp: Nlp, tokens: seq<string>, k: nat)
    requires k < |CleanTokens(nlp, tokens)|
    ensures |KeptPositions(nlp.stopWords, tokens)| == |CleanTokens(nlp, tokens)|
    ensures var p := KeptPositions(nlp.stopWords, tokens)[k];
      p < |tokens| && tokens[p] !in nlp.stopWords &&
      CleanTokens(nlp, tokens)[k] == SafeLemmatize(nlp.lemmatize, tokens[p])
  {
    CleanTokensIsFilterThenMap(nlp, tokens);
    KeptPositionsPick(nlp.stopWords, tokens);
  }

  /** No more cleaned tokens than tokens; exactly as many as non-stopwords. */
  lemma CleanTokensCount(nlp: Nlp, tokens: seq<string>)
    ensures |CleanTokens(nlp, tokens)| == |RemoveStopwords(nlp.stopWords, tokens)| <= |tokens|
  {
    CleanTokensIsFilterThenMap(nlp, tokens);
  }

  /** Only stopwords in, nothing out. */
  lemma {:induction false} AllStopwordsCleanToNothing(nlp: Nlp, tokens: seq<string>)
    requires forall i :: 0 <= i < |tokens| ==> tokens[i] in nlp.stopWords
    ensures CleanTokens(nlp, tokens) == []
  {
    if tokens != [] {
      AllStopwordsCleanToNothing(nlp, tokens[1..]);
    }
  }

  /** The total length of the tokens. */
  function TotalLength(tokens: seq<string>): nat
  {
    if tokens == [] then 0 else |tokens[0]| + TotalLength(tokens[1..])
  }

  /** `" ".join(tokens)`: the tokens and exactly one separator between neighbours. */
  function Join(tokens: seq<string>): (r: string)
    ensures tokens == [] ==> r == ""
    ensures tokens != [] ==> |r| == TotalLength(tokens) + |tokens| - 1
  {
    if |tokens| == 0 then ""
    else if |tokens| == 1 then tokens[0]
    else tokens[0] + " " + Join(tokens[1..])
  }

  /** `s.split(" ")`: the partner of `Join`; never an empty list. */
  function SplitOnSpace(s: string): (r: seq<string>)
    ensures |r| >= 1
  {
    if s == "" then [""]
    else
      var rest := SplitOnSpace(s[1..]);
      if s[0] == ' ' then [""] + rest
      else [[s[0]] + rest[0]] + rest[1..]
  }

  lemma {:induction false} SplitOnSpaceAppend(t: string, u: string)
    requires ' ' !in t
    ensures SplitOnSpace(t + " " + u) == [t] + SplitOnSpace(u)
  {
    if t == "" {
      assert t + " " + u == [' '] + u;
      assert ([' '] + u)[1..] == u;
    } else {
      assert (t + " " + u)[1..] == t[1..] + " " + u;
      SplitOnSpaceAppend(t[1..], u);
      assert [t[0]] + t[1..] == t;
    }
  }

  lemma {:induction false} SplitOnSpaceWord(t: string)
    requires ' ' !in t
    ensures SplitOnSpace(t) == [t]
  {
    if t != "" {
      SplitOnSpaceWord(t[1..]);
      assert [t[0]] + t[1..] == t;
    }
  }

  /** Splitting a join of space-free tokens gives the tokens back. */
  lemma {:induction false} SplitJoin(tokens: seq<string>)
    requires |tokens| >= 1
    requires forall i :: 0 <= i < |tokens| ==> ' ' !in tokens[i]
    ensures SplitOnSpace(Join(tokens)) == tokens
  {
    if |tokens| == 1 {
      SplitOnSpaceWord(tokens[0]);
    } else {
      SplitJoin(tokens[1..]);
      SplitOnSpaceAppend(tokens[0], Join(tokens[1..]));
    }
  }

  /** An empty join is exactly a join of nothing or of one empty token. */
  lemma JoinEmpty(tokens: seq<string>)
    ensures Join(tokens) == "" <==> tokens == [] || tokens == [""]
  {
  }

  /** `preprocess_text`: lower, strip punctuation, tokenise, filter, lemmatise, join. */
  function Preprocess(nlp: Nlp, text: string): (r: string)
    ensures r == Join(LemmatizeAll(nlp.lemmatize, RemoveStopwords(nlp.stopWords, nlp.tokenize(Normalize(text)))))
  {
    var tokens := nlp.tokenize(Normalize(text));
    CleanTokensIsFilterThenMap(nlp, tokens);
    Join(CleanTokens(nlp, tokens))
  }

  /**
   * When the cleaned tokens are space-free and there is at least one, the
   * output splits back into exactly those tokens, one per surviving token.
   */
  lemma PreprocessSplitsIntoCleanTokens(nlp: Nlp, text: string)
    requires CleanTokens(nlp, nlp.tokenize(Normalize(text))) != []
    requires forall t :: t in CleanTokens(nlp, nlp.tokenize(Normalize(text))) ==> ' ' !in t
    ensures SplitOnSpace(Preprocess(nlp, text)) == CleanTokens(nlp, nlp.tokenize(Normalize(text)))
    ensures |SplitOnSpace(Preprocess(nlp, text))| <= |nlp.tokenize(Normalize(text))|
  {
    var tokens := nlp.tokenize(Normalize(text));
    var cleaned := CleanTokens(nlp, tokens);
    assert forall i :: 0 <= i < |cleaned| ==> ' ' !in cleaned[i] by {
      forall i | 0 <= i < |cleaned| ensures ' ' !in cleaned[i] {
        assert cleaned[i] in cleaned;
      }
    }
    SplitJoin(cleaned);
    CleanTokensCount(nlp, tokens);
  }

  /** Text whose tokens are all stopwords preprocesses to the empty string. */
  lemma AllStopwordsPreprocessToEmpty(nlp: Nlp, text: string)
    requires forall t :: t in nlp.tokenize(Normalize(text)) ==> t in nlp.stopWords
    ensures Preprocess(nlp, text) == ""
  {
    var tokens := nlp.tokenize(Normalize(text));
    forall i | 0 <= i < |tokens| ensures tokens[i] in nlp.stopWords {
      assert tokens[i] in tokens;
    }
    AllStopwordsCleanToNothing(nlp, tokens);
  }

  /** Empty text preprocesses to the empty string (the tokenizer yields no token for ""). */
  lemma EmptyPreprocessesToEmpty(nlp: Nlp)
    requires nlp.tokenize("") == []
    ensures Preprocess(nlp, "") == ""
  {
    assert Normalize("") == "";
  }

  // ---------------------------------------------------------------------
  // get_sentiment
  // ---------------------------------------------------------------------

  const PositiveThreshold: real := 0.05
  const NegativeThreshold: real := -0.05

  /** The per-article label of a compound score. */
  function Classify(compound: real): (l: Label)
    ensures l == Positive <==> compound >= PositiveThreshold
    ensures l == Negative <==> compound <= NegativeThreshold
    ensures l == Neutral <==> NegativeThreshold < compound < PositiveThreshold
  {
    if compound >= PositiveThreshold then Positive
    else if compound <= NegativeThreshold then Negative
    else Neutral
  }

  /** Negative < Neutral < Positive. */
  function Rank(l: Label): int {
    match l
    case Negative => -1
    case Neutral => 0
    case Positive => 1
  }

  /** A higher compound never gets a lower label. */
  lemma ClassifyMonotone(a: real, b: real)
    requires a <= b
    ensures Rank(Classify(a)) <= Rank(Classify(b))
  {
  }

  datatype SentimentResult = SentimentResult(compound: real, sentiment: Label)

  /** `get_sentiment`: score the preprocessed text and label the compound. */
  function GetSentiment(nlp: Nlp, text: string): (r: SentimentResult)
    ensures -1.0 <= r.compound <= 1.0
    ensures r.compound == nlp.polarity(Preprocess(nlp, text))
    ensures r.sentiment == Classify(r.compound)
  {
    var processed := Preprocess(nlp, text);
    var compound := nlp.polarity(processed);
    SentimentResult(compound, Classify(compound))
  }

  /** Empty text is Neutral with compound 0 when the engine scores "" as 0. */
  lemma EmptyTextIsNeutral(nlp: Nlp)
    requires nlp.tokenize("") == []
    requires nlp.polarity("") == 0.0
    ensures GetSentiment(nlp, "") == SentimentResult(0.0, Neutral)
  {
    EmptyPreprocessesToEmpty(nlp);
  }
}
