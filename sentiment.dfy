/**
 * The part of the OpenAI sentiment service that does not talk to the model
 * (Services/OpenAiServiceAlternative.cs): the reply is trimmed, lower-cased
 * and checked against the three sentiment words, and the user prompt is
 * built from four texts. The reply itself is a parameter.
 */
module Sentiment {
  import opened Wrappers
  import opened Text

  /** `IsValidSentiment`: the reply is one of the three words. */
  predicate IsValidSentiment(s: string) {
    s == "positive" || s == "negative" || s == "neutral"
  }

  /** The reply's text, trimmed and lower-cased; a missing text becomes "". */
  function Normalize(content: Option<string>): string {
    match content
    case Some(text) => ToLower(Trim(text))
    case None => ""
  }

  /** The sentiment `AnalyzeAsync` returns for the model's reply `content`. */
  function Classify(content: Option<string>): (r: string)
    ensures IsValidSentiment(r)
    ensures IsValidSentiment(Normalize(content)) ==> r == Normalize(content)
    ensures !IsValidSentiment(Normalize(content)) ==> r == "neutral"
  {
    var sentiment := Normalize(content);
    if IsValidSentiment(sentiment) then sentiment else "neutral"
  }

  /** The three words are lower case and have no blank ends, so each normalises to itself. */
  lemma WordsNormalized(w: string)
    requires IsValidSentiment(w)
    ensures Normalize(Some(w)) == w
  {
    assert w[0] == 'p' || w[0] == 'n';
    assert w[|w| - 1] == 'e' || w[|w| - 1] == 'l';
    TrimNoBlankEnds(w);
    forall i | 0 <= i < |w|
      ensures LowerChar(w[i]) == w[i]
    {
      assert 'a' <= w[i] <= 'z';
    }
  }

  /** Classifying a classification gives it back. */
  lemma ClassifyStable(content: Option<string>)
    ensures Classify(Some(Classify(content))) == Classify(content)
  {
    WordsNormalized(Classify(content));
  }

  /** A reply that is a sentiment word in any casing, with blank padding, is classified as that word. */
  lemma PaddedReply(pad: string, reply: string, tail: string, w: string)
    requires IsValidSentiment(w)
    requires IsBlank(pad) && IsBlank(tail)
    requires ToLower(reply) == w
    ensures Classify(Some(pad + reply + tail)) == w
  {
    assert reply != [];
    assert !IsWhiteSpace(reply[0]) by {
      assert LowerChar(reply[0]) == w[0];
    }
    assert !IsWhiteSpace(reply[|reply| - 1]) by {
      assert LowerChar(reply[|reply| - 1]) == w[|w| - 1];
    }
    TrimPadded(pad, reply, tail);
  }

  /** A blank or missing reply is "neutral". */
  lemma BlankReplyIsNeutral(content: Option<string>)
    requires content.None? || IsBlank(content.value)
    ensures Classify(content) == "neutral"
  {
    if content.Some? {
      TrimEmptyIffBlank(content.value);
    }
  }

  /** The fixed pieces of the user prompt, around the four texts. */
  const Intro := "Analyze the following cryptocurrency and provide sentiment classification:\n\n**Coin:** "
  const DailyHeading := "\n\n**Daily Analysis:**\n"
  const MonthlyHeading := "\n\n**Monthly Returns:**\n"
  const PredictionsHeading := "\n\n**Predictions:**\n"
  const Closing := "\n\nProvide your sentiment analysis as a single word: positive, negative, or neutral."

  /** `GetUserPrompt`: the instruction with the coin, the daily analysis, the monthly returns and the predictions in that order. */
  function UserPrompt(coin: string, dailyAnalysis: string, monthlyReturns: string, predictions: string): string {
    Intro + coin + DailyHeading + dailyAnalysis + MonthlyHeading + monthlyReturns +
    PredictionsHeading + predictions + Closing
  }

  /** Where each of four texts sits in a text that interleaves them with five fixed pieces. */
  lemma Interleaved(h0: string, x0: string, h1: string, x1: string, h2: string, x2: string,
                    h3: string, x3: string, h4: string)
    ensures var s := h0 + x0 + h1 + x1 + h2 + x2 + h3 + x3 + h4;
            var c := |h0|;
            var d := c + |x0| + |h1|;
            var m := d + |x1| + |h2|;
            var p := m + |x2| + |h3|;
            |s| == p + |x3| + |h4| &&
            s[..c] == h0 && s[c..c + |x0|] == x0 && s[d..d + |x1|] == x1 &&
            s[m..m + |x2|] == x2 && s[p..p + |x3|] == x3 && s[p + |x3|..] == h4
  {
    var a := h0 + x0 + h1;
    var b := a + x1 + h2;
    var c := b + x2 + h3;
    var s := c + x3 + h4;
    assert s[..|c|] == c && s[|c|..|c| + |x3|] == x3;
    assert c[..|b|] == b && c[|b|..|b| + |x2|] == x2;
    assert b[..|a|] == a && b[|a|..|a| + |x1|] == x1;
    assert a[..|h0|] == h0 && a[|h0|..|h0| + |x0|] == x0;
  }

  /** The four texts appear verbatim, in order, each right after its heading, and the prompt ends with the closing instruction. */
  lemma UserPromptEmbeds(coin: string, dailyAnalysis: string, monthlyReturns: string, predictions: string)
    ensures var prompt := UserPrompt(coin, dailyAnalysis, monthlyReturns, predictions);
            var c := |Intro|;
            var d := c + |coin| + |DailyHeading|;
            var m := d + |dailyAnalysis| + |MonthlyHeading|;
            var p := m + |monthlyReturns| + |PredictionsHeading|;
            |prompt| == p + |predictions| + |Closing| &&
            prompt[..c] == Intro &&
            prompt[c..c + |coin|] == coin &&
            prompt[d..d + |dailyAnalysis|] == dailyAnalysis &&
            prompt[m..m + |monthlyReturns|] == monthlyReturns &&
            prompt[p..p + |predictions|] == predictions &&
            prompt[p + |predictions|..] == Closing
  {
    Interleaved(Intro, coin, DailyHeading, dailyAnalysis, MonthlyHeading, monthlyReturns,
                PredictionsHeading, predictions, Closing);
  }
}
