/** Headline sentiment: the polarity score of a news title and its three-way label. */
module Sentiment {

  /** The three labels a polarity score is sorted into. */
  datatype Label = Bullish | Bearish | Neutral

  /** Bearish below Neutral below Bullish, for stating monotonicity. */
  function Rank(l: Label): (n: nat)
    ensures n <= 2
  {
    match l
    case Bearish => 0
    case Neutral => 1
    case Bullish => 2
  }

  /**
   * The label of a polarity score: strictly above 0.1 is Bullish, strictly below -0.1 is
   * Bearish, and the closed band [-0.1, 0.1] is Neutral.
   */
  function LabelOf(score: real): (l: Label)
    ensures l == Bullish <==> score > 0.1
    ensures l == Bearish <==> score < -0.1
    ensures l == Neutral <==> -0.1 <= score <= 0.1
  {
    if score > 0.1 then Bullish
    else if score < -0.1 then Bearish
    else Neutral
  }

  /** The text shown for a label. */
  function LabelText(l: Label): (t: string)
    ensures |t| == 12
    ensures t[..7] == "Bullish" <==> l == Bullish
    ensures t[..7] == "Bearish" <==> l == Bearish
    ensures t[..7] == "Neutral" <==> l == Neutral
  {
    // The names differ in their first two characters, which settles the iff clauses.
    assert "Bullish"[1] != "Bearish"[1] && "Bullish"[0] != "Neutral"[0] && "Bearish"[0] != "Neutral"[0];
    match l
    case Bullish => "Bullish (긍정)"
    case Bearish => "Bearish (부정)"
    case Neutral => "Neutral (중립)"
  }

  /** Different labels are shown as different texts, so the text identifies the label. */
  lemma LabelTextInjective(l1: Label, l2: Label)
    ensures LabelText(l1) == LabelText(l2) <==> l1 == l2
  {
  }

  /** Labelling never ranks a lower score above a higher one. */
  lemma LabelMonotone(s1: real, s2: real)
    requires s1 <= s2
    ensures Rank(LabelOf(s1)) <= Rank(LabelOf(s2))
  {
  }

  /**
   * The score of a title. An empty title scores 0; any other title gets the polarity of the
   * external sentiment analyser, which is a parameter here.
   */
  function Score(title: string, polarity: string -> real): (s: real)
    ensures title == [] ==> s == 0.0
  {
    if title == [] then 0.0 else polarity(title)
  }

  /** Whatever the analyser, an empty title is labelled Neutral. */
  lemma EmptyTitleIsNeutral(polarity: string -> real)
    ensures LabelOf(Score([], polarity)) == Neutral
  {
  }
}
