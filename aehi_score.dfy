/** The AEHI score gauge of `components/charts/AEHIScore.tsx`: the colour and
    label tiers of a score and the trend against an optional previous score. */
module AEHIScore {
  import opened Common

  function ScoreColor(score: real): string {
    if score >= 90.0 then "#10B981"
    else if score >= 70.0 then "#3B82F6"
    else if score >= 50.0 then "#F59E0B"
    else if score >= 30.0 then "#F97316"
    else "#EF4444"
  }

  function ScoreLabel(score: real): string {
    if score >= 90.0 then "Fire \U{1F525}"
    else if score >= 70.0 then "Hot"
    else if score >= 50.0 then "Warm"
    else if score >= 30.0 then "Cool"
    else "Cold"
  }

  /** The tier of a score: 4 from 90, 3 from 70, 2 from 50, 1 from 30, else 0. */
  function Tier(score: real): (t: int)
    ensures 0 <= t <= 4
  {
    if score >= 90.0 then 4 else if score >= 70.0 then 3 else if score >= 50.0 then 2
    else if score >= 30.0 then 1 else 0
  }

  /** The five labels, lowest tier first. */
  const Labels: seq<string> := ["Cold", "Cool", "Warm", "Hot", "Fire \U{1F525}"]

  /** The label of a score is the label of its tier, and a higher score never
      gets a lower tier. */
  lemma LabelFollowsTier(a: real, b: real)
    ensures ScoreLabel(a) == Labels[Tier(a)]
    ensures a <= b ==> Tier(a) <= Tier(b)
  {
  }

  /** Colour and label use the same four thresholds: two scores share a
      colour iff they share a label iff they share a tier. */
  lemma ColorAndLabelAgree(a: real, b: real)
    ensures ScoreColor(a) == ScoreColor(b) <==> Tier(a) == Tier(b)
    ensures ScoreLabel(a) == ScoreLabel(b) <==> Tier(a) == Tier(b)
  {
    assert "#10B981"[1] != "#3B82F6"[1] && "#10B981"[1] != "#F59E0B"[1];
    assert "#3B82F6"[1] != "#F59E0B"[1];
    assert "#10B981"[1] != "#F97316"[1] && "#10B981"[1] != "#EF4444"[1];
    assert "#3B82F6"[1] != "#F97316"[1] && "#3B82F6"[1] != "#EF4444"[1];
    assert "#F59E0B"[2] != "#F97316"[2] && "#F59E0B"[1] != "#EF4444"[1];
    assert "#F97316"[1] != "#EF4444"[1];
    assert "Cool"[2] != "Cold"[2];
  }

  /** `!previousScore`: an absent previous score and a previous score of 0
      both count as none. */
  predicate HasPrevious(previous: Option<real>) {
    previous.Some? && previous.value != 0.0
  }

  datatype TrendIcon = TrendingUp | TrendingDown | Minus

  /** `getTrendIcon`. */
  function TrendIconOf(score: real, previous: Option<real>): Option<TrendIcon> {
    if !HasPrevious(previous) then None
    else if score - previous.value > 0.0 then Some(TrendingUp)
    else if score - previous.value < 0.0 then Some(TrendingDown)
    else Some(Minus)
  }

  /** The colour class each icon is drawn with. */
  function IconClass(icon: TrendIcon): string {
    match icon
    case TrendingUp => "text-accent-secondary"
    case TrendingDown => "text-red-400"
    case Minus => "text-text-muted"
  }

  /** `getTrendColor`. */
  function TrendColor(score: real, previous: Option<real>): string {
    if !HasPrevious(previous) then "text-text-muted"
    else if score - previous.value > 0.0 then "text-accent-secondary"
    else if score - previous.value < 0.0 then "text-red-400"
    else "text-text-muted"
  }

  /** `getTrendText`: a signed difference, or the literal "0.0" when the
      scores are equal. */
  datatype TrendText = Gain(diff: real) | Loss(diff: real) | Level

  function TrendTextOf(score: real, previous: Option<real>): Option<TrendText> {
    if !HasPrevious(previous) then None
    else if score - previous.value > 0.0 then Some(Gain(score - previous.value))
    else if score - previous.value < 0.0 then Some(Loss(score - previous.value))
    else Some(Level)
  }

  /** `showTrend && previousScore`: whether the trend row is rendered. */
  predicate ShowsTrendRow(showTrend: bool, previous: Option<real>) {
    showTrend && HasPrevious(previous)
  }

  /** With a previous score the trend is up, down or flat exactly as the score
      rose, fell or stayed, and the text carries the same direction. */
  lemma TrendDirection(score: real, previous: Option<real>)
    requires HasPrevious(previous)
    ensures TrendIconOf(score, previous) == Some(TrendingUp) <==> score > previous.value
    ensures TrendIconOf(score, previous) == Some(TrendingDown) <==> score < previous.value
    ensures TrendIconOf(score, previous) == Some(Minus) <==> score == previous.value
    ensures TrendTextOf(score, previous) == Some(Level) <==> score == previous.value
    ensures TrendTextOf(score, previous).value.Gain? <==> score > previous.value
    ensures TrendTextOf(score, previous).value.Gain? ==> TrendTextOf(score, previous).value.diff > 0.0
    ensures TrendTextOf(score, previous).value.Loss? ==> TrendTextOf(score, previous).value.diff < 0.0
  {
  }

  /** The row's colour is the colour of the icon it shows. */
  lemma IconAndColorAgree(score: real, previous: Option<real>)
    ensures TrendIconOf(score, previous).Some? ==>
              IconClass(TrendIconOf(score, previous).value) == TrendColor(score, previous)
    ensures TrendIconOf(score, previous).None? ==> TrendColor(score, previous) == IconClass(Minus)
  {
  }

  /** No previous score, or a previous score of 0: no icon, no text, no row. */
  lemma NoPreviousNoTrend(score: real, previous: Option<real>, showTrend: bool)
    requires previous.None? || previous.value == 0.0
    ensures TrendIconOf(score, previous).None?
    ensures TrendTextOf(score, previous).None?
    ensures !ShowsTrendRow(showTrend, previous)
  {
  }
}
