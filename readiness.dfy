/** The readiness ring's caption and colour. */
module Readiness {
  const Secondary := "hsl(var(--secondary))"
  const Primary := "hsl(var(--primary))"
  const Muted := "hsl(var(--muted-foreground))"

  /** `getScoreLabel`: each caption holds on exactly its band of scores. */
  function ScoreLabel(score: real): (labelText: string)
    ensures labelText == "Excellent" <==> score >= 80.0
    ensures labelText == "Good" <==> 60.0 <= score < 80.0
    ensures labelText == "Developing" <==> 40.0 <= score < 60.0
    ensures labelText == "Early Stage" <==> score < 40.0
  {
    assert "Excellent" != "Good" && "Excellent" != "Developing" && "Excellent" != "Early Stage";
    assert "Good" != "Developing" && "Good" != "Early Stage" && "Developing" != "Early Stage";
    if score >= 80.0 then "Excellent"
    else if score >= 60.0 then "Good"
    else if score >= 40.0 then "Developing"
    else "Early Stage"
  }

  /** `getScoreColor`: each colour holds on exactly its band of scores. */
  function ScoreColor(score: real): (color: string)
    ensures color == Secondary <==> score >= 80.0
    ensures color == Primary <==> 60.0 <= score < 80.0
    ensures color == Muted <==> score < 60.0
  {
    assert Secondary[10] == 's' && Primary[10] == 'p' && Muted[10] == 'm';
    if score >= 80.0 then Secondary
    else if score >= 60.0 then Primary
    else Muted
  }

  /** The colour a caption is drawn with. */
  function LabelColor(labelText: string): string {
    if labelText == "Excellent" then Secondary
    else if labelText == "Good" then Primary
    else Muted
  }

  /** The colour follows the caption: Excellent is secondary, Good primary, the two lower captions muted. */
  lemma ColorFollowsLabel(score: real)
    ensures ScoreColor(score) == LabelColor(ScoreLabel(score))
  {
    assert "Excellent" != "Good";
    assert "Developing" != "Excellent" && "Developing" != "Good";
    assert "Early Stage" != "Excellent" && "Early Stage" != "Good";
  }

  /** A higher score never gets a lower caption. */
  lemma LabelMonotone(s1: real, s2: real)
    requires s1 <= s2
    ensures LabelRank(ScoreLabel(s1)) <= LabelRank(ScoreLabel(s2))
  {
  }

  /** Captions from the lowest band (0) to the highest (3). */
  function LabelRank(labelText: string): int {
    if labelText == "Excellent" then 3 else if labelText == "Good" then 2 else if labelText == "Developing" then 1 else 0
  }
}
