/** The campus heat map of `components/charts/LDSHeatmap.tsx`: the colour
    class of a campus tile by its Local Demand Score, and the summary figures
    (number of hot campuses, total vibe checks). */
module LDSHeatmap {
  import opened Common

  datatype Coordinates = Coordinates(x: real, y: real)

  datatype CampusData = CampusData(
    id: string,
    name: string,
    location: string,
    ldsScore: real,
    artistCount: int,
    vibeChecks: int,
    coordinates: Coordinates)

  /** `getScoreColor`. */
  function ScoreColor(score: real): string {
    if score >= 90.0 then "bg-accent-secondary text-white"
    else if score >= 70.0 then "bg-accent-primary text-white"
    else if score >= 50.0 then "bg-accent-warning text-white"
    else if score >= 30.0 then "bg-orange-500 text-white"
    else "bg-bg-tertiary text-text-muted"
  }

  /** The tile classes, lowest tier first: Low, Medium, High, Very High, Fire. */
  const TierClasses: seq<string> := [
    "bg-bg-tertiary text-text-muted",
    "bg-orange-500 text-white",
    "bg-accent-warning text-white",
    "bg-accent-primary text-white",
    "bg-accent-secondary text-white"
  ]

  /** The legend's lower bound of each tier. */
  const TierFloors: seq<real> := [0.0, 30.0, 50.0, 70.0, 90.0]

  /** The tier of a score: the number of the thresholds 30, 50, 70, 90 it
      reaches. */
  function Tier(score: real): (t: int)
    ensures 0 <= t <= 4
    ensures t > 0 ==> score >= TierFloors[t]
    ensures t < 4 ==> score < TierFloors[t + 1]
  {
    if score >= 90.0 then 4 else if score >= 70.0 then 3 else if score >= 50.0 then 2
    else if score >= 30.0 then 1 else 0
  }

  /** The tile class is the class of the score's tier, and the tier bounds are
      inclusive below: a score in [floor(t), floor(t+1)) gets tier t. */
  lemma ColorFollowsTier(score: real)
    ensures ScoreColor(score) == TierClasses[Tier(score)]
    ensures forall t :: 1 <= t <= 4 && score >= TierFloors[t] ==> Tier(score) >= t
  {
  }

  /** A higher score never gets a lower tier. */
  lemma TierMonotone(a: real, b: real)
    requires a <= b
    ensures Tier(a) <= Tier(b)
  {
  }

  /** The five tiers have five different classes, so two tiles share a
      colour exactly when their scores share a tier. */
  lemma ColorDeterminesTier(a: real, b: real)
    ensures ScoreColor(a) == ScoreColor(b) <==> Tier(a) == Tier(b)
  {
    ColorFollowsTier(a);
    ColorFollowsTier(b);
    assert TierClasses[0][3] != TierClasses[1][3] && TierClasses[0][3] != TierClasses[2][3];
    assert TierClasses[0][3] != TierClasses[3][3] && TierClasses[0][3] != TierClasses[4][3];
    assert TierClasses[1][3] != TierClasses[2][3] && TierClasses[1][3] != TierClasses[3][3];
    assert TierClasses[1][3] != TierClasses[4][3];
    assert TierClasses[2][10] != TierClasses[3][10] && TierClasses[2][10] != TierClasses[4][10];
    assert TierClasses[3][10] != TierClasses[4][10];
  }

  /** A campus counts as hot from an LDS of 70. */
  predicate IsHot(c: CampusData) {
    c.ldsScore >= 70.0
  }

  /** `data.filter(d => d.ldsScore >= 70).length`. */
  function HotCampusCount(data: seq<CampusData>): (n: nat)
    ensures n <= |data|
  {
    |Filter(data, IsHot)|
  }

  /** The hot count is the number of campuses whose tile is in the two top
      tiers, and it equals the campus count exactly when every campus is
      hot. */
  lemma HotCampusCountCorrect(data: seq<CampusData>)
    ensures HotCampusCount(data) == |data| <==> forall i :: 0 <= i < |data| ==> IsHot(data[i])
    ensures forall c :: IsHot(c) <==> Tier(c.ldsScore) >= 3
    ensures (forall i :: 0 <= i < |data| ==> !IsHot(data[i])) ==> HotCampusCount(data) == 0
  {
    FilterKeepsAllIff(data, IsHot);
    if forall i :: 0 <= i < |data| ==> !IsHot(data[i]) {
      FilterNone(data, IsHot);
    }
  }

  /** A campus added to the grid raises the hot count by one exactly when it
      is hot. */
  lemma HotCampusCountAppend(data: seq<CampusData>, c: CampusData)
    ensures HotCampusCount(data + [c]) == HotCampusCount(data) + (if IsHot(c) then 1 else 0)
  {
    FilterAppend(data, [c], IsHot);
  }

  function CampusChecks(c: CampusData): int {
    c.vibeChecks
  }

  /** `data.reduce((sum, d) => sum + d.vibeChecks, 0)`. */
  function TotalChecks(data: seq<CampusData>): int {
    SumOf(data, CampusChecks)
  }

  predicate IsNotHot(c: CampusData) {
    !IsHot(c)
  }

  /** The total is additive over the campuses. */
  lemma TotalChecksAppend(data: seq<CampusData>, more: seq<CampusData>)
    ensures TotalChecks(data + more) == TotalChecks(data) + TotalChecks(more)
  {
    SumOfAppend(data, more, CampusChecks);
  }

  /** The total is the hot campuses' checks plus the other campuses' checks. */
  lemma TotalChecksSplit(data: seq<CampusData>)
    ensures TotalChecks(data) == TotalChecks(Filter(data, IsHot)) + TotalChecks(Filter(data, IsNotHot))
  {
    SumOfPartition(data, CampusChecks, IsHot, IsNotHot);
  }

  /** The total is never negative when no campus count is. */
  lemma TotalChecksNonNegative(data: seq<CampusData>)
    requires forall i :: 0 <= i < |data| ==> data[i].vibeChecks >= 0
    ensures TotalChecks(data) >= 0
  {
    SumOfNonNegative(data, CampusChecks);
  }
}
