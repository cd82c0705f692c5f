/** The artist grid of `pages/Dashboard.tsx`: the top ten artists of the
    store narrowed by a name search, the score colour tiers of the rank
    badges, and the seeding of the store with five demonstration artists. */
module Dashboard {
  import opened Common
  import opened ArtistStore

  const TopCount := 10

  /** The five demonstration artists loaded into an empty store. */
  const MockArtists: seq<Artist> := [
    Artist("1", "Burna Boy", None, None, None, 95.0, 88.0, 92.0, Some("University of Lagos"),
           "2024-01-15T10:00:00Z", "2024-01-15T10:00:00Z"),
    Artist("2", "Wizkid", None, None, None, 92.0, 85.0, 89.0, Some("University of Ibadan"),
           "2024-01-14T10:00:00Z", "2024-01-14T10:00:00Z"),
    Artist("3", "Davido", None, None, None, 89.0, 82.0, 87.0, Some("Covenant University"),
           "2024-01-13T10:00:00Z", "2024-01-13T10:00:00Z"),
    Artist("4", "Tems", None, None, None, 87.0, 79.0, 85.0, Some("University of Lagos"),
           "2024-01-12T10:00:00Z", "2024-01-12T10:00:00Z"),
    Artist("5", "Asake", None, None, None, 85.0, 88.0, 83.0, Some("Obafemi Awolowo University"),
           "2024-01-11T10:00:00Z", "2024-01-11T10:00:00Z")
  ]

  /** `artist.name.toLowerCase().includes(searchTerm.toLowerCase())`. */
  predicate NameMatches(a: Artist, term: string) {
    Contains(Lower(a.name), Lower(term))
  }

  /** `filteredArtists`: the listed artists whose name matches the search,
      in the order of the list. */
  function FilterByName(top: seq<Artist>, term: string): (r: seq<Artist>)
    ensures |r| <= |top|
    ensures forall i :: 0 <= i < |r| ==> NameMatches(r[i], term)
    ensures IsSubseq(r, top)
    ensures forall a :: multiset(r)[a] == if NameMatches(a, term) then multiset(top)[a] else 0
  {
    FilterExact(top, (a: Artist) => NameMatches(a, term));
    Filter(top, (a: Artist) => NameMatches(a, term))
  }

  /** An empty search box shows every top artist. */
  lemma EmptySearchKeepsAll(top: seq<Artist>)
    ensures FilterByName(top, "") == top
  {
    forall i | 0 <= i < |top| ensures NameMatches(top[i], "") {
      ContainsEmpty(Lower(top[i].name));
    }
    FilterAll(top, (a: Artist) => NameMatches(a, ""));
  }

  /** The grid never shows more than ten artists, whatever is stored. */
  lemma FilteredAtMostTen(stored: seq<Artist>, term: string)
    ensures |FilterByName(TopArtists(stored, TopCount), term)| <= TopCount
  {
    TopArtistsCorrect(stored, TopCount);
  }

  /** What one render of the grid computes: `getTopArtists(10)` (which
      re-sorts the store) and then the name filter. */
  method FilteredArtists(store: Store, term: string) returns (shown: seq<Artist>)
    modifies store
    ensures store.artists == SortByScore(old(store.artists))
    ensures shown == FilterByName(TopArtists(old(store.artists), TopCount), term)
    ensures |shown| <= TopCount
    ensures store.vibeChecks == old(store.vibeChecks) && store.clusters == old(store.clusters)
  {
    FilteredAtMostTen(store.artists, term);
    var top := store.GetTopArtists(TopCount);
    shown := FilterByName(top, term);
  }

  /** The effect: the demonstration artists are loaded only into an empty
      artist list. */
  method SeedMockArtists(store: Store)
    modifies store
    ensures old(store.artists) == [] ==> store.artists == MockArtists
    ensures old(store.artists) != [] ==> store.artists == old(store.artists)
    ensures store.vibeChecks == old(store.vibeChecks) && store.clusters == old(store.clusters)
  {
    if |store.artists| == 0 {
      store.SetArtists(MockArtists);
    }
  }

  lemma MockArtistsOrdered()
    ensures NonIncreasing(MockArtists)
  {
  }

  /** The demonstration artists are already in rank order, so the first render
      after seeding shows all five as listed. */
  lemma MockArtistsRanked()
    ensures TopArtists(MockArtists, TopCount) == MockArtists
  {
    MockArtistsOrdered();
    SortKeepsOrderedList(MockArtists);
  }

  /** `#{index + 1}` over the shown artists. */
  function RankBadges(shown: seq<Artist>): (r: seq<int>)
    ensures |r| == |shown|
    ensures r != [] ==> r[0] == 1 && r[|r| - 1] == |shown|
    ensures forall i :: 0 <= i < |r| - 1 ==> r[i + 1] == r[i] + 1
  {
    seq(|shown|, i => i + 1)
  }

  /** The "No artists found" panel. */
  predicate ShowsEmptyState(shown: seq<Artist>) {
    |shown| == 0
  }

  /** The empty state is shown exactly when there is no rank badge. */
  lemma EmptyStateIffNoBadges(shown: seq<Artist>)
    ensures ShowsEmptyState(shown) <==> RankBadges(shown) == []
  {
  }

  function ScoreColor(score: real): string {
    if score >= 90.0 then "text-accent-secondary"
    else if score >= 70.0 then "text-accent-primary"
    else if score >= 50.0 then "text-accent-warning"
    else "text-red-400"
  }

  function ScoreBg(score: real): string {
    if score >= 90.0 then "bg-accent-secondary/10"
    else if score >= 70.0 then "bg-accent-primary/10"
    else if score >= 50.0 then "bg-accent-warning/10"
    else "bg-red-400/10"
  }

  /** The tier of a score: 3 from 90, 2 from 70, 1 from 50, else 0. */
  function Tier(score: real): (t: int)
    ensures 0 <= t <= 3
  {
    if score >= 90.0 then 3 else if score >= 70.0 then 2 else if score >= 50.0 then 1 else 0
  }

  /** The text and background classes of tiers 0 to 3, coldest first. */
  const ColorClasses: seq<string> :=
    ["text-red-400", "text-accent-warning", "text-accent-primary", "text-accent-secondary"]
  const BgClasses: seq<string> :=
    ["bg-red-400/10", "bg-accent-warning/10", "bg-accent-primary/10", "bg-accent-secondary/10"]

  /** A score of 90 or more is in tier 3, of 70 or more in tier 2 at least,
      of 50 or more in tier 1 at least; the classes are those of the tier,
      and a higher score never gets a lower tier. */
  lemma TierCorrect(a: real, b: real)
    ensures ScoreColor(a) == ColorClasses[Tier(a)] && ScoreBg(a) == BgClasses[Tier(a)]
    ensures Tier(a) == 3 <==> a >= 90.0
    ensures Tier(a) >= 2 <==> a >= 70.0
    ensures Tier(a) >= 1 <==> a >= 50.0
    ensures a <= b ==> Tier(a) <= Tier(b)
  {
  }

  /** Text colour and background follow the same three thresholds: two scores
      share a text class iff they share a background class iff they share a
      tier. */
  lemma ColorAndBackgroundAgree(a: real, b: real)
    ensures ScoreColor(a) == ScoreColor(b) <==> Tier(a) == Tier(b)
    ensures ScoreBg(a) == ScoreBg(b) <==> Tier(a) == Tier(b)
  {
    assert "text-accent-primary"[12] != "text-accent-warning"[12];
    assert "bg-accent-primary/10"[10] != "bg-accent-warning/10"[10];
  }
}
