/** The audience clusters list of `components/charts/AEIClusters.tsx`: the
    badge colour of a cluster, its icon chosen by keyword priority, the
    truncated keyword chips and country line, and the summary figures. */
module AEIClusters {
  import opened Common

  datatype ClusterData = ClusterData(
    id: string,
    name: string,
    keywords: seq<string>,
    artistCount: int,
    aeiScore: real,
    description: string,
    topCountries: seq<string>,
    growthRate: real,
    color: string)

  // ---------------------------------------------------------------------
  // Colour

  /** The `colors` object of `getClusterColor`. */
  const ColorClasses: map<string, string> := map[
    "blue" := "bg-accent-primary",
    "green" := "bg-accent-secondary",
    "purple" := "bg-purple-500",
    "orange" := "bg-accent-warning",
    "pink" := "bg-pink-500"
  ]

  const FallbackColor := "bg-accent-primary"

  /** `getClusterColor`: the listed class of a known colour name, the
      fallback class for any other name. */
  function ClusterColor(color: string): (r: string)
    ensures color in ColorClasses ==> r == ColorClasses[color]
    ensures color !in ColorClasses ==> r == FallbackColor
  {
    if color in ColorClasses then ColorClasses[color] else FallbackColor
  }

  /** Every colour name gets one of the five listed classes, and an unknown
      name is drawn exactly like "blue". */
  lemma ClusterColorCorrect(color: string)
    ensures ClusterColor(color) in ColorClasses.Values
    ensures color !in ColorClasses ==> ClusterColor(color) == ClusterColor("blue")
    ensures ClusterColor(color) == "bg-pink-500" <==> color == "pink"
  {
    assert ColorClasses["blue"] == FallbackColor;
    if color in ColorClasses {
      assert color == "blue" || color == "green" || color == "purple" || color == "orange"
        || color == "pink";
      assert "bg-pink-500"[3] != "bg-accent-primary"[3];
      assert "bg-pink-500"[3] != "bg-accent-secondary"[3];
      assert "bg-pink-500"[3] != "bg-purple-500"[4];
      assert "bg-pink-500"[4] != "bg-purple-500"[4];
      assert "bg-pink-500"[3] != "bg-accent-warning"[3];
    } else {
      assert "bg-pink-500"[3] != FallbackColor[3];
    }
  }

  // ---------------------------------------------------------------------
  // Icon

  const Globe := "\U{1F30D}"
  const Airplane := "\U{2708}\U{FE0F}"
  const MusicalNote := "\U{1F3B5}"
  const Microphone := "\U{1F3A4}"
  const GlobeMeridians := "\U{1F310}"
  const MusicalNotes := "\U{1F3B6}"

  /** `getClusterIcon`: the tests in their order of priority. */
  function ClusterIcon(name: string): string {
    var n := Lower(name);
    if Contains(n, "african") then Globe
    else if Contains(n, "diaspora") then Airplane
    else if Contains(n, "mainstream") then MusicalNote
    else if Contains(n, "underground") then Microphone
    else if Contains(n, "global") then GlobeMeridians
    else MusicalNotes
  }

  /** The priority list as data: keyword and icon, highest priority first. */
  const IconRules: seq<(string, string)> := [
    ("african", Globe),
    ("diaspora", Airplane),
    ("mainstream", MusicalNote),
    ("underground", Microphone),
    ("global", GlobeMeridians)
  ]

  /** The position of the first rule whose keyword occurs in `s`, or the
      number of rules when none does. */
  function FirstMatch(rules: seq<(string, string)>, s: string): (k: nat)
    ensures k <= |rules|
    ensures k < |rules| ==> Contains(s, rules[k].0)
    ensures forall j :: 0 <= j < k ==> !Contains(s, rules[j].0)
  {
    if rules == [] then 0
    else if Contains(s, rules[0].0) then 0
    else
      var k := FirstMatch(rules[1..], s);
      assert forall j :: 1 <= j <= k ==> rules[j] == rules[1..][j - 1];
      1 + k
  }

  /** The icon is the icon of the first rule whose keyword occurs in the
      lower-cased name; the default applies only when no keyword occurs. */
  lemma {:induction false} ClusterIconIsFirstMatch(name: string)
    ensures var k := FirstMatch(IconRules, Lower(name));
            ClusterIcon(name) == if k < |IconRules| then IconRules[k].1 else MusicalNotes
  {
    var n := Lower(name);
    var k := FirstMatch(IconRules, n);
    if k == 5 {
      assert !Contains(n, IconRules[0].0) && !Contains(n, IconRules[1].0);
      assert !Contains(n, IconRules[2].0) && !Contains(n, IconRules[3].0);
      assert !Contains(n, IconRules[4].0);
    } else {
      assert Contains(n, IconRules[k].0);
      if k >= 1 { assert !Contains(n, IconRules[0].0); }
      if k >= 2 { assert !Contains(n, IconRules[1].0); }
      if k >= 3 { assert !Contains(n, IconRules[2].0); }
      if k >= 4 { assert !Contains(n, IconRules[3].0); }
    }
  }

  /** A name that mentions "african" in any letter case gets the globe, even
      when it also mentions a keyword of lower priority. */
  lemma AfricanWins(name: string, other: string)
    requires Contains(Lower(name), "african")
    ensures ClusterIcon(name) == Globe
    ensures ClusterIcon(name + other) == Globe
  {
    var n := Lower(name);
    ContainsIff(n, "african");
    var i :| OccursAt(n, "african", i);
    var m := Lower(name + other);
    assert forall j :: 0 <= j < |name| ==> m[j] == n[j] by {
      forall j | 0 <= j < |name| ensures m[j] == n[j] {
        assert (name + other)[j] == name[j];
      }
    }
    assert m[i..i + 7] == n[i..i + 7];
    assert OccursAt(m, "african", i);
    ContainsIff(m, "african");
  }

  // ---------------------------------------------------------------------
  // Keyword chips and the country line

  /** `s.slice(0, n)` for a non-negative `n`. */
  function Shown<T>(s: seq<T>, n: nat): (r: seq<T>)
    ensures |r| <= n && |r| <= |s|
    ensures r == s[..|r|]
    ensures |s| <= n ==> r == s
    ensures |s| > n ==> |r| == n
  {
    if |s| <= n then s else s[..n]
  }

  /** The count behind a "+N more" label, present only when something is
      hidden. */
  function Hidden<T>(s: seq<T>, n: nat): (r: Option<nat>)
    ensures r.Some? <==> |s| > n
  {
    if |s| > n then Some(|s| - n) else None
  }

  /** The visible items and the hidden count together account for every
      item: nothing is lost and nothing is counted twice. */
  lemma {:induction false} ShownAndHiddenCoverAll<T>(s: seq<T>, n: nat)
    ensures |Shown(s, n)| + (if Hidden(s, n).Some? then Hidden(s, n).value else 0) == |s|
    ensures Hidden(s, n).Some? ==> |Shown(s, n)| == n && Hidden(s, n).value > 0
  {
    if |s| > n {
      assert |s[..n]| == n;
    }
  }

  const KeywordChips := 5
  const CountriesShown := 3

  /** The "+N more" chip text. */
  function MoreChip(count: nat): string {
    "+" + Decimal(count) + " more"
  }

  /** The keyword chips of one cluster: the first five keywords, then a
      "+N more" chip when there are more than five. */
  function KeywordRow(c: ClusterData): (r: seq<string>)
    ensures |r| <= KeywordChips + 1
    ensures |c.keywords| <= KeywordChips ==> r == c.keywords
    ensures |c.keywords| > KeywordChips ==> |r| == KeywordChips + 1
    ensures |c.keywords| > KeywordChips ==>
              r[..KeywordChips] == c.keywords[..KeywordChips]
              && r[KeywordChips] == MoreChip(|c.keywords| - KeywordChips)
  {
    var more := Hidden(c.keywords, KeywordChips);
    Shown(c.keywords, KeywordChips) + (if more.Some? then [MoreChip(more.value)] else [])
  }

  /** The country line: "Top: " and the first three countries joined by
      ", ", then " +N more" when there are more than three. */
  function CountriesLine(c: ClusterData): string {
    var more := Hidden(c.topCountries, CountriesShown);
    "Top: " + Join(Shown(c.topCountries, CountriesShown), ", ")
    + (if more.Some? then " " + MoreChip(more.value) else "")
  }

  /** With at most three countries the line lists them all; with more it
      lists the first three and ends in the number left over. */
  lemma CountriesLineCorrect(c: ClusterData)
    ensures |c.topCountries| <= CountriesShown ==>
              CountriesLine(c) == "Top: " + Join(c.topCountries, ", ")
    ensures |c.topCountries| > CountriesShown ==>
              CountriesLine(c) == "Top: " + Join(c.topCountries[..CountriesShown], ", ")
                                  + " " + MoreChip(|c.topCountries| - CountriesShown)
  {
  }

  // ---------------------------------------------------------------------
  // Summary

  function ClusterArtists(c: ClusterData): int {
    c.artistCount
  }

  /** `data.reduce((sum, d) => sum + d.artistCount, 0)`. */
  function TotalArtists(data: seq<ClusterData>): int {
    SumOf(data, ClusterArtists)
  }

  /** The artist total adds up cluster by cluster, one added cluster raises
      it by that cluster's count, and it is never negative when no count
      is. */
  lemma TotalArtistsCorrect(data: seq<ClusterData>, more: seq<ClusterData>, c: ClusterData)
    ensures TotalArtists(data + more) == TotalArtists(data) + TotalArtists(more)
    ensures TotalArtists([c] + data) == c.artistCount + TotalArtists(data)
    ensures (forall i :: 0 <= i < |data| ==> data[i].artistCount >= 0) ==> TotalArtists(data) >= 0
  {
    SumOfAppend(data, more, ClusterArtists);
    SumOfCons(c, data, ClusterArtists);
    if forall i :: 0 <= i < |data| ==> data[i].artistCount >= 0 {
      SumOfNonNegative(data, ClusterArtists);
    }
  }
}
