/** The in-memory entity store of `stores/artistStore.ts`: three collections
    (artists, vibe checks, clusters), replace/append/merge mutators and the
    ranking and filter queries the pages use. */
module ArtistStore {
  import opened Common

  // ---------------------------------------------------------------------
  // Records

  datatype Artist = Artist(
    id: string,
    name: string,
    youtubeUrl: Option<string>,
    tiktokUrl: Option<string>,
    instagramUrl: Option<string>,
    aehScore: real,
    ldsScore: real,
    aeiScore: real,
    university: Option<string>,
    createdAt: string,
    updatedAt: string)

  datatype VibeCheck = VibeCheck(
    id: string,
    artistId: string,
    studentId: string,
    rating: int,
    videoUrl: Option<string>,
    comment: Option<string>,
    university: string,
    createdAt: string)

  datatype Cluster = Cluster(
    id: string,
    name: string,
    keywords: seq<string>,
    artistCount: int,
    description: string)

  /** `Partial<Artist>`: `None` is a key that is absent from the update
      object. For the optional fields, `Some(None)` is a key that is present
      with the value `undefined`, which the spread copies like any other. */
  datatype ArtistPatch = ArtistPatch(
    id: Option<string>,
    name: Option<string>,
    youtubeUrl: Option<Option<string>>,
    tiktokUrl: Option<Option<string>>,
    instagramUrl: Option<Option<string>>,
    aehScore: Option<real>,
    ldsScore: Option<real>,
    aeiScore: Option<real>,
    university: Option<Option<string>>,
    createdAt: Option<string>,
    updatedAt: Option<string>)

  const EmptyPatch := ArtistPatch(None, None, None, None, None, None, None, None, None, None, None)

  function Pick<T>(update: Option<T>, current: T): T {
    if update.Some? then update.value else current
  }

  /** `{ ...artist, ...updates }`. */
  function Merge(a: Artist, p: ArtistPatch): Artist {
    Artist(
      Pick(p.id, a.id),
      Pick(p.name, a.name),
      Pick(p.youtubeUrl, a.youtubeUrl),
      Pick(p.tiktokUrl, a.tiktokUrl),
      Pick(p.instagramUrl, a.instagramUrl),
      Pick(p.aehScore, a.aehScore),
      Pick(p.ldsScore, a.ldsScore),
      Pick(p.aeiScore, a.aeiScore),
      Pick(p.university, a.university),
      Pick(p.createdAt, a.createdAt),
      Pick(p.updatedAt, a.updatedAt))
  }

  // A field-by-field view of an artist and of an update object, independent
  // of the record layout, against which the spread is stated.

  datatype Field = IdField | NameField | YoutubeField | TiktokField | InstagramField
                 | AehField | LdsField | AeiField | UniversityField | CreatedField | UpdatedField

  datatype FieldValue = Text(s: string) | OptText(o: Option<string>) | Number(x: real)

  function Get(a: Artist, f: Field): FieldValue {
    match f
    case IdField => Text(a.id)
    case NameField => Text(a.name)
    case YoutubeField => OptText(a.youtubeUrl)
    case TiktokField => OptText(a.tiktokUrl)
    case InstagramField => OptText(a.instagramUrl)
    case AehField => Number(a.aehScore)
    case LdsField => Number(a.ldsScore)
    case AeiField => Number(a.aeiScore)
    case UniversityField => OptText(a.university)
    case CreatedField => Text(a.createdAt)
    case UpdatedField => Text(a.updatedAt)
  }

  /** The value the update object holds for `f`, or `None` when the key is absent. */
  function PatchGet(p: ArtistPatch, f: Field): Option<FieldValue> {
    match f
    case IdField => if p.id.Some? then Some(Text(p.id.value)) else None
    case NameField => if p.name.Some? then Some(Text(p.name.value)) else None
    case YoutubeField => if p.youtubeUrl.Some? then Some(OptText(p.youtubeUrl.value)) else None
    case TiktokField => if p.tiktokUrl.Some? then Some(OptText(p.tiktokUrl.value)) else None
    case InstagramField => if p.instagramUrl.Some? then Some(OptText(p.instagramUrl.value)) else None
    case AehField => if p.aehScore.Some? then Some(Number(p.aehScore.value)) else None
    case LdsField => if p.ldsScore.Some? then Some(Number(p.ldsScore.value)) else None
    case AeiField => if p.aeiScore.Some? then Some(Number(p.aeiScore.value)) else None
    case UniversityField => if p.university.Some? then Some(OptText(p.university.value)) else None
    case CreatedField => if p.createdAt.Some? then Some(Text(p.createdAt.value)) else None
    case UpdatedField => if p.updatedAt.Some? then Some(Text(p.updatedAt.value)) else None
  }

  /** The spread: every field present in the update takes the update's value,
      every other field keeps the artist's. */
  lemma MergeFieldwise(a: Artist, p: ArtistPatch)
    ensures forall f :: Get(Merge(a, p), f) == if PatchGet(p, f).Some? then PatchGet(p, f).value else Get(a, f)
  {
    forall f ensures Get(Merge(a, p), f) == if PatchGet(p, f).Some? then PatchGet(p, f).value else Get(a, f) {
      match f
      case IdField =>
      case NameField =>
      case YoutubeField =>
      case TiktokField =>
      case InstagramField =>
      case AehField =>
      case LdsField =>
      case AeiField =>
      case UniversityField =>
      case CreatedField =>
      case UpdatedField =>
    }
  }

  /** Two artists with the same value in every field are the same record. */
  lemma {:induction false} FieldsDetermineArtist(a: Artist, b: Artist)
    requires forall f :: Get(a, f) == Get(b, f)
    ensures a == b
  {
    assert Get(a, IdField) == Get(b, IdField);
    assert Get(a, NameField) == Get(b, NameField);
    assert Get(a, YoutubeField) == Get(b, YoutubeField);
    assert Get(a, TiktokField) == Get(b, TiktokField);
    assert Get(a, InstagramField) == Get(b, InstagramField);
    assert Get(a, AehField) == Get(b, AehField);
    assert Get(a, LdsField) == Get(b, LdsField);
    assert Get(a, AeiField) == Get(b, AeiField);
    assert Get(a, UniversityField) == Get(b, UniversityField);
    assert Get(a, CreatedField) == Get(b, CreatedField);
    assert Get(a, UpdatedField) == Get(b, UpdatedField);
  }

  /** `{ ...p, ...q }`: the keys of both, `q`'s value where both have one. */
  function CombinePatches(p: ArtistPatch, q: ArtistPatch): ArtistPatch {
    ArtistPatch(
      if q.id.Some? then q.id else p.id,
      if q.name.Some? then q.name else p.name,
      if q.youtubeUrl.Some? then q.youtubeUrl else p.youtubeUrl,
      if q.tiktokUrl.Some? then q.tiktokUrl else p.tiktokUrl,
      if q.instagramUrl.Some? then q.instagramUrl else p.instagramUrl,
      if q.aehScore.Some? then q.aehScore else p.aehScore,
      if q.ldsScore.Some? then q.ldsScore else p.ldsScore,
      if q.aeiScore.Some? then q.aeiScore else p.aeiScore,
      if q.university.Some? then q.university else p.university,
      if q.createdAt.Some? then q.createdAt else p.createdAt,
      if q.updatedAt.Some? then q.updatedAt else p.updatedAt)
  }

  /** Every key of the combination holds `q`'s value if `q` has the key and
      `p`'s otherwise. */
  lemma CombinePatchesFieldwise(p: ArtistPatch, q: ArtistPatch)
    ensures forall f :: PatchGet(CombinePatches(p, q), f) == if PatchGet(q, f).Some? then PatchGet(q, f) else PatchGet(p, f)
  {
    forall f ensures PatchGet(CombinePatches(p, q), f) == if PatchGet(q, f).Some? then PatchGet(q, f) else PatchGet(p, f) {
      match f
      case IdField =>
      case NameField =>
      case YoutubeField =>
      case TiktokField =>
      case InstagramField =>
      case AehField =>
      case LdsField =>
      case AeiField =>
      case UniversityField =>
      case CreatedField =>
      case UpdatedField =>
    }
  }

  /** Applying two updates in turn is applying their spread-combination once. */
  lemma {:induction false} MergeTwice(a: Artist, p: ArtistPatch, q: ArtistPatch)
    ensures Merge(Merge(a, p), q) == Merge(a, CombinePatches(p, q))
  {
    MergeFieldwise(a, p);
    MergeFieldwise(Merge(a, p), q);
    MergeFieldwise(a, CombinePatches(p, q));
    CombinePatchesFieldwise(p, q);
    FieldsDetermineArtist(Merge(Merge(a, p), q), Merge(a, CombinePatches(p, q)));
  }

  /** An update object with no keys changes nothing. */
  lemma {:induction false} MergeEmpty(a: Artist)
    ensures Merge(a, EmptyPatch) == a
  {
    MergeFieldwise(a, EmptyPatch);
    FieldsDetermineArtist(Merge(a, EmptyPatch), a);
  }

  /** `artists.map(a => a.id === id ? { ...a, ...updates } : a)`. */
  function UpdateWhere(s: seq<Artist>, id: string, p: ArtistPatch): (r: seq<Artist>)
    ensures |r| == |s|
    ensures forall i :: 0 <= i < |s| && s[i].id == id ==> r[i] == Merge(s[i], p)
    ensures forall i :: 0 <= i < |s| && s[i].id != id ==> r[i] == s[i]
  {
    if s == [] then []
    else [if s[0].id == id then Merge(s[0], p) else s[0]] + UpdateWhere(s[1..], id, p)
  }

  /** An id that no stored artist carries leaves the collection as it is. */
  lemma UpdateUnknownIdIsNoop(s: seq<Artist>, id: string, p: ArtistPatch)
    requires forall i :: 0 <= i < |s| ==> s[i].id != id
    ensures UpdateWhere(s, id, p) == s
  {
  }

  /** An update object with no keys leaves the collection as it is. */
  lemma UpdateWhereEmptyPatch(s: seq<Artist>, id: string)
    ensures UpdateWhere(s, id, EmptyPatch) == s
  {
    forall i | 0 <= i < |s| && s[i].id == id ensures Merge(s[i], EmptyPatch) == s[i] {
      MergeEmpty(s[i]);
    }
  }

  // ---------------------------------------------------------------------
  // Ranking: `artists.sort((a, b) => b.aehScore - a.aehScore)`

  /** Ordered by non-increasing AEHI score. */
  predicate NonIncreasing(s: seq<Artist>) {
    forall i, j :: 0 <= i < j < |s| ==> s[i].aehScore >= s[j].aehScore
  }

  /** The artists of `s` whose score is `v`, in the order of `s`. */
  function WithScore(s: seq<Artist>, v: real): seq<Artist> {
    Filter(s, (a: Artist) => a.aehScore == v)
  }

  /** `x` placed after every artist that scores strictly higher. */
  function InsertByScore(x: Artist, t: seq<Artist>): (r: seq<Artist>)
    ensures |r| == |t| + 1
    ensures multiset(r) == multiset(t) + multiset{x}
  {
    if t == [] || t[0].aehScore <= x.aehScore then [x] + t
    else
      assert t == [t[0]] + t[1..];
      [t[0]] + InsertByScore(x, t[1..])
  }

  /** A stable sort on non-increasing score: `Array.prototype.sort` has been
      stable since ES2019, so this is the order the comparator produces. */
  function SortByScore(s: seq<Artist>): (r: seq<Artist>)
    ensures |r| == |s|
    ensures multiset(r) == multiset(s)
  {
    if s == [] then []
    else
      assert s == [s[0]] + s[1..];
      InsertByScore(s[0], SortByScore(s[1..]))
  }

  lemma {:induction false} InsertKeepsOrder(x: Artist, t: seq<Artist>)
    requires NonIncreasing(t)
    ensures NonIncreasing(InsertByScore(x, t))
  {
    if t != [] && t[0].aehScore > x.aehScore {
      var tail := InsertByScore(x, t[1..]);
      InsertKeepsOrder(x, t[1..]);
      forall k | 0 <= k < |tail| ensures tail[k].aehScore <= t[0].aehScore {
        assert tail[k] in multiset(tail);
        assert tail[k] == x || tail[k] in multiset(t[1..]);
        if tail[k] != x {
          var m :| 0 <= m < |t[1..]| && t[1..][m] == tail[k];
          assert t[m + 1] == tail[k];
        }
      }
    }
  }

  lemma {:induction false} InsertWithScore(x: Artist, t: seq<Artist>, v: real)
    ensures WithScore(InsertByScore(x, t), v) == (if x.aehScore == v then [x] else []) + WithScore(t, v)
  {
    var p := (a: Artist) => a.aehScore == v;
    if t == [] || t[0].aehScore <= x.aehScore {
      assert ([x] + t)[1..] == t;
    } else {
      InsertWithScore(x, t[1..], v);
      assert ([t[0]] + InsertByScore(x, t[1..]))[1..] == InsertByScore(x, t[1..]);
      assert !(x.aehScore == v && t[0].aehScore == v);
    }
  }

  lemma {:induction false} SortWithScore(s: seq<Artist>, v: real)
    ensures WithScore(SortByScore(s), v) == WithScore(s, v)
  {
    if s != [] {
      SortWithScore(s[1..], v);
      InsertWithScore(s[0], SortByScore(s[1..]), v);
    }
  }

  lemma {:induction false} SortIsOrdered(s: seq<Artist>)
    ensures NonIncreasing(SortByScore(s))
  {
    if s != [] {
      SortIsOrdered(s[1..]);
      InsertKeepsOrder(s[0], SortByScore(s[1..]));
    }
  }

  /** What `sort` promises: the result is a permutation of the input, in
      non-increasing score order, and artists with equal scores keep their
      previous relative order. */
  lemma SortByScoreCorrect(s: seq<Artist>)
    ensures multiset(SortByScore(s)) == multiset(s)
    ensures NonIncreasing(SortByScore(s))
    ensures forall v :: WithScore(SortByScore(s), v) == WithScore(s, v)
  {
    SortIsOrdered(s);
    forall v ensures WithScore(SortByScore(s), v) == WithScore(s, v) {
      SortWithScore(s, v);
    }
  }

  lemma WithScoreHead(s: seq<Artist>, v: real)
    requires s != []
    ensures WithScore(s, v) == (if s[0].aehScore == v then [s[0]] else []) + WithScore(s[1..], v)
  {
  }

  /** The first artist of `r1` has a score that also occurs in `r2`, so it is
      at most the score of `r2`'s first artist. */
  lemma HeadScoreBounded(r1: seq<Artist>, r2: seq<Artist>)
    requires r1 != [] && NonIncreasing(r2)
    requires forall v :: WithScore(r1, v) == WithScore(r2, v)
    ensures r2 != [] && r1[0].aehScore <= r2[0].aehScore
  {
    var m := r1[0].aehScore;
    WithScoreHead(r1, m);
    var w := WithScore(r2, m);
    assert w == WithScore(r1, m);
    assert w[0] in r2;
    var k :| 0 <= k < |r2| && r2[k] == w[0];
  }

  /** Two score-ordered sequences whose equal-score runs coincide are equal:
      the stable order is unique, whatever algorithm produces it. */
  lemma {:induction false} StableOrderUnique(r1: seq<Artist>, r2: seq<Artist>)
    requires NonIncreasing(r1) && NonIncreasing(r2)
    requires forall v :: WithScore(r1, v) == WithScore(r2, v)
    ensures r1 == r2
  {
    if r1 != [] {
      HeadScoreBounded(r1, r2);
    }
    if r2 != [] {
      HeadScoreBounded(r2, r1);
    }
    if r1 != [] {
      var m := r1[0].aehScore;
      WithScoreHead(r1, m);
      WithScoreHead(r2, m);
      assert r1[0] == WithScore(r1, m)[0] == WithScore(r2, m)[0] == r2[0];
      forall v ensures WithScore(r1[1..], v) == WithScore(r2[1..], v) {
        WithScoreHead(r1, v);
        WithScoreHead(r2, v);
        var h := if r1[0].aehScore == v then [r1[0]] else [];
        assert WithScore(r1, v) == h + WithScore(r1[1..], v);
        assert WithScore(r2, v) == h + WithScore(r2[1..], v);
        assert WithScore(r1[1..], v) == (h + WithScore(r1[1..], v))[|h|..];
        assert WithScore(r2[1..], v) == (h + WithScore(r2[1..], v))[|h|..];
      }
      StableOrderUnique(r1[1..], r2[1..]);
      assert r1 == [r1[0]] + r1[1..];
      assert r2 == [r2[0]] + r2[1..];
    }
  }

  /** Any score-ordered rearrangement that keeps equal scores in their order
      is exactly `SortByScore`. */
  lemma SortByScoreIsTheStableSort(s: seq<Artist>, r: seq<Artist>)
    requires NonIncreasing(r)
    requires forall v :: WithScore(r, v) == WithScore(s, v)
    ensures r == SortByScore(s)
  {
    SortByScoreCorrect(s);
    StableOrderUnique(r, SortByScore(s));
  }

  /** Sorting an already sorted collection changes nothing, so two calls of
      `getTopArtists` with no mutation in between return the same list. */
  lemma SortIdempotent(s: seq<Artist>)
    ensures SortByScore(SortByScore(s)) == SortByScore(s)
  {
    SortByScoreCorrect(s);
    SortByScoreCorrect(SortByScore(s));
    StableOrderUnique(SortByScore(SortByScore(s)), SortByScore(s));
  }

  /** A collection already in score order is left as it is by the sort. */
  lemma SortKeepsOrderedList(s: seq<Artist>)
    requires NonIncreasing(s)
    ensures SortByScore(s) == s
  {
    SortByScoreIsTheStableSort(s, s);
  }

  /** Where `slice(0, limit)` stops on a list of `n` elements: a negative
      `limit` counts back from the end. */
  function SliceEnd(n: nat, limit: int): (e: nat)
    ensures e <= n
    ensures limit >= 0 ==> e == Min(limit, n)
    ensures limit < 0 ==> e == Max(n + limit, 0)
  {
    if limit < 0 then (if n + limit > 0 then n + limit else 0)
    else if limit < n then limit else n
  }

  /** The list `getTopArtists(limit)` returns for the stored list `s`. */
  function TopArtists(s: seq<Artist>, limit: int): seq<Artist> {
    SortByScore(s)[..SliceEnd(|s|, limit)]
  }

  /** `getTopArtists(limit)` with `limit >= 0` returns `min(limit, |s|)`
      artists in non-increasing order, and none of the artists it leaves out
      scores higher than one it returns. */
  lemma TopArtistsCorrect(s: seq<Artist>, limit: int)
    requires limit >= 0
    ensures |TopArtists(s, limit)| == Min(limit, |s|)
    ensures NonIncreasing(TopArtists(s, limit))
    ensures multiset(TopArtists(s, limit)) <= multiset(s)
    ensures forall i, j :: 0 <= i < |TopArtists(s, limit)| <= j < |s| ==>
              TopArtists(s, limit)[i].aehScore >= SortByScore(s)[j].aehScore
  {
    SortIsOrdered(s);
    OrderedPrefix(SortByScore(s), SliceEnd(|s|, limit));
  }

  /** Every limit takes a prefix of the sorted list: a limit of at least the
      list's length takes all of it, 0 takes nothing, and a negative limit
      `-k` leaves out the last `k` artists (all of them when `k` is at least
      the length), as `slice` counts a negative end from the back. */
  lemma TopArtistsSlice(s: seq<Artist>, limit: int)
    ensures TopArtists(s, limit) == SortByScore(s)[..|TopArtists(s, limit)|]
    ensures limit >= |s| ==> TopArtists(s, limit) == SortByScore(s)
    ensures limit == 0 ==> TopArtists(s, limit) == []
    ensures limit < 0 ==>
              TopArtists(s, limit) + SortByScore(s)[|TopArtists(s, limit)|..] == SortByScore(s)
              && |SortByScore(s)[|TopArtists(s, limit)|..]| == Min(-limit, |s|)
  {
    var t := SortByScore(s);
    if limit >= |s| {
      assert t[..|s|] == t;
    }
    if limit < 0 {
      assert t[..SliceEnd(|s|, limit)] + t[SliceEnd(|s|, limit)..] == t;
    }
  }

  /** A prefix of a score-ordered list is ordered, is drawn from the list,
      and scores no lower than anything after it. */
  lemma OrderedPrefix(t: seq<Artist>, e: nat)
    requires NonIncreasing(t) && e <= |t|
    ensures NonIncreasing(t[..e])
    ensures multiset(t[..e]) <= multiset(t)
    ensures forall i, j :: 0 <= i < e <= j < |t| ==> t[..e][i].aehScore >= t[j].aehScore
  {
    assert t == t[..e] + t[e..];
    assert multiset(t) == multiset(t[..e]) + multiset(t[e..]);
  }

  // ---------------------------------------------------------------------
  // Filters

  /** `artists.filter(a => a.university === university)`. */
  function ArtistsByUniversity(s: seq<Artist>, u: string): (r: seq<Artist>)
    ensures forall i :: 0 <= i < |r| ==> r[i].university == Some(u)
    ensures IsSubseq(r, s)
    ensures forall a :: multiset(r)[a] == if a.university == Some(u) then multiset(s)[a] else 0
  {
    FilterExact(s, (a: Artist) => a.university == Some(u));
    Filter(s, (a: Artist) => a.university == Some(u))
  }

  /** `vibeChecks.filter(c => c.artistId === artistId)`. */
  function VibeChecksByArtist(s: seq<VibeCheck>, artistId: string): (r: seq<VibeCheck>)
    ensures forall i :: 0 <= i < |r| ==> r[i].artistId == artistId
    ensures IsSubseq(r, s)
    ensures forall c :: multiset(r)[c] == if c.artistId == artistId then multiset(s)[c] else 0
  {
    FilterExact(s, (c: VibeCheck) => c.artistId == artistId);
    Filter(s, (c: VibeCheck) => c.artistId == artistId)
  }

  /** An artist id with no vibe checks gives an empty list. */
  lemma VibeChecksOfUnknownArtist(s: seq<VibeCheck>, artistId: string)
    requires forall i :: 0 <= i < |s| ==> s[i].artistId != artistId
    ensures VibeChecksByArtist(s, artistId) == []
  {
    FilterNone(s, (c: VibeCheck) => c.artistId == artistId);
  }

  /** A vibe check added later shows up after the earlier ones of its artist. */
  lemma VibeChecksInInsertionOrder(s: seq<VibeCheck>, c: VibeCheck)
    ensures VibeChecksByArtist(s + [c], c.artistId) == VibeChecksByArtist(s, c.artistId) + [c]
  {
    FilterAppend(s, [c], (x: VibeCheck) => x.artistId == c.artistId);
  }

  // ---------------------------------------------------------------------
  // The store

  class Store {
    var artists: seq<Artist>
    var vibeChecks: seq<VibeCheck>
    var clusters: seq<Cluster>

    /** The initial state: three empty collections. */
    constructor ()
      ensures artists == [] && vibeChecks == [] && clusters == []
    {
      artists, vibeChecks, clusters := [], [], [];
    }

    /** `setArtists`: replaces the artist collection wholesale; no duplicate
        check. */
    method SetArtists(list: seq<Artist>)
      modifies this
      ensures artists == list
      ensures vibeChecks == old(vibeChecks) && clusters == old(clusters)
    {
      artists := list;
    }

    /** `addArtist`: appends at the end, even when the id is already taken. */
    method AddArtist(a: Artist)
      modifies this
      ensures artists == old(artists) + [a]
      ensures |artists| == |old(artists)| + 1 && artists[..|old(artists)|] == old(artists)
      ensures vibeChecks == old(vibeChecks) && clusters == old(clusters)
    {
      artists := artists + [a];
    }

    /** `updateArtist`: merges the update into every artist with that id. */
    method UpdateArtist(id: string, updates: ArtistPatch)
      modifies this
      ensures artists == UpdateWhere(old(artists), id, updates)
      ensures |artists| == |old(artists)|
      ensures (forall i :: 0 <= i < |old(artists)| ==> old(artists)[i].id != id) ==> artists == old(artists)
      ensures vibeChecks == old(vibeChecks) && clusters == old(clusters)
    {
      artists := UpdateWhere(artists, id, updates);
    }

    /** `setVibeChecks`: replaces the vibe-check collection wholesale. */
    method SetVibeChecks(list: seq<VibeCheck>)
      modifies this
      ensures vibeChecks == list
      ensures artists == old(artists) && clusters == old(clusters)
    {
      vibeChecks := list;
    }

    /** `addVibeCheck`: appends at the end; neither the rating nor the artist
        id is checked. */
    method AddVibeCheck(c: VibeCheck)
      modifies this
      ensures vibeChecks == old(vibeChecks) + [c]
      ensures artists == old(artists) && clusters == old(clusters)
    {
      vibeChecks := vibeChecks + [c];
    }

    /** `setClusters`: replaces the cluster collection wholesale. */
    method SetClusters(list: seq<Cluster>)
      modifies this
      ensures clusters == list
      ensures artists == old(artists) && vibeChecks == old(vibeChecks)
    {
      clusters := list;
    }

    /** `getTopArtists(limit)`: sorts the stored array itself, then returns
        a prefix of it. */
    method GetTopArtists(limit: int) returns (top: seq<Artist>)
      modifies this
      ensures artists == SortByScore(old(artists))
      ensures multiset(artists) == multiset(old(artists))
      ensures NonIncreasing(artists)
      ensures forall v :: WithScore(artists, v) == WithScore(old(artists), v)
      ensures top == artists[..SliceEnd(|artists|, limit)]
      ensures top == TopArtists(old(artists), limit)
      ensures vibeChecks == old(vibeChecks) && clusters == old(clusters)
    {
      SortByScoreCorrect(artists);
      artists := SortByScore(artists);
      top := artists[..SliceEnd(|artists|, limit)];
    }

    /** `getArtistsByUniversity(u)`: reads the store, changes nothing. */
    function GetArtistsByUniversity(u: string): (r: seq<Artist>)
      reads this
      ensures forall i :: 0 <= i < |r| ==> r[i].university == Some(u)
      ensures IsSubseq(r, artists)
      ensures forall a :: multiset(r)[a] == if a.university == Some(u) then multiset(artists)[a] else 0
    {
      ArtistsByUniversity(artists, u)
    }

    /** `getVibeChecksByArtist(id)`: reads the store, changes nothing. */
    function GetVibeChecksByArtist(artistId: string): (r: seq<VibeCheck>)
      reads this
      ensures forall i :: 0 <= i < |r| ==> r[i].artistId == artistId
      ensures IsSubseq(r, vibeChecks)
      ensures forall c :: multiset(r)[c] == if c.artistId == artistId then multiset(vibeChecks)[c] else 0
    {
      VibeChecksByArtist(vibeChecks, artistId)
    }
  }
}
