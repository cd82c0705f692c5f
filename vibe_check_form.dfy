/** The rating form of `components/forms/VibeCheckForm.tsx`: a signed-in
    student gives an artist one to five stars, an optional comment and an
    optional video link; submitting adds a vibe check to the artist store
    and resets the form. */
module VibeCheckForm {
  import opened Common
  import opened ArtistStore

  /** The signed-in user as the form reads it: the id and the optional
      university. */
  datatype User = User(id: string, university: Option<string>)

  /** The `artist` prop. */
  datatype ArtistRef = ArtistRef(id: string, name: string, aehScore: real)

  const MaxStars := 5
  const UnknownUniversity := "Unknown"

  /** `text.trim() || undefined`: the trimmed text, or nothing when only
      white space was typed. */
  function OptionalText(s: string): Option<string> {
    if Trim(s) == [] then None else Some(Trim(s))
  }

  /** Nothing is stored exactly when the text is all white space; what is
      stored is the trimmed text, which neither starts nor ends with white
      space, and trimming before storing changes nothing. */
  lemma OptionalTextCorrect(s: string)
    ensures OptionalText(s).None? <==> forall i :: 0 <= i < |s| ==> IsSpace(s[i])
    ensures OptionalText(s).Some? ==> var t := OptionalText(s).value;
              t != [] && !IsSpace(t[0]) && !IsSpace(t[|t| - 1])
    ensures OptionalText(Trim(s)) == OptionalText(s)
  {
    TrimNonEmptyIff(s);
    TrimIdempotent(s);
  }

  lemma TrimIdempotent(s: string)
    ensures Trim(Trim(s)) == Trim(s)
  {
    var r := Trim(s);
    if r != [] {
      assert TrimStart(r) == r;
      assert TrimEnd(r) == r;
    }
  }

  /** `user.university || 'Unknown'`: an absent or empty university becomes
      "Unknown". */
  function UniversityOf(u: User): string {
    if u.university.None? || u.university.value == "" then UnknownUniversity else u.university.value
  }

  /** The stored university is never empty, and it is "Unknown" exactly when
      the user has no university, an empty one, or one called "Unknown". */
  lemma UniversityOfCorrect(u: User)
    ensures UniversityOf(u) != ""
    ensures UniversityOf(u) == UnknownUniversity <==>
              u.university.None? || u.university.value == "" || u.university.value == UnknownUniversity
    ensures u.university.Some? && u.university.value != "" ==> UniversityOf(u) == u.university.value
  {
  }

  /** The `newVibeCheck` record. */
  function NewVibeCheck(artist: ArtistRef, user: User, rating: int, comment: string, videoUrl: string,
                        id: string, now: string): VibeCheck {
    VibeCheck(id, artist.id, user.id, rating, OptionalText(videoUrl), OptionalText(comment),
              UniversityOf(user), now)
  }

  /** `getRatingText`. */
  function RatingText(rating: int): string {
    if rating == 1 then "Not feeling it"
    else if rating == 2 then "Meh"
    else if rating == 3 then "It's okay"
    else if rating == 4 then "Pretty good"
    else if rating == 5 then "Fire! \U{1F525}"
    else "Rate this artist"
  }

  /** Each of the five star counts has a label of its own, and every other
      value, the unrated 0 among them, shows the prompt. */
  lemma RatingTextCorrect(a: int, b: int)
    ensures 1 <= a <= MaxStars && 1 <= b <= MaxStars && a != b ==> RatingText(a) != RatingText(b)
    ensures 1 <= a <= MaxStars ==> RatingText(a) != RatingText(0)
    ensures !(1 <= a <= MaxStars) ==> RatingText(a) == "Rate this artist"
  {
    assert RatingText(1)[0] == 'N' && RatingText(2)[0] == 'M' && RatingText(3)[0] == 'I';
    assert RatingText(4)[0] == 'P' && RatingText(5)[0] == 'F' && RatingText(0)[0] == 'R';
  }

  /** `getRatingColor`. */
  function RatingColor(rating: int): string {
    if rating <= 2 then "text-red-400"
    else if rating == 3 then "text-yellow-400"
    else "text-accent-secondary"
  }

  /** The colour's rank from cold to warm: red, yellow, accent. */
  function ColorRank(color: string): int {
    if color == "text-red-400" then 0 else if color == "text-yellow-400" then 1 else 2
  }

  /** A higher rating never gets a colder colour; one and two stars (and
      the unrated 0) are red, three yellow, four and five the accent. */
  lemma RatingColorMonotone(a: int, b: int)
    requires a <= b
    ensures ColorRank(RatingColor(a)) <= ColorRank(RatingColor(b))
    ensures ColorRank(RatingColor(a)) == (if a <= 2 then 0 else if a == 3 then 1 else 2)
  {
    assert "text-red-400"[5] != "text-yellow-400"[5];
    assert "text-accent-secondary"[5] != "text-red-400"[5];
    assert "text-accent-secondary"[5] != "text-yellow-400"[5];
  }

  /** Star `star` is drawn filled when `star <= rating`. */
  predicate StarFilled(star: int, rating: int) {
    star <= rating
  }

  /** The number of filled stars among stars 1 to `n`. */
  function FilledStars(n: nat, rating: int): (k: nat)
    ensures k <= n
  {
    if n == 0 then 0 else FilledStars(n - 1, rating) + (if StarFilled(n, rating) then 1 else 0)
  }

  /** A rating of 0 to 5 lights exactly that many of the five stars, the
      lowest ones first. */
  lemma {:induction false} FilledStarsIsRating(n: nat, rating: int)
    requires 0 <= rating <= n
    ensures FilledStars(n, rating) == rating
  {
    if n > 0 {
      if rating == n {
        FilledStarsAll(n - 1, rating);
      } else {
        FilledStarsIsRating(n - 1, rating);
      }
    }
  }

  lemma {:induction false} FilledStarsAll(n: nat, rating: int)
    requires n <= rating
    ensures FilledStars(n, rating) == n
  {
    if n > 0 {
      FilledStarsAll(n - 1, rating);
    }
  }

  /** The submit button's `disabled` condition. */
  predicate SubmitDisabled(rating: int, isSubmitting: bool) {
    rating == 0 || isSubmitting
  }

  class Form {
    const artist: ArtistRef
    var rating: int
    var comment: string
    var videoUrl: string
    var isSubmitting: bool

    /** The rating is 0 (unrated) or a star count. */
    predicate Valid()
      reads this
    {
      0 <= rating <= MaxStars
    }

    constructor (artist: ArtistRef)
      ensures Valid()
      ensures this.artist == artist
      ensures rating == 0 && comment == "" && videoUrl == "" && !isSubmitting
    {
      this.artist := artist;
      rating := 0;
      comment := "";
      videoUrl := "";
      isSubmitting := false;
    }

    /** A click on star `star`. */
    method ClickStar(star: int)
      requires 1 <= star <= MaxStars
      modifies this
      ensures Valid()
      ensures rating == star && FilledStars(MaxStars, rating) == star
      ensures comment == old(comment) && videoUrl == old(videoUrl) && isSubmitting == old(isSubmitting)
    {
      rating := star;
      FilledStarsIsRating(MaxStars, rating);
    }

    /** Typing in the comment box. */
    method SetComment(text: string)
      modifies this
      ensures comment == text
      ensures rating == old(rating) && videoUrl == old(videoUrl) && isSubmitting == old(isSubmitting)
    {
      comment := text;
    }

    /** Typing in the video link box. */
    method SetVideoUrl(text: string)
      modifies this
      ensures videoUrl == text
      ensures rating == old(rating) && comment == old(comment) && isSubmitting == old(isSubmitting)
    {
      videoUrl := text;
    }

    /** `handleSubmit`: with no signed-in user or no rating nothing happens;
        otherwise the vibe check is appended to the store (so it becomes the
        artist's latest, by `ArtistStore.VibeChecksInInsertionOrder`) and
        the form is reset. */
    method HandleSubmit(user: Option<User>, store: Store, id: string, now: string)
      returns (submitted: Option<VibeCheck>)
      requires Valid()
      modifies this, store
      ensures Valid()
      ensures user.None? || old(rating) == 0 ==>
                submitted.None? && store.vibeChecks == old(store.vibeChecks)
                && rating == old(rating) && comment == old(comment) && videoUrl == old(videoUrl)
                && isSubmitting == old(isSubmitting)
      ensures user.Some? && old(rating) != 0 ==>
                submitted == Some(NewVibeCheck(artist, user.value, old(rating), old(comment),
                                               old(videoUrl), id, now))
                && store.vibeChecks == old(store.vibeChecks) + [submitted.value]
                && rating == 0 && comment == "" && videoUrl == "" && !isSubmitting
      ensures submitted.Some? ==>
                1 <= submitted.value.rating <= MaxStars && submitted.value.artistId == artist.id
      ensures store.artists == old(store.artists) && store.clusters == old(store.clusters)
    {
      if user.None? || rating == 0 {
        return None;
      }
      isSubmitting := true;
      var check := NewVibeCheck(artist, user.value, rating, comment, videoUrl, id, now);
      store.AddVibeCheck(check);
      submitted := Some(check);
      rating, comment, videoUrl := 0, "", "";
      isSubmitting := false;
    }

    /** Pressing the submit button, which is disabled while there is no
        rating or a submission is under way. */
    method ClickSubmit(user: Option<User>, store: Store, id: string, now: string)
      returns (submitted: Option<VibeCheck>)
      requires Valid()
      modifies this, store
      ensures Valid()
      ensures SubmitDisabled(old(rating), old(isSubmitting)) || user.None? ==>
                submitted.None? && store.vibeChecks == old(store.vibeChecks)
                && rating == old(rating) && comment == old(comment) && videoUrl == old(videoUrl)
                && isSubmitting == old(isSubmitting)
      ensures !SubmitDisabled(old(rating), old(isSubmitting)) && user.Some? ==>
                submitted == Some(NewVibeCheck(artist, user.value, old(rating), old(comment),
                                               old(videoUrl), id, now))
                && store.vibeChecks == old(store.vibeChecks) + [submitted.value]
                && rating == 0 && comment == "" && videoUrl == "" && !isSubmitting
      ensures submitted.Some? ==>
                1 <= submitted.value.rating <= MaxStars && submitted.value.artistId == artist.id
      ensures store.artists == old(store.artists) && store.clusters == old(store.clusters)
    {
      if SubmitDisabled(rating, isSubmitting) {
        return None;
      }
      submitted := HandleSubmit(user, store, id, now);
    }
  }
}
