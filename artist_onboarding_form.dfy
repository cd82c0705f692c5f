/** The three-step sign-up wizard of `components/forms/ArtistOnboardingForm.tsx`:
    basic information, social links, review; submitting adds a new artist with
    zero scores to the artist store. */
module ArtistOnboardingForm {
  import opened Common
  import opened ArtistStore

  datatype OnboardingData = OnboardingData(
    name: string,
    youtubeUrl: string,
    tiktokUrl: string,
    instagramUrl: string,
    bio: string)

  const InitialData := OnboardingData("", "", "", "", "")

  const LastStep := 3

  /** `isStepValid`. */
  predicate IsStepValid(step: int, d: OnboardingData) {
    if step == 1 then Trim(d.name) != []
    else if step == 2 then Trim(d.youtubeUrl) != [] || Trim(d.tiktokUrl) != []
    else if step == 3 then Trim(d.name) != [] && (Trim(d.youtubeUrl) != [] || Trim(d.tiktokUrl) != [])
    else false
  }

  /** The text holds a character other than white space. */
  predicate Filled(s: string) {
    exists i :: 0 <= i < |s| && !IsSpace(s[i])
  }

  /** Step 1 needs a name that is more than white space, step 2 a YouTube or
      TikTok link that is more than white space (Instagram alone does not
      do), step 3 both; no other step is ever valid. */
  lemma IsStepValidCorrect(step: int, d: OnboardingData)
    ensures step == 1 ==> (IsStepValid(step, d) <==> Filled(d.name))
    ensures step == 2 ==> (IsStepValid(step, d) <==> Filled(d.youtubeUrl) || Filled(d.tiktokUrl))
    ensures step == 3 ==> (IsStepValid(step, d) <==> IsStepValid(1, d) && IsStepValid(2, d))
    ensures !(1 <= step <= 3) ==> !IsStepValid(step, d)
    ensures !Filled(d.youtubeUrl) && !Filled(d.tiktokUrl) ==> !IsStepValid(2, d) && !IsStepValid(3, d)
  {
    TrimNonEmptyIff(d.name);
    TrimNonEmptyIff(d.youtubeUrl);
    TrimNonEmptyIff(d.tiktokUrl);
  }

  /** Neither the Instagram link nor the bio bears on any step's validity. */
  lemma ValidityIgnoresInstagramAndBio(step: int, d: OnboardingData, instagram: string, bio: string)
    ensures IsStepValid(step, d.(instagramUrl := instagram, bio := bio)) == IsStepValid(step, d)
  {
  }

  /** The `newArtist` record built from the form: the name and the three
      links as typed, all three scores 0 and no university. The creation and
      update times are two separate reads of the clock. */
  function NewArtist(d: OnboardingData, id: string, createdAt: string, updatedAt: string): Artist {
    Artist(id, d.name, Some(d.youtubeUrl), Some(d.tiktokUrl), Some(d.instagramUrl),
           0.0, 0.0, 0.0, None, createdAt, updatedAt)
  }

  /** The new artist keeps what was typed except the bio, which is not
      stored, starts with zero scores and no university, and carries the
      two clock readings. */
  lemma NewArtistCorrect(d: OnboardingData, id: string, createdAt: string, updatedAt: string, bio: string)
    ensures var a := NewArtist(d, id, createdAt, updatedAt);
            a.id == id && a.name == d.name
            && a.youtubeUrl == Some(d.youtubeUrl) && a.tiktokUrl == Some(d.tiktokUrl)
            && a.instagramUrl == Some(d.instagramUrl)
            && a.aehScore == 0.0 && a.ldsScore == 0.0 && a.aeiScore == 0.0
            && a.university.None? && a.createdAt == createdAt && a.updatedAt == updatedAt
    ensures NewArtist(d.(bio := bio), id, createdAt, updatedAt) == NewArtist(d, id, createdAt, updatedAt)
  {
  }

  /** An artist signed up here has no university, so adding one never
      changes any university's artist list. */
  lemma NewArtistInNoUniversity(s: seq<Artist>, d: OnboardingData, id: string,
                                 createdAt: string, updatedAt: string, u: string)
    ensures ArtistsByUniversity(s + [NewArtist(d, id, createdAt, updatedAt)], u) == ArtistsByUniversity(s, u)
  {
    var a := NewArtist(d, id, createdAt, updatedAt);
    var p := (a: Artist) => a.university == Some(u);
    FilterAppend(s, [a], p);
    FilterNone([a], p);
  }

  /** One `handleInputChange(field, value)` call. */
  datatype OnboardingChange =
    | SetName(name: string)
    | SetYoutubeUrl(youtubeUrl: string)
    | SetTiktokUrl(tiktokUrl: string)
    | SetInstagramUrl(instagramUrl: string)
    | SetBio(bio: string)

  /** `{ ...prev, [field]: value }`. */
  function ApplyChange(d: OnboardingData, c: OnboardingChange): OnboardingData {
    match c
    case SetName(v) => d.(name := v)
    case SetYoutubeUrl(v) => d.(youtubeUrl := v)
    case SetTiktokUrl(v) => d.(tiktokUrl := v)
    case SetInstagramUrl(v) => d.(instagramUrl := v)
    case SetBio(v) => d.(bio := v)
  }

  /** A change sets its own field and leaves the other four as they were. */
  lemma ChangeTouchesOneField(d: OnboardingData, c: OnboardingChange)
    ensures ApplyChange(d, c).name == if c.SetName? then c.name else d.name
    ensures ApplyChange(d, c).youtubeUrl == if c.SetYoutubeUrl? then c.youtubeUrl else d.youtubeUrl
    ensures ApplyChange(d, c).tiktokUrl == if c.SetTiktokUrl? then c.tiktokUrl else d.tiktokUrl
    ensures ApplyChange(d, c).instagramUrl == if c.SetInstagramUrl? then c.instagramUrl else d.instagramUrl
    ensures ApplyChange(d, c).bio == if c.SetBio? then c.bio else d.bio
  {
  }

  class Wizard {
    var step: int
    var formData: OnboardingData
    var isSubmitting: bool

    predicate Valid()
      reads this
    {
      1 <= step <= LastStep
    }

    constructor ()
      ensures Valid()
      ensures step == 1 && formData == InitialData && !isSubmitting
    {
      step := 1;
      formData := InitialData;
      isSubmitting := false;
    }

    /** `handleInputChange`. */
    method HandleInputChange(c: OnboardingChange)
      modifies this
      ensures step == old(step) && isSubmitting == old(isSubmitting)
      ensures formData == ApplyChange(old(formData), c)
    {
      formData := ApplyChange(formData, c);
    }

    /** `handleNext`: moves one step forward, never past the review step. */
    method HandleNext()
      requires Valid()
      modifies this
      ensures Valid()
      ensures formData == old(formData) && isSubmitting == old(isSubmitting)
      ensures step == if old(step) < LastStep then old(step) + 1 else old(step)
    {
      if step < LastStep {
        step := step + 1;
      }
    }

    /** `handleBack`: moves one step back, never before the first. */
    method HandleBack()
      requires Valid()
      modifies this
      ensures Valid()
      ensures formData == old(formData) && isSubmitting == old(isSubmitting)
      ensures step == if old(step) > 1 then old(step) - 1 else old(step)
    {
      if step > 1 {
        step := step - 1;
      }
    }

    /** A click on the Next button, which is shown before the review step
        and disabled while the current step is not valid. */
    method ClickNext()
      requires Valid()
      modifies this
      ensures Valid()
      ensures formData == old(formData) && isSubmitting == old(isSubmitting)
      ensures old(step) < LastStep && IsStepValid(old(step), formData) ==> step == old(step) + 1
      ensures !(old(step) < LastStep && IsStepValid(old(step), formData)) ==> step == old(step)
    {
      if step < LastStep && IsStepValid(step, formData) {
        HandleNext();
      }
    }

    /** `handleSubmit`: builds the new artist, adds it to the store, hands
        it to `onComplete` (returned here) and clears the submitting flag.
        The form keeps its step and its contents. */
    method HandleSubmit(store: Store, id: string, createdAt: string, updatedAt: string)
      returns (created: Artist)
      requires Valid()
      modifies this, store
      ensures Valid()
      ensures created == NewArtist(old(formData), id, createdAt, updatedAt)
      ensures store.artists == old(store.artists) + [created]
      ensures store.vibeChecks == old(store.vibeChecks) && store.clusters == old(store.clusters)
      ensures step == old(step) && formData == old(formData) && !isSubmitting
    {
      isSubmitting := true;
      created := NewArtist(formData, id, createdAt, updatedAt);
      store.AddArtist(created);
      isSubmitting := false;
    }

    /** A click on the Submit button, which is shown at the review step and
        disabled while the form is invalid or a submission is under way:
        only a valid form ever reaches the store, and its artist has a name
        and a YouTube or TikTok link that are more than white space. */
    method ClickSubmit(store: Store, id: string, createdAt: string, updatedAt: string)
      returns (created: Option<Artist>)
      requires Valid()
      modifies this, store
      ensures Valid()
      ensures step == old(step) && formData == old(formData)
      ensures old(step) == LastStep && IsStepValid(LastStep, old(formData)) && !old(isSubmitting) ==>
                created == Some(NewArtist(old(formData), id, createdAt, updatedAt))
                && store.artists == old(store.artists) + [created.value] && !isSubmitting
      ensures !(old(step) == LastStep && IsStepValid(LastStep, old(formData)) && !old(isSubmitting)) ==>
                created.None? && store.artists == old(store.artists)
                && isSubmitting == old(isSubmitting)
      ensures created.Some? ==>
                (Filled(created.value.name)
                 && (Filled(created.value.youtubeUrl.value) || Filled(created.value.tiktokUrl.value)))
      ensures store.vibeChecks == old(store.vibeChecks) && store.clusters == old(store.clusters)
    {
      if step == LastStep && IsStepValid(step, formData) && !isSubmitting {
        IsStepValidCorrect(1, formData);
        IsStepValidCorrect(2, formData);
        var a := HandleSubmit(store, id, createdAt, updatedAt);
        created := Some(a);
      } else {
        created := None;
      }
    }
  }
}
