/**
 * The host-listing wizard: six steps, a form edited by whole-record
 * replacement, and a validity rule per step that enables or disables the
 * Next button. On the last step a Submit button takes Next's place.
 */
module Listing {
  import opened JsText

  const ListingSteps: seq<string> := ["Basics", "Pricing", "Amenities", "Media", "Availability", "Review"]
  const LastListingStep: int := |ListingSteps| - 1

  datatype AmenityKey = Wifi | Parking | Restrooms | Security | AirConditioning | Kitchen | Projector | Sound

  datatype Availability = Availability(
    weekdaysStart: string, weekdaysEnd: string, weekendsStart: string, weekendsEnd: string)

  /** The listing form; numbers are exact reals (NaN from a malformed number is not modelled). */
  datatype FormState = FormState(
    title: string, description: string, spaceType: string, address: string, city: string,
    capacity: real, basePrice: real, weekendSurcharge: real,
    images: seq<string>, amenities: map<AmenityKey, bool>,
    availability: Availability, tieredPricing: string)

  const InitialForm := FormState(
    "", "", "Hall", "", "", 20.0, 2000.0, 0.0, [""], map[],
    Availability("09:00", "18:00", "10:00", "20:00"), "flat")

  // ------------------------------------------------------------ validity

  /**
   * Some image URL is longer than five UTF-16 code units once trimmed. Such a
   * URL has at least three characters; one with six characters always counts.
   */
  predicate HasUsableImage(images: seq<string>): (b: bool)
    ensures b ==> exists k :: 0 <= k < |images| && |Trim(images[k])| >= 3
    ensures (exists k :: 0 <= k < |images| && |Trim(images[k])| > 5) ==> b
  {
    exists k :: 0 <= k < |images| && Utf16Length(Trim(images[k])) > 5
  }

  /**
   * Whether the form lets the wizard leave `step`. Lengths are JavaScript's
   * `.length`, in UTF-16 code units. A step that passes has a non-blank
   * title and city (step 0) or a non-blank image URL (step 3).
   */
  predicate IsStepValid(step: int, f: FormState): (b: bool)
    ensures step != 0 && step != 1 && step != 3 ==> b
    ensures step == 0 && b ==> Trim(f.title) != [] && Trim(f.city) != []
    ensures step == 3 && b ==> exists k :: 0 <= k < |f.images| && Trim(f.images[k]) != []
  {
    if step == 0 then Utf16Length(Trim(f.title)) > 2 && Utf16Length(Trim(f.city)) > 1
    else if step == 1 then f.basePrice > 0.0
    else if step == 3 then HasUsableImage(f.images)
    else true
  }

  /** The rule of each gated step, read off as a truth table. */
  lemma StepValidityTable(f: FormState)
    ensures IsStepValid(0, f) <==> Utf16Length(Trim(f.title)) > 2 && Utf16Length(Trim(f.city)) > 1
    ensures IsStepValid(1, f) <==> f.basePrice > 0.0
    ensures IsStepValid(3, f) <==> exists k :: 0 <= k < |f.images| && Utf16Length(Trim(f.images[k])) > 5
  {
  }

  /**
   * Outside the Basic Multilingual Plane a character counts twice: two such
   * characters make a long enough title and one makes a long enough city,
   * while one alone is still too short a title.
   */
  lemma AstralCharactersCountTwice(f: FormState, c: char, d: char)
    requires c as int >= 0x10000 && d as int >= 0x10000
    ensures Utf16Length([c, c]) == 4
    ensures IsStepValid(0, f.(title := [c, c], city := [d]))
    ensures !IsStepValid(0, f.(title := [c], city := [d]))
  {
    assert !IsJsSpace(c) && !IsJsSpace(d);
    TrimUnpadded([c, c]);
    TrimUnpadded([c]);
    TrimUnpadded([d]);
  }

  /** Steps 2, 4 and 5, and every index outside the wizard, are never blocked. */
  lemma UngatedSteps(step: int, f: FormState)
    requires step != 0 && step != 1 && step != 3
    ensures IsStepValid(step, f)
  {
  }

  /** The title and city rules look through any white space around either field. */
  lemma BasicsIgnorePadding(f: FormState, p1: string, q1: string, p2: string, q2: string)
    requires AllSpace(p1) && AllSpace(q1) && AllSpace(p2) && AllSpace(q2)
    ensures IsStepValid(0, f.(title := p1 + f.title + q1, city := p2 + f.city + q2)) == IsStepValid(0, f)
  {
    TrimPadded(f.title, p1, q1);
    TrimPadded(f.city, p2, q2);
  }

  /** A two-letter title is too short; a three-letter title with a two-letter city passes. */
  lemma BasicsExamples(f: FormState)
    ensures !IsStepValid(0, f.(title := "Hi"))
    ensures IsStepValid(0, f.(title := "Hub", city := "SF"))
    ensures IsStepValid(0, f.(title := "  Hub\n", city := "SF"))
  {
    TrimUnpadded("Hi");
    TrimUnpadded("Hub");
    TrimUnpadded("SF");
    BasicsIgnorePadding(f.(title := "Hub", city := "SF"), "  ", "\n", "", "");
    assert "  " + "Hub" + "\n" == "  Hub\n";
    assert "" + "SF" + "" == "SF";
  }

  /** The fresh form may leave the pricing step but not the media step. */
  lemma InitialFormSteps()
    ensures IsStepValid(1, InitialForm)
    ensures !IsStepValid(3, InitialForm)
    ensures !IsStepValid(0, InitialForm)
  {
    assert Trim("") == "";
  }

  // ------------------------------------------------------------ edits

  /** The form with image slot `i` replaced by `v`. */
  function WithImage(f: FormState, i: nat, v: string): (g: FormState)
    requires i < |f.images|
    ensures |g.images| == |f.images| && g.images[i] == v
    ensures forall j :: 0 <= j < |f.images| && j != i ==> g.images[j] == f.images[j]
    ensures g.(images := f.images) == f
  {
    f.(images := f.images[i := v])
  }

  /** The form with one more, empty, image slot at the end. */
  function WithImageField(f: FormState): (g: FormState)
    ensures |g.images| == |f.images| + 1 && g.images[|f.images|] == ""
    ensures g.images[..|f.images|] == f.images
    ensures g.(images := f.images) == f
  {
    f.(images := f.images + [""])
  }

  /** The form with amenity `k` set to `b`. */
  function WithAmenity(f: FormState, k: AmenityKey, b: bool): (g: FormState)
    ensures k in g.amenities && g.amenities[k] == b
    ensures forall k' :: k' != k ==> (k' in g.amenities <==> k' in f.amenities)
    ensures forall k' :: k' != k && k' in f.amenities ==> g.amenities[k'] == f.amenities[k']
    ensures g.(amenities := f.amenities) == f
  {
    f.(amenities := f.amenities[k := b])
  }

  /** Whether amenity `k` is shown as selected (a missing key reads as falsy). */
  predicate AmenityOn(f: FormState, k: AmenityKey)
  {
    k in f.amenities && f.amenities[k]
  }

  /** Clicking an amenity chip twice leaves every amenity shown as it was. */
  lemma AmenityClickTwice(f: FormState, k: AmenityKey)
    ensures var g := WithAmenity(f, k, !AmenityOn(f, k));
            var h := WithAmenity(g, k, !AmenityOn(g, k));
            forall k' :: AmenityOn(h, k') == AmenityOn(f, k')
  {
  }

  /** An empty slot never makes the media step valid, nor takes its validity away. */
  lemma AddImageFieldKeepsMediaValidity(f: FormState)
    ensures IsStepValid(3, WithImageField(f)) == IsStepValid(3, f)
  {
    var g := WithImageField(f);
    assert Utf16Length(Trim(g.images[|f.images|])) == 0;
    if HasUsableImage(g.images) {
      var k :| 0 <= k < |g.images| && Utf16Length(Trim(g.images[k])) > 5;
      assert g.images[k] == f.images[k];
    }
    if HasUsableImage(f.images) {
      var k :| 0 <= k < |f.images| && Utf16Length(Trim(f.images[k])) > 5;
      assert g.images[k] == f.images[k];
    }
  }

  /** Writing a long enough URL into any slot makes the media step valid. */
  lemma UsableImageValidatesMedia(f: FormState, i: nat, v: string)
    requires i < |f.images| && Utf16Length(Trim(v)) > 5
    ensures IsStepValid(3, WithImage(f, i, v))
  {
    assert WithImage(f, i, v).images[i] == v;
  }

  /** Image and amenity edits never change whether the basics or pricing steps are valid. */
  lemma EditsKeepOtherSteps(f: FormState, i: nat, v: string, k: AmenityKey, b: bool)
    requires i < |f.images|
    ensures forall s :: s != 3 ==> IsStepValid(s, WithImage(f, i, v)) == IsStepValid(s, f)
    ensures forall s :: s != 3 ==> IsStepValid(s, WithImageField(f)) == IsStepValid(s, f)
    ensures forall s :: IsStepValid(s, WithAmenity(f, k, b)) == IsStepValid(s, f)
  {
  }

  // ------------------------------------------------------------ steps

  /** "Next" moves on, but never beyond the last step. */
  function ListingNext(s: int): (r: int)
    ensures r == if s + 1 < LastListingStep then s + 1 else LastListingStep
  {
    if s + 1 < |ListingSteps| - 1 then s + 1 else |ListingSteps| - 1
  }

  /** "Back" moves back, but never before the first step. */
  function ListingBack(s: int): (r: int)
    ensures r == if s - 1 > 0 then s - 1 else 0
  {
    if s - 1 > 0 then s - 1 else 0
  }

  /** Both moves keep the step inside the wizard. */
  lemma StepMovesStayInRange(s: int)
    requires 0 <= s <= LastListingStep
    ensures 0 <= ListingNext(s) <= LastListingStep && 0 <= ListingBack(s) <= LastListingStep
    ensures ListingNext(s) >= s && ListingBack(s) <= s
  {
  }

  /** The primary button: Next (enabled or not) before the last step, Submit on it. */
  datatype PrimaryButton = NextButton(enabled: bool) | SubmitButton

  function Primary(step: int, f: FormState): (b: PrimaryButton)
    ensures step < LastListingStep <==> b.NextButton?
    ensures b.NextButton? ==> (b.enabled <==> IsStepValid(step, f))
  {
    if step < |ListingSteps| - 1 then NextButton(IsStepValid(step, f)) else SubmitButton
  }

  /** What a click on the primary button does to the step (Submit leaves it alone). */
  function ClickPrimary(step: int, f: FormState): (r: int)
    ensures r != step ==> step < LastListingStep && IsStepValid(step, f) && r == step + 1
    ensures step < LastListingStep && IsStepValid(step, f) ==> r == step + 1
  {
    if Primary(step, f) == NextButton(true) then ListingNext(step) else step
  }

  function ClickPrimaryTimes(step: int, f: FormState, n: nat): int
  {
    if n == 0 then step else ClickPrimary(ClickPrimaryTimes(step, f, n - 1), f)
  }

  /** The first step at or after `s` that blocks Next, or the last step. */
  function FirstBlocked(s: int, f: FormState): (r: int)
    requires 0 <= s <= LastListingStep
    ensures s <= r <= LastListingStep
    ensures forall j :: s <= j < r ==> IsStepValid(j, f)
    ensures r < LastListingStep ==> !IsStepValid(r, f)
    decreases LastListingStep - s
  {
    if s == LastListingStep || !IsStepValid(s, f) then s else FirstBlocked(s + 1, f)
  }

  /**
   * Clicking the primary button `n` times from step `s` on an unchanged form
   * goes exactly `n` steps or up to the first step that blocks, whichever is
   * nearer; so the wizard is never past a step that is invalid.
   */
  lemma {:induction false} ClicksStopAtFirstBlocked(s: int, f: FormState, n: nat)
    requires 0 <= s <= LastListingStep
    ensures ClickPrimaryTimes(s, f, n) == if s + n < FirstBlocked(s, f) then s + n else FirstBlocked(s, f)
    ensures forall j :: s <= j < ClickPrimaryTimes(s, f, n) ==> IsStepValid(j, f)
  {
    if n > 0 {
      ClicksStopAtFirstBlocked(s, f, n - 1);
    }
  }

  // ------------------------------------------------------------ the page

  class ListingWizard {
    var activeStep: int
    var form: FormState

    ghost predicate Valid()
      reads this
    {
      0 <= activeStep <= LastListingStep
    }

    constructor ()
      ensures Valid() && activeStep == 0 && form == InitialForm
    {
      activeStep := 0;
      form := InitialForm;
    }

    method UpdateAmenity(k: AmenityKey, b: bool)
      requires Valid()
      modifies this`form
      ensures Valid()
      ensures form == WithAmenity(old(form), k, b)
    {
      form := form.(amenities := form.amenities[k := b]);
    }

    method UpdateImage(i: nat, v: string)
      requires Valid()
      requires i < |form.images|
      modifies this`form
      ensures Valid()
      ensures form == WithImage(old(form), i, v)
    {
      var images := form.images;
      images := images[i := v];
      form := form.(images := images);
    }

    method AddImageField()
      requires Valid()
      modifies this`form
      ensures Valid()
      ensures form == WithImageField(old(form))
    {
      form := form.(images := form.images + [""]);
    }

    method HandleNext()
      requires Valid()
      modifies this`activeStep
      ensures Valid()
      ensures activeStep == ListingNext(old(activeStep))
    {
      activeStep := if activeStep + 1 < |ListingSteps| - 1 then activeStep + 1 else |ListingSteps| - 1;
    }

    method HandleBack()
      requires Valid()
      modifies this`activeStep
      ensures Valid()
      ensures activeStep == ListingBack(old(activeStep))
    {
      activeStep := if activeStep - 1 > 0 then activeStep - 1 else 0;
    }

    /** A click on the enabled Next button; Submit and a disabled Next do not move the step. */
    method ClickNext()
      requires Valid()
      modifies this`activeStep
      ensures Valid()
      ensures activeStep == ClickPrimary(old(activeStep), form)
      ensures activeStep != old(activeStep) ==> IsStepValid(old(activeStep), form)
    {
      if activeStep < |ListingSteps| - 1 && IsStepValid(activeStep, form) {
        HandleNext();
      }
    }
  }
}
