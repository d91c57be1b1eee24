/**
 * The page for donating a medicine: the field rules of its form, the NGO
 * picker that writes its choice into the form, the image upload and the
 * submit guards.
 */
module DonateMedicine {
  import opened Wrappers
  import opened AuthContext
  import opened FormSubmission
  import opened Text

  /**
   * The values the form holds. The NGO is not a typed input: it stays unset
   * (`None`) until the picker writes a choice into the form.
   */
  datatype DonateForm = DonateForm(
    medicineName: string,
    brand: string,
    expiryDate: string,
    quantity: string,
    description: Option<string>,
    ngoSelection: Option<string>)

  /** The values before anything is typed or picked. */
  const BlankDonateForm: DonateForm := DonateForm("", "", "", "", None, None)

  /** The values of the five entries of the NGO picker. */
  const NgoOptions: seq<string> :=
    ["medicaid-foundation", "healthcare-for-all", "medical-relief", "community-clinic", "red-cross"]

  /** The form schema: minimum lengths, a chosen NGO, and no rule for the description. */
  predicate DonateFormValid(f: DonateForm)
    ensures DonateFormValid(f) ==>
              f.medicineName != "" && f.brand != "" && f.expiryDate != "" && f.quantity != ""
    ensures DonateFormValid(f) ==> exists ngo :: f.ngoSelection == Some(ngo) && ngo != ""
  {
    && Utf16Length(f.medicineName) >= 3
    && Utf16Length(f.brand) >= 2
    && Utf16Length(f.expiryDate) >= 1
    && Utf16Length(f.quantity) >= 1
    && f.ngoSelection.Some? && Utf16Length(f.ngoSelection.value) >= 1
  }

  /** The NGO message when no NGO is set: the string type check itself fails. */
  const NgoRequired: string := "Required"

  /** The NGO message when the chosen NGO is empty text. */
  const NgoNotSelected: string := "Please select an NGO"

  /** The message the NGO rule reports, which depends on whether a value is set at all. */
  function NgoMessage(ngo: Option<string>): string {
    if ngo.None? then NgoRequired else NgoNotSelected
  }

  /** The five messages, in the order the fields are declared. */
  function DonateMessages(ngo: Option<string>): seq<string> {
    [NameRequired, BrandRequired, ExpiryRequired, QuantityRequired, NgoMessage(ngo)]
  }

  /**
   * No two rules share a message, since the first letters differ; and only
   * the message for the case at hand is among them.
   */
  lemma DonateMessagesDistinct(ngo: Option<string>)
    ensures Distinct(DonateMessages(ngo))
    ensures NgoRequired in DonateMessages(ngo) <==> ngo.None?
    ensures NgoNotSelected in DonateMessages(ngo) <==> ngo.Some?
  {
    var messages := DonateMessages(ngo);
    forall i, j | 0 <= i < j < |messages| ensures messages[i] != messages[j] {
      assert messages[i][0] != messages[j][0];
    }
    forall i | 0 <= i < 4 ensures messages[i] != NgoRequired && messages[i] != NgoNotSelected {
      assert messages[i][0] != NgoRequired[0] && messages[i][0] != NgoNotSelected[0];
    }
    assert NgoRequired != NgoNotSelected by {
      assert NgoRequired[0] != NgoNotSelected[0];
    }
  }

  /**
   * One message per field that breaks its rule, in declaration order. An
   * unset NGO fails the string type check itself, whose message is "Required".
   */
  function DonateErrors(f: DonateForm): (errors: seq<string>)
    ensures (NameRequired in errors) <==> Utf16Length(f.medicineName) < 3
    ensures (BrandRequired in errors) <==> Utf16Length(f.brand) < 2
    ensures (ExpiryRequired in errors) <==> Utf16Length(f.expiryDate) < 1
    ensures (QuantityRequired in errors) <==> Utf16Length(f.quantity) < 1
    ensures (NgoRequired in errors) <==> f.ngoSelection.None?
    ensures (NgoNotSelected in errors) <==> f.ngoSelection.Some? && Utf16Length(f.ngoSelection.value) < 1
    ensures Distinct(errors) && |errors| <= 5
  {
    var messages := DonateMessages(f.ngoSelection);
    var failed := [
      Utf16Length(f.medicineName) < 3, Utf16Length(f.brand) < 2,
      Utf16Length(f.expiryDate) < 1, Utf16Length(f.quantity) < 1,
      f.ngoSelection.None? || Utf16Length(f.ngoSelection.value) < 1];
    DonateMessagesDistinct(f.ngoSelection);
    ReportedIff(failed, messages);
    ReportedDistinct(failed, messages);
    assert && messages[0] == NameRequired && messages[1] == BrandRequired
           && messages[2] == ExpiryRequired && messages[3] == QuantityRequired
           && messages[4] == NgoMessage(f.ngoSelection);
    Reported(failed, messages)
  }

  /** The form is accepted exactly when no field reports an error. */
  lemma DonateValidIffNoErrors(f: DonateForm)
    ensures DonateFormValid(f) <==> DonateErrors(f) == []
  {
  }

  /** `handleNGOChange(value)`: the picked value becomes the form's NGO. */
  function HandleNgoChange(f: DonateForm, value: string): (g: DonateForm)
    ensures g.ngoSelection == Some(value)
    ensures g.(ngoSelection := f.ngoSelection) == f
  {
    f.(ngoSelection := Some(value))
  }

  /** Without a picked NGO the form is never valid. */
  lemma UnsetNgoInvalid(f: DonateForm)
    requires f.ngoSelection.None?
    ensures !DonateFormValid(f)
    ensures "Required" in DonateErrors(f)
  {
  }

  /**
   * Picking any of the five entries satisfies the NGO rule: the form is then
   * valid exactly when the typed fields are.
   */
  lemma PickingAnOptionSatisfiesNgoRule(f: DonateForm, i: int)
    requires 0 <= i < |NgoOptions|
    ensures DonateFormValid(HandleNgoChange(f, NgoOptions[i])) <==>
              && Utf16Length(f.medicineName) >= 3 && Utf16Length(f.brand) >= 2
              && Utf16Length(f.expiryDate) >= 1 && Utf16Length(f.quantity) >= 1
  {
    assert Utf16Length(NgoOptions[i]) >= 1;
  }

  /** The description takes part in no rule. */
  lemma DonateDescriptionUnconstrained(f: DonateForm, d: Option<string>)
    ensures DonateFormValid(f.(description := d)) == DonateFormValid(f)
  {
  }

  /** Pressing "Donate Medicine" over the form values `f`. */
  function DonateSubmit(f: DonateForm, image: Option<string>, isSubmitting: bool, auth: AuthValue): (o: SubmitOutcome)
    ensures o == Submitting <==>
              !isSubmitting && DonateFormValid(f) && auth.isAuthenticated && HasImage(image)
  {
    SubmitGuard(isSubmitting, DonateFormValid(f), auth.isAuthenticated, image)
  }

  /** A signed-out donor is told to sign in before being told about the image. */
  lemma SignedOutDonorMustSignIn(f: DonateForm, image: Option<string>, auth: AuthValue)
    requires DonateFormValid(f) && !auth.isAuthenticated
    ensures DonateSubmit(f, image, false, auth) == AuthenticationRequired
    ensures DonateSubmit(f, None, false, auth) == AuthenticationRequired
  {
  }

  /** The page component: the form values, the image and the submitting flag. */
  class DonatePage {
    var values: DonateForm
    var image: Option<string>
    var isSubmitting: bool

    /** A blank form, no image, not submitting. */
    constructor()
      ensures values == BlankDonateForm && image.None? && !isSubmitting
    {
      values := BlankDonateForm;
      image := None;
      isSubmitting := false;
    }

    /** Typing into the text inputs; the picked NGO is kept. */
    method EnterDetails(name: string, brand: string, expiry: string, quantity: string, description: Option<string>)
      modifies this`values
      ensures values == DonateForm(name, brand, expiry, quantity, description, old(values).ngoSelection)
    {
      values := DonateForm(name, brand, expiry, quantity, description, values.ngoSelection);
    }

    /** The picker's `onValueChange`. */
    method PickNgo(value: string)
      modifies this`values
      ensures values == HandleNgoChange(old(values), value)
    {
      values := values.(ngoSelection := Some(value));
    }

    /** The image reader finished with the data URL `dataUrl`. */
    method ImageLoaded(dataUrl: string)
      modifies this`image
      ensures image == Some(dataUrl)
    {
      image := Some(dataUrl);
    }

    /** "Remove Image". */
    method RemoveImage()
      modifies this`image
      ensures image.None?
    {
      image := None;
    }

    /** Pressing "Donate Medicine": the guards, then the submitting flag goes up. */
    method Submit(auth: AuthValue) returns (outcome: SubmitOutcome)
      modifies this`isSubmitting
      ensures outcome == DonateSubmit(values, image, old(isSubmitting), auth)
      ensures isSubmitting <==> old(isSubmitting) || outcome == Submitting
    {
      if isSubmitting {
        outcome := ButtonDisabled;
      } else if !DonateFormValid(values) {
        outcome := InvalidForm;
      } else if !auth.isAuthenticated {
        outcome := AuthenticationRequired;
      } else if image.None? || image.value == "" {
        outcome := ImageRequired;
      } else {
        isSubmitting := true;
        outcome := Submitting;
      }
    }

    /** The simulated donation completes: the flag goes down and the page moves to the profile. */
    method CompleteSubmission() returns (destination: string)
      modifies this`isSubmitting
      ensures !isSubmitting && destination == ProfileRoute
    {
      isSubmitting := false;
      destination := ProfileRoute;
    }
  }

  /** A donation that is refused until an NGO is picked. */
  method DonationScenario()
  {
    var page := new DonatePage();
    var auth := ValueOf(AfterLogin(InitialSession(map[]), _ => "{}", Google, true).0);
    page.ImageLoaded("data:image/png;base64,AAAA");
    page.EnterDetails("Ibuprofen", "Advil", "2025-06-30", "12", None);
    var o := page.Submit(auth);
    assert o == InvalidForm;
    page.PickNgo(NgoOptions[4]);
    o := page.Submit(auth);
    assert o == Submitting && page.isSubmitting;
    var destination := page.CompleteSubmission();
    assert destination == "/profile";
  }
}
