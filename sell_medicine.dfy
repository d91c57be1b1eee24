/**
 * The page for listing a medicine for sale: the field rules of its form,
 * the default email, the image and verification-document uploads, and the
 * submit guards. Whether a text is a well-formed email is a parameter
 * `isEmail` (the schema library's own check).
 */
module SellMedicine {
  import opened Wrappers
  import opened AuthContext
  import opened FormSubmission
  import opened Text

  /** The field values the form hands to its submit handler. */
  datatype SellForm = SellForm(
    medicineName: string,
    brand: string,
    expiryDate: string,
    quantity: string,
    price: string,
    description: Option<string>,
    address: string,
    phone: string,
    email: string)

  /** The form schema: minimum lengths, a well-formed email, and no rule for the description. */
  predicate SellFormValid(f: SellForm, isEmail: string -> bool)
    ensures SellFormValid(f, isEmail) ==>
              && f.medicineName != "" && f.brand != "" && f.expiryDate != "" && f.quantity != ""
              && f.price != "" && f.address != "" && f.phone != ""
    ensures SellFormValid(f, isEmail) ==> isEmail(f.email)
  {
    && Utf16Length(f.medicineName) >= 3
    && Utf16Length(f.brand) >= 2
    && Utf16Length(f.expiryDate) >= 1
    && Utf16Length(f.quantity) >= 1
    && Utf16Length(f.price) >= 1
    && Utf16Length(f.address) >= 5
    && Utf16Length(f.phone) >= 10
    && isEmail(f.email)
  }

  /** The messages of the rules only this form has. */
  const PriceRequired: string := "Price is required"
  const AddressRequired: string := "Address is required"
  const PhoneRequired: string := "Valid phone number is required"
  const EmailRequired: string := "Valid email is required"

  /** The eight messages, in the order the fields are declared. */
  const SellMessages: seq<string> := [
    NameRequired, BrandRequired, ExpiryRequired, QuantityRequired,
    PriceRequired, AddressRequired, PhoneRequired, EmailRequired]

  /** No two rules share a message: the first letters differ, and so do the two "Valid" ones. */
  lemma SellMessagesDistinct()
    ensures Distinct(SellMessages)
  {
    assert SellMessages[6][6] != SellMessages[7][6];
    forall i, j | 0 <= i < j < |SellMessages| ensures SellMessages[i] != SellMessages[j] {
      if j < 7 || i < 6 {
        assert SellMessages[i][0] != SellMessages[j][0];
      }
    }
  }

  /** One message per field that breaks its rule, in the order the fields are declared. */
  function SellErrors(f: SellForm, isEmail: string -> bool): (errors: seq<string>)
    ensures (NameRequired in errors) <==> Utf16Length(f.medicineName) < 3
    ensures (BrandRequired in errors) <==> Utf16Length(f.brand) < 2
    ensures (ExpiryRequired in errors) <==> Utf16Length(f.expiryDate) < 1
    ensures (QuantityRequired in errors) <==> Utf16Length(f.quantity) < 1
    ensures (PriceRequired in errors) <==> Utf16Length(f.price) < 1
    ensures (AddressRequired in errors) <==> Utf16Length(f.address) < 5
    ensures (PhoneRequired in errors) <==> Utf16Length(f.phone) < 10
    ensures (EmailRequired in errors) <==> !isEmail(f.email)
    ensures Distinct(errors) && |errors| <= 8
  {
    var failed := [
      Utf16Length(f.medicineName) < 3, Utf16Length(f.brand) < 2,
      Utf16Length(f.expiryDate) < 1, Utf16Length(f.quantity) < 1,
      Utf16Length(f.price) < 1, Utf16Length(f.address) < 5,
      Utf16Length(f.phone) < 10, !isEmail(f.email)];
    SellMessagesDistinct();
    ReportedIff(failed, SellMessages);
    ReportedDistinct(failed, SellMessages);
    assert && SellMessages[0] == NameRequired && SellMessages[1] == BrandRequired
           && SellMessages[2] == ExpiryRequired && SellMessages[3] == QuantityRequired
           && SellMessages[4] == PriceRequired && SellMessages[5] == AddressRequired
           && SellMessages[6] == PhoneRequired && SellMessages[7] == EmailRequired;
    Reported(failed, SellMessages)
  }

  /** The form is accepted exactly when no field reports an error. */
  lemma SellValidIffNoErrors(f: SellForm, isEmail: string -> bool)
    ensures SellFormValid(f, isEmail) <==> SellErrors(f, isEmail) == []
  {
  }

  /** The description takes part in no rule. */
  lemma DescriptionUnconstrained(f: SellForm, isEmail: string -> bool, d: Option<string>)
    ensures SellFormValid(f.(description := d), isEmail) == SellFormValid(f, isEmail)
  {
  }

  /** Quantity and price are only required to be non-empty: words and negative numbers pass. */
  lemma QuantityAndPriceNotNumeric(isEmail: string -> bool)
    requires isEmail("seller@example.com")
    ensures SellFormValid(SellForm("Aspirin", "Bayer", "2025-01-01", "many", "-3", None,
                                   "1 Main St", "5551234567", "seller@example.com"), isEmail)
  {
  }

  /** `user?.email || ""`: the signed-in user's email, or empty text. */
  function DefaultEmail(user: Option<User>): (email: string)
    ensures user.None? ==> email == ""
    ensures user.Some? ==> email == user.value.email
  {
    if user.Some? then user.value.email else ""
  }

  /** After a login the email field starts as the mock user's address. */
  lemma DefaultEmailAfterLogin(s: Session, serialize: User -> string, writeOk: bool)
    ensures DefaultEmail(AfterLogin(s, serialize, Google, writeOk).0.user) == "john.doe@example.com"
  {
  }

  /** The page state the submit handler reads. */
  datatype SellState = SellState(image: Option<string>, document: Option<string>, isSubmitting: bool)

  /** Pressing "List Medicine" in state `s` with the typed values `f`. */
  function SellSubmit(s: SellState, f: SellForm, isEmail: string -> bool, auth: AuthValue): (o: SubmitOutcome)
    ensures o == Submitting <==>
              !s.isSubmitting && SellFormValid(f, isEmail) && auth.isAuthenticated && HasImage(s.image)
  {
    SubmitGuard(s.isSubmitting, SellFormValid(f, isEmail), auth.isAuthenticated, s.image)
  }

  /** The verification document is optional: adding or removing it never changes the outcome. */
  lemma DocumentNeverBlocks(s: SellState, f: SellForm, isEmail: string -> bool, auth: AuthValue, d: Option<string>)
    ensures SellSubmit(s.(document := d), f, isEmail, auth) == SellSubmit(s, f, isEmail, auth)
  {
  }

  /** A signed-out user is told to sign in before being told about the image. */
  lemma SignedOutSellerMustSignIn(s: SellState, f: SellForm, isEmail: string -> bool, auth: AuthValue)
    requires !s.isSubmitting && SellFormValid(f, isEmail) && !auth.isAuthenticated
    ensures SellSubmit(s, f, isEmail, auth) == AuthenticationRequired
    ensures SellSubmit(s.(image := None), f, isEmail, auth) == AuthenticationRequired
  {
  }

  /** The page component: its upload and submitting state. */
  class SellPage {
    var image: Option<string>
    var document: Option<string>
    var isSubmitting: bool

    /** The state the handlers read. */
    function State(): SellState
      reads this
    {
      SellState(image, document, isSubmitting)
    }

    /** Nothing uploaded, not submitting. */
    constructor()
      ensures State() == SellState(None, None, false)
    {
      image := None;
      document := None;
      isSubmitting := false;
    }

    /** The image reader finished with the data URL `dataUrl`. */
    method ImageLoaded(dataUrl: string)
      modifies this`image
      ensures image == Some(dataUrl)
    {
      image := Some(dataUrl);
    }

    /** "Remove Image". */
    method RemoveImage()
      modifies this`image
      ensures image.None?
    {
      image := None;
    }

    /** The document reader finished with the data URL `dataUrl`. */
    method DocumentLoaded(dataUrl: string)
      modifies this`document
      ensures document == Some(dataUrl)
    {
      document := Some(dataUrl);
    }

    /** "Remove Document". */
    method RemoveDocument()
      modifies this`document
      ensures document.None?
    {
      document := None;
    }

    /** Pressing "List Medicine": the guards, then the submitting flag goes up. */
    method Submit(f: SellForm, isEmail: string -> bool, auth: AuthValue) returns (outcome: SubmitOutcome)
      modifies this`isSubmitting
      ensures outcome == SellSubmit(old(State()), f, isEmail, auth)
      ensures isSubmitting <==> old(isSubmitting) || outcome == Submitting
    {
      if isSubmitting {
        outcome := ButtonDisabled;
      } else if !SellFormValid(f, isEmail) {
        outcome := InvalidForm;
      } else if !auth.isAuthenticated {
        outcome := AuthenticationRequired;
      } else if image.None? || image.value == "" {
        outcome := ImageRequired;
      } else {
        isSubmitting := true;
        outcome := Submitting;
      }
    }

    /** The simulated upload completes: the flag goes down and the page moves to the profile. */
    method CompleteSubmission() returns (destination: string)
      modifies this`isSubmitting
      ensures !isSubmitting && destination == ProfileRoute
    {
      isSubmitting := false;
      destination := ProfileRoute;
    }
  }

  /** The listing of the scenario below, filled in by the mock user. */
  const SampleListing: SellForm := SellForm("Aspirin", "Bayer", "2025-01-01", "10", "4.50", None,
                                            "1 Main St", "5551234567", "john.doe@example.com")

  /** The sample listing meets every rule of the schema. */
  lemma SampleListingValid(isEmail: string -> bool)
    requires isEmail("john.doe@example.com")
    ensures SellFormValid(SampleListing, isEmail)
  {
    var f := SampleListing;
    assert |f.medicineName| == 7 && |f.brand| == 5 && |f.address| == 9 && |f.phone| == 10;
  }

  /**
   * The name's minimum counts UTF-16 code units: two pill emoji, two
   * characters, pass the three-unit rule.
   */
  lemma TwoPillNamePasses(isEmail: string -> bool)
    requires isEmail("john.doe@example.com")
    ensures |"\U{1F48A}\U{1F48A}"| < 3
    ensures SellFormValid(SampleListing.(medicineName := "\U{1F48A}\U{1F48A}"), isEmail)
  {
    TwoPillsAreFourUnits();
    SampleListingValid(isEmail);
  }

  /**
   * Once an image is attached, a signed-in seller lists a valid medicine
   * (such as `SampleListing`) under the default email and lands on the profile.
   */
  method ListingScenario(isEmail: string -> bool, f: SellForm)
    requires SellFormValid(f, isEmail) && f.email == "john.doe@example.com"
  {
    var page := new SellPage();
    var auth := ValueOf(AfterLogin(InitialSession(map[]), _ => "{}", Google, true).0);
    assert f.email == DefaultEmail(auth.user);
    var o := page.Submit(f, isEmail, auth);
    assert o == ImageRequired && !page.isSubmitting;
    page.ImageLoaded("data:image/png;base64,AAAA");
    o := page.Submit(f, isEmail, auth);
    assert o == Submitting && page.isSubmitting;
    o := page.Submit(f, isEmail, auth);
    assert o == ButtonDisabled;
    var destination := page.CompleteSubmission();
    assert destination == "/profile" && !page.isSubmitting;
  }
}
