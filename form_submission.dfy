/**
 * The submit sequence the sell and donate pages share: the submit button is
 * disabled while a submission runs, the form schema is checked before the
 * page's handler runs, and the handler then checks sign-in before the image
 * and only then starts submitting.
 */
module FormSubmission {
  import opened Wrappers

  /** What pressing the submit button leads to; the failing cases carry the toast or error shown. */
  datatype SubmitOutcome =
    | ButtonDisabled
    | InvalidForm
    | AuthenticationRequired
    | ImageRequired
    | Submitting

  /** Where the pages go when a simulated submission completes. */
  const ProfileRoute: string := "/profile"

  /** The messages of the rules both forms share. */
  const NameRequired: string := "Medicine name is required"
  const BrandRequired: string := "Brand name is required"
  const ExpiryRequired: string := "Expiry date is required"
  const QuantityRequired: string := "Quantity is required"

  /** No message occurs twice in `messages`. */
  predicate Distinct(messages: seq<string>) {
    forall i, j :: 0 <= i < j < |messages| ==> messages[i] != messages[j]
  }

  /**
   * What a schema reports: the message of every rule whose check failed, in
   * the order the rules are declared; `failed[k]` says whether rule `k`,
   * with message `messages[k]`, failed.
   */
  function Reported(failed: seq<bool>, messages: seq<string>): (errors: seq<string>)
    requires |failed| == |messages|
    ensures |errors| <= |messages|
    ensures forall x :: x in errors ==> x in messages
    ensures errors == [] <==> forall k :: 0 <= k < |failed| ==> !failed[k]
    decreases |messages|
  {
    if messages == [] then []
    else (if failed[0] then [messages[0]] else []) + Reported(failed[1..], messages[1..])
  }

  /** With distinct messages, a rule's message is reported exactly when its check failed. */
  lemma {:induction false} ReportedIff(failed: seq<bool>, messages: seq<string>)
    requires |failed| == |messages| && Distinct(messages)
    ensures forall k :: 0 <= k < |messages| ==> (messages[k] in Reported(failed, messages) <==> failed[k])
    decreases |messages|
  {
    if messages != [] {
      ReportedIff(failed[1..], messages[1..]);
      forall k | 0 <= k < |messages|
        ensures messages[k] in Reported(failed, messages) <==> failed[k]
      {
        if k > 0 {
          assert messages[1..][k - 1] == messages[k];
          assert failed[1..][k - 1] == failed[k];
        } else {
          assert messages[0] !in messages[1..];
        }
      }
    }
  }

  /** With distinct messages, no message is reported twice. */
  lemma {:induction false} ReportedDistinct(failed: seq<bool>, messages: seq<string>)
    requires |failed| == |messages| && Distinct(messages)
    ensures Distinct(Reported(failed, messages))
    decreases |messages|
  {
    if messages != [] {
      var rest := Reported(failed[1..], messages[1..]);
      ReportedDistinct(failed[1..], messages[1..]);
      assert messages[0] !in messages[1..];
      assert messages[0] !in rest;
    }
  }

  /** `if (!image)` read the other way round: no upload, or an empty one, is no image. */
  predicate HasImage(image: Option<string>)
    ensures HasImage(image) <==> image != None && image != Some("")
  {
    image.Some? && image.value != ""
  }

  /** The guards in order: disabled button, schema, sign-in, image. */
  function SubmitGuard(submitting: bool, formValid: bool, authenticated: bool, image: Option<string>): (o: SubmitOutcome)
    ensures o == ButtonDisabled <==> submitting
    ensures o == InvalidForm <==> !submitting && !formValid
    ensures o == AuthenticationRequired <==> !submitting && formValid && !authenticated
    ensures o == ImageRequired <==> !submitting && formValid && authenticated && !HasImage(image)
    ensures o == Submitting <==> !submitting && formValid && authenticated && HasImage(image)
  {
    if submitting then ButtonDisabled
    else if !formValid then InvalidForm
    else if !authenticated then AuthenticationRequired
    else if !HasImage(image) then ImageRequired
    else Submitting
  }

  /** The sign-in check comes first: a signed-out user is told so whatever the image. */
  lemma AuthCheckedBeforeImage(formValid: bool, image1: Option<string>, image2: Option<string>)
    requires formValid
    ensures SubmitGuard(false, formValid, false, image1) == SubmitGuard(false, formValid, false, image2)
            == AuthenticationRequired
  {
  }
}
