/**
 * components/Newsletter.tsx: the newsletter sign-up form. A submit first
 * validates the typed email, then shows a loading state while the request
 * runs, and on success replaces the form by a thank-you view for good.
 * The request's outcome is a parameter; toasts and the console are left out.
 */
module NewsletterForm {

  /** What the two checks of `handleSubmit` decide about an email. */
  datatype Validation =
    | EmptyEmail    // `!email`: "Wprowadź adres email"
    | MissingAt     // `!email.includes('@')`: "Wprowadź poprawny adres email"
    | Accepted

  /** The checks in their order: emptiness first, then the `'@'`. */
  function Validate(email: string): (r: Validation)
    ensures r == EmptyEmail <==> email == ""
    ensures r == MissingAt <==> email != "" && '@' !in email
    ensures r == Accepted <==> email != "" && '@' in email
  {
    if email == "" then EmptyEmail
    else if '@' !in email then MissingAt
    else Accepted
  }

  /** Which of the two views renders. */
  datatype View = FormView | ThankYouView

  /** The form's state: `email`, `isLoading` and `isSubscribed`. */
  class Form {
    var email: string
    var isLoading: bool
    var isSubscribed: bool

    /** A request only runs for an accepted email, and never after the thank-you view appeared. */
    ghost predicate Valid()
      reads this
    {
      isLoading ==> Validate(email) == Accepted && !isSubscribed
    }

    /** `useState('')`, `useState(false)`, `useState(false)`. */
    constructor()
      ensures Valid()
      ensures email == "" && !isLoading && !isSubscribed
    {
      email := "";
      isLoading := false;
      isSubscribed := false;
    }

    /** The input's `onChange`; the input is disabled while loading and gone once subscribed. */
    method Type(value: string)
      requires Valid() && !isLoading && !isSubscribed
      modifies this
      ensures Valid()
      ensures email == value && !isLoading && !isSubscribed
    {
      email := value;
    }

    /**
     * The synchronous part of `handleSubmit`: a rejected email changes
     * nothing; an accepted one sets `isLoading`. The form is only there
     * before subscribing, and cannot be submitted while loading.
     */
    method BeginSubmit() returns (v: Validation)
      requires Valid() && !isLoading && !isSubscribed
      modifies this
      ensures Valid()
      ensures v == Validate(email)
      ensures v != Accepted ==> !isLoading
      ensures v == Accepted ==> isLoading
      ensures email == old(email) && isSubscribed == old(isSubscribed)
    {
      if email == "" {
        return EmptyEmail;
      }
      if '@' !in email {
        return MissingAt;
      }
      isLoading := true;
      v := Accepted;
    }

    /**
     * The request settling: on success `setIsSubscribed(true)` and
     * `setEmail('')`; either way `finally` clears `isLoading`.
     */
    method Settle(succeeded: bool)
      requires Valid() && isLoading
      modifies this
      ensures Valid()
      ensures !isLoading
      ensures succeeded ==> isSubscribed && email == ""
      ensures !succeeded ==> isSubscribed == old(isSubscribed) && email == old(email)
    {
      if succeeded {
        isSubscribed := true;
        email := "";
      }
      isLoading := false;
    }

    /** A whole `handleSubmit`, the request ending as `succeeded` says. */
    method HandleSubmit(succeeded: bool) returns (v: Validation)
      requires Valid() && !isLoading && !isSubscribed
      modifies this
      ensures Valid()
      ensures v == Validate(old(email))
      ensures !isLoading
      ensures v != Accepted ==> email == old(email) && !isSubscribed
      ensures v == Accepted && succeeded ==> isSubscribed && email == ""
      ensures v == Accepted && !succeeded ==> !isSubscribed && email == old(email)
    {
      v := BeginSubmit();
      if v == Accepted {
        Settle(succeeded);
      }
    }

    /** `disabled={isLoading || !email}` on the submit button. */
    predicate SubmitDisabled()
      reads this
    {
      isLoading || email == ""
    }

    /** The thank-you view replaces the form once subscribed. */
    function CurrentView(): (r: View)
      reads this
      ensures r == ThankYouView <==> isSubscribed
    {
      if isSubscribed then ThankYouView else FormView
    }
  }

  /**
   * The submit button is enabled exactly when no request runs and the email
   * passes the first check of `handleSubmit`; while a request runs it is disabled.
   */
  lemma EnabledButtonMeansReady(f: Form)
    requires f.Valid()
    ensures !f.SubmitDisabled() <==> !f.isLoading && Validate(f.email) != EmptyEmail
    ensures f.isLoading ==> f.SubmitDisabled()
  {
  }
}
