/**
 * The waitlist form's `submit` handler as a state machine over the flags
 * `email`, `consent`, `loading`, `success` and `error`.
 *
 * The handler runs in two parts around `await fetch(...)`: `Begin` (clear the
 * error, the two guards, set `loading`, send the request) and `Complete`
 * (interpret the outcome, the catch block, the finally block). `AfterSubmit` is
 * the whole handler and `AfterPress` is a press of the submit button, which is
 * disabled while `loading` holds. The class `WaitlistForm` holds the state and
 * updates it in place; its methods are proved against these functions.
 */
module WaitlistPage {
  import opened Wrappers

  datatype FormState = FormState(email: string, consent: bool, loading: bool, success: bool, error: string)

  /** The JSON body the handler posts. */
  datatype RequestBody = RequestBody(email: string, consent: bool)

  /** What `await fetch(...)` gives back: a response with its `ok` flag, or an exception. */
  datatype FetchOutcome = Response(ok: bool) | Threw(message: string)

  const EmailRequired := "Please enter a valid email."
  const ConsentRequired := "Please agree to receive updates."
  const JoinFailed := "Failed to join waitlist"
  const SomethingWentWrong := "Something went wrong."

  /** The state the page starts in. */
  const Initial := FormState("", false, false, false, "")

  /** The submit button is disabled exactly while a request is outstanding. */
  predicate Disabled(s: FormState) {
    s.loading
  }

  /** The text shown for a caught exception: its message, or the fallback when that is empty. */
  function ShownMessage(message: string): (m: string)
    ensures m != ""
    ensures message != "" ==> m == message
    ensures message == "" ==> m == SomethingWentWrong
  {
    if message != "" then message else SomethingWentWrong
  }

  /** The handler up to the request: returns the new state and the request sent, if any. */
  function Begin(s: FormState): (r: (FormState, Option<RequestBody>))
    ensures r.0.email == s.email && r.0.consent == s.consent && r.0.success == s.success
    ensures r.1.Some? <==> s.email != "" && s.consent
    ensures r.1.Some? ==> r.1.value == RequestBody(s.email, s.consent) && r.0.loading && r.0.error == ""
    ensures r.1.None? ==> r.0.loading == s.loading && r.0.error != ""
    ensures s.email == "" ==> r.0.error == EmailRequired
    ensures s.email != "" && !s.consent ==> r.0.error == ConsentRequired
  {
    var cleared := s.(error := "");
    if cleared.email == "" then
      (cleared.(error := EmailRequired), None)
    else if !cleared.consent then
      (cleared.(error := ConsentRequired), None)
    else
      (cleared.(loading := true), Some(RequestBody(cleared.email, cleared.consent)))
  }

  /** The handler after the request: the try, catch and finally blocks. */
  function Complete(s: FormState, outcome: FetchOutcome): (r: FormState)
    ensures r.email == s.email && r.consent == s.consent
    ensures !r.loading
    ensures outcome == Response(true) ==> r.success && r.error == s.error
    ensures outcome != Response(true) ==> r.success == s.success && r.error != ""
    ensures outcome == Response(false) ==> r.error == JoinFailed
    ensures outcome.Threw? && outcome.message != "" ==> r.error == outcome.message
    ensures outcome == Threw("") ==> r.error == SomethingWentWrong
  {
    var caught: Option<string> :=
      match outcome
      case Response(ok) => if ok then None else Some(JoinFailed)
      case Threw(message) => Some(message);
    var settled :=
      if caught.None? then s.(success := true)
      else s.(error := ShownMessage(caught.value));
    settled.(loading := false)
  }

  /** The whole `submit` handler, with `outcome` standing for the result of the request. */
  function AfterSubmit(s: FormState, outcome: FetchOutcome): (r: (FormState, Option<RequestBody>))
    ensures r.0.email == s.email && r.0.consent == s.consent
    ensures r.1 == Begin(s).1
    ensures r.1.Some? ==> !r.0.loading
    ensures r.1.Some? ==> r.0 == Complete(Begin(s).0, outcome)
    ensures r.1.None? ==> r.0 == Begin(s).0
  {
    var (started, request) := Begin(s);
    if request.Some? then (Complete(started, outcome), request) else (started, None)
  }

  /** A press of the submit button: nothing happens while it is disabled. */
  function AfterPress(s: FormState, outcome: FetchOutcome): (r: (FormState, Option<RequestBody>))
    ensures Disabled(s) ==> r == (s, None)
    ensures !Disabled(s) ==> r == AfterSubmit(s, outcome)
  {
    if Disabled(s) then (s, None) else AfterSubmit(s, outcome)
  }

  /** Whatever happened before, `submit` starts from an empty error. */
  lemma SubmitClearsError(s: FormState, outcome: FetchOutcome)
    ensures AfterSubmit(s, outcome).0 == AfterSubmit(s.(error := ""), outcome).0
    ensures AfterSubmit(s, outcome).1 == AfterSubmit(s.(error := ""), outcome).1
  {
  }

  /** An empty email is reported first, whatever the consent, and sends nothing. */
  lemma EmptyEmailTakesPrecedence(s: FormState, outcome: FetchOutcome)
    requires s.email == ""
    ensures AfterSubmit(s, outcome) == (s.(error := EmailRequired), None)
  {
  }

  /** A missing consent with an email present is reported and sends nothing. */
  lemma MissingConsentReported(s: FormState, outcome: FetchOutcome)
    requires s.email != "" && !s.consent
    ensures AfterSubmit(s, outcome) == (s.(error := ConsentRequired), None)
  {
  }

  /** Once both guards pass, the request carries the current email and consent and the form ends idle. */
  lemma GuardsPassed(s: FormState, outcome: FetchOutcome)
    requires s.email != "" && s.consent
    ensures AfterSubmit(s, outcome).1 == Some(RequestBody(s.email, true))
    ensures !AfterSubmit(s, outcome).0.loading
    ensures outcome == Response(true) ==> AfterSubmit(s, outcome).0.success && AfterSubmit(s, outcome).0.error == ""
    ensures outcome != Response(true) ==> AfterSubmit(s, outcome).0.success == s.success
    ensures outcome == Response(false) ==> AfterSubmit(s, outcome).0.error == JoinFailed
    ensures outcome.Threw? ==> AfterSubmit(s, outcome).0.error == ShownMessage(outcome.message)
  {
  }

  /** Between `Begin` and `Complete` the button is disabled, so no second request can start. */
  lemma NoSecondRequestWhileLoading(s: FormState, again: FetchOutcome)
    requires Begin(s).1.Some?
    ensures Disabled(Begin(s).0)
    ensures AfterPress(Begin(s).0, again) == (Begin(s).0, None)
  {
  }

  /** Starting from an idle form, the form is idle again after any press. */
  lemma PressKeepsIdle(s: FormState, outcome: FetchOutcome)
    requires !s.loading
    ensures !AfterPress(s, outcome).0.loading
  {
  }

  /** The page's state, updated in place by its event handlers. */
  class WaitlistForm {
    var email: string
    var consent: bool
    var loading: bool
    var success: bool
    var error: string

    function State(): FormState
      reads this
    {
      FormState(email, consent, loading, success, error)
    }

    constructor ()
      ensures State() == Initial
    {
      email, consent, loading, success, error := "", false, false, false, "";
    }

    /** The email input's `onChange`. */
    method ChangeEmail(value: string)
      modifies this
      ensures State() == old(State()).(email := value)
    {
      email := value;
    }

    /** The consent checkbox's `onChange`. */
    method ChangeConsent(checked: bool)
      modifies this
      ensures State() == old(State()).(consent := checked)
    {
      consent := checked;
    }

    /** `disabled={loading}` on the submit button. */
    function SubmitDisabled(): (d: bool)
      reads this
      ensures d <==> Disabled(State())
    {
      loading
    }

    /** `submit` up to `await fetch(...)`. */
    method BeginSubmit() returns (request: Option<RequestBody>)
      modifies this
      ensures (State(), request) == Begin(old(State()))
    {
      error := "";
      if email == "" {
        error := EmailRequired;
        return None;
      }
      if !consent {
        error := ConsentRequired;
        return None;
      }
      loading := true;
      request := Some(RequestBody(email, consent));
    }

    /** `submit` after `await fetch(...)`: the try, catch and finally blocks. */
    method CompleteSubmit(outcome: FetchOutcome)
      modifies this
      ensures State() == Complete(old(State()), outcome)
    {
      var caught: Option<string> := None;
      match outcome {
        case Response(ok) =>
          if !ok {
            caught := Some(JoinFailed);
          }
        case Threw(message) =>
          caught := Some(message);
      }
      if caught.None? {
        success := true;
      } else {
        error := ShownMessage(caught.value);
      }
      loading := false;
    }

    /** The whole `submit` handler. */
    method Submit(outcome: FetchOutcome) returns (request: Option<RequestBody>)
      modifies this
      ensures (State(), request) == AfterSubmit(old(State()), outcome)
    {
      request := BeginSubmit();
      if request.Some? {
        CompleteSubmit(outcome);
      }
    }

    /** A press of the submit button. */
    method Press(outcome: FetchOutcome) returns (request: Option<RequestBody>)
      modifies this
      ensures (State(), request) == AfterPress(old(State()), outcome)
    {
      if SubmitDisabled() {
        return None;
      }
      request := Submit(outcome);
    }
  }
}
