/**
 * The form's request as the endpoint receives it, and the endpoint's envelope
 * as the form sees it: a response whose status is in 200..299 has `ok` set
 * (the Fetch standard's `Response.ok`).
 */
module ClientServer {
  import opened Wrappers
  import opened EmailPattern
  import Route
  import opened WaitlistPage

  /** `JSON.stringify({ email, consent })` parsed back by the endpoint. */
  function Deliver(request: RequestBody): (b: Route.Body)
    ensures b.Parsed? && b.email == Some(request.email) && b.consent == Some(request.consent)
  {
    Route.Parsed(Some(request.email), Some(request.consent))
  }

  /** `res.ok` for the endpoint's envelope. */
  function Receive(envelope: Route.Envelope): (outcome: FetchOutcome)
    ensures outcome.Response?
    ensures envelope.status == 200 ==> outcome.ok
    ensures envelope.status == 400 ==> !outcome.ok
  {
    Response(200 <= envelope.status < 300)
  }

  /** A press of the button whose request, if sent, is answered by the endpoint. */
  function Exchange(s: FormState): (r: (FormState, Option<RequestBody>))
    ensures Disabled(s) ==> r == (s, None)
    ensures !Disabled(s) && r.1.None? ==> r.0 == Begin(s).0
    ensures r.1.Some? <==> !Disabled(s) && s.email != "" && s.consent
    ensures r.1.Some? ==> r.1.value == RequestBody(s.email, s.consent) && !r.0.loading
    ensures r.1.Some? ==> (r.0.success <==> s.success || EmailShaped(s.email))
    ensures r.1.Some? && !EmailShaped(s.email) ==> r.0.error == JoinFailed
  {
    AfterPress(s, Receive(Route.Post(Deliver(RequestBody(s.email, s.consent)))))
  }

  /**
   * The form joins the waitlist exactly when the endpoint accepts its email;
   * an email that is only non-empty is turned away by the endpoint, and the
   * form then shows its own failure text, not the endpoint's "Invalid email".
   */
  lemma JoinsExactlyWhenAccepted(s: FormState)
    requires !s.loading && !s.success && s.email != "" && s.consent
    ensures Exchange(s).0.success <==> EmailShaped(s.email)
    ensures !EmailShaped(s.email) ==> Exchange(s).0.error == JoinFailed
    ensures EmailShaped(s.email) ==> Exchange(s).0.error == ""
    ensures !Exchange(s).0.loading
  {
  }
}
