/**
 * The waitlist endpoint: `POST` checks the shape of `email` and answers with
 * an envelope `{ok, error?}`; any exception becomes a 400 envelope carrying
 * its message; `GET` is a constant health answer. Nothing is stored.
 */
module Route {
  import opened Wrappers
  import opened EmailPattern

  /**
   * What `await req.json()` and the destructuring of `email` and `consent`
   * produce: either they throw (with a message, or without one), or they
   * yield the two fields, each possibly absent.
   */
  datatype Body =
    | ParseFailed(message: Option<string>)
    | Parsed(email: Option<string>, consent: Option<bool>)

  /** The JSON response: HTTP status, `ok`, and `error` when present. */
  datatype Envelope = Envelope(status: int, ok: bool, error: Option<string>)

  const InvalidEmail := "Invalid email"
  const BadRequest := "Bad Request"

  /** `!email`: JavaScript's falsiness of an absent or empty string. */
  predicate Falsy(email: Option<string>) {
    email.None? || email.value == ""
  }

  /** The `POST` handler. */
  function Post(body: Body): (r: Envelope)
    ensures r.status == 200 || r.status == 400
    ensures r.ok <==> r.status == 200
    ensures r.ok <==> r.error.None?
    ensures body.Parsed? ==> (r.ok <==> body.email.Some? && EmailShaped(body.email.value))
    ensures body.Parsed? && !r.ok ==> r.error == Some(InvalidEmail)
    ensures body.ParseFailed? ==> !r.ok && r.error == Some(body.message.GetOr(BadRequest))
  {
    match body
    case ParseFailed(message) =>
      Envelope(400, false, Some(message.GetOr(BadRequest)))
    case Parsed(email, _) =>
      if Falsy(email) || !Matches(email.value) then
        Envelope(400, false, Some(InvalidEmail))
      else
        Envelope(200, true, None)
  }

  /** The `GET` handler. */
  function Get(): (r: Envelope)
    ensures r.ok && r.status == 200 && r.error.None?
  {
    Envelope(200, true, None)
  }

  /** `consent` is read from the body but never decides anything. */
  lemma PostIgnoresConsent(email: Option<string>, c1: Option<bool>, c2: Option<bool>)
    ensures Post(Parsed(email, c1)) == Post(Parsed(email, c2))
  {
  }

  /** A missing or empty email is an invalid email, whatever the consent. */
  lemma MissingEmailRejected(email: Option<string>, consent: Option<bool>)
    requires Falsy(email)
    ensures Post(Parsed(email, consent)) == Envelope(400, false, Some(InvalidEmail))
  {
  }

  /** The explicit emptiness test is subsumed by the pattern. */
  lemma EmptyEmailFailsPattern()
    ensures !Matches("")
  {
  }

  /** An email accepted with consent withheld is still accepted. */
  lemma AcceptedWithoutConsent(local: string, domain: string, tld: string)
    requires |local| >= 1 && |domain| >= 1 && |tld| >= 1
    requires NoWhitespace(local) && NoWhitespace(domain) && NoWhitespace(tld)
    ensures Post(Parsed(Some(local + "@" + domain + "." + tld), Some(false))) == Envelope(200, true, None)
  {
    Composed(local, domain, tld);
  }

  /** `{"email": "a@b.co", "consent": true}` is accepted. */
  lemma ScenarioAccepted()
    ensures Post(Parsed(Some("a@b.co"), Some(true))) == Envelope(200, true, None)
  {
    Composed("a", "b", "co");
    assert "a" + "@" + "b" + "." + "co" == "a@b.co";
  }

  /** `{"email": "not-an-email", "consent": true}` is an invalid email. */
  lemma ScenarioRejected()
    ensures Post(Parsed(Some("not-an-email"), Some(true))) == Envelope(400, false, Some(InvalidEmail))
  {
  }
}
