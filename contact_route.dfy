/**
 * The contact-form endpoint (app/api/contact/route.ts): it checks that the
 * four fields are present and that both addresses look like e-mail
 * addresses, then either records the message (no mail provider configured)
 * or hands it to the provider and reports the provider's answer. The
 * provider's answer is an input.
 */
module ContactRoute {

  import opened Wrappers
  import Text

  /** The JSON body: unreadable (with the parser's message), or its four
      fields, each missing when absent. */
  datatype ContactRequest =
    | MalformedBody(reason: string)
    | ContactBody(name: Option<string>, email: Option<string>, message: Option<string>,
                  recipientEmail: Option<string>)

  /** What the mail provider answers: delivered, an error object whose
      message may be missing, or an exception (with a message when it is an
      `Error`). */
  datatype SendOutcome = Delivered | ProviderError(message: Option<string>) | SendThrew(thrown: Option<string>)

  datatype ContactResponse =
    | Success(note: Option<string>)
    | Failure(status: nat, error: string, details: Option<string>)

  const NotConfiguredNote: string := "Email service not configured - message logged to console"
  const NotVerifiedMessage: string :=
    "Email recipient not verified. With Resend free tier, you can only send to your own email."
  const InvalidKeyMessage: string := "Invalid Resend API key"
  const SendFailedMessage: string := "Failed to send email"

  // ---------------------------------------------------------------- e-mail format

  /** No white space and no `@`: the class `[^\s@]`. */
  predicate IsAddressRun(s: string) {
    forall k :: 0 <= k < |s| ==> !Text.IsSpace(s[k]) && s[k] != '@'
  }

  /** The meaning of `/^[^\s@]+@[^\s@]+\.[^\s@]+$/`: a non-empty run, `@`, a
      non-empty run, a dot, a non-empty run, and nothing else. */
  ghost predicate MatchesEmailPattern(s: string) {
    exists i, j :: 0 < i && i + 1 < j && j + 1 < |s| && s[i] == '@' && s[j] == '.'
      && IsAddressRun(s[..i]) && IsAddressRun(s[i + 1..j]) && IsAddressRun(s[j + 1..])
  }

  /** A dot that is neither the first nor the last character. */
  predicate HasInnerDot(d: string) {
    exists j :: 0 < j < |d| - 1 && d[j] == '.'
  }

  /** The computable check: no white space, exactly one `@`, something
      before it, and a dot strictly inside what follows it. */
  predicate IsEmailShape(s: string) {
    var parts := Text.Split(s, '@');
    Text.NoSpace(s) && |parts| == 2 && parts[0] != "" && HasInnerDot(parts[1])
  }

  /** The computable check accepts exactly what the pattern matches. */
  lemma EmailShapeIsPattern(s: string)
    ensures IsEmailShape(s) <==> MatchesEmailPattern(s)
  {
    if IsEmailShape(s) {
      ShapeMatchesPattern(s);
    }
    if MatchesEmailPattern(s) {
      var i, j :| 0 < i && i + 1 < j && j + 1 < |s| && s[i] == '@' && s[j] == '.'
        && IsAddressRun(s[..i]) && IsAddressRun(s[i + 1..j]) && IsAddressRun(s[j + 1..]);
      PatternHasShape(s, i, j);
    }
  }

  lemma ShapeMatchesPattern(s: string)
    requires IsEmailShape(s)
    ensures MatchesEmailPattern(s)
  {
    var parts := Text.Split(s, '@');
    var a, d := parts[0], parts[1];
    Text.JoinSplit(s, '@');
    assert parts[1..] == [d];
    assert s == a + "@" + d;
    var jd :| 0 < jd < |d| - 1 && d[jd] == '.';
    var i, j := |a|, |a| + 1 + jd;
    forall k | 0 <= k < |s| && k != i ensures s[k] != '@' && !Text.IsSpace(s[k]) {
      if k < i { assert s[k] == a[k]; } else { assert s[k] == d[k - i - 1]; }
    }
    assert IsAddressRun(s[..i]);
    assert IsAddressRun(s[i + 1..j]);
    assert IsAddressRun(s[j + 1..]);
    assert s[i] == '@' && s[j] == '.';
  }

  lemma PatternHasShape(s: string, i: int, j: int)
    requires 0 < i && i + 1 < j && j + 1 < |s| && s[i] == '@' && s[j] == '.'
    requires IsAddressRun(s[..i]) && IsAddressRun(s[i + 1..j]) && IsAddressRun(s[j + 1..])
    ensures IsEmailShape(s)
  {
    var a, d := s[..i], s[i + 1..];
    forall k | 0 <= k < |s| && k != i ensures s[k] != '@' || k == j {
      if k < i { assert s[k] == s[..i][k]; }
      else if i < k < j { assert s[k] == s[i + 1..j][k - i - 1]; }
      else if j < k { assert s[k] == s[j + 1..][k - j - 1]; }
    }
    forall k | 0 <= k < |s| ensures !Text.IsSpace(s[k]) {
      if k < i { assert s[k] == s[..i][k]; }
      else if i < k < j { assert s[k] == s[i + 1..j][k - i - 1]; }
      else if j < k { assert s[k] == s[j + 1..][k - j - 1]; }
    }
    assert '@' !in a by {
      forall k | 0 <= k < |a| ensures a[k] != '@' { assert a[k] == s[k]; }
    }
    assert '@' !in d by {
      forall k | 0 <= k < |d| ensures d[k] != '@' { assert d[k] == s[k + i + 1]; }
    }
    assert s == a + ['@'] + d;
    Text.SplitAfterFirst(a, '@', d);
    Text.SplitWithoutSeparator(d, '@');
    assert Text.Split(s, '@') == [a, d];
    assert d[j - i - 1] == '.';
  }

  // ---------------------------------------------------------------- the handler

  /** The 500 message for a provider error: a message mentioning `verify`
      wins over one mentioning `API key`; anything else, a missing message
      included, is a generic failure. */
  function ProviderErrorMessage(message: Option<string>): (m: string)
    ensures message.Some? && Text.Contains(message.value, "verify") ==> m == NotVerifiedMessage
    ensures message.Some? && !Text.Contains(message.value, "verify") && Text.Contains(message.value, "API key")
      ==> m == InvalidKeyMessage
    ensures (message.None? || (!Text.Contains(message.value, "verify") && !Text.Contains(message.value, "API key")))
      ==> m == SendFailedMessage
  {
    match message
    case None => SendFailedMessage
    case Some(text) =>
      if Text.Contains(text, "verify") then NotVerifiedMessage
      else if Text.Contains(text, "API key") then InvalidKeyMessage
      else SendFailedMessage
  }

  /** `POST`, with `keyConfigured` for `RESEND_API_KEY` and `send` for what
      the provider would answer. */
  function Post(req: ContactRequest, keyConfigured: bool, send: SendOutcome): (r: ContactResponse)
    ensures req.MalformedBody? ==> r == Failure(500, "Internal server error", Some(req.reason))
    ensures req.ContactBody? ==> (
      var ready := Text.Truthy(req.name) && Text.Truthy(req.email) && Text.Truthy(req.message)
        && Text.Truthy(req.recipientEmail);
      && (!ready ==> r == Failure(400, "Missing required fields", None))
      && (ready && !(IsEmailShape(req.email.value) && IsEmailShape(req.recipientEmail.value))
          ==> r == Failure(400, "Invalid email format", None))
      && (ready && IsEmailShape(req.email.value) && IsEmailShape(req.recipientEmail.value) ==> (
          && (!keyConfigured ==> r == Success(Some(NotConfiguredNote)))
          && (keyConfigured && send.Delivered? ==> r == Success(None))
          && (keyConfigured && send.ProviderError? ==> r == Failure(500, ProviderErrorMessage(send.message), send.message))
          && (keyConfigured && send.SendThrew? ==>
                r == Failure(500, "Internal server error", Some(send.thrown.GetOr("Unknown error")))))))
    ensures r.Success? ==>
      && req.ContactBody? && Text.Truthy(req.name) && Text.Truthy(req.message)
      && Text.Truthy(req.email) && IsEmailShape(req.email.value)
      && Text.Truthy(req.recipientEmail) && IsEmailShape(req.recipientEmail.value)
  {
    match req
    case MalformedBody(reason) => Failure(500, "Internal server error", Some(reason))
    case ContactBody(name, email, message, recipientEmail) =>
      if !Text.Truthy(name) || !Text.Truthy(email) || !Text.Truthy(message) || !Text.Truthy(recipientEmail) then
        Failure(400, "Missing required fields", None)
      else if !IsEmailShape(email.value) || !IsEmailShape(recipientEmail.value) then
        Failure(400, "Invalid email format", None)
      else if !keyConfigured then
        Success(Some(NotConfiguredNote))
      else
        match send
        case Delivered => Success(None)
        case ProviderError(text) => Failure(500, ProviderErrorMessage(text), text)
        case SendThrew(thrown) => Failure(500, "Internal server error", Some(thrown.GetOr("Unknown error")))
  }

  /** A request turned away by validation, or answered without a provider,
      gets the same response whatever the provider would have done: nothing
      is sent before the checks pass and the key is present. */
  lemma NoSendBeforeChecks(req: ContactRequest, keyConfigured: bool, s1: SendOutcome, s2: SendOutcome)
    requires Post(req, keyConfigured, s1) != Post(req, keyConfigured, s2)
    ensures req.ContactBody? && keyConfigured
    ensures Text.Truthy(req.name) && Text.Truthy(req.email) && Text.Truthy(req.message)
    ensures Text.Truthy(req.recipientEmail)
    ensures MatchesEmailPattern(req.email.value) && MatchesEmailPattern(req.recipientEmail.value)
  {
    EmailShapeIsPattern(req.email.value);
    EmailShapeIsPattern(req.recipientEmail.value);
  }
}
