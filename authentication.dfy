/**
 * The error handling of `authenticate`: the identity provider's `signIn` call
 * either completes or throws; a thrown error whose message mentions
 * `CredentialsSignin` becomes the code `CredentialSignin`, every other one is
 * thrown on.
 */
module Authentication {
  import opened Wrappers
  import opened JsString

  /** A value `signIn` throws; `message` is `None` when it carries no string `message` property. */
  datatype Thrown = Thrown(name: string, message: Option<string>)

  /** How the `signIn` call ends. */
  datatype SignInOutcome = SignedIn | Threw(error: Thrown)

  /** How `authenticate` ends. */
  datatype AuthenticateOutcome =
    | ReturnsNothing                 // `signIn` completed: the function returns `undefined`
    | Returns(code: string)          // a recognised failure, reported to the form
    | Rethrows(error: Thrown)        // any other failure, thrown on unchanged
    | ThrowsTypeError                // `.includes` called on a missing message

  const CredentialsMarker := "CredentialsSignin"
  const CredentialsCode := "CredentialSignin"

  /** The `catch` block of `authenticate`, applied to what `signIn` threw. */
  function ClassifySignInError(e: Thrown): (r: AuthenticateOutcome)
    ensures r == Returns(CredentialsCode) <==> e.message.Some? && (exists i :: OccursAt(e.message.value, CredentialsMarker, i))
    ensures r.Rethrows? <==> e.message.Some? && (forall i :: !OccursAt(e.message.value, CredentialsMarker, i))
    ensures r.Rethrows? ==> r.error == e
    ensures r == ThrowsTypeError <==> e.message.None?
  {
    match e.message
    case None => ThrowsTypeError
    case Some(m) => if Contains(m, CredentialsMarker) then Returns(CredentialsCode) else Rethrows(e)
  }

  /** `authenticate`: sign in, and classify the failure if there is one. */
  function Authenticate(signIn: SignInOutcome): (r: AuthenticateOutcome)
    ensures r.ReturnsNothing? <==> signIn.SignedIn?
    ensures signIn.Threw? ==> r == ClassifySignInError(signIn.error)
  {
    match signIn
    case SignedIn => ReturnsNothing
    case Threw(e) => ClassifySignInError(e)
  }

  /** A message with the marker anywhere in it is reported as `CredentialSignin`. */
  lemma MarkerAnywhereIsCredentialSignin(name: string, before: string, after: string)
    ensures Authenticate(Threw(Thrown(name, Some(before + CredentialsMarker + after)))) == Returns(CredentialsCode)
  {
    ContainsInside(before, CredentialsMarker, after);
  }

  /** The only code `authenticate` ever returns is `CredentialSignin`. */
  lemma OnlyCredentialCodeReturned(signIn: SignInOutcome)
    ensures Authenticate(signIn).Returns? ==> Authenticate(signIn).code == CredentialsCode
  {
  }

  /** A message that is too short to hold the marker is thrown on unchanged. */
  lemma ShortMessageRethrown(e: Thrown)
    requires e.message.Some? && |e.message.value| < |CredentialsMarker|
    ensures Authenticate(Threw(e)) == Rethrows(e)
  {
  }
}
