/**
 * Account creation and sign-in (src/lib/auth.ts): the connection code, the
 * record written for a new user, and the translation of the identity
 * provider's error codes into the messages shown to the user.
 *
 * The `Math.random()` draws become an input sequence of picks, each already
 * scaled to an index of the alphabet; the provider's verdict on a sign-up
 * or a sign-in becomes an input error code.
 */
module Auth {
  import opened Types
  import opened Db

  /** The alphabet of connection codes. */
  const CodeChars: string := "ABCDEFGHIJKLMNOPQRSTUVWXYZ0123456789"

  const DefaultCodeLength: nat := 6

  /** One draw `Math.floor(Math.random() * chars.length)`: an index into the alphabet. */
  type Pick = i: int | 0 <= i < 36

  predicate IsCodeChar(c: char)
  {
    'A' <= c <= 'Z' || '0' <= c <= '9'
  }

  lemma CodeCharsAreCodeChars()
    ensures |CodeChars| == 36
    ensures forall k :: 0 <= k < |CodeChars| ==> IsCodeChar(CodeChars[k])
  {
  }

  /**
   * `generateConnectionCode(length = 6)`: one character per draw, the i-th
   * being the alphabet's character at the i-th pick. Nothing makes the
   * code unique.
   */
  method GenerateConnectionCode(picks: seq<Pick>, length: nat := DefaultCodeLength) returns (code: string)
    requires |picks| == length
    ensures |code| == length
    ensures forall i :: 0 <= i < length ==> code[i] == CodeChars[picks[i]]
    ensures forall i :: 0 <= i < length ==> IsCodeChar(code[i])
  {
    CodeCharsAreCodeChars();
    code := "";
    var i := 0;
    while i < length
      invariant 0 <= i <= length
      invariant |code| == i
      invariant forall k :: 0 <= k < i ==> code[k] == CodeChars[picks[k]]
    {
      code := code + [CodeChars[picks[i]]];
      i := i + 1;
    }
  }

  /** Every code of the alphabet can be drawn: each string of code characters is some sequence of picks. */
  lemma {:induction false} EveryCodeDrawable(code: string)
    requires forall i :: 0 <= i < |code| ==> IsCodeChar(code[i])
    ensures exists picks: seq<Pick> :: |picks| == |code|
              && forall i :: 0 <= i < |code| ==> CodeChars[picks[i]] == code[i]
  {
    if code == [] {
      var none: seq<Pick> := [];
      assert |none| == 0;
    } else {
      EveryCodeDrawable(code[1..]);
      var rest: seq<Pick> :| |rest| == |code[1..]|
        && forall i :: 0 <= i < |code[1..]| ==> CodeChars[rest[i]] == code[1..][i];
      var c := code[0];
      var p: Pick := if 'A' <= c <= 'Z' then c as int - 'A' as int else 26 + (c as int - '0' as int);
      assert CodeChars[p] == c;
      var picks := [p] + rest;
      forall i | 0 <= i < |code|
        ensures CodeChars[picks[i]] == code[i]
      {
        if i > 0 {
          assert picks[i] == rest[i - 1];
          assert code[1..][i - 1] == code[i];
        }
      }
      assert |picks| == |code|;
    }
  }

  // ---------------------------------------------------------------------
  // Sign-up

  const EmailInUseMessage: string := "Cette adresse e-mail est déjà utilisée."
  const WeakPasswordMessage: string := "Le mot de passe doit contenir au moins 6 caractères."
  const SignUpFailedMessage: string := "Impossible de créer le compte."

  /** The message `createUser` throws for a provider error code. */
  function CreateUserMessage(code: string): (m: string)
    ensures m == EmailInUseMessage <==> code == "auth/email-already-in-use"
    ensures m == WeakPasswordMessage <==> code == "auth/weak-password"
    ensures m == SignUpFailedMessage <==> code != "auth/email-already-in-use" && code != "auth/weak-password"
  {
    if code == "auth/email-already-in-use" then EmailInUseMessage
    else if code == "auth/weak-password" then WeakPasswordMessage
    else SignUpFailedMessage
  }

  /**
   * The document `createUser` writes: exactly a name, an email, a
   * connection code and a creation time; no plan and no counters.
   */
  function NewUserDoc(name: string, email: string, code: string, now: int): UserDoc
  {
    UserDoc(None, Some(name), Some(email), None, None, None, Some(code), Some(now))
  }

  /** A freshly created user reads as a free plan with no donations and no contacts. */
  lemma NewUserIsFreeAndFresh(name: string, email: string, code: string, now: int)
    ensures PlanOrFree(NewUserDoc(name, email, code, now).plan) == Free
    ensures CountOrZero(NewUserDoc(name, email, code, now).donationCount) == 0
    ensures CountOrZero(NewUserDoc(name, email, code, now).contactCount) == 0
    ensures NewUserDoc(name, email, code, now).connectionCode == Some(code)
  {
  }

  /**
   * `createUser`. `providerError` is the provider's error code when it
   * refuses the account; otherwise it creates the account under `newUid`
   * with the name as display name, and the user document is written with
   * a fresh connection code. No check is made that the code is unused.
   */
  method CreateUser(db: Backend, name: string, email: string, password: string,
                    providerError: Option<string>, newUid: string, picks: seq<Pick>, now: int)
    returns (r: Result<(string, string), string>)
    requires |picks| == DefaultCodeLength
    modifies db
    ensures db.donations == old(db.donations)
    ensures providerError.Some? ==>
              && r == Err(CreateUserMessage(providerError.value))
              && db.users == old(db.users) && db.accounts == old(db.accounts)
    ensures providerError.None? ==>
              && r.Ok? && r.value.0 == newUid
              && var code := r.value.1;
                 && |code| == DefaultCodeLength
                 && (forall i :: 0 <= i < |code| ==> code[i] == CodeChars[picks[i]] && IsCodeChar(code[i]))
                 && db.accounts == old(db.accounts)[newUid := Account(email, password, Some(name))]
                 && db.users == old(db.users)[newUid := NewUserDoc(name, email, code, now)]
  {
    if providerError.Some? {
      return Err(CreateUserMessage(providerError.value));
    }
    db.accounts := db.accounts[newUid := Account(email, password, Some(name))];
    var code := GenerateConnectionCode(picks);
    db.users := db.users[newUid := NewUserDoc(name, email, code, now)];
    r := Ok((newUid, code));
  }

  // ---------------------------------------------------------------------
  // Sign-in

  const InvalidCredentialsMessage: string := "Email ou mot de passe invalide."
  const SignInFailedMessage: string := "Une erreur s'est produite lors de la connexion."

  predicate IsCredentialError(code: string)
  {
    code == "auth/user-not-found" || code == "auth/wrong-password" || code == "auth/invalid-credential"
  }

  /**
   * `loginWithEmailPassword`: the provider's answer passed through, its
   * three credential errors reported as invalid credentials and every
   * other error as the generic failure.
   */
  function LoginWithEmailPassword(provider: Result<AuthUser, string>): (r: Result<AuthUser, string>)
    ensures provider.Ok? ==> r == provider
    ensures provider.Err? ==> r.Err?
    ensures provider.Err? ==> (r.error == InvalidCredentialsMessage <==> IsCredentialError(provider.error))
    ensures provider.Err? ==> (r.error == SignInFailedMessage <==> !IsCredentialError(provider.error))
  {
    match provider
    case Ok(user) => Ok(user)
    case Err(code) =>
      Err(if IsCredentialError(code) then InvalidCredentialsMessage else SignInFailedMessage)
  }
}
