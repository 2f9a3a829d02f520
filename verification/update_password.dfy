/**
 * The password-reset endpoint (src/pages/api/update-password.ts): a POST
 * with an email and a connection code sets the password of the matching
 * account to that code. Only the decision chain and the write are
 * modelled; the security of using the code as a password is not.
 */
module UpdatePassword {
  import opened Types
  import opened Text
  import opened Db

  datatype Request = Request(httpMethod: string, email: Option<string>, connectionCode: Option<string>)

  datatype Response = Response(status: int, message: string)

  /** The answers that need no lookup: 405 for any other method, then 400 for a missing field. */
  function Precheck(req: Request): (r: Option<Response>)
    ensures r.Some? && r.value.status == 405 <==> req.httpMethod != "POST"
    ensures r.Some? && r.value.status == 400 <==>
              req.httpMethod == "POST" && (!Truthy(req.email) || !Truthy(req.connectionCode))
    ensures r.None? <==> req.httpMethod == "POST" && Truthy(req.email) && Truthy(req.connectionCode)
    ensures r.Some? ==> r.value.message == StatusMessage(r.value.status)
  {
    if req.httpMethod != "POST" then Some(Response(405, "Method Not Allowed"))
    else if !Truthy(req.email) || !Truthy(req.connectionCode) then
      Some(Response(400, "Email and connection code are required."))
    else None
  }

  /** The answer for an error carrying a provider code, thrown by the password write. */
  function ErrorResponse(code: string): (r: Response)
    ensures r.status == 404 <==> code == "auth/user-not-found"
    ensures r.status == 500 <==> code != "auth/user-not-found"
    ensures r.message == StatusMessage(r.status)
  {
    if code == "auth/user-not-found" then Response(404, "User not found.")
    else Response(500, "An internal server error occurred.")
  }

  /** The message the endpoint sends with each status it answers. */
  function StatusMessage(status: int): string
  {
    match status
    case 200 => "Password updated successfully."
    case 400 => "Email and connection code are required."
    case 401 => "Invalid credentials."
    case 404 => "User not found."
    case 405 => "Method Not Allowed"
    case _ => "An internal server error occurred."
  }

  predicate Matches(doc: UserDoc, email: string, code: string)
  {
    doc.email == Some(email) && doc.connectionCode == Some(code)
  }

  /** `id` is the first document, in document-id order, holding both the email and the code. */
  ghost predicate IsFirstMatch(users: map<string, UserDoc>, email: string, code: string, id: string)
  {
    && id in users && Matches(users[id], email, code)
    && forall other :: other in users && Matches(users[other], email, code) ==> LexLe(id, other)
  }

  /**
   * The query `where('email', '==', email).where('connectionCode', '==', code).limit(1)`:
   * the first matching document, or none.
   */
  method FirstMatchingUser(users: map<string, UserDoc>, email: string, code: string) returns (found: Option<string>)
    ensures found.None? <==> forall id :: id in users ==> !Matches(users[id], email, code)
    ensures found.Some? ==> IsFirstMatch(users, email, code, found.value)
  {
    found := None;
    var remaining := users.Keys;
    while remaining != {}
      invariant remaining <= users.Keys
      invariant found.None? ==> forall id :: id in users && id !in remaining ==> !Matches(users[id], email, code)
      invariant found.Some? ==> found.value in users && found.value !in remaining && Matches(users[found.value], email, code)
      invariant found.Some? ==> forall id :: id in users && id !in remaining && Matches(users[id], email, code)
                                  ==> LexLe(found.value, id)
      decreases remaining
    {
      var id :| id in remaining;
      LexReflexive(id);
      if Matches(users[id], email, code) {
        if found.None? {
          found := Some(id);
        } else if !LexLe(found.value, id) {
          var best := found.value;
          LexTotal(best, id);
          forall other | other in users && other !in remaining && Matches(users[other], email, code)
            ensures LexLe(id, other)
          {
            LexTransitive(id, best, other);
          }
          found := Some(id);
        }
      }
      remaining := remaining - {id};
    }
  }

  /** Two first matches are the same document. */
  lemma FirstMatchUnique(users: map<string, UserDoc>, email: string, code: string, a: string, b: string)
    requires IsFirstMatch(users, email, code, a) && IsFirstMatch(users, email, code, b)
    ensures a == b
  {
    LexAntisymmetric(a, b);
  }

  /**
   * `handler`. `lookupFailed` says whether the users query itself threw;
   * such an error carries no provider code, so it is answered with 500.
   * `updateError` is the error code the provider reports when it refuses a
   * password write for an account that exists.
   */
  method Handler(db: Backend, req: Request, lookupFailed: bool, updateError: Option<string>) returns (resp: Response)
    modifies db
    ensures db.users == old(db.users) && db.donations == old(db.donations)
    ensures resp.status == 405 <==> req.httpMethod != "POST"
    ensures resp.status == 400 <==>
              req.httpMethod == "POST" && (!Truthy(req.email) || !Truthy(req.connectionCode))
    ensures resp.status == 401 <==>
              && Precheck(req).None? && !lookupFailed
              && forall id :: id in old(db.users) ==>
                   !Matches(old(db.users)[id], req.email.value, req.connectionCode.value)
    ensures resp.status == 200 <==>
              && Precheck(req).None? && !lookupFailed
              && updateError.None?
              && exists id :: IsFirstMatch(old(db.users), req.email.value, req.connectionCode.value, id)
                              && id in old(db.accounts)
    ensures resp.status == 200 ==>
              exists id :: IsFirstMatch(old(db.users), req.email.value, req.connectionCode.value, id)
                           && id in old(db.accounts)
                           && db.accounts == old(db.accounts)[id := old(db.accounts)[id].(password := req.connectionCode.value)]
    ensures resp.status == 404 <==>
              && Precheck(req).None? && !lookupFailed
              && exists id :: IsFirstMatch(old(db.users), req.email.value, req.connectionCode.value, id)
                              && (id !in old(db.accounts) || updateError == Some("auth/user-not-found"))
    ensures resp.status == 500 <==>
              && Precheck(req).None?
              && (|| lookupFailed
                  || (&& updateError.Some? && updateError.value != "auth/user-not-found"
                      && exists id :: IsFirstMatch(old(db.users), req.email.value, req.connectionCode.value, id)
                                      && id in old(db.accounts)))
    ensures resp.status in {200, 400, 401, 404, 405, 500}
    ensures resp.message == StatusMessage(resp.status)
    ensures resp.status != 200 ==> db.accounts == old(db.accounts)
  {
    var pre := Precheck(req);
    if pre.Some? {
      return pre.value;
    }
    if lookupFailed {
      return Response(500, "An internal server error occurred.");
    }
    var email, code := req.email.value, req.connectionCode.value;
    var found := FirstMatchingUser(db.users, email, code);
    if found.None? {
      return Response(401, "Invalid credentials.");
    }
    var userId := found.value;
    forall other | IsFirstMatch(db.users, email, code, other)
      ensures other == userId
    {
      FirstMatchUnique(db.users, email, code, other, userId);
    }
    if userId !in db.accounts {
      return ErrorResponse("auth/user-not-found");
    }
    if updateError.Some? {
      return ErrorResponse(updateError.value);
    }
    db.accounts := db.accounts[userId := db.accounts[userId].(password := code)];
    resp := Response(200, "Password updated successfully.");
  }
}
