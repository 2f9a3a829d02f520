/**
 * The user records (src/lib/user.ts): renaming oneself, changing a plan,
 * reading one record and listing them all.
 */
module User {
  import opened Types
  import opened Db

  datatype UserError =
    | Mismatch      // no signed-in user, or a different one; thrown before any write
    | UpdateFailed  // a write failed: the profile or the name on a rename, the plan on a plan change

  /**
   * `updateUserName`. The profile's display name is written first and the
   * document's `name` second, so a missing document leaves the new display
   * name in place and still reports the failure.
   */
  method UpdateUserName(db: Backend, currentUser: Option<AuthUser>, userId: string, newName: string)
    returns (out: Outcome<UserError>)
    modifies db
    ensures db.donations == old(db.donations)
    ensures currentUser.None? || currentUser.value.uid != userId ==>
              out == Failed(Mismatch) && db.users == old(db.users) && db.accounts == old(db.accounts)
    ensures currentUser.Some? && currentUser.value.uid == userId && userId !in old(db.accounts) ==>
              out == Failed(UpdateFailed) && db.users == old(db.users) && db.accounts == old(db.accounts)
    ensures currentUser.Some? && currentUser.value.uid == userId && userId in old(db.accounts) ==>
              && db.accounts == old(db.accounts)[userId := old(db.accounts)[userId].(displayName := Some(newName))]
              && (userId in old(db.users) ==>
                    out == Done && db.users == old(db.users)[userId := old(db.users)[userId].(name := Some(newName))])
              && (userId !in old(db.users) ==> out == Failed(UpdateFailed) && db.users == old(db.users))
  {
    if currentUser.None? || currentUser.value.uid != userId {
      return Failed(Mismatch);
    }
    if userId !in db.accounts {
      return Failed(UpdateFailed);
    }
    db.accounts := db.accounts[userId := db.accounts[userId].(displayName := Some(newName))];
    if userId !in db.users {
      return Failed(UpdateFailed);
    }
    db.users := db.users[userId := db.users[userId].(name := Some(newName))];
    out := Done;
  }

  /** `getUserData`: the stored fields when the document exists, else null. */
  function GetUserData(users: map<string, UserDoc>, userId: string): (r: Option<UserDoc>)
    ensures r.Some? <==> userId in users
    ensures r.Some? ==> r.value == users[userId]
  {
    if userId in users then Some(users[userId]) else None
  }

  /**
   * One entry of `getAllUsers`: `{ id: doc.id, ...doc.data() }`, so a
   * stored `id` field replaces the document id.
   */
  function ToUserData(docId: string, doc: UserDoc): (u: UserData)
    ensures u.id == if doc.id.Some? then doc.id.value else docId
    ensures u.name == doc.name && u.email == doc.email && u.plan == doc.plan
    ensures u.donationCount == doc.donationCount && u.contactCount == doc.contactCount
    ensures u.connectionCode == doc.connectionCode
  {
    UserData(match doc.id case Some(i) => i case None => docId,
             doc.name, doc.email, doc.plan, doc.donationCount, doc.contactCount, doc.connectionCode)
  }

  /** `order` lists every document id of `users` exactly once. */
  predicate ListsEachIdOnce(order: seq<string>, users: map<string, UserDoc>)
  {
    && |order| == |users|
    && (forall i :: 0 <= i < |order| ==> order[i] in users)
    && (forall i, j :: 0 <= i < j < |order| ==> order[i] != order[j])
  }

  /**
   * `getAllUsers`: one record per stored document, in the order in which
   * the store lists the collection (`order`).
   */
  function GetAllUsers(users: map<string, UserDoc>, order: seq<string>): (r: seq<UserData>)
    requires ListsEachIdOnce(order, users)
    ensures |r| == |users|
    ensures forall i :: 0 <= i < |r| ==> r[i] == ToUserData(order[i], users[order[i]])
  {
    seq(|order|, i requires 0 <= i < |order| => ToUserData(order[i], users[order[i]]))
  }

  /** Every stored user appears in the listing (and, by ListsEachIdOnce, only once). */
  lemma {:induction false} AllUsersListed(users: map<string, UserDoc>, order: seq<string>, id: string)
    requires ListsEachIdOnce(order, users)
    requires id in users
    ensures exists i :: 0 <= i < |order| && order[i] == id
  {
    var listed := set i | 0 <= i < |order| :: order[i];
    if id !in listed {
      assert listed <= users.Keys - {id};
      DistinctImageSize(order);
      assert |users.Keys - {id}| == |users| - 1;
      SubsetSize(listed, users.Keys - {id});
      assert false;
    }
  }

  lemma {:induction false} DistinctImageSize(order: seq<string>)
    requires forall i, j :: 0 <= i < j < |order| ==> order[i] != order[j]
    ensures |set i | 0 <= i < |order| :: order[i]| == |order|
  {
    if order != [] {
      var last := |order| - 1;
      var init := order[..last];
      DistinctImageSize(init);
      assert (set i | 0 <= i < |order| :: order[i])
          == (set i | 0 <= i < |init| :: init[i]) + {order[last]};
      assert order[last] !in (set i | 0 <= i < |init| :: init[i]);
    }
  }

  lemma SubsetSize(a: set<string>, b: set<string>)
    requires a <= b
    ensures |a| <= |b|
  {
    assert b == a + (b - a);
  }

  /** The whole effect of `updateUserPlan` on the users collection. */
  function UpdatePlanStep(users: map<string, UserDoc>, userId: string, newPlan: Plan): (Outcome<UserError>, map<string, UserDoc>)
  {
    if userId in users then (Done, users[userId := users[userId].(plan := Some(newPlan))])
    else (Failed(UpdateFailed), users)
  }

  /**
   * Only the `plan` field of the named user changes (a missing document
   * fails and changes nothing), and applying the same plan twice is the
   * same as applying it once.
   */
  lemma UpdatePlanSpec(users: map<string, UserDoc>, userId: string, newPlan: Plan)
    ensures var (out, users') := UpdatePlanStep(users, userId, newPlan);
            && (userId !in users ==> out.Failed? && users' == users)
            && (userId in users ==>
                  && out == Done
                  && users'.Keys == users.Keys
                  && users'[userId].plan == Some(newPlan)
                  && users'[userId].(plan := users[userId].plan) == users[userId]
                  && (forall u :: u in users && u != userId ==> users'[u] == users[u]))
            && UpdatePlanStep(users', userId, newPlan).1 == users'
  {
  }

  /** `updateUserPlan`: writes the `plan` field of one user document. */
  method UpdateUserPlan(db: Backend, userId: string, newPlan: Plan) returns (out: Outcome<UserError>)
    modifies db
    ensures db.donations == old(db.donations) && db.accounts == old(db.accounts)
    ensures (out, db.users) == UpdatePlanStep(old(db.users), userId, newPlan)
  {
    if userId !in db.users {
      return Failed(UpdateFailed);
    }
    db.users := db.users[userId := db.users[userId].(plan := Some(newPlan))];
    out := Done;
  }
}
