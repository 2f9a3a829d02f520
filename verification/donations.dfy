/**
 * The donation store (src/lib/donations.ts): reading the feed newest
 * first, reading one owner's donations, publishing a donation under the
 * free-plan cap, and counting a contact.
 */
module Donations {
  import opened Types
  import opened Text
  import opened Db

  /** A free-plan user may publish at most this many donations. */
  const FreeDonationLimit: nat := 3

  /** The owner name written when the signed-in user has no display name. */
  const AnonymousName: string := "Utilisateur Anonyme"

  // ---------------------------------------------------------------------
  // Reading

  /**
   * The client view of a stored donation. A stored timestamp becomes the
   * creation instant; any other value, or none, becomes `now`. The status
   * and featured flag are not copied.
   */
  function MapDocToDonation(doc: DonationDoc, now: int): (d: Donation)
    ensures d.id == doc.id && d.title == doc.title && d.description == doc.description
    ensures d.imageUrl == doc.imageUrl && d.imageHint == doc.imageHint
    ensures d.contact == doc.contact && d.user == doc.user
    ensures d.createdAt == if doc.createdAt.Some? && doc.createdAt.value.TimestampValue?
                           then doc.createdAt.value.ms else now
    ensures d.status == None && d.isFeatured == None
  {
    Donation(doc.id, doc.title, doc.description, doc.imageUrl, doc.imageHint, doc.contact,
             doc.user,
             match doc.createdAt case Some(TimestampValue(t)) => t case _ => now,
             None, None)
  }

  function MapAll(docs: seq<DonationDoc>, now: int): (r: seq<Donation>)
    ensures |r| == |docs|
    ensures forall i :: 0 <= i < |docs| ==> r[i] == MapDocToDonation(docs[i], now)
  {
    seq(|docs|, i requires 0 <= i < |docs| => MapDocToDonation(docs[i], now))
  }

  /** The store's ranking of value types: null, booleans, numbers, timestamps, strings, then the rest. */
  function TypeRank(v: FieldValue): nat
  {
    match v
    case NullValue => 0
    case BoolValue(_) => 1
    case NumberValue(_) => 2
    case TimestampValue(_) => 3
    case StringValue(_) => 4
    case LaterValue(k) =>
      match k
      case Bytes => 5
      case Reference => 6
      case GeoPoint => 7
      case ArrayValue => 8
      case MapValue => 9
  }

  /**
   * `a` is at least `b` in the store's value order: a later type wins, and
   * within a type false < true, numbers and timestamps by size, strings by
   * code points. Values of the later kinds are not told apart.
   */
  predicate ValueAtLeast(a: FieldValue, b: FieldValue)
  {
    if TypeRank(a) != TypeRank(b) then TypeRank(a) > TypeRank(b)
    else match (a, b)
      case (BoolValue(x), BoolValue(y)) => x || !y
      case (NumberValue(x), NumberValue(y)) => x >= y
      case (TimestampValue(x), TimestampValue(y)) => x >= y
      case (StringValue(x), StringValue(y)) => LexLe(y, x)
      case _ => true
  }

  lemma ValueTotal(a: FieldValue, b: FieldValue)
    ensures ValueAtLeast(a, b) || ValueAtLeast(b, a)
  {
    if a.StringValue? && b.StringValue? {
      LexTotal(a.s, b.s);
    }
  }

  lemma ValueTransitive(a: FieldValue, b: FieldValue, c: FieldValue)
    requires ValueAtLeast(a, b) && ValueAtLeast(b, c)
    ensures ValueAtLeast(a, c)
  {
    if a.StringValue? && b.StringValue? && c.StringValue? {
      LexTransitive(c.s, b.s, a.s);
    }
  }

  /** The document has a `createdAt` field, whatever its value. */
  predicate Dated(d: DonationDoc)
  {
    d.createdAt.Some?
  }

  predicate AllDated(docs: seq<DonationDoc>)
  {
    forall d :: d in docs ==> Dated(d)
  }

  /**
   * `a` may come before `b` under `orderBy('createdAt', 'desc')`: both are
   * dated, `a`'s value is at least `b`'s, and on equal values the greater
   * document id comes first, as the store's implicit order by name follows
   * the direction of the last `orderBy`.
   */
  predicate NewerOrSame(a: DonationDoc, b: DonationDoc)
  {
    && Dated(a) && Dated(b)
    && ValueAtLeast(a.createdAt.value, b.createdAt.value)
    && (!ValueAtLeast(b.createdAt.value, a.createdAt.value) || LexLe(b.id, a.id))
  }

  predicate NewestFirst(docs: seq<DonationDoc>)
  {
    forall i, j :: 0 <= i < j < |docs| ==> NewerOrSame(docs[i], docs[j])
  }

  lemma NewerOrSameTotal(a: DonationDoc, b: DonationDoc)
    requires Dated(a) && Dated(b)
    ensures NewerOrSame(a, b) || NewerOrSame(b, a)
  {
    ValueTotal(a.createdAt.value, b.createdAt.value);
    LexTotal(a.id, b.id);
  }

  lemma NewerOrSameTransitive(a: DonationDoc, b: DonationDoc, c: DonationDoc)
    requires NewerOrSame(a, b) && NewerOrSame(b, c)
    ensures NewerOrSame(a, c)
  {
    var x, y, z := a.createdAt.value, b.createdAt.value, c.createdAt.value;
    ValueTransitive(x, y, z);
    if ValueAtLeast(z, x) {
      ValueTransitive(z, x, y);
      ValueTransitive(y, z, x);
      LexTransitive(c.id, b.id, a.id);
    }
  }

  /** Inserts `d` into a sequence before the first document it may precede. */
  function Insert(d: DonationDoc, docs: seq<DonationDoc>): (r: seq<DonationDoc>)
    ensures multiset(r) == multiset(docs) + multiset{d}
  {
    if docs == [] || NewerOrSame(d, docs[0]) then
      [d] + docs
    else
      assert docs == [docs[0]] + docs[1..];
      [docs[0]] + Insert(d, docs[1..])
  }

  lemma {:induction false} InsertNewestFirst(d: DonationDoc, docs: seq<DonationDoc>)
    requires Dated(d) && AllDated(docs) && NewestFirst(docs)
    ensures NewestFirst(Insert(d, docs))
  {
    if docs == [] || NewerOrSame(d, docs[0]) {
      var r := Insert(d, docs);
      assert r == [d] + docs;
      forall i, j | 0 <= i < j < |r|
        ensures NewerOrSame(r[i], r[j])
      {
        assert r[j] == docs[j - 1];
        if i > 0 {
          assert r[i] == docs[i - 1];
        } else if j > 1 {
          NewerOrSameTransitive(d, docs[0], docs[j - 1]);
        }
      }
    } else {
      NewerOrSameTotal(d, docs[0]);
      var rest := Insert(d, docs[1..]);
      InsertNewestFirst(d, docs[1..]);
      forall k | 0 <= k < |rest|
        ensures NewerOrSame(docs[0], rest[k])
      {
        assert rest[k] in multiset(rest);
        if rest[k] != d {
          assert rest[k] in multiset(docs[1..]);
          var m :| 0 <= m < |docs[1..]| && docs[1..][m] == rest[k];
          assert docs[m + 1] == rest[k];
        }
      }
      var r := Insert(d, docs);
      assert r == [docs[0]] + rest;
      forall i, j | 0 <= i < j < |r|
        ensures NewerOrSame(r[i], r[j])
      {
        assert r[j] == rest[j - 1];
        if i > 0 {
          assert r[i] == rest[i - 1];
        }
      }
    }
  }

  /** The documents of `docs`, newest first (an insertion sort, stable on ties). */
  function SortNewestFirst(docs: seq<DonationDoc>): (r: seq<DonationDoc>)
    requires AllDated(docs)
    ensures NewestFirst(r)
    ensures multiset(r) == multiset(docs)
  {
    if docs == [] then []
    else
      assert docs == [docs[0]] + docs[1..];
      var rest := SortNewestFirst(docs[1..]);
      assert forall x :: x in rest ==> x in multiset(docs[1..]);
      InsertNewestFirst(docs[0], rest);
      Insert(docs[0], rest)
  }

  /**
   * The documents the query keeps: `orderBy` on a field leaves out every
   * document that has no such field, whatever its value elsewhere.
   */
  function WithCreatedAt(docs: seq<DonationDoc>): (r: seq<DonationDoc>)
    ensures AllDated(r)
    ensures forall x: DonationDoc :: Dated(x) ==> multiset(r)[x] == multiset(docs)[x]
    ensures forall x: DonationDoc :: !Dated(x) ==> multiset(r)[x] == 0
  {
    if docs == [] then []
    else
      assert docs == [docs[0]] + docs[1..];
      if Dated(docs[0]) then [docs[0]] + WithCreatedAt(docs[1..])
      else WithCreatedAt(docs[1..])
  }

  /**
   * `r` is the client view of the documents of `docs`, each exactly as often
   * as it is stored, arranged newest first.
   */
  ghost predicate IsNewestFirstView(r: seq<Donation>, docs: seq<DonationDoc>, now: int)
  {
    exists arranged :: NewestFirst(arranged) && multiset(arranged) == multiset(docs)
                       && r == MapAll(arranged, now)
  }

  /** `getDonations`: every stored donation that has a `createdAt` field, newest first. */
  function GetDonations(docs: seq<DonationDoc>, now: int): (r: seq<Donation>)
    ensures |r| == |WithCreatedAt(docs)|
    ensures IsNewestFirstView(r, WithCreatedAt(docs), now)
  {
    var dated := WithCreatedAt(docs);
    var arranged := SortNewestFirst(dated);
    assert |arranged| == |multiset(arranged)| == |dated|;
    MapAll(arranged, now)
  }

  /**
   * Every entry of the feed is the view of a stored document that has a
   * `createdAt` field, and every such document is in the feed.
   */
  lemma GetDonationsMembers(docs: seq<DonationDoc>, now: int)
    ensures forall e :: e in GetDonations(docs, now) ==>
              exists d :: d in docs && Dated(d) && e == MapDocToDonation(d, now)
    ensures forall d :: d in docs && Dated(d) ==> MapDocToDonation(d, now) in GetDonations(docs, now)
  {
    var dated := WithCreatedAt(docs);
    var arranged := SortNewestFirst(dated);
    var r := GetDonations(docs, now);
    assert r == MapAll(arranged, now);
    forall e | e in r
      ensures exists d :: d in docs && Dated(d) && e == MapDocToDonation(d, now)
    {
      var i :| 0 <= i < |r| && r[i] == e;
      assert arranged[i] in multiset(dated);
    }
    forall d | d in docs && Dated(d)
      ensures MapDocToDonation(d, now) in r
    {
      assert d in multiset(arranged);
      var i :| 0 <= i < |arranged| && arranged[i] == d;
      assert r[i] == MapDocToDonation(d, now);
    }
  }

  /** A donation stored without `createdAt` is not in the feed. */
  lemma UndatedDonationNotListed(d: DonationDoc, now: int)
    requires !Dated(d)
    ensures GetDonations([d], now) == []
  {
    assert WithCreatedAt([d]) == WithCreatedAt([d][1..]);
  }

  /** The stored donations whose owner is `userId` (`where('user.id', '==', userId)`). */
  function OwnedBy(docs: seq<DonationDoc>, userId: string): (r: seq<DonationDoc>)
    ensures forall i :: 0 <= i < |r| ==> r[i].user.id == userId
    ensures forall x: DonationDoc :: x.user.id == userId ==> multiset(r)[x] == multiset(docs)[x]
    ensures forall x: DonationDoc :: x.user.id != userId ==> multiset(r)[x] == 0
  {
    if docs == [] then []
    else
      assert docs == [docs[0]] + docs[1..];
      if docs[0].user.id == userId then [docs[0]] + OwnedBy(docs[1..], userId)
      else OwnedBy(docs[1..], userId)
  }

  /** `getDonationsByUser`: exactly the dated donations of `userId`, newest first. */
  function GetDonationsByUser(docs: seq<DonationDoc>, userId: string, now: int): (r: seq<Donation>)
    ensures forall i :: 0 <= i < |r| ==> r[i].user.id == userId
    ensures IsNewestFirstView(r, WithCreatedAt(OwnedBy(docs, userId)), now)
  {
    var r := GetDonations(OwnedBy(docs, userId), now);
    forall i | 0 <= i < |r|
      ensures r[i].user.id == userId
    {
      var arranged := SortNewestFirst(WithCreatedAt(OwnedBy(docs, userId)));
      assert r[i] == MapDocToDonation(arranged[i], now);
      assert arranged[i] in multiset(OwnedBy(docs, userId));
    }
    r
  }

  /** Every donation of the feed comes back without status and without featured flag. */
  lemma FeedCarriesNoModeration(docs: seq<DonationDoc>, now: int, i: nat)
    requires i < |GetDonations(docs, now)|
    ensures GetDonations(docs, now)[i].status == None
    ensures GetDonations(docs, now)[i].isFeatured == None
  {
    var arranged := SortNewestFirst(WithCreatedAt(docs));
    assert GetDonations(docs, now)[i] == MapDocToDonation(arranged[i], now);
  }

  // ---------------------------------------------------------------------
  // Filtering commutes with the query's selection and order

  lemma {:induction false} OwnedByHead(s: seq<DonationDoc>, userId: string)
    requires NewestFirst(s) && OwnedBy(s, userId) != []
    ensures s != [] && (s[0] == OwnedBy(s, userId)[0] || NewerOrSame(s[0], OwnedBy(s, userId)[0]))
  {
    var e := OwnedBy(s, userId)[0];
    assert e in multiset(OwnedBy(s, userId));
    assert e in multiset(s);
    var k :| 0 <= k < |s| && s[k] == e;
  }

  lemma OwnedByCons(x: DonationDoc, s: seq<DonationDoc>, userId: string)
    ensures OwnedBy([x] + s, userId) == if x.user.id == userId then [x] + OwnedBy(s, userId) else OwnedBy(s, userId)
  {
    assert ([x] + s)[0] == x && ([x] + s)[1..] == s;
  }

  lemma InsertPast(x: DonationDoc, y: DonationDoc, s: seq<DonationDoc>)
    requires !NewerOrSame(x, y)
    ensures Insert(x, [y] + s) == [y] + Insert(x, s)
  {
    assert ([y] + s)[0] == y && ([y] + s)[1..] == s;
  }

  /** Taking one owner's documents after an insertion is inserting into that owner's documents. */
  lemma {:induction false} OwnedByInsert(x: DonationDoc, s: seq<DonationDoc>, userId: string)
    requires Dated(x) && AllDated(s) && NewestFirst(s)
    ensures OwnedBy(Insert(x, s), userId)
         == if x.user.id == userId then Insert(x, OwnedBy(s, userId)) else OwnedBy(s, userId)
  {
    if s == [] || NewerOrSame(x, s[0]) {
      assert Insert(x, s) == [x] + s;
      OwnedByCons(x, s, userId);
      var o := OwnedBy(s, userId);
      if x.user.id == userId && o != [] {
        OwnedByHead(s, userId);
        if s[0] != o[0] {
          NewerOrSameTransitive(x, s[0], o[0]);
        }
        assert Insert(x, o) == [x] + o;
      }
    } else {
      var t := s[1..];
      assert s == [s[0]] + t;
      assert NewestFirst(t) by {
        forall i, j | 0 <= i < j < |t|
          ensures NewerOrSame(t[i], t[j])
        {
          assert t[i] == s[i + 1] && t[j] == s[j + 1];
        }
      }
      assert Insert(x, s) == [s[0]] + Insert(x, t);
      OwnedByInsert(x, t, userId);
      OwnedByCons(s[0], Insert(x, t), userId);
      OwnedByCons(s[0], t, userId);
      if x.user.id == userId && s[0].user.id == userId {
        InsertPast(x, s[0], OwnedBy(t, userId));
      }
    }
  }

  /** Taking one owner's documents commutes with sorting. */
  lemma {:induction false} OwnedBySort(s: seq<DonationDoc>, userId: string)
    requires AllDated(s)
    ensures AllDated(OwnedBy(s, userId))
    ensures OwnedBy(SortNewestFirst(s), userId) == SortNewestFirst(OwnedBy(s, userId))
  {
    assert forall x :: x in OwnedBy(s, userId) ==> x in multiset(s);
    if s != [] {
      assert s == [s[0]] + s[1..];
      OwnedBySort(s[1..], userId);
      var rest := SortNewestFirst(s[1..]);
      assert forall x :: x in rest ==> x in multiset(s[1..]);
      OwnedByInsert(s[0], rest, userId);
    }
  }

  /** Taking one owner's documents commutes with leaving out the undated ones. */
  lemma {:induction false} OwnedByWithCreatedAt(s: seq<DonationDoc>, userId: string)
    ensures OwnedBy(WithCreatedAt(s), userId) == WithCreatedAt(OwnedBy(s, userId))
  {
    if s != [] {
      assert s == [s[0]] + s[1..];
      OwnedByWithCreatedAt(s[1..], userId);
      var a := WithCreatedAt(s[1..]);
      var b := OwnedBy(s[1..], userId);
      assert ([s[0]] + a)[1..] == a;
      assert ([s[0]] + b)[1..] == b;
    }
  }

  // ---------------------------------------------------------------------
  // Publishing a donation

  /**
   * The object handed to `addDonation`. Its type leaves out `id`, `user`
   * and `createdAt`, but an object may still carry `user` or `createdAt`
   * keys at run time: `extraUser` and `extraCreatedAt` stand for them.
   */
  datatype NewDonation = NewDonation(
    title: string,
    description: string,
    imageUrl: string,
    imageHint: string,
    contact: string,
    status: Option<DonationStatus>,
    isFeatured: Option<bool>,
    extraUser: Option<Owner>,
    extraCreatedAt: Option<int>)

  datatype AddError =
    | NotAuthenticated   // no signed-in user; thrown before the transaction
    | LimitReached       // a free plan with three donations already
    | WriteFailed        // anything else, a missing user document included

  /** The owner written on a new donation: the signed-in uid and its display name or the anonymous name. */
  function OwnerOf(user: AuthUser): (o: Owner)
    ensures o.id == user.uid
    ensures o.name == if Truthy(user.displayName) then user.displayName.value else AnonymousName
  {
    Owner(user.uid, OrElse(user.displayName, AnonymousName))
  }

  /**
   * The document written by the transaction: the payload spread first, then
   * `user` and `createdAt`, which therefore replace any such keys of the
   * payload.
   */
  function NewDonationDoc(payload: NewDonation, user: AuthUser, newId: string, serverTime: int): (doc: DonationDoc)
    ensures doc.user == OwnerOf(user) && doc.createdAt == Some(TimestampValue(serverTime)) && doc.id == newId
    ensures doc.title == payload.title && doc.description == payload.description
    ensures doc.imageUrl == payload.imageUrl && doc.imageHint == payload.imageHint
    ensures doc.contact == payload.contact
    ensures doc.status == payload.status && doc.isFeatured == payload.isFeatured
  {
    DonationDoc(newId, payload.title, payload.description, payload.imageUrl, payload.imageHint,
                payload.contact, OwnerOf(user), Some(TimestampValue(serverTime)), payload.status, payload.isFeatured)
  }

  /**
   * What the transaction decides from the owner's document: fail when it is
   * missing, refuse a free plan (an absent plan is free) with three or more
   * donations, and allow everything else.
   */
  function DonationGate(doc: Option<UserDoc>): (refusal: Option<AddError>)
    ensures refusal == Some(LimitReached) <==>
              doc.Some? && PlanOrFree(doc.value.plan) == Free
              && CountOrZero(doc.value.donationCount) >= FreeDonationLimit
    ensures refusal == Some(WriteFailed) <==> doc.None?
    ensures refusal != Some(NotAuthenticated)
  {
    match doc
    case None => Some(WriteFailed)
    case Some(d) =>
      if PlanOrFree(d.plan) == Free && CountOrZero(d.donationCount) >= FreeDonationLimit
      then Some(LimitReached) else None
  }

  /** The users and donations collections together. */
  datatype Collections = Collections(users: map<string, UserDoc>, donations: seq<DonationDoc>)

  function WithDonationCount(doc: UserDoc, count: nat): UserDoc
  {
    doc.(donationCount := Some(count))
  }

  /** The whole effect of `addDonation` on the collections, and its result. */
  function AddDonationStep(c: Collections, currentUser: Option<AuthUser>, payload: NewDonation,
                           newId: string, serverTime: int): (Result<string, AddError>, Collections)
  {
    match currentUser
    case None => (Err(NotAuthenticated), c)
    case Some(user) =>
      var doc := if user.uid in c.users then Some(c.users[user.uid]) else None;
      match DonationGate(doc)
      case Some(e) => (Err(e), c)
      case None =>
        var count := CountOrZero(doc.value.donationCount);
        (Ok(newId),
         Collections(c.users[user.uid := WithDonationCount(doc.value, count + 1)],
                     c.donations + [NewDonationDoc(payload, user, newId, serverTime)]))
  }

  /** Without a signed-in user nothing is written. */
  lemma AddWithoutUserWritesNothing(c: Collections, payload: NewDonation, newId: string, serverTime: int)
    ensures AddDonationStep(c, None, payload, newId, serverTime) == (Err(NotAuthenticated), c)
  {
  }

  /** A missing user document fails with the generic error and writes nothing. */
  lemma AddWithoutUserDocFails(c: Collections, user: AuthUser, payload: NewDonation, newId: string, serverTime: int)
    requires user.uid !in c.users
    ensures AddDonationStep(c, Some(user), payload, newId, serverTime) == (Err(WriteFailed), c)
  {
  }

  /**
   * The cap: a free user (absent plan counts as free) with three or more
   * donations is refused and nothing changes; anyone else with a user
   * document gets exactly one new donation, the payload's fields owned by
   * the signed-in uid and dated by the server, and a count one higher with
   * every other field of the record kept.
   */
  lemma AddDonationCap(c: Collections, user: AuthUser, payload: NewDonation, newId: string, serverTime: int)
    requires user.uid in c.users
    ensures var (r, c') := AddDonationStep(c, Some(user), payload, newId, serverTime);
            var doc := c.users[user.uid];
            var capped := PlanOrFree(doc.plan) == Free && CountOrZero(doc.donationCount) >= FreeDonationLimit;
            && (capped ==> r == Err(LimitReached) && c' == c)
            && (!capped ==>
                  && r == Ok(newId)
                  && |c'.donations| == |c.donations| + 1
                  && c'.donations[..|c.donations|] == c.donations
                  && c'.donations[|c.donations|] == NewDonationDoc(payload, user, newId, serverTime)
                  && c'.donations[|c.donations|].user == Owner(user.uid, OrElse(user.displayName, AnonymousName))
                  && c'.users.Keys == c.users.Keys
                  && c'.users[user.uid].donationCount == Some(CountOrZero(doc.donationCount) + 1)
                  && c'.users[user.uid].(donationCount := doc.donationCount) == doc
                  && (forall u :: u in c.users && u != user.uid ==> c'.users[u] == c.users[u]))
  {
    var (r, c') := AddDonationStep(c, Some(user), payload, newId, serverTime);
    assert c'.donations[..|c.donations|] == c.donations || r.Err?;
  }

  /** A premium user is never capped, whatever the count. */
  lemma PremiumNeverCapped(c: Collections, user: AuthUser, payload: NewDonation, newId: string, serverTime: int)
    requires user.uid in c.users && c.users[user.uid].plan == Some(Premium)
    ensures AddDonationStep(c, Some(user), payload, newId, serverTime).0 == Ok(newId)
  {
  }

  /** The new donation's owner does not depend on any `user` or `createdAt` key of the payload. */
  lemma OwnerIgnoresPayload(payload: NewDonation, stray: Option<Owner>, strayTime: Option<int>,
                            user: AuthUser, newId: string, serverTime: int)
    ensures NewDonationDoc(payload.(extraUser := stray, extraCreatedAt := strayTime), user, newId, serverTime)
         == NewDonationDoc(payload, user, newId, serverTime)
  {
  }

  /** Starting at or below the cap, a free user's donation count never goes above it. */
  lemma FreeDonationCountStaysCapped(c: Collections, user: AuthUser, payload: NewDonation, newId: string, serverTime: int)
    requires user.uid in c.users && PlanOrFree(c.users[user.uid].plan) == Free
    requires CountOrZero(c.users[user.uid].donationCount) <= FreeDonationLimit
    ensures var c' := AddDonationStep(c, Some(user), payload, newId, serverTime).1;
            CountOrZero(c'.users[user.uid].donationCount) <= FreeDonationLimit
  {
  }

  /** `addDonation`: one transaction that checks the cap, writes the donation and bumps the count. */
  method AddDonation(db: Backend, currentUser: Option<AuthUser>, payload: NewDonation,
                     newId: string, serverTime: int) returns (r: Result<string, AddError>)
    modifies db
    ensures db.accounts == old(db.accounts)
    ensures (r, Collections(db.users, db.donations))
         == AddDonationStep(Collections(old(db.users), old(db.donations)), currentUser, payload, newId, serverTime)
  {
    if currentUser.None? {
      return Err(NotAuthenticated);
    }
    var user := currentUser.value;
    var doc := if user.uid in db.users then Some(db.users[user.uid]) else None;
    var refusal := DonationGate(doc);
    if refusal.Some? {
      return Err(refusal.value);
    }
    var count := CountOrZero(doc.value.donationCount);
    db.donations := db.donations + [NewDonationDoc(payload, user, newId, serverTime)];
    db.users := db.users[user.uid := WithDonationCount(doc.value, count + 1)];
    r := Ok(newId);
  }

  // ---------------------------------------------------------------------
  // Counting a contact

  datatype IncrementError =
    | MissingUserId   // an empty id; thrown before the transaction
    | UpdateFailed    // a missing user document, or any other failure

  function WithContactCount(doc: UserDoc, count: nat): UserDoc
  {
    doc.(contactCount := Some(count))
  }

  /** The whole effect of `incrementContactCount` on the users collection, and its outcome. */
  function IncrementStep(users: map<string, UserDoc>, userId: string): (Outcome<IncrementError>, map<string, UserDoc>)
  {
    if userId == "" then (Failed(MissingUserId), users)
    else if userId !in users then (Failed(UpdateFailed), users)
    else (Done, users[userId := WithContactCount(users[userId], CountOrZero(users[userId].contactCount) + 1)])
  }

  /**
   * An empty id or a missing document changes nothing; otherwise the
   * contact count goes up by one (absent counts as zero), with no limit,
   * and every other field and every other user is kept.
   */
  lemma IncrementSpec(users: map<string, UserDoc>, userId: string)
    ensures var (out, users') := IncrementStep(users, userId);
            && (userId == "" ==> out == Failed(MissingUserId) && users' == users)
            && (userId != "" && userId !in users ==> out == Failed(UpdateFailed) && users' == users)
            && (userId != "" && userId in users ==>
                  && out == Done
                  && users'.Keys == users.Keys
                  && CountOrZero(users'[userId].contactCount) == CountOrZero(users[userId].contactCount) + 1
                  && users'[userId].(contactCount := users[userId].contactCount) == users[userId]
                  && (forall u :: u in users && u != userId ==> users'[u] == users[u]))
  {
  }

  /** `incrementContactCount`: one transaction that adds one to the contact count. */
  method IncrementContactCount(db: Backend, userId: string) returns (out: Outcome<IncrementError>)
    modifies db
    ensures db.accounts == old(db.accounts) && db.donations == old(db.donations)
    ensures (out, db.users) == IncrementStep(old(db.users), userId)
  {
    if userId == "" {
      return Failed(MissingUserId);
    }
    if userId !in db.users {
      return Failed(UpdateFailed);
    }
    var doc := db.users[userId];
    var current := CountOrZero(doc.contactCount);
    db.users := db.users[userId := WithContactCount(doc, current + 1)];
    out := Done;
  }
}
