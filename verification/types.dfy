/**
 * Shared record shapes of the donation marketplace: the documents of the
 * `users` and `donations` collections as they are stored, the donation as
 * the client sees it, and the signed-in user of the client SDK.
 *
 * A Firestore document may lack any field, so every field that the code
 * reads with a fallback (`|| 0`, `|| 'free'`, `|| ''`) is an Option here.
 */
module Types {

  datatype Option<T> = None | Some(value: T)

  datatype Result<T, E> = Ok(value: T) | Err(error: E)

  /** The outcome of an operation that returns nothing or throws. */
  datatype Outcome<E> = Done | Failed(error: E)

  /** The two plans a user record may name (`'free' | 'premium'`). */
  datatype Plan = Free | Premium

  /** The three donation states `'disponible' | 'en cours' | 'pris'`. */
  datatype DonationStatus = Disponible | EnCours | Pris

  /** The `user` sub-object of a donation: the owner's id and display name. */
  datatype Owner = Owner(id: string, name: string)

  /** The kinds of value Firestore orders after strings, in its ascending type order. */
  datatype LaterKind = Bytes | Reference | GeoPoint | ArrayValue | MapValue

  /**
   * A value a document field may hold, as far as the store's ordering needs
   * it. Numbers are integers here; bytes, references, geopoints, arrays and
   * maps are known by their kind only.
   */
  datatype FieldValue =
    | NullValue
    | BoolValue(b: bool)
    | NumberValue(n: int)
    | TimestampValue(ms: int)
    | StringValue(s: string)
    | LaterValue(kind: LaterKind)

  /**
   * A stored document of the `donations` collection. `createdAt` is None
   * when the document has no such field and otherwise the stored value,
   * which need not be a timestamp; `status` and `isFeatured` are None when
   * the document has no such field.
   */
  datatype DonationDoc = DonationDoc(
    id: string,
    title: string,
    description: string,
    imageUrl: string,
    imageHint: string,
    contact: string,
    user: Owner,
    createdAt: Option<FieldValue>,
    status: Option<DonationStatus>,
    isFeatured: Option<bool>)

  /**
   * A donation as handed to the pages. `createdAt` is the instant in
   * milliseconds that the ISO string stands for; `status` and `isFeatured`
   * are optional because the reader does not always fill them in.
   */
  datatype Donation = Donation(
    id: string,
    title: string,
    description: string,
    imageUrl: string,
    imageHint: string,
    contact: string,
    user: Owner,
    createdAt: int,
    status: Option<DonationStatus>,
    isFeatured: Option<bool>)

  /** A stored document of the `users` collection; every field may be absent. */
  datatype UserDoc = UserDoc(
    id: Option<string>,
    name: Option<string>,
    email: Option<string>,
    plan: Option<Plan>,
    donationCount: Option<nat>,
    contactCount: Option<nat>,
    connectionCode: Option<string>,
    createdAt: Option<int>)

  /** The `UserData` record a page receives: the document id and the stored fields. */
  datatype UserData = UserData(
    id: string,
    name: Option<string>,
    email: Option<string>,
    plan: Option<Plan>,
    donationCount: Option<nat>,
    contactCount: Option<nat>,
    connectionCode: Option<string>)

  /** The client SDK's `auth.currentUser`. */
  datatype AuthUser = AuthUser(uid: string, email: Option<string>, displayName: Option<string>)

  /** An account of the identity provider. */
  datatype Account = Account(email: string, password: string, displayName: Option<string>)

  /** A notification shown by a page: its title and description. */
  datatype Toast = Toast(title: string, description: string)

  function Min(a: nat, b: nat): nat
  {
    if a <= b then a else b
  }

  /** `count || 0`: an absent counter reads as zero. */
  function CountOrZero(count: Option<nat>): (n: nat)
    ensures count.Some? ==> n == count.value
    ensures count.None? ==> n == 0
  {
    match count
    case Some(c) => c
    case None => 0
  }

  /** `plan || 'free'`: an absent plan reads as the free plan. */
  function PlanOrFree(plan: Option<Plan>): (p: Plan)
    ensures p == Premium <==> plan == Some(Premium)
  {
    match plan
    case Some(q) => q
    case None => Free
  }

  /** JavaScript truthiness of an optional string: absent and "" are falsy. */
  predicate Truthy(s: Option<string>)
  {
    s.Some? && s.value != ""
  }

  /** `s || fallback` on an optional string. */
  function OrElse(s: Option<string>, fallback: string): (r: string)
    ensures Truthy(s) ==> r == s.value
    ensures !Truthy(s) ==> r == fallback
  {
    if Truthy(s) then s.value else fallback
  }
}
