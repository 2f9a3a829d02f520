/**
 * The contact button of a donation card (src/components/donation-card.tsx):
 * who may see a donor's contact details, when the free plan's three
 * contacts are used up, and the counting of a contact in the store.
 *
 * The card reads `userData` and `refreshUserData` from the auth context,
 * which the context (src/hooks/use-auth.tsx) does not provide; here
 * `userData` is an input, and a refresh request is recorded for whoever
 * supplies it.
 */
module DonationCard {
  import opened Types
  import opened Db
  import Donations
  import User

  const FreeContactLimit: nat := 3

  /** What `handleContact` decides before touching the store. */
  datatype ContactDecision =
    | AskLogin       // the "Connexion requise" toast
    | Reveal         // a paid plan: nothing is counted
    | OfferUpgrade   // a free plan with its contacts used up
    | Increment      // a free plan with contacts left: count this one

  function Decide(isLoggedIn: bool, user: Option<AuthUser>, userData: Option<UserData>): (d: ContactDecision)
    ensures d == AskLogin <==> !isLoggedIn || user.None? || userData.None?
    ensures d == Reveal <==> isLoggedIn && user.Some? && userData.Some? && PlanOrFree(userData.value.plan) != Free
    ensures d == OfferUpgrade <==>
              && isLoggedIn && user.Some? && userData.Some? && PlanOrFree(userData.value.plan) == Free
              && CountOrZero(userData.value.contactCount) >= FreeContactLimit
    ensures d == Increment <==>
              && isLoggedIn && user.Some? && userData.Some? && PlanOrFree(userData.value.plan) == Free
              && CountOrZero(userData.value.contactCount) < FreeContactLimit
  {
    if !isLoggedIn || user.None? || userData.None? then AskLogin
    else if PlanOrFree(userData.value.plan) != Free then Reveal
    else if CountOrZero(userData.value.contactCount) >= FreeContactLimit then OfferUpgrade
    else Increment
  }

  /** A missing plan counts as free and a missing contact count as zero. */
  lemma MissingFieldsMeanFreshFreeUser(user: AuthUser, data: UserData)
    requires data.plan.None? && data.contactCount.None?
    ensures Decide(true, Some(user), Some(data)) == Increment
  {
  }

  /**
   * The auth context supplies no `userData`, so as the provider stands every
   * press asks the user to log in, whatever the login state.
   */
  lemma NoUserDataAsksLogin(isLoggedIn: bool, user: Option<AuthUser>)
    ensures Decide(isLoggedIn, user, None) == AskLogin
  {
  }

  const LoginRequiredToast := Toast("Connexion requise", "Vous devez être connecté pour contacter un donateur.")
  const CountFailedToast := Toast("Erreur", "Impossible de mettre à jour votre nombre de contacts.")

  class Card {
    var contactDialogOpen: bool      // the dialog that shows the donor's contact
    var showUpgradeDialog: bool
    var toasts: seq<Toast>           // every toast shown, in order
    var refreshRequests: nat         // calls of `refreshUserData`
    var route: Option<string>        // the last `router.push` target

    constructor ()
      ensures !contactDialogOpen && !showUpgradeDialog && toasts == [] && refreshRequests == 0 && route == None
    {
      contactDialogOpen := false;
      showUpgradeDialog := false;
      toasts := [];
      refreshRequests := 0;
      route := None;
    }

    /**
     * A press of the contact button, which is the trigger of the contact
     * dialog: the dialog opens on every press, whatever `handleContact`
     * decides, since the handler never cancels the trigger. Only a free
     * user with contacts left reaches the store, through
     * `incrementContactCount`; a counted contact asks for a refresh, a
     * failed one shows the error toast instead.
     */
    method HandleContact(db: Backend, isLoggedIn: bool, user: Option<AuthUser>, userData: Option<UserData>)
      returns (d: ContactDecision)
      modifies this, db
      ensures d == Decide(isLoggedIn, user, userData)
      ensures db.accounts == old(db.accounts) && db.donations == old(db.donations)
      ensures route == old(route)
      ensures contactDialogOpen
      ensures d == AskLogin ==>
                && toasts == old(toasts) + [LoginRequiredToast] && db.users == old(db.users)
                && showUpgradeDialog == old(showUpgradeDialog) && refreshRequests == old(refreshRequests)
      ensures d == Reveal ==>
                && toasts == old(toasts) && db.users == old(db.users)
                && showUpgradeDialog == old(showUpgradeDialog) && refreshRequests == old(refreshRequests)
      ensures d == OfferUpgrade ==>
                && toasts == old(toasts) && db.users == old(db.users)
                && showUpgradeDialog && refreshRequests == old(refreshRequests)
      ensures d == Increment ==>
                && showUpgradeDialog == old(showUpgradeDialog)
                && var (out, users') := Donations.IncrementStep(old(db.users), user.value.uid);
                   && db.users == users'
                   && (out == Done ==> refreshRequests == old(refreshRequests) + 1 && toasts == old(toasts))
                   && (out != Done ==> refreshRequests == old(refreshRequests) && toasts == old(toasts) + [CountFailedToast])
    {
      d := Decide(isLoggedIn, user, userData);
      contactDialogOpen := true;
      if d == AskLogin {
        toasts := toasts + [LoginRequiredToast];
      } else if d == Reveal {
      } else if d == OfferUpgrade {
        showUpgradeDialog := true;
      } else {
        var out := Donations.IncrementContactCount(db, user.value.uid);
        if out == Done {
          refreshRequests := refreshRequests + 1;
        } else {
          toasts := toasts + [CountFailedToast];
        }
      }
    }

    /** `handleGoToPlan`: closes the upgrade dialog and goes to the plan page. */
    method HandleGoToPlan()
      modifies this
      ensures !showUpgradeDialog && route == Some("/plan")
      ensures toasts == old(toasts) && refreshRequests == old(refreshRequests)
      ensures contactDialogOpen == old(contactDialogOpen)
    {
      showUpgradeDialog := false;
      route := Some("/plan");
    }
  }

  // ---------------------------------------------------------------------
  // Contacts one after another

  /**
   * The users collection after `n` presses of the contact button by `user`,
   * each press seeing the record as the store holds it at that moment (the
   * refresh after a counted contact reloads it).
   */
  function ContactRun(users: map<string, UserDoc>, user: AuthUser, n: nat): map<string, UserDoc>
    decreases n
  {
    if n == 0 then users
    else
      var data := if user.uid in users then Some(User.ToUserData(user.uid, users[user.uid])) else None;
      if Decide(true, Some(user), data) == Increment
      then ContactRun(Donations.IncrementStep(users, user.uid).1, user, n - 1)
      else ContactRun(users, user, n - 1)
  }

  /**
   * Pressed one after another, the contacts of a free user stop being
   * counted at the limit: from a count c below it, n presses leave
   * min(3, c + n); the record keeps its plan.
   */
  lemma {:induction false} ContactsStopAtLimit(users: map<string, UserDoc>, user: AuthUser, n: nat)
    requires user.uid != "" && user.uid in users
    requires PlanOrFree(users[user.uid].plan) == Free
    requires CountOrZero(users[user.uid].contactCount) <= FreeContactLimit
    ensures user.uid in ContactRun(users, user, n)
    ensures ContactRun(users, user, n)[user.uid].plan == users[user.uid].plan
    ensures CountOrZero(ContactRun(users, user, n)[user.uid].contactCount)
            == Min(FreeContactLimit, CountOrZero(users[user.uid].contactCount) + n)
  {
    if n > 0 {
      var c := CountOrZero(users[user.uid].contactCount);
      if c < FreeContactLimit {
        Donations.IncrementSpec(users, user.uid);
        var users' := Donations.IncrementStep(users, user.uid).1;
        ContactsStopAtLimit(users', user, n - 1);
      } else {
        ContactsStopAtLimit(users, user, n - 1);
      }
    }
  }

  /** The contacts of a paid plan are never counted. */
  lemma {:induction false} PaidContactsNotCounted(users: map<string, UserDoc>, user: AuthUser, n: nat)
    requires user.uid in users && users[user.uid].plan == Some(Premium)
    ensures ContactRun(users, user, n) == users
  {
    if n > 0 {
      PaidContactsNotCounted(users, user, n - 1);
    }
  }
}
