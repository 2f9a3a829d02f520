/**
 * The administrator dashboard (src/app/admin/page.tsx): who is an
 * administrator, the redirect gate, the plan and featured buttons, and the
 * handlers that write and then reload the data.
 *
 * `deleteDonation` and `toggleDonationFeaturedStatus` are not defined in
 * src/lib/donations.ts; their outcome is an input and their effect on the
 * store is not modelled. The order in which the store lists the users is an
 * input too.
 */
module Admin {
  import opened Types
  import opened Db
  import Donations
  import User
  import Auth

  const AdminEmails: seq<string> := ["florentinshammeddine@gmail.com", "admin@example.com", "superadmin@example.com"]

  /** `user && ADMIN_EMAILS.includes(user.email || '')`. */
  predicate IsUserAdmin(user: Option<AuthUser>)
  {
    user.Some? && OrElse(user.value.email, "") in AdminEmails
  }

  /** An administrator is a signed-in user whose email is exactly one of the listed ones. */
  lemma AdminIff(user: Option<AuthUser>)
    ensures IsUserAdmin(user) <==> user.Some? && user.value.email.Some? && user.value.email.value in AdminEmails
  {
    assert "" !in AdminEmails;
  }

  /** What the page's effect does once the auth state changes. */
  datatype GateAction = Wait | Redirect | Fetch

  function Gate(authLoading: bool, user: Option<AuthUser>): (a: GateAction)
    ensures a == Wait <==> authLoading
    ensures a == Redirect <==> !authLoading && !IsUserAdmin(user)
    ensures a == Fetch <==> !authLoading && IsUserAdmin(user)
  {
    if authLoading then Wait else if !IsUserAdmin(user) then Redirect else Fetch
  }

  /** The plan the user row's button asks for: premium for a stored free plan, free otherwise. */
  function PlanTarget(plan: Option<Plan>): (p: Plan)
    ensures p == Premium <==> plan == Some(Free)
  {
    if plan == Some(Free) then Premium else Free
  }

  /**
   * A user record as `createUser` writes it has no plan: everywhere else it
   * reads as the free plan, yet its button offers the free plan again.
   */
  lemma NewUserOfferedFreePlan(id: string, name: string, email: string, code: string, now: int)
    ensures PlanOrFree(User.ToUserData(id, Auth.NewUserDoc(name, email, code, now)).plan) == Free
    ensures PlanTarget(User.ToUserData(id, Auth.NewUserDoc(name, email, code, now)).plan) == Free
  {
  }

  /** The flag the featured button sends: the negation of the current one, a missing flag being false. */
  function FeaturedTarget(isFeatured: Option<bool>): (b: bool)
    ensures b <==> isFeatured != Some(true)
  {
    !(match isFeatured case Some(f) => f case None => false)
  }

  /**
   * The dashboard lists the feed as `getDonations` reads it, which never
   * carries the flag: every featured button asks to feature.
   */
  lemma FetchedDonationsAlwaysFeature(docs: seq<DonationDoc>, now: int, i: nat)
    requires i < |Donations.GetDonations(docs, now)|
    ensures FeaturedTarget(Donations.GetDonations(docs, now)[i].isFeatured)
  {
    Donations.FeedCarriesNoModeration(docs, now, i);
  }

  /** The loading view hides the dashboard while auth or the data is loading, and from non-administrators. */
  predicate ShowsLoading(authLoading: bool, loadingData: bool, user: Option<AuthUser>)
  {
    authLoading || loadingData || !IsUserAdmin(user)
  }

  lemma DashboardOnlyForAdmins(authLoading: bool, loadingData: bool, user: Option<AuthUser>)
    ensures !ShowsLoading(authLoading, loadingData, user) ==>
              !authLoading && !loadingData && user.Some? && user.value.email.Some?
              && user.value.email.value in AdminEmails
  {
    AdminIff(user);
  }

  const LoadFailedToast := Toast("Erreur", "Impossible de charger les données.")
  const PlanUpdatedToast := Toast("Succès", "Le plan de l'utilisateur a été mis à jour.")
  const PlanFailedToast := Toast("Erreur", "Impossible de mettre à jour le plan.")
  const DeletedToast := Toast("Succès", "Le don a été supprimé.")
  const DeleteFailedToast := Toast("Erreur", "Impossible de supprimer le don.")
  const FeaturedToast := Toast("Succès", "Le statut du don a été modifié.")
  const FeatureFailedToast := Toast("Erreur", "Impossible de modifier le statut du don.")

  class AdminPage {
    var users: seq<UserData>
    var donations: seq<Donation>
    var loadingData: bool
    var toasts: seq<Toast>
    var route: Option<string>

    constructor ()
      ensures users == [] && donations == [] && loadingData && toasts == [] && route == None
    {
      users := [];
      donations := [];
      loadingData := true;
      toasts := [];
      route := None;
    }

    /**
     * `fetchData`, once both reads have answered: the users and the feed
     * are replaced, or, when a read failed, kept and an error toast shown.
     * Either way loading ends.
     */
    method FetchData(db: Backend, order: seq<string>, now: int, failed: bool)
      requires User.ListsEachIdOnce(order, db.users)
      modifies this`users, this`donations, this`loadingData, this`toasts
      ensures !loadingData
      ensures !failed ==>
                && users == User.GetAllUsers(db.users, order) && donations == Donations.GetDonations(db.donations, now)
                && toasts == old(toasts)
      ensures failed ==> users == old(users) && donations == old(donations) && toasts == old(toasts) + [LoadFailedToast]
    {
      loadingData := true;
      if !failed {
        users := User.GetAllUsers(db.users, order);
        donations := Donations.GetDonations(db.donations, now);
      } else {
        toasts := toasts + [LoadFailedToast];
      }
      loadingData := false;
    }

    /** The effect on the auth state: nothing while loading, a redirect for a non-administrator, else a fetch. */
    method OnAuthChange(db: Backend, authLoading: bool, user: Option<AuthUser>, order: seq<string>, now: int, failed: bool)
      returns (a: GateAction)
      requires User.ListsEachIdOnce(order, db.users)
      modifies this
      ensures a == Gate(authLoading, user)
      ensures a == Wait ==> users == old(users) && donations == old(donations) && route == old(route)
                            && loadingData == old(loadingData) && toasts == old(toasts)
      ensures a == Redirect ==> route == Some("/home") && users == old(users) && donations == old(donations)
                                && loadingData == old(loadingData) && toasts == old(toasts)
      ensures a == Fetch ==> route == old(route) && !loadingData
                             && (!failed ==> users == User.GetAllUsers(db.users, order)
                                             && donations == Donations.GetDonations(db.donations, now)
                                             && toasts == old(toasts))
                             && (failed ==> users == old(users) && donations == old(donations)
                                            && toasts == old(toasts) + [LoadFailedToast])
    {
      a := Gate(authLoading, user);
      if a == Redirect {
        route := Some("/home");
      } else if a == Fetch {
        FetchData(db, order, now, failed);
      }
    }

    /**
     * `handlePlanChange`: writes the plan; on success shows a toast and
     * reloads, which then sees the new plan; on failure only the error
     * toast.
     */
    method HandlePlanChange(db: Backend, userId: string, newPlan: Plan, order: seq<string>, now: int, reloadFailed: bool)
      requires User.ListsEachIdOnce(order, db.users)
      modifies this, db
      ensures db.accounts == old(db.accounts) && db.donations == old(db.donations)
      ensures route == old(route)
      ensures var (out, users') := User.UpdatePlanStep(old(db.users), userId, newPlan);
              && db.users == users'
              && (out == Done ==>
                    && !loadingData
                    && (!reloadFailed ==> toasts == old(toasts) + [PlanUpdatedToast]
                                          && users == User.GetAllUsers(db.users, order)
                                          && donations == Donations.GetDonations(db.donations, now))
                    && (reloadFailed ==> toasts == old(toasts) + [PlanUpdatedToast, LoadFailedToast]
                                         && users == old(users) && donations == old(donations)))
              && (out != Done ==> toasts == old(toasts) + [PlanFailedToast] && users == old(users)
                                  && donations == old(donations) && loadingData == old(loadingData))
    {
      var out := User.UpdateUserPlan(db, userId, newPlan);
      if out == Done {
        toasts := toasts + [PlanUpdatedToast];
        FetchData(db, order, now, reloadFailed);
      } else {
        toasts := toasts + [PlanFailedToast];
      }
    }

    /** `handleDeleteDonation`, given whether the deletion was refused. */
    method HandleDeleteDonation(db: Backend, donationId: string, deleteFailed: bool, order: seq<string>, now: int, reloadFailed: bool)
      requires User.ListsEachIdOnce(order, db.users)
      modifies this
      ensures route == old(route)
      ensures !deleteFailed ==> !loadingData
      ensures !deleteFailed && !reloadFailed ==>
                && users == User.GetAllUsers(db.users, order) && donations == Donations.GetDonations(db.donations, now)
                && toasts == old(toasts) + [DeletedToast]
      ensures !deleteFailed && reloadFailed ==>
                && users == old(users) && donations == old(donations)
                && toasts == old(toasts) + [DeletedToast, LoadFailedToast]
      ensures deleteFailed ==> toasts == old(toasts) + [DeleteFailedToast] && users == old(users)
                               && donations == old(donations) && loadingData == old(loadingData)
    {
      if !deleteFailed {
        toasts := toasts + [DeletedToast];
        FetchData(db, order, now, reloadFailed);
      } else {
        toasts := toasts + [DeleteFailedToast];
      }
    }

    /**
     * `handleToggleFeatured`, given whether the change was refused; returns
     * the flag it asked for, the negation of the current one.
     */
    method HandleToggleFeatured(db: Backend, donationId: string, currentStatus: bool, toggleFailed: bool,
                                order: seq<string>, now: int, reloadFailed: bool)
      returns (requested: bool)
      requires User.ListsEachIdOnce(order, db.users)
      modifies this
      ensures requested == !currentStatus
      ensures route == old(route)
      ensures !toggleFailed ==> !loadingData
      ensures !toggleFailed && !reloadFailed ==>
                && users == User.GetAllUsers(db.users, order) && donations == Donations.GetDonations(db.donations, now)
                && toasts == old(toasts) + [FeaturedToast]
      ensures !toggleFailed && reloadFailed ==>
                && users == old(users) && donations == old(donations)
                && toasts == old(toasts) + [FeaturedToast, LoadFailedToast]
      ensures toggleFailed ==> toasts == old(toasts) + [FeatureFailedToast] && users == old(users)
                               && donations == old(donations) && loadingData == old(loadingData)
    {
      requested := !currentStatus;
      if !toggleFailed {
        toasts := toasts + [FeaturedToast];
        FetchData(db, order, now, reloadFailed);
      } else {
        toasts := toasts + [FeatureFailedToast];
      }
    }
  }
}
