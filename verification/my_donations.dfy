/**
 * The "Mes dons" page (src/app/my-donations/page.tsx): the signed-in user's
 * donations taken from the shared feed, and the optimistic status change.
 *
 * `updateDonationStatus` is not defined in src/lib/donations.ts; its
 * outcome is an input.
 */
module MyDonations {
  import opened Types
  import opened Sequences
  import Donations
  import UseDonations

  /** The donations of `ds` whose owner is `uid`, in feed order. */
  function OwnedDonations(ds: seq<Donation>, uid: string): (r: seq<Donation>)
    ensures forall d :: d in r <==> d in ds && d.user.id == uid
    ensures forall d :: multiset(r)[d] == if d.user.id == uid then multiset(ds)[d] else 0
  {
    if ds == [] then []
    else
      assert ds == [ds[0]] + ds[1..];
      if ds[0].user.id == uid then [ds[0]] + OwnedDonations(ds[1..], uid)
      else OwnedDonations(ds[1..], uid)
  }

  lemma {:induction false} OwnedDonationsKeepOrder(ds: seq<Donation>, uid: string)
    ensures IsSubsequence(OwnedDonations(ds, uid), ds)
  {
    if ds == [] {
      EmptyIsSubsequence(ds);
    } else {
      OwnedDonationsKeepOrder(ds[1..], uid);
      if ds[0].user.id == uid {
        SubsequenceCons(ds[0], OwnedDonations(ds[1..], uid), ds[1..]);
        assert [ds[0]] + ds[1..] == ds;
      } else {
        SubsequenceOfTail(OwnedDonations(ds[1..], uid), ds);
      }
    }
  }

  lemma MapAllCons(d: DonationDoc, docs: seq<DonationDoc>, now: int)
    ensures Donations.MapAll([d] + docs, now) == [Donations.MapDocToDonation(d, now)] + Donations.MapAll(docs, now)
  {
  }

  /** Filtering the client views by owner is filtering the stored documents by owner, then mapping them. */
  lemma {:induction false} OwnedViews(docs: seq<DonationDoc>, uid: string, now: int)
    ensures OwnedDonations(Donations.MapAll(docs, now), uid) == Donations.MapAll(Donations.OwnedBy(docs, uid), now)
  {
    if docs != [] {
      var d, rest := docs[0], docs[1..];
      assert docs == [d] + rest;
      var views := Donations.MapAll(docs, now);
      var v := Donations.MapDocToDonation(d, now);
      MapAllCons(d, rest, now);
      assert views[0] == v && views[1..] == Donations.MapAll(rest, now);
      assert OwnedDonations(views, uid)
          == if v.user.id == uid then [v] + OwnedDonations(views[1..], uid) else OwnedDonations(views[1..], uid);
      OwnedViews(rest, uid, now);
      Donations.OwnedByCons(d, rest, uid);
      if d.user.id == uid {
        MapAllCons(d, Donations.OwnedBy(rest, uid), now);
      }
    }
  }

  /**
   * The user's donations taken from the shared feed are exactly what
   * `getDonationsByUser` would read for that user, in the same order.
   */
  lemma OwnedFeedIsByUser(docs: seq<DonationDoc>, uid: string, now: int)
    ensures OwnedDonations(Donations.GetDonations(docs, now), uid) == Donations.GetDonationsByUser(docs, uid, now)
  {
    var dated := Donations.WithCreatedAt(docs);
    Donations.OwnedByWithCreatedAt(docs, uid);
    Donations.OwnedBySort(dated, uid);
    OwnedViews(Donations.SortNewestFirst(dated), uid, now);
  }

  /** The page's effect on `[user, donations]`: the user's own donations, or none. */
  function OwnerFilter(user: Option<AuthUser>, donations: seq<Donation>): (r: seq<Donation>)
    ensures user.None? || donations == [] ==> r == []
    ensures user.Some? ==> forall d :: d in r <==> d in donations && d.user.id == user.value.uid
    ensures user.Some? ==> forall d :: multiset(r)[d] == if d.user.id == user.value.uid then multiset(donations)[d] else 0
  {
    if user.Some? && |donations| > 0 then OwnedDonations(donations, user.value.uid) else []
  }

  /** The optimistic update: the donation with that id gets the new status. */
  function SetStatus(ds: seq<Donation>, id: string, status: DonationStatus): (r: seq<Donation>)
    ensures |r| == |ds|
  {
    seq(|ds|, i requires 0 <= i < |ds| => if ds[i].id == id then ds[i].(status := Some(status)) else ds[i])
  }

  /**
   * Only the entries with the given id change, and only in their status;
   * when no entry has the id the list is unchanged; setting the same
   * status twice is setting it once.
   */
  lemma SetStatusSpec(ds: seq<Donation>, id: string, status: DonationStatus)
    ensures var r := SetStatus(ds, id, status);
            && |r| == |ds|
            && (forall i :: 0 <= i < |ds| && ds[i].id == id ==> r[i].status == Some(status) && r[i].(status := ds[i].status) == ds[i])
            && (forall i :: 0 <= i < |ds| && ds[i].id != id ==> r[i] == ds[i])
            && SetStatus(r, id, status) == r
    ensures (forall i :: 0 <= i < |ds| ==> ds[i].id != id) ==> SetStatus(ds, id, status) == ds
  {
  }

  /**
   * Once a refresh of the feed has come back, the page lists the user's
   * donations with no status at all: the feed's reader does not copy it,
   * so an optimistic status lasts only until the next refresh.
   */
  lemma RefreshClearsStatus(docs: seq<DonationDoc>, now: int, user: AuthUser)
    ensures forall d :: d in OwnerFilter(Some(user), Donations.GetDonations(docs, now)) ==> d.status == None
  {
    var feed := Donations.GetDonations(docs, now);
    forall d | d in OwnerFilter(Some(user), feed)
      ensures d.status == None
    {
      var i :| 0 <= i < |feed| && feed[i] == d;
      Donations.FeedCarriesNoModeration(docs, now, i);
    }
  }

  const StatusUpdatedToast := Toast("Statut mis à jour", "Le statut de votre don a été modifié.")
  const StatusFailedToast := Toast("Erreur", "Impossible de mettre à jour le statut du don.")

  class MyDonationsPage {
    var userDonations: seq<Donation>
    var toasts: seq<Toast>

    constructor ()
      ensures userDonations == [] && toasts == []
    {
      userDonations := [];
      toasts := [];
    }

    /** The effect that runs when the user or the feed changes. */
    method OnFeedChange(user: Option<AuthUser>, donations: seq<Donation>)
      modifies this`userDonations
      ensures userDonations == OwnerFilter(user, donations)
    {
      if user.Some? && |donations| > 0 {
        userDonations := OwnedDonations(donations, user.value.uid);
      } else {
        userDonations := [];
      }
    }

    /**
     * `handleStatusChange`: the list is updated first; then, whether the
     * store accepts the change or not, a refresh of the shared feed is
     * requested. Only the toast tells the two paths apart.
     */
    method HandleStatusChange(hub: UseDonations.DonationsHub, id: string, status: DonationStatus, updateFailed: bool)
      returns (refreshStarted: bool)
      modifies this`userDonations, this`toasts, hub`isFetching
      ensures userDonations == SetStatus(old(userDonations), id, status)
      ensures hub.isFetching && refreshStarted == !old(hub.isFetching)
      ensures toasts == old(toasts) + [if updateFailed then StatusFailedToast else StatusUpdatedToast]
    {
      userDonations := SetStatus(userDonations, id, status);
      if !updateFailed {
        refreshStarted := hub.BeginFetch();
        toasts := toasts + [StatusUpdatedToast];
      } else {
        toasts := toasts + [StatusFailedToast];
        refreshStarted := hub.BeginFetch();
      }
    }
  }
}
