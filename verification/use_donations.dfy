/**
 * The shared donations feed of the client (src/hooks/use-donations.ts): one
 * cache, one registry of listeners and one `isFetching` guard for the whole
 * page, and the components that subscribe to it.
 *
 * A fetch is asynchronous, so it is split into the call that starts it
 * (`BeginFetch`) and the moment the store's answer arrives
 * (`CompleteFetch`). Each listener closure is identified by the number the
 * hub handed out when the component subscribed; what the closure does, set
 * the component's `donations` and clear its `loading`, is applied to that
 * component's `View`.
 */
module UseDonations {
  import opened Types
  import opened Sequences
  import Db
  import Donations

  /** The state of one subscribed component: its `donations` and `loading`. */
  datatype View = View(donations: seq<Donation>, loading: bool)

  /** `listeners.filter(l => l !== listener)`. */
  function RemoveListener(ls: seq<nat>, id: nat): (r: seq<nat>)
    ensures forall x :: x in r <==> x in ls && x != id
    ensures |r| <= |ls|
  {
    if ls == [] then []
    else if ls[0] == id then RemoveListener(ls[1..], id)
    else [ls[0]] + RemoveListener(ls[1..], id)
  }

  /** Unsubscribing keeps the other listeners in their registration order. */
  lemma {:induction false} RemoveListenerKeepsOrder(ls: seq<nat>, id: nat)
    ensures IsSubsequence(RemoveListener(ls, id), ls)
  {
    if ls == [] {
      EmptyIsSubsequence(ls);
    } else {
      RemoveListenerKeepsOrder(ls[1..], id);
      if ls[0] == id {
        SubsequenceOfTail(RemoveListener(ls[1..], id), ls);
      } else {
        SubsequenceCons(ls[0], RemoveListener(ls[1..], id), ls[1..]);
        assert [ls[0]] + ls[1..] == ls;
      }
    }
  }

  /** Removing a listener that is not registered changes nothing. */
  lemma {:induction false} RemoveAbsentListener(ls: seq<nat>, id: nat)
    requires id !in ls
    ensures RemoveListener(ls, id) == ls
  {
    if ls != [] {
      RemoveAbsentListener(ls[1..], id);
      assert [ls[0]] + ls[1..] == ls;
    }
  }

  /** Unsubscribing right after subscribing restores the registry. */
  lemma {:induction false} UnsubscribeUndoesSubscribe(ls: seq<nat>, id: nat)
    requires id !in ls
    ensures RemoveListener(ls + [id], id) == ls
  {
    if ls == [] {
      assert [id][1..] == [];
    } else {
      assert (ls + [id])[1..] == ls[1..] + [id];
      UnsubscribeUndoesSubscribe(ls[1..], id);
      assert [ls[0]] + ls[1..] == ls;
    }
  }

  class DonationsHub {
    var cache: seq<Donation>       // donationsCache
    var listeners: seq<nat>        // the registered listener closures, in registration order
    var isFetching: bool
    var views: map<nat, View>      // the state of every component that subscribed
    var delivered: seq<nat>        // every listener call so far, in call order
    var nextId: nat                // the next number to hand to a subscriber

    /** Every registered listener belongs to a component and was handed out before. */
    ghost predicate Valid()
      reads this
    {
      && (forall k :: k in views ==> k < nextId)
      && (forall l :: l in listeners ==> l in views)
    }

    /** The module's initial state: an empty cache, no listener, no fetch running. */
    constructor ()
      ensures Valid()
      ensures cache == [] && listeners == [] && !isFetching
      ensures views == map[] && delivered == [] && nextId == 0
    {
      cache := [];
      listeners := [];
      isFetching := false;
      views := map[];
      delivered := [];
      nextId := 0;
    }

    /**
     * `notifyListeners`: calls every registered listener with the cache, in
     * registration order; each one sets its component's donations and
     * clears its loading flag.
     */
    method NotifyListeners()
      requires Valid()
      modifies this`views, this`delivered
      ensures Valid()
      ensures delivered == old(delivered) + listeners
      ensures views.Keys == old(views).Keys
      ensures forall k :: k in views ==> views[k] == if k in listeners then View(cache, false) else old(views)[k]
    {
      var i := 0;
      while i < |listeners|
        invariant 0 <= i <= |listeners|
        invariant delivered == old(delivered) + listeners[..i]
        invariant views.Keys == old(views).Keys
        invariant forall k :: k in views ==> views[k] == if k in listeners[..i] then View(cache, false) else old(views)[k]
      {
        var l := listeners[i];
        views := views[l := View(cache, false)];
        delivered := delivered + [l];
        assert listeners[..i + 1] == listeners[..i] + [l];
        i := i + 1;
      }
      assert listeners[..i] == listeners;
    }

    /**
     * The synchronous part of `fetchAndCacheDonations` (and so of
     * `triggerDonationsUpdate`): nothing happens while a fetch is running;
     * otherwise the guard is raised and a fetch starts.
     */
    method BeginFetch() returns (started: bool)
      modifies this`isFetching
      ensures started == !old(isFetching)
      ensures isFetching
    {
      if isFetching {
        return false;
      }
      isFetching := true;
      started := true;
    }

    /**
     * The rest of `fetchAndCacheDonations`, when `getDonations` answers:
     * unless it failed, the cache becomes the store's feed at time `now` and
     * every listener is notified; either way the guard is lowered.
     */
    method CompleteFetch(db: Db.Backend, now: int, failed: bool)
      requires Valid() && isFetching
      modifies this`cache, this`isFetching, this`views, this`delivered
      ensures Valid() && !isFetching
      ensures failed ==> cache == old(cache) && views == old(views) && delivered == old(delivered)
      ensures !failed ==>
                && cache == Donations.GetDonations(db.donations, now)
                && delivered == old(delivered) + listeners
                && views.Keys == old(views).Keys
                && forall k :: k in views ==> views[k] == if k in listeners then View(cache, false) else old(views)[k]
    {
      if !failed {
        cache := Donations.GetDonations(db.donations, now);
        NotifyListeners();
      }
      isFetching := false;
    }

    /**
     * The mount effect of `useDonations`: the component starts from the
     * cache, registers its listener and, when the cache is empty, shows
     * loading and asks for a fetch (which the guard may turn into a no-op).
     */
    method Subscribe() returns (id: nat, fetchStarted: bool)
      requires Valid()
      modifies this
      ensures Valid()
      ensures id !in old(listeners) && id !in old(views)
      ensures listeners == old(listeners) + [id]
      ensures views == old(views)[id := View(old(cache), |old(cache)| == 0)]
      ensures fetchStarted == (|old(cache)| == 0 && !old(isFetching))
      ensures isFetching == (old(isFetching) || |old(cache)| == 0)
      ensures cache == old(cache) && delivered == old(delivered)
    {
      id := nextId;
      nextId := nextId + 1;
      listeners := listeners + [id];
      views := views[id := View(cache, |cache| == 0)];
      fetchStarted := false;
      if |cache| == 0 {
        fetchStarted := BeginFetch();
      }
    }

    /**
     * The cleanup of `useDonations`: the component's listener leaves the
     * registry; the other listeners keep their order.
     */
    method Unsubscribe(id: nat)
      requires Valid()
      modifies this`listeners
      ensures Valid()
      ensures listeners == RemoveListener(old(listeners), id)
      ensures id !in listeners && IsSubsequence(listeners, old(listeners))
    {
      RemoveListenerKeepsOrder(listeners, id);
      listeners := RemoveListener(listeners, id);
    }
  }
}
