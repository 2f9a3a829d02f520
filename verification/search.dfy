/**
 * The search page's filter (src/app/search/page.tsx): a donation is shown
 * when its title or its description, lowercased, contains the lowercased
 * search term; an empty term shows nothing.
 */
module Search {
  import opened Types
  import opened Text
  import opened Sequences

  predicate MatchesTerm(d: Donation, term: string)
  {
    Contains(Lower(d.title), Lower(term)) || Contains(Lower(d.description), Lower(term))
  }

  /** The donations of `ds` that match `term`, in their order. */
  function KeepMatching(ds: seq<Donation>, term: string): (r: seq<Donation>)
    ensures forall d :: d in r <==> d in ds && MatchesTerm(d, term)
    ensures forall d :: multiset(r)[d] == if MatchesTerm(d, term) then multiset(ds)[d] else 0
  {
    if ds == [] then []
    else
      assert ds == [ds[0]] + ds[1..];
      if MatchesTerm(ds[0], term) then [ds[0]] + KeepMatching(ds[1..], term)
      else KeepMatching(ds[1..], term)
  }

  /** `filteredDonations`. */
  function Filtered(ds: seq<Donation>, term: string): (r: seq<Donation>)
    ensures term == [] ==> r == []
    ensures term != [] ==> forall d :: d in r <==> d in ds && MatchesTerm(d, term)
    ensures term != [] ==> forall d :: multiset(r)[d] == if MatchesTerm(d, term) then multiset(ds)[d] else 0
  {
    if term == [] then [] else KeepMatching(ds, term)
  }

  /** The result keeps the feed's order. */
  lemma {:induction false} FilteredIsSubsequence(ds: seq<Donation>, term: string)
    ensures IsSubsequence(Filtered(ds, term), ds)
  {
    if term == [] {
      EmptyIsSubsequence(ds);
    } else {
      KeepMatchingIsSubsequence(ds, term);
    }
  }

  lemma {:induction false} KeepMatchingIsSubsequence(ds: seq<Donation>, term: string)
    ensures IsSubsequence(KeepMatching(ds, term), ds)
  {
    if ds == [] {
      EmptyIsSubsequence(ds);
    } else {
      KeepMatchingIsSubsequence(ds[1..], term);
      if MatchesTerm(ds[0], term) {
        SubsequenceCons(ds[0], KeepMatching(ds[1..], term), ds[1..]);
        assert [ds[0]] + ds[1..] == ds;
      } else {
        SubsequenceOfTail(KeepMatching(ds[1..], term), ds);
      }
    }
  }

  /** Two terms that match the same donations select the same list. */
  lemma {:induction false} KeepMatchingAgree(ds: seq<Donation>, t: string, u: string)
    requires forall d :: MatchesTerm(d, t) == MatchesTerm(d, u)
    ensures KeepMatching(ds, t) == KeepMatching(ds, u)
  {
    if ds != [] {
      KeepMatchingAgree(ds[1..], t, u);
    }
  }

  /** Typing the term in capitals or in small letters changes nothing (ASCII letters). */
  lemma CaseInsensitive(ds: seq<Donation>, term: string)
    ensures Filtered(ds, Upper(term)) == Filtered(ds, term)
    ensures Filtered(ds, Lower(term)) == Filtered(ds, term)
  {
    LowerOfUpper(term);
    LowerIdempotent(term);
    KeepMatchingAgree(ds, Upper(term), term);
    KeepMatchingAgree(ds, Lower(term), term);
  }

  /** If P-matches imply Q-matches, the P-selection is a subsequence of the Q-selection. */
  lemma {:induction false} KeepMatchingNarrows(ds: seq<Donation>, longer: string, shorter: string)
    requires forall d :: MatchesTerm(d, longer) ==> MatchesTerm(d, shorter)
    ensures IsSubsequence(KeepMatching(ds, longer), KeepMatching(ds, shorter))
  {
    if ds == [] {
      EmptyIsSubsequence(KeepMatching(ds, shorter));
    } else {
      KeepMatchingNarrows(ds[1..], longer, shorter);
      var a := KeepMatching(ds[1..], longer);
      var b := KeepMatching(ds[1..], shorter);
      if MatchesTerm(ds[0], longer) {
        SubsequenceCons(ds[0], a, b);
      } else if MatchesTerm(ds[0], shorter) {
        SubsequenceOfTail(a, [ds[0]] + b);
        assert ([ds[0]] + b)[1..] == b;
      }
    }
  }

  /** Typing more characters after a non-empty term can only narrow the result. */
  lemma Narrowing(ds: seq<Donation>, t: string, s: string)
    requires t != []
    ensures IsSubsequence(Filtered(ds, t + s), Filtered(ds, t))
  {
    LowerAppend(t, s);
    forall d | MatchesTerm(d, t + s)
      ensures MatchesTerm(d, t)
    {
      if Contains(Lower(d.title), Lower(t) + Lower(s)) {
        ContainsPrefixOfNeedle(Lower(d.title), Lower(t), Lower(s));
      } else {
        ContainsPrefixOfNeedle(Lower(d.description), Lower(t), Lower(s));
      }
    }
    KeepMatchingNarrows(ds, t + s, t);
  }
}
