/**
 * The liked-listings page: the catalogue listings whose ids the browser's
 * storage holds, and unliking, which removes the listing from the page and
 * its id from the stored list.
 */
module LikedListings {
  import opened Wrappers
  import opened Seqs
  import opened Listings

  /** The catalogue's listings whose id is among the liked ids, in catalogue order. */
  function LikedOf(catalogue: seq<Listing>, ids: seq<string>): (r: seq<Listing>)
    ensures IsSubsequence(r, catalogue)
    ensures forall l :: l in r <==> l in catalogue && l.id in ids
    ensures forall l :: multiset(r)[l] == if l.id in ids then multiset(catalogue)[l] else 0
  {
    FilterIsSubsequence(catalogue, (l: Listing) => l.id in ids);
    assert forall l :: multiset(Filter(catalogue, (l: Listing) => l.id in ids))[l] ==
                         if l.id in ids then multiset(catalogue)[l] else 0 by {
      forall l {
        FilterCount(catalogue, (l: Listing) => l.id in ids, l);
      }
    }
    Filter(catalogue, (l: Listing) => l.id in ids)
  }

  /**
   * A listing liked several times is still shown once: with catalogue ids
   * distinct, no two shown listings share an id.
   */
  lemma LikedOnce(catalogue: seq<Listing>, ids: seq<string>)
    requires DistinctKeys(catalogue, (l: Listing) => l.id)
    ensures DistinctKeys(LikedOf(catalogue, ids), (l: Listing) => l.id)
  {
    FilterKeepsDistinct(catalogue, (l: Listing) => l.id in ids, (l: Listing) => l.id);
  }

  /** The mount effect: a parsed list selects the liked listings; otherwise none are loaded. */
  function Loaded(catalogue: seq<Listing>, storage: Stored): (r: Option<seq<Listing>>)
    ensures r.Some? <==> storage.Ids?
    ensures r.Some? ==> r.value == LikedOf(catalogue, storage.ids)
  {
    if storage.Ids? then Some(LikedOf(catalogue, storage.ids)) else None
  }

  /** `likedIds.filter((likedId) => likedId !== id)`: every copy of `id` goes, every other id stays. */
  function RemoveId(ids: seq<string>, id: string): (r: seq<string>)
    ensures IsSubsequence(r, ids)
    ensures id !in r
    ensures forall y :: y in r <==> y in ids && y != id
    ensures forall y :: y != id ==> multiset(r)[y] == multiset(ids)[y]
    ensures id !in ids ==> r == ids
  {
    FilterIsSubsequence(ids, (x: string) => x != id);
    assert forall y :: y != id ==> multiset(Filter(ids, (x: string) => x != id))[y] == multiset(ids)[y] by {
      forall y {
        FilterCount(ids, (x: string) => x != id, y);
      }
    }
    assert id !in ids ==> Filter(ids, (x: string) => x != id) == ids by {
      if id !in ids {
        FilterAll(ids, (x: string) => x != id);
      }
    }
    Filter(ids, (x: string) => x != id)
  }

  /** The shown list without the unliked listing: the others stay, in order. */
  function WithoutListing(liked: seq<Listing>, id: string): (r: seq<Listing>)
    ensures IsSubsequence(r, liked)
    ensures forall l :: l in r <==> l in liked && l.id != id
    ensures forall l: Listing :: l.id != id ==> multiset(r)[l] == multiset(liked)[l]
  {
    FilterIsSubsequence(liked, (l: Listing) => l.id != id);
    assert forall l: Listing :: l.id != id ==> multiset(Filter(liked, (l: Listing) => l.id != id))[l] == multiset(liked)[l] by {
      forall l {
        FilterCount(liked, (l: Listing) => l.id != id, l);
      }
    }
    Filter(liked, (l: Listing) => l.id != id)
  }

  /** The storage entry after unliking: only a parsed list is rewritten. */
  function StoredAfterUnlike(storage: Stored, id: string): (r: Stored)
    ensures !storage.Ids? ==> r == storage
    ensures storage.Ids? ==> r == Ids(RemoveId(storage.ids, id))
  {
    if storage.Ids? then Ids(RemoveId(storage.ids, id)) else storage
  }

  /**
   * Unliking and then reloading the page shows what the page showed right
   * after unliking: the stored list and the shown list stay in step.
   */
  lemma {:induction false} UnlikeThenReload(catalogue: seq<Listing>, ids: seq<string>, id: string)
    ensures LikedOf(catalogue, RemoveId(ids, id)) == WithoutListing(LikedOf(catalogue, ids), id)
  {
    var inIds := (l: Listing) => l.id in ids;
    var other := (l: Listing) => l.id != id;
    var both := (l: Listing) => l.id in ids && l.id != id;
    FilterFuse(catalogue, inIds, other, both);
    var rest := RemoveId(ids, id);
    FilterCongruent(catalogue, (l: Listing) => l.id in rest, both);
    FilterCongruent(catalogue, (l: Listing) => l.id in ids, inIds);
    FilterCongruent(LikedOf(catalogue, ids), (l: Listing) => l.id != id, other);
  }

  /** A listing liked on the swipe page is shown on this page once it reloads. */
  lemma SwipedShown(catalogue: seq<Listing>, s: PageState, l: Listing)
    requires l in catalogue
    ensures var after := SwipedRight(s, l.id);
            after.storage.Ids? && l in LikedOf(catalogue, after.storage.ids)
  {
  }

  /** The page: the shown listings as a state hook and the storage entry as a field. */
  class LikedPage {
    var likedListings: seq<Listing>
    var storage: Stored

    /** The first render, followed by the mount effect that loads the liked listings. */
    constructor(catalogue: seq<Listing>, storage: Stored)
      ensures this.storage == storage
      ensures likedListings == Loaded(catalogue, storage).GetOr([])
    {
      this.storage := storage;
      likedListings := [];
      new;
      if storage.Ids? {
        likedListings := LikedOf(catalogue, storage.ids);
      }
    }

    /** `handleUnlike`. */
    method Unlike(id: string)
      modifies this
      ensures likedListings == WithoutListing(old(likedListings), id)
      ensures storage == StoredAfterUnlike(old(storage), id)
    {
      likedListings := WithoutListing(likedListings, id);
      if storage.Ids? {
        storage := Ids(RemoveId(storage.ids, id));
      }
    }
  }
}
