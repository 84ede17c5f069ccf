/**
 * The listings prototype's swipe page: the three filters over the catalogue,
 * the card stack and its index, the likes it keeps in the browser's storage
 * and the map markers. `lib/listings-data.ts` is not part of this model: a
 * listing carries the fields the pages read.
 */
module Listings {
  import opened Wrappers
  import opened Seqs

  datatype Listing = Listing(
    id: string,
    title: string,
    description: string,
    city: string,
    neighborhood: string,
    price: nat,
    bedrooms: nat,
    bathrooms: nat,
    maxGuests: nat,
    availableFrom: string,
    availableTo: string,
    amenities: seq<string>)

  /**
   * The `likedListings` entry of the browser's storage: absent (or empty,
   * which the pages treat alike), text `JSON.parse` throws on, or a list of ids.
   */
  datatype Stored = Missing | Unparsable | Ids(ids: seq<string>)

  /** `new Date(s)` as a time, or `None` for an invalid date, which every comparison rejects. */
  type DateOf = string -> Option<int>

  /** The filter bar: a city or "All", and two dates, "" when unset. */
  datatype Criteria = Criteria(city: string, moveIn: string, moveOut: string)

  const NoCriteria := Criteria("All", "", "")

  predicate CityOk(c: Criteria, l: Listing) {
    c.city == "All" || l.city == c.city
  }

  /** `new Date(from) <= new Date(moveIn)`. */
  predicate AvailableBy(dateOf: DateOf, from: string, moveIn: string) {
    dateOf(from).Some? && dateOf(moveIn).Some? && dateOf(from).value <= dateOf(moveIn).value
  }

  /** `new Date(to) >= new Date(moveOut)`. */
  predicate AvailableUntil(dateOf: DateOf, to: string, moveOut: string) {
    dateOf(to).Some? && dateOf(moveOut).Some? && dateOf(to).value >= dateOf(moveOut).value
  }

  predicate MoveInOk(dateOf: DateOf, c: Criteria, l: Listing) {
    c.moveIn == "" || AvailableBy(dateOf, l.availableFrom, c.moveIn)
  }

  predicate MoveOutOk(dateOf: DateOf, c: Criteria, l: Listing) {
    c.moveOut == "" || AvailableUntil(dateOf, l.availableTo, c.moveOut)
  }

  /** A listing is shown when it passes each filter that is set. */
  predicate Keeps(dateOf: DateOf, c: Criteria, l: Listing) {
    CityOk(c, l) && MoveInOk(dateOf, c, l) && MoveOutOk(dateOf, c, l)
  }

  function KeepsTest(dateOf: DateOf, c: Criteria): Listing -> bool {
    (l: Listing) => Keeps(dateOf, c, l)
  }

  /** The listings the filters keep: a subsequence of the catalogue, in its order. */
  function Matching(dateOf: DateOf, all: seq<Listing>, c: Criteria): (r: seq<Listing>)
    ensures IsSubsequence(r, all)
    ensures forall l :: l in r <==> l in all && Keeps(dateOf, c, l)
  {
    FilterIsSubsequence(all, KeepsTest(dateOf, c));
    Filter(all, KeepsTest(dateOf, c))
  }

  /** With no filter set, every listing is shown, in order. */
  lemma NoFiltersKeepAll(dateOf: DateOf, all: seq<Listing>)
    ensures Matching(dateOf, all, NoCriteria) == all
  {
    FilterAll(all, KeepsTest(dateOf, NoCriteria));
  }

  // The filter effect narrows the list one filter at a time; these are its three tests.

  function CityIs(city: string): Listing -> bool {
    (l: Listing) => l.city == city
  }

  function AvailableByTest(dateOf: DateOf, moveIn: string): Listing -> bool {
    (l: Listing) => AvailableBy(dateOf, l.availableFrom, moveIn)
  }

  function AvailableUntilTest(dateOf: DateOf, moveOut: string): Listing -> bool {
    (l: Listing) => AvailableUntil(dateOf, l.availableTo, moveOut)
  }

  /** One step of the effect: filter by `test` when that filter is set, otherwise keep the list. */
  function Narrow(s: seq<Listing>, active: bool, test: Listing -> bool): seq<Listing> {
    if active then Filter(s, test) else s
  }

  /** A step narrowing an already filtered list is one filter by both tests. */
  lemma NarrowStep(all: seq<Listing>, prev: seq<Listing>, active: bool, test: Listing -> bool,
                   p: Listing -> bool, q: Listing -> bool, pq: Listing -> bool)
    requires prev == Filter(all, p)
    requires forall l :: q(l) == (!active || test(l))
    requires forall l :: pq(l) == (p(l) && q(l))
    ensures Narrow(prev, active, test) == Filter(all, pq)
  {
    if active {
      FilterCongruent(prev, test, q);
    } else {
      FilterAll(prev, q);
    }
    FilterFuse(all, p, q, pq);
  }

  /** The three steps of the effect, in its order, give the listings the filters keep. */
  lemma NarrowingMatches(dateOf: DateOf, all: seq<Listing>, c: Criteria)
    ensures Narrow(Narrow(Narrow(all, c.city != "All", CityIs(c.city)),
                          c.moveIn != "", AvailableByTest(dateOf, c.moveIn)),
                   c.moveOut != "", AvailableUntilTest(dateOf, c.moveOut))
            == Matching(dateOf, all, c)
  {
    var p1 := (l: Listing) => CityOk(c, l);
    var p2 := (l: Listing) => CityOk(c, l) && MoveInOk(dateOf, c, l);
    var s1 := Narrow(all, c.city != "All", CityIs(c.city));
    if c.city != "All" {
      FilterCongruent(all, CityIs(c.city), p1);
    } else {
      FilterAll(all, p1);
    }
    var s2 := Narrow(s1, c.moveIn != "", AvailableByTest(dateOf, c.moveIn));
    NarrowStep(all, s1, c.moveIn != "", AvailableByTest(dateOf, c.moveIn),
               p1, (l: Listing) => MoveInOk(dateOf, c, l), p2);
    NarrowStep(all, s2, c.moveOut != "", AvailableUntilTest(dateOf, c.moveOut),
               p2, (l: Listing) => MoveOutOk(dateOf, c, l), KeepsTest(dateOf, c));
  }

  /** Where the card stack may point: 0 for an empty list, otherwise one of its cards. */
  predicate IndexInRange(n: nat, i: nat) {
    if n == 0 then i == 0 else i < n
  }

  /** A swipe moves to the next card only while a later card exists. */
  function Advance(i: nat, n: nat): (r: nat)
    ensures IndexInRange(n, i) ==> IndexInRange(n, r)
    ensures r == i || (r == i + 1 && r < n)
  {
    if i < n - 1 then i + 1 else i
  }

  /** The index after `k` swipes. */
  function AdvanceTimes(i: nat, n: nat, k: nat): nat
    decreases k
  {
    if k == 0 then i else AdvanceTimes(Advance(i, n), n, k - 1)
  }

  /** Swiping stops on the last card: `k` swipes from `i` reach card `min(i + k, n - 1)`. */
  lemma {:induction false} SwipesStopAtLast(i: nat, n: nat, k: nat)
    requires i < n
    ensures AdvanceTimes(i, n, k) == if i + k < n then i + k else n - 1
    decreases k
  {
    if k > 0 {
      SwipesStopAtLast(Advance(i, n), n, k - 1);
    }
  }

  /** `findIndex` on the ids of the shown listings; an unknown id leaves the index. */
  function MarkerIndex(filtered: seq<Listing>, id: string, i: nat): (r: nat)
    ensures IndexInRange(|filtered|, i) ==> IndexInRange(|filtered|, r)
    ensures r != i ==> r < |filtered| && filtered[r].id == id
    ensures (exists k :: 0 <= k < |filtered| && filtered[k].id == id) ==>
              r < |filtered| && filtered[r].id == id && forall k :: 0 <= k < r ==> filtered[k].id != id
    ensures (forall k :: 0 <= k < |filtered| ==> filtered[k].id != id) ==> r == i
  {
    match FindIndex(filtered, (l: Listing) => l.id == id)
    case Some(k) => k
    case None => i
  }

  /** The page's state, as the values its hooks and the storage entry hold. */
  datatype PageState = PageState(
    all: seq<Listing>,
    criteria: Criteria,
    filtered: seq<Listing>,
    index: nat,
    likedIds: seq<string>,
    selectedId: Option<string>,
    storage: Stored)

  /** The shown list is the catalogue filtered by the current criteria, and the index points into it. */
  predicate ValidState(dateOf: DateOf, s: PageState) {
    s.filtered == Matching(dateOf, s.all, s.criteria) && IndexInRange(|s.filtered|, s.index)
  }

  /** The page as first rendered, before its effects. */
  function Initial(catalogue: seq<Listing>, storage: Stored): (s: PageState) {
    PageState(catalogue, NoCriteria, catalogue, 0, [], None, storage)
  }

  lemma InitialValid(dateOf: DateOf, catalogue: seq<Listing>, storage: Stored)
    ensures ValidState(dateOf, Initial(catalogue, storage))
  {
    NoFiltersKeepAll(dateOf, catalogue);
  }

  /**
   * Setting the filters: when any of them changed, the filter effect shows
   * the matching listings from the first; setting the same values changes nothing.
   */
  function SetCriteria(dateOf: DateOf, s: PageState, c: Criteria): (r: PageState)
    ensures r.criteria == c && r.all == s.all && r.likedIds == s.likedIds
    ensures r.selectedId == s.selectedId && r.storage == s.storage
    ensures c != s.criteria ==> r.index == 0 && r.filtered == Matching(dateOf, s.all, c)
    ensures c == s.criteria ==> r == s
    ensures ValidState(dateOf, s) ==> ValidState(dateOf, r)
  {
    if c == s.criteria then s
    else s.(criteria := c, filtered := Matching(dateOf, s.all, c), index := 0)
  }

  /** The "Reset Filters" button. */
  function FiltersReset(dateOf: DateOf, s: PageState): (r: PageState)
    ensures r.criteria == NoCriteria
    ensures ValidState(dateOf, s) ==> r.filtered == s.all
  {
    NoFiltersKeepAll(dateOf, s.all);
    SetCriteria(dateOf, s, NoCriteria)
  }

  /** The mount effect: a stored list of ids replaces the likes; nothing else changes. */
  function LoadLiked(s: PageState): (r: PageState)
    ensures r.(likedIds := s.likedIds) == s
    ensures s.storage.Ids? ==> r.likedIds == s.storage.ids
    ensures !s.storage.Ids? ==> r.likedIds == s.likedIds
  {
    if s.storage.Ids? then s.(likedIds := s.storage.ids) else s
  }

  /** `saveLikedListing`: the id is appended, even when already liked, and the list stored. */
  function SaveLiked(s: PageState, id: string): (r: PageState)
    ensures r.likedIds == s.likedIds + [id] && r.storage == Ids(r.likedIds)
    ensures multiset(r.likedIds)[id] == multiset(s.likedIds)[id] + 1
    ensures r.(likedIds := s.likedIds, storage := s.storage) == s
  {
    s.(likedIds := s.likedIds + [id], storage := Ids(s.likedIds + [id]))
  }

  /** `handleSwipeRight`: like the card, then move on exactly when a later card exists. */
  function SwipedRight(s: PageState, id: string): (r: PageState)
    ensures r.(index := s.index) == SaveLiked(s, id)
    ensures r.index == s.index + 1 <==> s.index + 1 < |s.filtered|
    ensures r.index != s.index + 1 ==> r.index == s.index
  {
    SaveLiked(s, id).(index := Advance(s.index, |s.filtered|))
  }

  /** `handleSwipeLeft`: move on exactly when a later card exists; nothing is recorded. */
  function SwipedLeft(s: PageState, id: string): (r: PageState)
    ensures r.(index := s.index) == s
    ensures r.index == s.index + 1 <==> s.index + 1 < |s.filtered|
    ensures r.index != s.index + 1 ==> r.index == s.index
  {
    s.(index := Advance(s.index, |s.filtered|))
  }

  /** `handleMarkerClick`: select the marker's id either way, and show its first card when it is listed. */
  function MarkerClicked(s: PageState, id: string): (r: PageState)
    ensures r.(selectedId := s.selectedId, index := s.index) == s
    ensures r.selectedId == Some(id)
    ensures (exists k :: 0 <= k < |s.filtered| && s.filtered[k].id == id) ==>
              r.index < |s.filtered| && s.filtered[r.index].id == id
    ensures (forall k :: 0 <= k < |s.filtered| ==> s.filtered[k].id != id) ==> r.index == s.index
  {
    s.(selectedId := Some(id), index := MarkerIndex(s.filtered, id, s.index))
  }

  /** Every handler keeps the page's invariant. */
  lemma HandlersKeepValid(dateOf: DateOf, s: PageState, id: string)
    requires ValidState(dateOf, s)
    ensures ValidState(dateOf, SwipedRight(s, id)) && ValidState(dateOf, SwipedLeft(s, id))
    ensures ValidState(dateOf, MarkerClicked(s, id)) && ValidState(dateOf, LoadLiked(s))
    ensures ValidState(dateOf, s.(index := 0))
  {
  }

  /** `filteredListings.length - currentIndex`. */
  function Remaining(s: PageState): int {
    |s.filtered| - s.index
  }

  /** `filteredListings.slice(currentIndex, currentIndex + 3)`: the stack of cards drawn. */
  function Visible(s: PageState): (r: seq<Listing>)
    ensures |r| <= 3
    ensures s.index <= |s.filtered| ==> r == s.filtered[s.index..if s.index + 3 <= |s.filtered| then s.index + 3 else |s.filtered|]
  {
    Slice(s.filtered, s.index, s.index + 3)
  }

  /** What the right-hand column shows. */
  datatype Screen = NoMatches | SeenAll | Cards(stack: seq<Listing>)

  function ScreenOf(s: PageState): Screen {
    if |s.filtered| == 0 then NoMatches
    else if s.index >= |s.filtered| then SeenAll
    else Cards(Visible(s))
  }

  /**
   * In a valid state the count is at least one whenever a card is shown, the
   * stack holds the current card first and up to two behind it, and the
   * "seen all listings" screen is never reached: swipes stop on the last card.
   */
  lemma ScreenInValidState(dateOf: DateOf, s: PageState)
    requires ValidState(dateOf, s)
    ensures ScreenOf(s) != SeenAll
    ensures ScreenOf(s).Cards? <==> |s.filtered| > 0
    ensures ScreenOf(s).Cards? ==>
              && Remaining(s) >= 1
              && ScreenOf(s).stack[0] == s.filtered[s.index]
              && |ScreenOf(s).stack| == if Remaining(s) < 3 then Remaining(s) else 3
  {
  }

  /**
   * The page: its state hooks as fields and the storage entry as a field.
   * `dateOf` is how the browser reads dates.
   */
  class ListingsPage {
    const dateOf: DateOf
    var allListings: seq<Listing>
    var selectedCity: string
    var moveInDate: string
    var moveOutDate: string
    var filteredListings: seq<Listing>
    var currentIndex: nat
    var likedIds: seq<string>
    var selectedListingId: Option<string>
    var storage: Stored

    function State(): PageState
      reads this
    {
      PageState(allListings, Criteria(selectedCity, moveInDate, moveOutDate), filteredListings,
                currentIndex, likedIds, selectedListingId, storage)
    }

    ghost predicate Valid()
      reads this
    {
      ValidState(dateOf, State())
    }

    /** The first render, followed by the mount effect that loads the likes. */
    constructor(catalogue: seq<Listing>, dateOf: DateOf, storage: Stored)
      ensures this.dateOf == dateOf
      ensures State() == LoadLiked(Initial(catalogue, storage))
      ensures Valid()
    {
      this.dateOf := dateOf;
      allListings := catalogue;
      selectedCity := "All";
      moveInDate := "";
      moveOutDate := "";
      filteredListings := catalogue;
      currentIndex := 0;
      likedIds := [];
      selectedListingId := None;
      this.storage := storage;
      new;
      InitialValid(dateOf, catalogue, storage);
      if storage.Ids? {
        likedIds := storage.ids;
      }
    }

    /** The filter effect: each filter that is set narrows the list in turn; the index goes back to 0. */
    method ApplyFilters()
      modifies this
      ensures State() == old(State()).(filtered := Matching(dateOf, allListings, State().criteria), index := 0)
      ensures Valid()
    {
      var filtered := allListings;
      if selectedCity != "All" {
        filtered := Filter(filtered, CityIs(selectedCity));
      }
      if moveInDate != "" {
        filtered := Filter(filtered, AvailableByTest(dateOf, moveInDate));
      }
      if moveOutDate != "" {
        filtered := Filter(filtered, AvailableUntilTest(dateOf, moveOutDate));
      }
      NarrowingMatches(dateOf, allListings, State().criteria);
      filteredListings := filtered;
      currentIndex := 0;
    }

    /** `setSelectedCity`, and the filter effect when the value changed. */
    method SetCity(city: string)
      requires Valid()
      modifies this
      ensures State() == SetCriteria(dateOf, old(State()), old(State()).criteria.(city := city))
      ensures Valid()
    {
      if city != selectedCity {
        selectedCity := city;
        ApplyFilters();
      }
    }

    /** `setMoveInDate`, and the filter effect when the value changed. */
    method SetMoveIn(date: string)
      requires Valid()
      modifies this
      ensures State() == SetCriteria(dateOf, old(State()), old(State()).criteria.(moveIn := date))
      ensures Valid()
    {
      if date != moveInDate {
        moveInDate := date;
        ApplyFilters();
      }
    }

    /** `setMoveOutDate`, and the filter effect when the value changed. */
    method SetMoveOut(date: string)
      requires Valid()
      modifies this
      ensures State() == SetCriteria(dateOf, old(State()), old(State()).criteria.(moveOut := date))
      ensures Valid()
    {
      if date != moveOutDate {
        moveOutDate := date;
        ApplyFilters();
      }
    }

    /** "Reset Filters": the three setters in one render, then one run of the effect. */
    method ResetFilters()
      requires Valid()
      modifies this
      ensures State() == FiltersReset(dateOf, old(State()))
      ensures Valid()
    {
      if State().criteria != NoCriteria {
        selectedCity, moveInDate, moveOutDate := "All", "", "";
        ApplyFilters();
      }
    }

    /** `handleSwipeRight`. */
    method SwipeRight(id: string)
      requires Valid()
      modifies this
      ensures State() == SwipedRight(old(State()), id)
      ensures Valid()
    {
      likedIds := likedIds + [id];
      storage := Ids(likedIds);
      if currentIndex < |filteredListings| - 1 {
        currentIndex := currentIndex + 1;
      }
    }

    /** `handleSwipeLeft`. */
    method SwipeLeft(id: string)
      requires Valid()
      modifies this
      ensures State() == SwipedLeft(old(State()), id)
      ensures Valid()
    {
      if currentIndex < |filteredListings| - 1 {
        currentIndex := currentIndex + 1;
      }
    }

    /** `handleMarkerClick`. */
    method MarkerClick(id: string)
      requires Valid()
      modifies this
      ensures State() == MarkerClicked(old(State()), id)
      ensures Valid()
    {
      selectedListingId := Some(id);
      var found := FindIndex(filteredListings, (l: Listing) => l.id == id);
      if found.Some? {
        currentIndex := found.value;
      }
    }

    /** "Start Over". */
    method StartOver()
      requires Valid()
      modifies this
      ensures State() == old(State()).(index := 0)
      ensures Valid()
    {
      currentIndex := 0;
    }
  }
}
