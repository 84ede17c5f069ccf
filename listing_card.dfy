/**
 * One card of the swipe stack: the drag gesture it reports, the labels it
 * prints for a listing, and which card of the stack takes input.
 */
module ListingCard {
  import opened Wrappers
  import opened Text
  import opened Seqs
  import opened Listings

  /** How far, in pixels, a card must be dragged to count as a swipe. */
  const SwipeThreshold: int := 100

  /** The most amenities a card lists by name. */
  const ShownAmenities: nat := 4

  /** What the end of a drag reports: a like, a pass, or nothing. */
  datatype Gesture = Like | Pass | Stay

  /** `handleDragEnd`, by the horizontal offset of the drag. */
  function DragEnd(offset: int): (g: Gesture)
    ensures g == Like <==> offset > SwipeThreshold
    ensures g == Pass <==> offset < -SwipeThreshold
    ensures g == Stay <==> -SwipeThreshold <= offset <= SwipeThreshold
  {
    if offset > SwipeThreshold then Like
    else if offset < -SwipeThreshold then Pass
    else Stay
  }

  /** A drag one way reports the opposite of the same drag the other way. */
  lemma DragMirrors(offset: int)
    ensures DragEnd(offset) == Like <==> DragEnd(-offset) == Pass
    ensures DragEnd(offset) == Stay <==> DragEnd(-offset) == Stay
  {
  }

  /** Only the top card (`index === 0`) can be dragged; the others report nothing. */
  function CardGesture(index: nat, offset: int): (g: Gesture)
    ensures g != Stay ==> index == 0
    ensures index == 0 ==> g == DragEnd(offset)
  {
    if index == 0 then DragEnd(offset) else Stay
  }

  /** "1 bath", "2 baths": the word takes an "s" unless the count is exactly 1. */
  function CountLabel(n: nat, word: string): (r: string)
    ensures r == NatToString(n) + " " + word <==> n == 1
    ensures n != 1 ==> r == NatToString(n) + " " + word + "s"
    ensures |r| > 0 && '0' <= r[0] <= '9'
  {
    if n == 1 then NatToString(n) + " " + word else NatToString(n) + " " + word + "s"
  }

  /** "Studio" for no bedroom, otherwise the count of beds. */
  function BedLabel(n: nat): (r: string)
    ensures r == "Studio" <==> n == 0
    ensures n == 1 ==> r == "1 bed"
    ensures n >= 2 ==> r == NatToString(n) + " beds"
  {
    if n == 0 then "Studio" else CountLabel(n, "bed")
  }

  /** Two digit strings followed by a space and any text agree only when the digits agree. */
  lemma DigitsBeforeSpace(d1: string, d2: string, x: string, y: string)
    requires forall i :: 0 <= i < |d1| ==> '0' <= d1[i] <= '9'
    requires forall i :: 0 <= i < |d2| ==> '0' <= d2[i] <= '9'
    requires d1 + " " + x == d2 + " " + y
    ensures d1 == d2
  {
    var s, t := d1 + " " + x, d2 + " " + y;
    var k := if |d1| < |d2| then |d1| else |d2|;
    assert s[k] == t[k];
    assert |d1| == |d2|;
    assert d1 == s[..|d1|];
  }

  /** Different counts print different labels. */
  lemma CountLabelInjective(m: nat, n: nat, word: string)
    requires CountLabel(m, word) == CountLabel(n, word)
    ensures m == n
  {
    var xm := if m == 1 then word else word + "s";
    var xn := if n == 1 then word else word + "s";
    assert CountLabel(m, word) == NatToString(m) + " " + xm;
    assert CountLabel(n, word) == NatToString(n) + " " + xn;
    DigitsBeforeSpace(NatToString(m), NatToString(n), xm, xn);
    NatToStringInjective(m, n);
  }

  /** Different bedroom counts print different labels. */
  lemma BedLabelInjective(m: nat, n: nat)
    requires BedLabel(m) == BedLabel(n)
    ensures m == n
  {
    if m != 0 && n != 0 {
      CountLabelInjective(m, n, "bed");
    }
  }

  /** `amenities.slice(0, 4)`. */
  function AmenitiesShown(a: seq<string>): (r: seq<string>)
    ensures |r| <= ShownAmenities
    ensures |r| <= |a| && r == a[..|r|]
    ensures |a| <= ShownAmenities ==> r == a
  {
    Slice(a, 0, ShownAmenities)
  }

  /** `+{n - 4} more`, shown only past four amenities. */
  function MoreLabel(a: seq<string>): (r: Option<string>)
    ensures r.Some? <==> |a| > ShownAmenities
  {
    if |a| > ShownAmenities then Some("+" + NatToString(|a| - ShownAmenities) + " more") else None
  }

  /** The names shown and the number in the "more" label account for every amenity exactly once. */
  lemma AmenitiesAccounted(a: seq<string>)
    ensures MoreLabel(a).None? ==> AmenitiesShown(a) == a
    ensures MoreLabel(a).Some? ==>
              && MoreLabel(a).value == "+" + NatToString(|a| - |AmenitiesShown(a)|) + " more"
              && AmenitiesShown(a) + a[ShownAmenities..] == a
  {
    if |a| > ShownAmenities {
      assert AmenitiesShown(a) == a[..ShownAmenities];
    }
  }

  /** `city.slice(0, 2).toUpperCase()`: the code printed on the image. */
  function CityCode(city: string): (r: string)
    ensures |r| == if |city| < 2 then |city| else 2
    ensures forall i :: 0 <= i < |r| && 'a' <= city[i] <= 'z' ==> r[i] as int == city[i] as int - 32
    ensures forall i :: 0 <= i < |r| && !('a' <= city[i] <= 'z') ==> r[i] == city[i]
  {
    UpperAscii(Slice(city, 0, 2))
  }

  /** What a card shows for a listing at a position of the stack. */
  datatype CardView = CardView(
    draggable: bool,
    actions: bool,
    caption: string,
    beds: string,
    baths: string,
    guests: string,
    amenities: seq<string>,
    more: Option<string>)

  function View(l: Listing, index: nat): (v: CardView)
    ensures v.draggable <==> index == 0
    ensures v.actions <==> index == 0
    ensures v.amenities == AmenitiesShown(l.amenities) && v.more == MoreLabel(l.amenities)
    ensures v.caption == l.neighborhood + ", " + CityCode(l.city)
    ensures v.beds == BedLabel(l.bedrooms)
    ensures v.baths == CountLabel(l.bathrooms, "bath") && v.guests == CountLabel(l.maxGuests, "guest")
  {
    CardView(index == 0, index == 0,
             l.neighborhood + ", " + CityCode(l.city),
             BedLabel(l.bedrooms), CountLabel(l.bathrooms, "bath"), CountLabel(l.maxGuests, "guest"),
             AmenitiesShown(l.amenities), MoreLabel(l.amenities))
  }

  /**
   * On the swipe page the one card that takes input is the current listing:
   * dragging it past the threshold likes or passes exactly that listing.
   */
  lemma TopCardIsCurrent(dateOf: DateOf, s: PageState, k: nat, offset: int)
    requires ValidState(dateOf, s)
    requires ScreenOf(s).Cards? && k < |ScreenOf(s).stack|
    ensures View(ScreenOf(s).stack[k], k).draggable <==> ScreenOf(s).stack[k] == s.filtered[s.index] && k == 0
    ensures CardGesture(k, offset) != Stay ==> k == 0 && ScreenOf(s).stack[k] == s.filtered[s.index]
  {
    ScreenInValidState(dateOf, s);
  }
}
