/**
 * The thank-you page both sign-up forms redirect to: what it derives from its
 * `type`, `cities` and `id` query parameters.
 */
module ThankYou {
  import opened Wrappers
  import opened Text
  import opened Seqs
  import DemandForm

  datatype PageKind = DemandThanks | SupplyThanks

  /** `searchParams.get("type") === "supply" ? "supply" : "demand"`. */
  function KindOf(t: Option<string>): (k: PageKind)
    ensures k == SupplyThanks <==> t == Some("supply")
  {
    if t == Some("supply") then SupplyThanks else DemandThanks
  }

  predicate NonEmpty(s: string) {
    s != ""
  }

  /**
   * The cities named by the `cities` parameter: split on ",", empty pieces
   * dropped; none when the parameter is absent or empty.
   */
  function SelectedCities(param: Option<string>): (r: seq<string>)
    ensures param.None? || param == Some("") ==> r == []
    ensures forall i :: 0 <= i < |r| ==> r[i] != "" && ',' !in r[i]
    ensures param.Some? ==> forall c :: c in SplitOn(param.value, ',') && c != "" ==> c in r
    ensures param.Some? && param.value != "" ==>
              && IsSubsequence(r, SplitOn(param.value, ','))
              && forall c :: c != "" ==> multiset(r)[c] == multiset(SplitOn(param.value, ','))[c]
  {
    if param.Some? && param.value != "" then
      KeepNonEmpty(SplitOn(param.value, ','));
      Filter(SplitOn(param.value, ','), NonEmpty)
    else []
  }

  /** Dropping the empty pieces keeps the others in order, each as often as it occurs. */
  lemma KeepNonEmpty(pieces: seq<string>)
    ensures IsSubsequence(Filter(pieces, NonEmpty), pieces)
    ensures forall c :: c != "" ==> multiset(Filter(pieces, NonEmpty))[c] == multiset(pieces)[c]
  {
    FilterIsSubsequence(pieces, NonEmpty);
    forall c | c != "" ensures multiset(Filter(pieces, NonEmpty))[c] == multiset(pieces)[c] {
      FilterCount(pieces, NonEmpty, c);
    }
  }

  /**
   * The referral link the page computes: always the demand sign-up path,
   * whatever the page's type, and "" without an id. `origin` is
   * `window.location.origin` ("" while rendering on the server). Only
   * `copyToClipboard` reads it, nothing calls that, and the markup never
   * prints it, so the visitor does not see the link.
   */
  function ReferralLinkOf(origin: string, id: Option<string>): (r: string)
    ensures id.None? || id == Some("") ==> r == ""
    ensures id.Some? && id.value != "" ==> r == origin + "/waitlist/demand?r=" + id.value
  {
    if id.Some? && id.value != "" then origin + "/waitlist/demand?r=" + id.value else ""
  }

  const DemandHeading: string := "Your application is under review"
  const SupplyHeading: string :=
    "You're officially on the Cove " + "early-access list."

  function Heading(kind: PageKind): string {
    if kind == DemandThanks then DemandHeading else SupplyHeading
  }

  /**
   * What the page holds. `summary` is the list of cities in the "received
   * your application for" line; `referralLink` is computed but not rendered.
   */
  datatype View = View(
    kind: PageKind,
    cities: seq<string>,
    referralLink: string,
    heading: string,
    summary: Option<string>)

  function Param(params: map<string, string>, key: string): Option<string> {
    if key in params then Some(params[key]) else None
  }

  /** `ThankYouContent`. */
  function ThankYouContent(params: map<string, string>, origin: string): (v: View)
    ensures v.kind == SupplyThanks <==> Param(params, "type") == Some("supply")
    ensures v.summary.Some? <==> v.kind == DemandThanks && |v.cities| > 0
    ensures v.summary.Some? ==> v.summary.value == Join(v.cities, ", ")
    ensures v.heading == Heading(v.kind)
  {
    var kind := KindOf(Param(params, "type"));
    var cities := SelectedCities(Param(params, "cities"));
    View(kind, cities, ReferralLinkOf(origin, Param(params, "id")), Heading(kind),
         if kind == DemandThanks && |cities| > 0 then Some(Join(cities, ", ")) else None)
  }

  /** The join of a list whose first element is non-empty is non-empty. */
  lemma JoinNonEmpty(xs: seq<string>, sep: string)
    requires |xs| >= 1 && xs[0] != ""
    ensures Join(xs, sep) != ""
  {
    if |xs| > 1 {
      assert Join(xs, sep) == xs[0] + sep + Join(xs[1..], sep);
      assert Join(xs, sep)[0] == xs[0][0];
    }
  }

  /**
   * The demand redirect round trip: cities that are non-empty and contain no
   * comma come back exactly, in order; the page names them and computes the
   * demand referral link of the returned id (which it does not display).
   */
  lemma DemandRedirectRoundTrip(cities: seq<string>, id: string, origin: string)
    requires |cities| >= 1
    requires forall i :: 0 <= i < |cities| ==> cities[i] != "" && ',' !in cities[i]
    requires id != ""
    ensures var v := ThankYouContent(DemandForm.RedirectQuery(cities, id), origin);
            && v.kind == DemandThanks
            && v.cities == cities
            && v.summary == Some(Join(cities, ", "))
            && v.referralLink == origin + "/waitlist/demand?r=" + id
  {
    var q := DemandForm.RedirectQuery(cities, id);
    assert Param(q, "cities") == Some(Join(cities, ","));
    CitiesRoundTrip(cities);
  }

  /** Joining non-empty, comma-free cities with "," and selecting them again gives them back. */
  lemma CitiesRoundTrip(cities: seq<string>)
    requires |cities| >= 1
    requires forall i :: 0 <= i < |cities| ==> cities[i] != "" && ',' !in cities[i]
    ensures SelectedCities(Some(Join(cities, ","))) == cities
  {
    JoinNonEmpty(cities, ",");
    SplitJoin(cities, ',');
    FilterAll(cities, NonEmpty);
  }

  /**
   * A city whose name holds a comma ("Washington,DC") is read back as two
   * cities, so the round trip above needs its comma-free condition.
   */
  lemma CommaSplitsCity(a: string, b: string)
    requires a != "" && b != "" && ',' !in a && ',' !in b
    ensures SelectedCities(Some(a + "," + b)) == [a, b]
  {
    assert Join([a, b], ",") == a + "," + b;
    CitiesRoundTrip([a, b]);
  }

  /** A supply id, or any id, gets the demand sign-up link: the type does not enter the link. */
  lemma LinkIgnoresType(params: map<string, string>, t: string, origin: string)
    ensures ThankYouContent(params["type" := t], origin).referralLink == ThankYouContent(params, origin).referralLink
  {
    assert Param(params["type" := t], "id") == Param(params, "id");
  }
}
