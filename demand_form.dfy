/**
 * The demand sign-up page: its client schema, the fields each step checks,
 * the "Other" city substitution, the body it posts and the redirect to the
 * thank-you page.
 */
module DemandForm {
  import opened Wrappers
  import opened Text
  import opened Js
  import opened Http
  import opened Fields
  import opened Seqs
  import opened FormSteps
  import DemandIntake
  import Waitlist

  /**
   * The form's values once the client schema accepted them. Every text input
   * holds a string, "" when left empty.
   */
  datatype DemandValues = DemandValues(
    name: string,
    college: string,
    gradYear: string,
    status: string,
    targetCities: seq<string>,
    otherCity: string,
    moveInMonth: string,
    company: string,
    roommatePref: string,
    linkedin: string,
    contactPref: seq<string>,
    email: string,
    phone: string)

  /** `z.array(z.enum(["email", "text"])).min(1)`. */
  predicate ContactsOk(cs: seq<string>) {
    |cs| >= 1 && forall i :: 0 <= i < |cs| ==> ContactOf(cs[i]).Some?
  }

  /** `demandFormSchema`, key by key in the order it declares them. */
  predicate ClientValid(syn: Syntax, v: DemandValues) {
    && 2 <= |v.name| <= 120
    && |v.college| >= 2
    && 4 <= |v.gradYear| <= 10
    && DemandIntake.StatusOf(v.status).Some?
    && |v.targetCities| >= 1
    && |v.company| <= 120
    && |v.roommatePref| >= 5
    && (syn.isUrl(v.linkedin) || v.linkedin == "")
    && ContactsOk(v.contactPref)
    && syn.isEmail(v.email)
  }

  /**
   * `form.trigger(steps[i].fields)`: the schema's checks on the keys of step
   * `i` alone — about you, timeline and cities, context, contact.
   */
  predicate StepValid(syn: Syntax, v: DemandValues, i: nat) {
    match i
    case 0 => 2 <= |v.name| <= 120 && |v.college| >= 2 && 4 <= |v.gradYear| <= 10
    case 1 => DemandIntake.StatusOf(v.status).Some? && |v.targetCities| >= 1
    case 2 => |v.company| <= 120 && |v.roommatePref| >= 5 && (syn.isUrl(v.linkedin) || v.linkedin == "")
    case 3 => ContactsOk(v.contactPref) && syn.isEmail(v.email)
    case _ => true
  }

  /** The four steps between them check exactly the whole schema. */
  lemma StepsCoverSchema(syn: Syntax, v: DemandValues)
    ensures ClientValid(syn, v) <==> forall i :: 0 <= i <= LastStep ==> StepValid(syn, v, i)
  {
    EveryStep((i: nat) => StepValid(syn, v, i));
  }

  predicate NotOther(city: string) {
    city != "Other"
  }

  /**
   * The cities sent: when "Other" is picked and a city was typed, every
   * "Other" is dropped and the typed city goes last; otherwise the picked list.
   */
  function FinalCities(cities: seq<string>, otherCity: string): (r: seq<string>)
    ensures !("Other" in cities && otherCity != "") ==> r == cities
    ensures "Other" in cities && otherCity != "" ==>
              && |r| >= 1 && r[|r| - 1] == otherCity
              && (forall i :: 0 <= i < |r| - 1 ==> r[i] != "Other")
              && (forall c :: c in cities && c != "Other" ==> c in r)
              && IsSubsequence(r[..|r| - 1], cities)
    ensures |cities| >= 1 ==> |r| >= 1
  {
    if "Other" in cities && otherCity != "" then
      var kept := Filter(cities, NotOther);
      FilterIsSubsequence(cities, NotOther);
      var r := kept + [otherCity];
      assert r[..|r| - 1] == kept;
      r
    else cities
  }

  /** Picking "Other" without typing a city sends "Other" itself. */
  lemma OtherWithoutCityKept(cities: seq<string>)
    requires "Other" in cities
    ensures "Other" in FinalCities(cities, "")
  {
  }

  /** The keys of the posted body besides `referrer_id`: the schema's keys without `other_city`. */
  const BodyKeys: set<string> := {
    "name", "college", "grad_year", "status", "target_cities", "move_in_month", "company",
    "roommate_pref", "linkedin", "contact_pref", "email", "phone"}

  /**
   * The JSON body posted: the values without `other_city`, the final cities,
   * and `referrer_id` when the page was opened with an `r` parameter
   * (`JSON.stringify` leaves out a key whose value is `undefined`).
   */
  function RequestBody(v: DemandValues, referrer: Option<string>): (r: Obj)
    ensures "target_cities" in r && r["target_cities"] == Strings(FinalCities(v.targetCities, v.otherCity))
    ensures "email" in r && r["email"] == JStr(v.email)
    ensures "contact_pref" in r && r["contact_pref"] == Strings(v.contactPref)
    ensures "other_city" !in r
    ensures "referrer_id" in r <==> referrer.Some?
    ensures referrer.Some? ==> r["referrer_id"] == JStr(referrer.value)
  {
    var base := map[
      "name" := JStr(v.name),
      "college" := JStr(v.college),
      "grad_year" := JStr(v.gradYear),
      "status" := JStr(v.status),
      "move_in_month" := JStr(v.moveInMonth),
      "company" := JStr(v.company),
      "roommate_pref" := JStr(v.roommatePref),
      "linkedin" := JStr(v.linkedin),
      "contact_pref" := Strings(v.contactPref),
      "email" := JStr(v.email),
      "phone" := JStr(v.phone),
      "target_cities" := Strings(FinalCities(v.targetCities, v.otherCity))];
    if referrer.Some? then base["referrer_id" := JStr(referrer.value)] else base
  }

  /** The profile fields of the body are the form's values, as strings. */
  lemma BodyProfileValues(v: DemandValues, referrer: Option<string>)
    ensures var r := RequestBody(v, referrer);
            && "name" in r && r["name"] == JStr(v.name)
            && "college" in r && r["college"] == JStr(v.college)
            && "grad_year" in r && r["grad_year"] == JStr(v.gradYear)
            && "linkedin" in r && r["linkedin"] == JStr(v.linkedin)
            && "phone" in r && r["phone"] == JStr(v.phone)
  {
  }

  /** The move fields of the body are the form's values, as strings. */
  lemma BodyMoveValues(v: DemandValues, referrer: Option<string>)
    ensures var r := RequestBody(v, referrer);
            && "status" in r && r["status"] == JStr(v.status)
            && "move_in_month" in r && r["move_in_month"] == JStr(v.moveInMonth)
            && "company" in r && r["company"] == JStr(v.company)
            && "roommate_pref" in r && r["roommate_pref"] == JStr(v.roommatePref)
  {
  }

  /**
   * The body the page posts is always refused by the demand route: it carries
   * no `housing_search_type`, `budget` or `concerns`, which the route
   * requires, so every such submission is answered 400 naming those keys.
   */
  lemma ServerRejectsClientBody(syn: Syntax, v: DemandValues, referrer: Option<string>)
    ensures var r := DemandIntake.ParseDemand(syn, JObj(RequestBody(v, referrer)));
            && r.Failure? && r.error.FieldIssues?
            && "housing_search_type" in r.error.fields
            && "budget" in r.error.fields
            && "concerns" in r.error.fields
  {
    var o := RequestBody(v, referrer);
    RequestBodyKeys(v, referrer);
    LacksServerKeys(o, referrer.Some?);
    DemandIntake.RequiredKeysReported(syn, o);
  }

  /** The body carries the form's keys, and `referrer_id` only with a referrer. */
  lemma RequestBodyKeys(v: DemandValues, referrer: Option<string>)
    ensures RequestBody(v, referrer).Keys == BodyKeys + (if referrer.Some? then {"referrer_id"} else {})
  {
  }

  lemma LacksServerKeys(o: Obj, withReferrer: bool)
    requires o.Keys == BodyKeys + (if withReferrer then {"referrer_id"} else {})
    ensures "housing_search_type" !in o && "budget" !in o && "concerns" !in o
  {
  }

  /**
   * The query of `/waitlist/thank-you?type=demand&cities=…&id=…` after a
   * successful post: the final cities joined by "," and the returned id.
   * Splitting the parameter on "," gives back the cities as long as none of
   * them holds a comma.
   */
  function RedirectQuery(cities: seq<string>, id: string): (q: map<string, string>)
    ensures q.Keys == {"type", "cities", "id"}
    ensures q["type"] == "demand" && q["id"] == id
    ensures cities == [] ==> q["cities"] == ""
    ensures |cities| == 1 ==> q["cities"] == cities[0]
    ensures |cities| >= 1 && (forall i :: 0 <= i < |cities| ==> ',' !in cities[i]) ==>
              SplitOn(q["cities"], ',') == cities
    ensures forall i :: 0 <= i < |cities| ==> IsInfix(cities[i], q["cities"])
  {
    assert |cities| >= 1 && (forall i :: 0 <= i < |cities| ==> ',' !in cities[i]) ==>
             SplitOn(Join(cities, [',']), ',') == cities by {
      if |cities| >= 1 && (forall i :: 0 <= i < |cities| ==> ',' !in cities[i]) {
        SplitJoin(cities, ',');
      }
    }
    assert forall i :: 0 <= i < |cities| ==> IsInfix(cities[i], Join(cities, [','])) by {
      forall i | 0 <= i < |cities| ensures IsInfix(cities[i], Join(cities, [','])) {
        JoinContains(cities, [','], i);
      }
    }
    map["type" := "demand", "cities" := Join(cities, [',']), "id" := id]
  }

  /** The redirect after the route answered `{ ok, id }`; any other answer keeps the page. */
  function AfterSubmit(cities: seq<string>, resp: Response): (r: Option<map<string, string>>)
    ensures r.Some? <==> resp.status == 200 && resp.reply.Created?
    ensures r.Some? ==> "id" in r.value && r.value["id"] == resp.reply.id
  {
    if resp.status == 200 && resp.reply.Created? then Some(RedirectQuery(cities, resp.reply.id)) else None
  }

  /**
   * End to end: whatever the visitor enters, the demand route answers the
   * page's post with 400, stores nothing, and the page never redirects.
   */
  lemma ClientSubmissionRefused(env: Waitlist.Env, db: Waitlist.Db, v: DemandValues, referrer: Option<string>, io: Waitlist.Io)
    ensures var (db', resp) := Waitlist.SubmitDemand(env, db, Parsed(JObj(RequestBody(v, referrer))), io);
            && db' == db && resp.status == 400
            && AfterSubmit(FinalCities(v.targetCities, v.otherCity), resp).None?
  {
    ServerRejectsClientBody(env.syn, v, referrer);
  }
}
