/**
 * `demandPayloadSchema` of the demand intake route: a raw JSON body becomes a
 * canonical demand record or a list of failing keys.
 */
module DemandIntake {
  import opened Wrappers
  import opened Text
  import opened Js
  import opened Fields
  import opened Http

  datatype Status = Confirmed | Recruiting | Exploring
  datatype HousingSearch = Solo | WithRoommates

  function StatusOf(s: string): Option<Status> {
    if s == "confirmed" then Some(Confirmed)
    else if s == "recruiting" then Some(Recruiting)
    else if s == "exploring" then Some(Exploring)
    else None
  }

  function HousingSearchOf(s: string): Option<HousingSearch> {
    if s == "solo" then Some(Solo) else if s == "with_roommates" then Some(WithRoommates) else None
  }

  /** The fields of a `demand_waitlist` row that come from the request. */
  datatype DemandRecord = DemandRecord(
    name: Option<string>,
    email: string,
    phone: Option<string>,
    college: Option<string>,
    gradYear: Option<string>,
    linkedin: Option<string>,
    instagram: Option<string>,
    twitter: Option<string>,
    status: Status,
    targetCities: seq<string>,
    moveInMonth: string,
    company: Option<string>,
    sector: Option<string>,
    housingSearch: HousingSearch,
    roommatePreferences: Option<seq<string>>,
    otherRoommatePreference: Option<string>,
    budget: string,
    concerns: seq<string>,
    otherConcern: Option<string>,
    contactPref: seq<Contact>,
    referrerId: Option<string>)

  /** The keys the schema reads; zod strips every other key of the body. */
  const DemandKeys: set<string> := {
    "name", "email", "phone", "college", "grad_year", "linkedin", "instagram", "twitter",
    "status", "target_cities", "move_in_month", "company", "sector", "housing_search_type",
    "roommate_preferences", "other_roommate_preference", "budget", "concerns",
    "other_concern", "contact_pref", "referrer_id"}

  /** The free-text keys that are trimmed to absent. */
  const OptionalTextKeys: seq<string> := [
    "name", "phone", "college", "grad_year", "linkedin", "instagram", "twitter",
    "company", "sector", "other_roommate_preference", "other_concern"]

  /** The record's value for the `i`-th trimmed free-text key. */
  function OptionalTextOf(d: DemandRecord, i: nat): Option<string> {
    match i
    case 0 => d.name
    case 1 => d.phone
    case 2 => d.college
    case 3 => d.gradYear
    case 4 => d.linkedin
    case 5 => d.instagram
    case 6 => d.twitter
    case 7 => d.company
    case 8 => d.sector
    case 9 => d.otherRoommatePreference
    case 10 => d.otherConcern
    case _ => None
  }

  /** What every accepted demand record satisfies. */
  predicate WellFormed(syn: Syntax, d: DemandRecord) {
    && Canonical(d.name) && Canonical(d.phone) && Canonical(d.college) && Canonical(d.gradYear)
    && Canonical(d.linkedin) && Canonical(d.instagram) && Canonical(d.twitter)
    && Canonical(d.company) && Canonical(d.sector) && Canonical(d.otherRoommatePreference)
    && Canonical(d.otherConcern)
    && (d.name.Some? ==> |d.name.value| <= 120)
    && syn.isEmail(d.email)
    && |d.targetCities| >= 1
    && d.moveInMonth != ""
    && d.budget != ""
    && |d.concerns| >= 1
    && |d.contactPref| >= 1
    && (d.referrerId.Some? ==> syn.isUuid(d.referrerId.value))
  }

  /** The outcome of every field check of the schema, before they are combined. */
  datatype DemandChecks = DemandChecks(
    name: Field<Option<string>>,
    email: Field<string>,
    phone: Field<Option<string>>,
    college: Field<Option<string>>,
    gradYear: Field<Option<string>>,
    linkedin: Field<Option<string>>,
    instagram: Field<Option<string>>,
    twitter: Field<Option<string>>,
    status: Field<Status>,
    targetCities: Field<seq<string>>,
    moveInMonth: Field<string>,
    company: Field<Option<string>>,
    sector: Field<Option<string>>,
    housingSearch: Field<HousingSearch>,
    roommatePreferences: Field<Option<seq<string>>>,
    otherRoommatePreference: Field<Option<string>>,
    budget: Field<string>,
    concerns: Field<seq<string>>,
    otherConcern: Field<Option<string>>,
    contactPref: Field<seq<Contact>>,
    referrerId: Field<Option<string>>)

  /** Each key of `demandPayloadSchema` checked on its own. */
  function CheckDemand(syn: Syntax, o: Obj): DemandChecks {
    DemandChecks(
      OptionalText(o, "name", Some(120)),
      Email(syn, o, "email"),
      OptionalText(o, "phone", None),
      OptionalText(o, "college", None),
      OptionalText(o, "grad_year", None),
      OptionalText(o, "linkedin", None),
      OptionalText(o, "instagram", None),
      OptionalText(o, "twitter", None),
      Choice(o, "status", StatusOf),
      Texts(o, "target_cities", 1),
      RequiredText(o, "move_in_month", 1),
      OptionalText(o, "company", None),
      OptionalText(o, "sector", None),
      Choice(o, "housing_search_type", HousingSearchOf),
      OptionalTexts(o, "roommate_preferences"),
      OptionalText(o, "other_roommate_preference", None),
      RequiredText(o, "budget", 1),
      Texts(o, "concerns", 1),
      OptionalText(o, "other_concern", None),
      Choices(o, "contact_pref", ContactOf, 1),
      OptionalUuid(syn, o, "referrer_id"))
  }

  /** Each key with whether its check passed, in schema order. */
  function Verdicts(c: DemandChecks): seq<(string, bool)> {
    [ ("name", c.name.Valid?), ("email", c.email.Valid?), ("phone", c.phone.Valid?),
      ("college", c.college.Valid?), ("grad_year", c.gradYear.Valid?),
      ("linkedin", c.linkedin.Valid?), ("instagram", c.instagram.Valid?),
      ("twitter", c.twitter.Valid?), ("status", c.status.Valid?),
      ("target_cities", c.targetCities.Valid?), ("move_in_month", c.moveInMonth.Valid?),
      ("company", c.company.Valid?), ("sector", c.sector.Valid?),
      ("housing_search_type", c.housingSearch.Valid?),
      ("roommate_preferences", c.roommatePreferences.Valid?),
      ("other_roommate_preference", c.otherRoommatePreference.Valid?),
      ("budget", c.budget.Valid?), ("concerns", c.concerns.Valid?),
      ("other_concern", c.otherConcern.Valid?), ("contact_pref", c.contactPref.Valid?),
      ("referrer_id", c.referrerId.Valid?) ]
  }

  predicate AllValid(c: DemandChecks) {
    && c.name.Valid? && c.email.Valid? && c.phone.Valid? && c.college.Valid? && c.gradYear.Valid?
    && c.linkedin.Valid? && c.instagram.Valid? && c.twitter.Valid? && c.status.Valid?
    && c.targetCities.Valid? && c.moveInMonth.Valid? && c.company.Valid? && c.sector.Valid?
    && c.housingSearch.Valid? && c.roommatePreferences.Valid? && c.otherRoommatePreference.Valid?
    && c.budget.Valid? && c.concerns.Valid? && c.otherConcern.Valid? && c.contactPref.Valid?
    && c.referrerId.Valid?
  }

  /** The record when every check passed, else the failing keys. */
  function Combine(c: DemandChecks): Result<DemandRecord, Issues> {
    if AllValid(c) then
      Success(DemandRecord(
        c.name.value, c.email.value, c.phone.value, c.college.value, c.gradYear.value,
        c.linkedin.value, c.instagram.value, c.twitter.value, c.status.value,
        c.targetCities.value, c.moveInMonth.value, c.company.value, c.sector.value,
        c.housingSearch.value, c.roommatePreferences.value, c.otherRoommatePreference.value,
        c.budget.value, c.concerns.value, c.otherConcern.value, c.contactPref.value,
        c.referrerId.value))
    else Failure(FieldIssues(Failing(Verdicts(c))))
  }

  /** When `demandPayloadSchema` accepts an object, key by key. */
  predicate Acceptable(syn: Syntax, o: Obj) {
    && TextOk(o, "name", Some(120)) && TextOk(o, "phone", None) && TextOk(o, "college", None)
    && TextOk(o, "grad_year", None) && TextOk(o, "linkedin", None) && TextOk(o, "instagram", None)
    && TextOk(o, "twitter", None) && TextOk(o, "company", None) && TextOk(o, "sector", None)
    && TextOk(o, "other_roommate_preference", None) && TextOk(o, "other_concern", None)
    && "email" in o && o["email"].JStr? && syn.isEmail(o["email"].s)
    && "status" in o && o["status"].JStr? && StatusOf(o["status"].s).Some?
    && "target_cities" in o && StringArray(o["target_cities"]) && |o["target_cities"].items| >= 1
    && "move_in_month" in o && o["move_in_month"].JStr? && o["move_in_month"].s != ""
    && "housing_search_type" in o && o["housing_search_type"].JStr?
    && HousingSearchOf(o["housing_search_type"].s).Some?
    && ("roommate_preferences" in o ==> StringArray(o["roommate_preferences"]))
    && "budget" in o && o["budget"].JStr? && o["budget"].s != ""
    && "concerns" in o && StringArray(o["concerns"]) && |o["concerns"].items| >= 1
    && "contact_pref" in o && ChoiceArray(o["contact_pref"], ContactOf) && |o["contact_pref"].items| >= 1
    && ("referrer_id" in o ==> o["referrer_id"].JStr? && syn.isUuid(o["referrer_id"].s))
  }

  /** `d` holds, field by field, what the schema makes of the object `o`. */
  ghost predicate StoredFrom(o: Obj, d: DemandRecord) {
    && d.name == Kept(o, "name") && d.phone == Kept(o, "phone") && d.college == Kept(o, "college")
    && d.gradYear == Kept(o, "grad_year") && d.linkedin == Kept(o, "linkedin")
    && d.instagram == Kept(o, "instagram") && d.twitter == Kept(o, "twitter")
    && d.company == Kept(o, "company") && d.sector == Kept(o, "sector")
    && d.otherRoommatePreference == Kept(o, "other_roommate_preference")
    && d.otherConcern == Kept(o, "other_concern")
    && "email" in o && o["email"].JStr? && d.email == o["email"].s
    && "status" in o && o["status"].JStr? && StatusOf(o["status"].s) == Some(d.status)
    && "target_cities" in o && o["target_cities"].JArr? && StringsOf(d.targetCities, o["target_cities"])
    && "move_in_month" in o && o["move_in_month"].JStr? && d.moveInMonth == o["move_in_month"].s
    && "housing_search_type" in o && o["housing_search_type"].JStr?
    && HousingSearchOf(o["housing_search_type"].s) == Some(d.housingSearch)
    && (if "roommate_preferences" in o
        then o["roommate_preferences"].JArr? && d.roommatePreferences.Some?
             && StringsOf(d.roommatePreferences.value, o["roommate_preferences"])
        else d.roommatePreferences == None)
    && "budget" in o && o["budget"].JStr? && d.budget == o["budget"].s
    && "concerns" in o && o["concerns"].JArr? && StringsOf(d.concerns, o["concerns"])
    && "contact_pref" in o && ChoicesOf(d.contactPref, o["contact_pref"], ContactOf)
    && d.referrerId == (if "referrer_id" in o && o["referrer_id"].JStr? then Some(o["referrer_id"].s) else None)
  }

  /**
   * `demandPayloadSchema.parse(body)`: an object is accepted exactly when
   * every key passes its check, and the record then holds the values the
   * checks produced from that object.
   */
  function ParseDemand(syn: Syntax, body: Json): (r: Result<DemandRecord, Issues>)
    ensures r.Success? ==> WellFormed(syn, r.value)
    ensures !body.JObj? ==> r == Failure(NotAnObject)
    ensures body.JObj? ==> (r.Success? <==> Acceptable(syn, body.fields))
    ensures r.Success? ==> body.JObj? && StoredFrom(body.fields, r.value)
    ensures body.JObj? && r.Failure? ==> r.error.FieldIssues? && r.error.fields != []
  {
    if !body.JObj? then Failure(NotAnObject)
    else
      var c := CheckDemand(syn, body.fields);
      SomeVerdictFails(c);
      ChecksPass(syn, body.fields);
      if AllValid(c) then ChecksStore(syn, body.fields); Combine(c) else Combine(c)
  }

  lemma ChecksPass(syn: Syntax, o: Obj)
    ensures AllValid(CheckDemand(syn, o)) <==> Acceptable(syn, o)
  {
  }

  lemma ChecksStore(syn: Syntax, o: Obj)
    requires AllValid(CheckDemand(syn, o))
    ensures Combine(CheckDemand(syn, o)).Success? && StoredFrom(o, Combine(CheckDemand(syn, o)).value)
  {
  }

  lemma SomeVerdictFails(c: DemandChecks)
    ensures !AllValid(c) ==> Failing(Verdicts(c)) != []
  {
    var v := Verdicts(c);
    if forall i :: 0 <= i < |v| ==> v[i].1 {
      assert v[0].1 && v[1].1 && v[2].1 && v[3].1 && v[4].1 && v[5].1 && v[6].1;
      assert v[7].1 && v[8].1 && v[9].1 && v[10].1 && v[11].1 && v[12].1 && v[13].1;
      assert v[14].1 && v[15].1 && v[16].1 && v[17].1 && v[18].1 && v[19].1 && v[20].1;
    }
  }

  /** The check of the `i`-th trimmed free-text key. */
  function OptionalCheck(c: DemandChecks, i: nat): Field<Option<string>> {
    match i
    case 0 => c.name
    case 1 => c.phone
    case 2 => c.college
    case 3 => c.gradYear
    case 4 => c.linkedin
    case 5 => c.instagram
    case 6 => c.twitter
    case 7 => c.company
    case 8 => c.sector
    case 9 => c.otherRoommatePreference
    case 10 => c.otherConcern
    case _ => Invalid
  }

  /** A key whose check failed is reported. */
  lemma Reported(c: DemandChecks, i: nat)
    requires i < |Verdicts(c)| && !Verdicts(c)[i].1
    ensures Combine(c).Failure? && Verdicts(c)[i].0 in Combine(c).error.fields
  {
  }

  /** A key whose check failed is reported by the parse of the object. */
  lemma ParseReports(syn: Syntax, o: Obj, i: nat)
    requires i < |Verdicts(CheckDemand(syn, o))| && !Verdicts(CheckDemand(syn, o))[i].1
    ensures ParseDemand(syn, JObj(o)).Failure?
    ensures Verdicts(CheckDemand(syn, o))[i].0 in ParseDemand(syn, JObj(o)).error.fields
  {
    Reported(CheckDemand(syn, o), i);
  }

  /** zod strips unknown keys: a key outside the schema, `approval_status` included, changes nothing. */
  lemma DemandIgnoresUnknownKeys(syn: Syntax, o: Obj, k: string, v: Json)
    requires k !in DemandKeys
    ensures ParseDemand(syn, JObj(o[k := v])) == ParseDemand(syn, JObj(o))
  {
    ChecksIgnoreUnknownKey(syn, o, k, v);
  }

  lemma ChecksIgnoreUnknownKey(syn: Syntax, o: Obj, k: string, v: Json)
    requires k !in DemandKeys
    ensures CheckDemand(syn, o[k := v]) == CheckDemand(syn, o)
  {
    var o' := o[k := v];
    assert forall key :: key in DemandKeys ==> (key in o' <==> key in o) && (key in o ==> o'[key] == o[key]);
  }

  /** The 120-character limit on `name` applies to the raw string, before trimming. */
  lemma DemandNameLimitBeforeTrim(syn: Syntax, o: Obj, s: string)
    requires "name" in o && o["name"] == JStr(s) && |s| > 120
    ensures ParseDemand(syn, JObj(o)).Failure?
    ensures "name" in ParseDemand(syn, JObj(o)).error.fields
  {
    Reported(CheckDemand(syn, o), 0);
  }

  /** An empty `target_cities`, `concerns` or `contact_pref` list is rejected and reported under its key. */
  lemma DemandRejectsEmptyList(syn: Syntax, o: Obj, key: string)
    requires key == "target_cities" || key == "concerns" || key == "contact_pref"
    requires key in o && o[key] == JArr([])
    ensures ParseDemand(syn, JObj(o)).Failure?
    ensures key in ParseDemand(syn, JObj(o)).error.fields
  {
    if key == "target_cities" {
      EmptyListReported(syn, o, key, 9);
    } else if key == "concerns" {
      EmptyListReported(syn, o, key, 17);
    } else {
      EmptyListReported(syn, o, key, 19);
    }
  }

  lemma EmptyListReported(syn: Syntax, o: Obj, key: string, i: nat)
    requires (key, i) == ("target_cities", 9) || (key, i) == ("concerns", 17) || (key, i) == ("contact_pref", 19)
    requires key in o && o[key] == JArr([])
    ensures ParseDemand(syn, JObj(o)).Failure?
    ensures key in ParseDemand(syn, JObj(o)).error.fields
  {
    var c := CheckDemand(syn, o);
    assert Verdicts(c)[i] == (key, false) by {
      if i == 9 {
        assert c.targetCities == Texts(o, key, 1);
      } else if i == 17 {
        assert c.concerns == Texts(o, key, 1);
      } else {
        assert c.contactPref == Choices(o, key, ContactOf, 1);
      }
    }
    ParseReports(syn, o, i);
  }

  /** A `status`, `housing_search_type` or `contact_pref` element outside its closed set is rejected. */
  lemma DemandRejectsOutsideEnums(syn: Syntax, o: Obj, key: string)
    requires key in o
    requires || (key == "status" && o[key].JStr? && StatusOf(o[key].s).None?)
             || (key == "housing_search_type" && o[key].JStr? && HousingSearchOf(o[key].s).None?)
             || (key == "contact_pref" && o[key].JArr? &&
                 exists i :: 0 <= i < |o[key].items| && o[key].items[i].JStr? && ContactOf(o[key].items[i].s).None?)
    ensures ParseDemand(syn, JObj(o)).Failure?
    ensures key in ParseDemand(syn, JObj(o)).error.fields
  {
    if key == "status" {
      StatusRejected(syn, o);
    } else if key == "housing_search_type" {
      HousingSearchRejected(syn, o);
    } else {
      ContactPrefRejected(syn, o);
    }
  }

  lemma StatusRejected(syn: Syntax, o: Obj)
    requires "status" in o && o["status"].JStr? && StatusOf(o["status"].s).None?
    ensures ParseDemand(syn, JObj(o)).Failure? && "status" in ParseDemand(syn, JObj(o)).error.fields
  {
    StatusVerdict(syn, o);
    ParseReports(syn, o, 8);
  }

  lemma HousingSearchRejected(syn: Syntax, o: Obj)
    requires "housing_search_type" in o && o["housing_search_type"].JStr?
    requires HousingSearchOf(o["housing_search_type"].s).None?
    ensures ParseDemand(syn, JObj(o)).Failure? && "housing_search_type" in ParseDemand(syn, JObj(o)).error.fields
  {
    HousingSearchVerdict(syn, o);
    ParseReports(syn, o, 13);
  }

  lemma ContactPrefRejected(syn: Syntax, o: Obj)
    requires "contact_pref" in o && o["contact_pref"].JArr?
    requires exists i :: 0 <= i < |o["contact_pref"].items| && o["contact_pref"].items[i].JStr? &&
                         ContactOf(o["contact_pref"].items[i].s).None?
    ensures ParseDemand(syn, JObj(o)).Failure? && "contact_pref" in ParseDemand(syn, JObj(o)).error.fields
  {
    ContactPrefVerdict(syn, o);
    ParseReports(syn, o, 19);
  }

  /** A `status` outside its closed set fails its check. */
  lemma StatusVerdict(syn: Syntax, o: Obj)
    requires "status" in o && o["status"].JStr? && StatusOf(o["status"].s).None?
    ensures Verdicts(CheckDemand(syn, o))[8] == ("status", false)
  {
    assert CheckDemand(syn, o).status == Choice(o, "status", StatusOf);
  }

  /** A `housing_search_type` outside its closed set fails its check. */
  lemma HousingSearchVerdict(syn: Syntax, o: Obj)
    requires "housing_search_type" in o && o["housing_search_type"].JStr?
    requires HousingSearchOf(o["housing_search_type"].s).None?
    ensures Verdicts(CheckDemand(syn, o))[13] == ("housing_search_type", false)
  {
    assert CheckDemand(syn, o).housingSearch == Choice(o, "housing_search_type", HousingSearchOf);
  }

  /** A `contact_pref` element outside {email, text} fails the list's check. */
  lemma ContactPrefVerdict(syn: Syntax, o: Obj)
    requires "contact_pref" in o && o["contact_pref"].JArr?
    requires exists j :: 0 <= j < |o["contact_pref"].items| && o["contact_pref"].items[j].JStr? &&
                         ContactOf(o["contact_pref"].items[j].s).None?
    ensures Verdicts(CheckDemand(syn, o))[19] == ("contact_pref", false)
  {
    assert CheckDemand(syn, o).contactPref == Choices(o, "contact_pref", ContactOf, 1);
  }

  /** The check of the `i`-th free-text key is `OptionalText` on that key. */
  lemma CheckedOptional(syn: Syntax, o: Obj, i: nat)
    requires i < |OptionalTextKeys|
    ensures OptionalCheck(CheckDemand(syn, o), i)
            == OptionalText(o, OptionalTextKeys[i], if i == 0 then Some(120) else None)
  {
    var c := CheckDemand(syn, o);
    match i
    case 0 => assert c.name == OptionalText(o, "name", Some(120));
    case 1 => assert c.phone == OptionalText(o, "phone", None);
    case 2 => assert c.college == OptionalText(o, "college", None);
    case 3 => assert c.gradYear == OptionalText(o, "grad_year", None);
    case 4 => assert c.linkedin == OptionalText(o, "linkedin", None);
    case 5 => assert c.instagram == OptionalText(o, "instagram", None);
    case 6 => assert c.twitter == OptionalText(o, "twitter", None);
    case 7 => assert c.company == OptionalText(o, "company", None);
    case 8 => assert c.sector == OptionalText(o, "sector", None);
    case 9 => assert c.otherRoommatePreference == OptionalText(o, "other_roommate_preference", None);
    case 10 => assert c.otherConcern == OptionalText(o, "other_concern", None);
  }

  /** An accepted record carries the value each free-text check produced. */
  lemma CombinedOptional(c: DemandChecks, i: nat)
    requires i < |OptionalTextKeys| && AllValid(c)
    ensures OptionalCheck(c, i).Valid?
    ensures OptionalTextOf(Combine(c).value, i) == OptionalCheck(c, i).value
  {
  }

  /**
   * Every free-text field of an accepted record is the trimmed-to-absent form
   * of the submitted string, and absent when the key was not sent.
   */
  lemma DemandOptionalTexts(syn: Syntax, o: Obj, i: nat)
    requires i < |OptionalTextKeys|
    requires ParseDemand(syn, JObj(o)).Success?
    ensures var key := OptionalTextKeys[i];
            var d := ParseDemand(syn, JObj(o)).value;
            && (key in o ==> o[key].JStr? && OptionalTextOf(d, i) == TrimToAbsent(o[key].s))
            && (key !in o ==> OptionalTextOf(d, i) == None)
  {
    var c := CheckDemand(syn, o);
    CheckedOptional(syn, o, i);
    CombinedOptional(c, i);
  }

  /** A missing `referrer_id` or `roommate_preferences` is stored as null. */
  lemma DemandMissingIsNull(syn: Syntax, o: Obj)
    requires ParseDemand(syn, JObj(o)).Success?
    ensures "referrer_id" !in o ==> ParseDemand(syn, JObj(o)).value.referrerId == None
    ensures "roommate_preferences" !in o ==> ParseDemand(syn, JObj(o)).value.roommatePreferences == None
  {
  }

  /** A body without `housing_search_type`, `budget` and `concerns` is rejected, and all three are reported. */
  lemma RequiredKeysReported(syn: Syntax, o: Obj)
    requires "housing_search_type" !in o && "budget" !in o && "concerns" !in o
    ensures ParseDemand(syn, JObj(o)).Failure?
    ensures var issues := ParseDemand(syn, JObj(o)).error;
            issues.FieldIssues? && "housing_search_type" in issues.fields
            && "budget" in issues.fields && "concerns" in issues.fields
  {
    var c := CheckDemand(syn, o);
    assert !c.housingSearch.Valid? && !c.budget.Valid? && !c.concerns.Valid?;
    ThreeReported(c);
  }

  lemma ThreeReported(c: DemandChecks)
    requires !c.housingSearch.Valid? && !c.budget.Valid? && !c.concerns.Valid?
    ensures Combine(c).Failure? && Combine(c).error.FieldIssues?
    ensures "housing_search_type" in Combine(c).error.fields
    ensures "budget" in Combine(c).error.fields && "concerns" in Combine(c).error.fields
  {
    var v := Verdicts(c);
    assert v[13] == ("housing_search_type", false);
    assert v[16] == ("budget", false);
    assert v[17] == ("concerns", false);
    assert Combine(c) == Failure(FieldIssues(Failing(v)));
  }
}
