/**
 * `supplyPayloadSchema` of the supply intake route and the two ways the route
 * builds the object it parses: from a JSON body, or from a multipart form.
 */
module SupplyIntake {
  import opened Wrappers
  import opened Text
  import opened Js
  import opened Fields
  import opened Http
  import opened Files

  /** The fields of a `supply_waitlist` row that come from the request. */
  datatype SupplyRecord = SupplyRecord(
    name: Option<string>,
    college: Option<string>,
    gradYear: Option<string>,
    linkedin: Option<string>,
    instagram: Option<string>,
    twitter: Option<string>,
    email: string,
    address: Option<string>,
    city: string,
    rent: Option<string>,
    rooms: Option<string>,
    listingLink: Option<string>,
    listingPhotos: Option<string>,
    concerns: seq<string>,
    otherConcern: Option<string>,
    contactPref: seq<Contact>,
    phone: Option<string>,
    willingToVerify: bool)

  /** The keys the schema reads; zod strips every other key, `attachment_url` included. */
  const SupplyKeys: set<string> := {
    "name", "college", "grad_year", "linkedin", "instagram", "twitter", "email", "address",
    "city", "rent", "rooms", "listing_link", "listing_photos", "concerns", "other_concern",
    "contact_pref", "phone", "willing_to_verify"}

  /** The free-text keys that are trimmed to absent. */
  const OptionalTextKeys: seq<string> := [
    "name", "college", "grad_year", "linkedin", "instagram", "twitter", "address", "rent",
    "rooms", "listing_link", "listing_photos", "other_concern", "phone"]

  /** The record's value for the `i`-th trimmed free-text key. */
  function OptionalTextOf(d: SupplyRecord, i: nat): Option<string> {
    match i
    case 0 => d.name
    case 1 => d.college
    case 2 => d.gradYear
    case 3 => d.linkedin
    case 4 => d.instagram
    case 5 => d.twitter
    case 6 => d.address
    case 7 => d.rent
    case 8 => d.rooms
    case 9 => d.listingLink
    case 10 => d.listingPhotos
    case 11 => d.otherConcern
    case 12 => d.phone
    case _ => None
  }

  /** What every accepted supply record satisfies. */
  predicate WellFormed(syn: Syntax, d: SupplyRecord) {
    && Canonical(d.name) && Canonical(d.college) && Canonical(d.gradYear)
    && Canonical(d.linkedin) && Canonical(d.instagram) && Canonical(d.twitter)
    && Canonical(d.address) && Canonical(d.rent) && Canonical(d.rooms)
    && Canonical(d.listingLink) && Canonical(d.listingPhotos) && Canonical(d.otherConcern)
    && Canonical(d.phone)
    && syn.isEmail(d.email)
    && d.city != ""
    && |d.concerns| >= 1
    && |d.contactPref| >= 1
  }

  /** The outcome of every field check of the schema, before they are combined. */
  datatype SupplyChecks = SupplyChecks(
    name: Field<Option<string>>,
    college: Field<Option<string>>,
    gradYear: Field<Option<string>>,
    linkedin: Field<Option<string>>,
    instagram: Field<Option<string>>,
    twitter: Field<Option<string>>,
    email: Field<string>,
    address: Field<Option<string>>,
    city: Field<string>,
    rent: Field<Option<string>>,
    rooms: Field<Option<string>>,
    listingLink: Field<Option<string>>,
    listingPhotos: Field<Option<string>>,
    concerns: Field<seq<string>>,
    otherConcern: Field<Option<string>>,
    contactPref: Field<seq<Contact>>,
    phone: Field<Option<string>>,
    willingToVerify: Field<bool>)

  /** Each key of `supplyPayloadSchema` checked on its own. */
  function CheckSupply(syn: Syntax, o: Obj): SupplyChecks {
    SupplyChecks(
      OptionalText(o, "name", None),
      OptionalText(o, "college", None),
      OptionalText(o, "grad_year", None),
      OptionalText(o, "linkedin", None),
      OptionalText(o, "instagram", None),
      OptionalText(o, "twitter", None),
      Email(syn, o, "email"),
      OptionalText(o, "address", None),
      RequiredText(o, "city", 1),
      OptionalText(o, "rent", None),
      OptionalText(o, "rooms", None),
      OptionalText(o, "listing_link", None),
      OptionalText(o, "listing_photos", None),
      Texts(o, "concerns", 1),
      OptionalText(o, "other_concern", None),
      Choices(o, "contact_pref", ContactOf, 1),
      OptionalText(o, "phone", None),
      Flag(o, "willing_to_verify"))
  }

  /** Each key with whether its check passed, in schema order. */
  function Verdicts(c: SupplyChecks): seq<(string, bool)> {
    [ ("name", c.name.Valid?), ("college", c.college.Valid?), ("grad_year", c.gradYear.Valid?),
      ("linkedin", c.linkedin.Valid?), ("instagram", c.instagram.Valid?),
      ("twitter", c.twitter.Valid?), ("email", c.email.Valid?), ("address", c.address.Valid?),
      ("city", c.city.Valid?), ("rent", c.rent.Valid?), ("rooms", c.rooms.Valid?),
      ("listing_link", c.listingLink.Valid?), ("listing_photos", c.listingPhotos.Valid?),
      ("concerns", c.concerns.Valid?), ("other_concern", c.otherConcern.Valid?),
      ("contact_pref", c.contactPref.Valid?), ("phone", c.phone.Valid?),
      ("willing_to_verify", c.willingToVerify.Valid?) ]
  }

  predicate AllValid(c: SupplyChecks) {
    && c.name.Valid? && c.college.Valid? && c.gradYear.Valid? && c.linkedin.Valid?
    && c.instagram.Valid? && c.twitter.Valid? && c.email.Valid? && c.address.Valid?
    && c.city.Valid? && c.rent.Valid? && c.rooms.Valid? && c.listingLink.Valid?
    && c.listingPhotos.Valid? && c.concerns.Valid? && c.otherConcern.Valid?
    && c.contactPref.Valid? && c.phone.Valid? && c.willingToVerify.Valid?
  }

  /** The record when every check passed, else the failing keys. */
  function Combine(c: SupplyChecks): Result<SupplyRecord, Issues> {
    if AllValid(c) then
      Success(SupplyRecord(
        c.name.value, c.college.value, c.gradYear.value, c.linkedin.value, c.instagram.value,
        c.twitter.value, c.email.value, c.address.value, c.city.value, c.rent.value,
        c.rooms.value, c.listingLink.value, c.listingPhotos.value, c.concerns.value,
        c.otherConcern.value, c.contactPref.value, c.phone.value, c.willingToVerify.value))
    else Failure(FieldIssues(Failing(Verdicts(c))))
  }

  lemma SomeVerdictFails(c: SupplyChecks)
    ensures !AllValid(c) ==> Failing(Verdicts(c)) != []
  {
    var v := Verdicts(c);
    if forall i :: 0 <= i < |v| ==> v[i].1 {
      assert v[0].1 && v[1].1 && v[2].1 && v[3].1 && v[4].1 && v[5].1;
      assert v[6].1 && v[7].1 && v[8].1 && v[9].1 && v[10].1 && v[11].1;
      assert v[12].1 && v[13].1 && v[14].1 && v[15].1 && v[16].1 && v[17].1;
    }
  }

  /** When `supplyPayloadSchema` accepts an object, key by key. */
  predicate Acceptable(syn: Syntax, o: Obj) {
    && TextOk(o, "name", None) && TextOk(o, "college", None) && TextOk(o, "grad_year", None)
    && TextOk(o, "linkedin", None) && TextOk(o, "instagram", None) && TextOk(o, "twitter", None)
    && TextOk(o, "address", None) && TextOk(o, "rent", None) && TextOk(o, "rooms", None)
    && TextOk(o, "listing_link", None) && TextOk(o, "listing_photos", None)
    && TextOk(o, "other_concern", None) && TextOk(o, "phone", None)
    && "email" in o && o["email"].JStr? && syn.isEmail(o["email"].s)
    && "city" in o && o["city"].JStr? && o["city"].s != ""
    && "concerns" in o && StringArray(o["concerns"]) && |o["concerns"].items| >= 1
    && "contact_pref" in o && ChoiceArray(o["contact_pref"], ContactOf) && |o["contact_pref"].items| >= 1
    && "willing_to_verify" in o && o["willing_to_verify"].JBool?
  }

  /** `d` holds, field by field, what the schema makes of the object `o`. */
  ghost predicate StoredFrom(o: Obj, d: SupplyRecord) {
    && d.name == Kept(o, "name") && d.college == Kept(o, "college")
    && d.gradYear == Kept(o, "grad_year") && d.linkedin == Kept(o, "linkedin")
    && d.instagram == Kept(o, "instagram") && d.twitter == Kept(o, "twitter")
    && d.address == Kept(o, "address") && d.rent == Kept(o, "rent") && d.rooms == Kept(o, "rooms")
    && d.listingLink == Kept(o, "listing_link") && d.listingPhotos == Kept(o, "listing_photos")
    && d.otherConcern == Kept(o, "other_concern") && d.phone == Kept(o, "phone")
    && "email" in o && o["email"].JStr? && d.email == o["email"].s
    && "city" in o && o["city"].JStr? && d.city == o["city"].s
    && "concerns" in o && o["concerns"].JArr? && StringsOf(d.concerns, o["concerns"])
    && "contact_pref" in o && ChoicesOf(d.contactPref, o["contact_pref"], ContactOf)
    && "willing_to_verify" in o && o["willing_to_verify"].JBool?
    && d.willingToVerify == o["willing_to_verify"].b
  }

  /**
   * `supplyPayloadSchema.parse(body)` on the object the route assembled: it is
   * accepted exactly when every key passes its check, and the record then
   * holds the values the checks produced from that object.
   */
  function ParseSupply(syn: Syntax, o: Obj): (r: Result<SupplyRecord, Issues>)
    ensures r.Success? <==> Acceptable(syn, o)
    ensures r.Success? ==> WellFormed(syn, r.value) && StoredFrom(o, r.value)
    ensures r.Failure? ==> r.error.FieldIssues? && r.error.fields != []
  {
    var c := CheckSupply(syn, o);
    SomeVerdictFails(c);
    ChecksPass(syn, o);
    if AllValid(c) then ChecksStore(syn, o); Combine(c) else Combine(c)
  }

  lemma ChecksPass(syn: Syntax, o: Obj)
    ensures AllValid(CheckSupply(syn, o)) <==> Acceptable(syn, o)
  {
  }

  lemma ChecksStore(syn: Syntax, o: Obj)
    requires AllValid(CheckSupply(syn, o))
    ensures Combine(CheckSupply(syn, o)).Success? && StoredFrom(o, Combine(CheckSupply(syn, o)).value)
  {
  }

  /** A key whose check failed is reported. */
  lemma Reported(c: SupplyChecks, i: nat)
    requires i < |Verdicts(c)| && !Verdicts(c)[i].1
    ensures Combine(c).Failure? && Verdicts(c)[i].0 in Combine(c).error.fields
  {
  }

  /**
   * The object parsed for a JSON request: the body's own members with
   * `willing_to_verify` replaced by `Boolean(json.willing_to_verify)`. A `null`
   * body makes the property read throw (`None`); any other non-object body
   * contributes no schema key.
   */
  function JsonBody(j: Json): (r: Option<Obj>)
    ensures r.None? <==> j.JNull?
    ensures r.Some? ==> "willing_to_verify" in r.value && r.value["willing_to_verify"].JBool?
  {
    match j
    case JNull => None
    case JObj(f) => Some(f["willing_to_verify" := JBool(TruthyAt(f, "willing_to_verify"))])
    case _ => Some(map["willing_to_verify" := JBool(false)])
  }

  /** A JSON object whose `willing_to_verify` is already a boolean is taken as it is. */
  lemma JsonBodyOfBooleanFlag(f: Obj)
    requires "willing_to_verify" in f && f["willing_to_verify"].JBool?
    ensures JsonBody(JObj(f)) == Some(f)
  {
    assert f["willing_to_verify" := JBool(TruthyAt(f, "willing_to_verify"))] == f;
  }

  /** `formData.get(key)`: the submitted value, or `null`. */
  function FormValue(form: map<string, string>, key: string): Json {
    if key in form then JStr(form[key]) else JNull
  }

  /** The optional keys a multipart request copies from the form, `null` when missing. */
  const FormOptionalKeys: set<string> := {"address", "rent", "rooms", "listing_link"}

  /** The object parsed for a multipart request; `?? ""` turns a missing email or city into "". */
  function MultipartBody(form: map<string, string>): (r: Obj)
    ensures "concerns" !in r && "contact_pref" !in r
    ensures "email" in r && r["email"].JStr? && "city" in r && r["city"].JStr?
    ensures forall key :: key in FormOptionalKeys ==> key in r && r[key] == FormValue(form, key)
    ensures "willing_to_verify" in r && r["willing_to_verify"] == JBool("willing_to_verify" in form && form["willing_to_verify"] == "true")
  {
    map[
      "email" := JStr(if "email" in form then form["email"] else ""),
      "address" := FormValue(form, "address"),
      "city" := JStr(if "city" in form then form["city"] else ""),
      "rent" := FormValue(form, "rent"),
      "rooms" := FormValue(form, "rooms"),
      "listing_link" := FormValue(form, "listing_link"),
      "willing_to_verify" := JBool("willing_to_verify" in form && form["willing_to_verify"] == "true")]
  }

  /** zod strips unknown keys: a key outside the schema, `approval_status` included, changes nothing. */
  lemma SupplyIgnoresUnknownKeys(syn: Syntax, o: Obj, k: string, v: Json)
    requires k !in SupplyKeys
    ensures ParseSupply(syn, o[k := v]) == ParseSupply(syn, o)
  {
    ChecksIgnoreUnknownKey(syn, o, k, v);
  }

  lemma ChecksIgnoreUnknownKey(syn: Syntax, o: Obj, k: string, v: Json)
    requires k !in SupplyKeys
    ensures CheckSupply(syn, o[k := v]) == CheckSupply(syn, o)
  {
    var o' := o[k := v];
    assert forall key :: key in SupplyKeys ==> (key in o' <==> key in o) && (key in o ==> o'[key] == o[key]);
  }

  /** Without `concerns` or `contact_pref` the schema rejects the object and reports the key. */
  lemma MissingListReported(syn: Syntax, o: Obj)
    ensures "concerns" !in o ==> "concerns" in ParseSupply(syn, o).error.fields
    ensures "contact_pref" !in o ==> "contact_pref" in ParseSupply(syn, o).error.fields
  {
    if "concerns" !in o {
      ConcernsMissingReported(syn, o);
    }
    if "contact_pref" !in o {
      ContactMissingReported(syn, o);
    }
  }

  lemma ConcernsMissingReported(syn: Syntax, o: Obj)
    requires "concerns" !in o
    ensures "concerns" in ParseSupply(syn, o).error.fields
  {
    var c := CheckSupply(syn, o);
    assert !c.concerns.Valid?;
    Reported(c, 13);
  }

  lemma ContactMissingReported(syn: Syntax, o: Obj)
    requires "contact_pref" !in o
    ensures "contact_pref" in ParseSupply(syn, o).error.fields
  {
    var c := CheckSupply(syn, o);
    assert !c.contactPref.Valid?;
    Reported(c, 15);
  }

  /**
   * A multipart form never carries `concerns` or `contact_pref`, so whatever
   * it holds the schema rejects it and reports both keys.
   */
  lemma MultipartAlwaysRejected(syn: Syntax, form: map<string, string>)
    ensures ParseSupply(syn, MultipartBody(form)).Failure?
    ensures "concerns" in ParseSupply(syn, MultipartBody(form)).error.fields
    ensures "contact_pref" in ParseSupply(syn, MultipartBody(form)).error.fields
  {
    MissingListReported(syn, MultipartBody(form));
  }

  /** `city` is stored exactly as sent: only the empty string fails, blank text passes untrimmed. */
  lemma SupplyCityVerbatim(syn: Syntax, o: Obj)
    requires ParseSupply(syn, o).Success?
    ensures "city" in o && o["city"].JStr? && ParseSupply(syn, o).value.city == o["city"].s
  {
  }

  /** A blank city such as three spaces passes the city check untrimmed. */
  lemma SupplyBlankCityAccepted(syn: Syntax, o: Obj, s: string)
    requires "city" in o && o["city"] == JStr(s) && s != "" && Blank(s)
    ensures CheckSupply(syn, o).city == Valid(s)
  {
  }

  /**
   * On the JSON path `willing_to_verify` is JavaScript truthiness of whatever
   * was sent: the string "false" counts as willing, an absent key as not.
   */
  lemma JsonWillingIsTruthiness(syn: Syntax, f: Obj)
    requires ParseSupply(syn, JsonBody(JObj(f)).value).Success?
    ensures ParseSupply(syn, JsonBody(JObj(f)).value).value.willingToVerify == TruthyAt(f, "willing_to_verify")
  {
  }

  /** A JSON body that is not an object has no email, so it is rejected. */
  lemma JsonNonObjectRejected(syn: Syntax, j: Json)
    requires !j.JNull? && !j.JObj?
    ensures "email" in ParseSupply(syn, JsonBody(j).value).error.fields
  {
    var o := JsonBody(j).value;
    assert o == map["willing_to_verify" := JBool(false)];
    EmailMissingReported(syn, o);
  }

  lemma EmailMissingReported(syn: Syntax, o: Obj)
    requires "email" !in o
    ensures "email" in ParseSupply(syn, o).error.fields
  {
    var c := CheckSupply(syn, o);
    assert !c.email.Valid?;
    Reported(c, 6);
  }

  /** The check of the `i`-th trimmed free-text key. */
  function OptionalCheck(c: SupplyChecks, i: nat): Field<Option<string>> {
    match i
    case 0 => c.name
    case 1 => c.college
    case 2 => c.gradYear
    case 3 => c.linkedin
    case 4 => c.instagram
    case 5 => c.twitter
    case 6 => c.address
    case 7 => c.rent
    case 8 => c.rooms
    case 9 => c.listingLink
    case 10 => c.listingPhotos
    case 11 => c.otherConcern
    case 12 => c.phone
    case _ => Invalid
  }

  /** The check of the `i`-th free-text key is `OptionalText` on that key. */
  lemma CheckedOptional(syn: Syntax, o: Obj, i: nat)
    requires i < |OptionalTextKeys|
    ensures OptionalCheck(CheckSupply(syn, o), i) == OptionalText(o, OptionalTextKeys[i], None)
  {
    var c := CheckSupply(syn, o);
    match i
    case 0 => assert c.name == OptionalText(o, "name", None);
    case 1 => assert c.college == OptionalText(o, "college", None);
    case 2 => assert c.gradYear == OptionalText(o, "grad_year", None);
    case 3 => assert c.linkedin == OptionalText(o, "linkedin", None);
    case 4 => assert c.instagram == OptionalText(o, "instagram", None);
    case 5 => assert c.twitter == OptionalText(o, "twitter", None);
    case 6 => assert c.address == OptionalText(o, "address", None);
    case 7 => assert c.rent == OptionalText(o, "rent", None);
    case 8 => assert c.rooms == OptionalText(o, "rooms", None);
    case 9 => assert c.listingLink == OptionalText(o, "listing_link", None);
    case 10 => assert c.listingPhotos == OptionalText(o, "listing_photos", None);
    case 11 => assert c.otherConcern == OptionalText(o, "other_concern", None);
    case 12 => assert c.phone == OptionalText(o, "phone", None);
  }

  /** An accepted record carries the value each free-text check produced. */
  lemma CombinedOptional(c: SupplyChecks, i: nat)
    requires i < |OptionalTextKeys| && AllValid(c)
    ensures OptionalCheck(c, i).Valid?
    ensures OptionalTextOf(Combine(c).value, i) == OptionalCheck(c, i).value
  {
  }

  /**
   * Every free-text field of an accepted record, `rent` and `rooms` included,
   * is the trimmed-to-absent form of the submitted string: no number is parsed.
   */
  lemma SupplyOptionalTexts(syn: Syntax, o: Obj, i: nat)
    requires i < |OptionalTextKeys|
    requires ParseSupply(syn, o).Success?
    ensures var key := OptionalTextKeys[i];
            var d := ParseSupply(syn, o).value;
            && (key in o ==> o[key].JStr? && OptionalTextOf(d, i) == TrimToAbsent(o[key].s))
            && (key !in o ==> OptionalTextOf(d, i) == None)
  {
    CheckedOptional(syn, o, i);
    CombinedOptional(CheckSupply(syn, o), i);
  }

  /**
   * An object with a valid email, a non-empty city, the two lists, the flag
   * and none of the free-text keys is accepted with every free text absent.
   */
  lemma AcceptedWithoutFreeText(syn: Syntax, o: Obj)
    requires "email" in o && o["email"].JStr? && syn.isEmail(o["email"].s)
    requires "city" in o && o["city"].JStr? && o["city"].s != ""
    requires Texts(o, "concerns", 1).Valid? && Choices(o, "contact_pref", ContactOf, 1).Valid?
    requires "willing_to_verify" in o && o["willing_to_verify"].JBool?
    requires forall i :: 0 <= i < |OptionalTextKeys| ==> OptionalTextKeys[i] !in o
    ensures ParseSupply(syn, o).Success?
    ensures var d := ParseSupply(syn, o).value;
            && d.email == o["email"].s && d.city == o["city"].s && d.willingToVerify == o["willing_to_verify"].b
            && StringsOf(d.concerns, o["concerns"]) && ChoicesOf(d.contactPref, o["contact_pref"], ContactOf)
            && forall i :: 0 <= i < |OptionalTextKeys| ==> OptionalTextOf(d, i) == None
  {
    var c := CheckSupply(syn, o);
    assert OptionalTextKeys[0] !in o && OptionalTextKeys[1] !in o && OptionalTextKeys[2] !in o;
    assert OptionalTextKeys[3] !in o && OptionalTextKeys[4] !in o && OptionalTextKeys[5] !in o;
    assert OptionalTextKeys[6] !in o && OptionalTextKeys[7] !in o && OptionalTextKeys[8] !in o;
    assert OptionalTextKeys[9] !in o && OptionalTextKeys[10] !in o && OptionalTextKeys[11] !in o;
    assert OptionalTextKeys[12] !in o;
    assert AllValid(c);
  }

  /**
   * An object with a valid email, a non-empty city, the two lists, the flag
   * and a string under every free-text key is accepted, each free text
   * trimmed to absent.
   */
  lemma AcceptedWithAllText(syn: Syntax, o: Obj)
    requires "email" in o && o["email"].JStr? && syn.isEmail(o["email"].s)
    requires "city" in o && o["city"].JStr? && o["city"].s != ""
    requires Texts(o, "concerns", 1).Valid? && Choices(o, "contact_pref", ContactOf, 1).Valid?
    requires "willing_to_verify" in o && o["willing_to_verify"].JBool?
    requires forall i :: 0 <= i < |OptionalTextKeys| ==> OptionalTextKeys[i] in o && o[OptionalTextKeys[i]].JStr?
    ensures ParseSupply(syn, o).Success?
    ensures var d := ParseSupply(syn, o).value;
            && d.email == o["email"].s && d.city == o["city"].s && d.willingToVerify == o["willing_to_verify"].b
            && StringsOf(d.concerns, o["concerns"]) && ChoicesOf(d.contactPref, o["contact_pref"], ContactOf)
            && (forall i :: 0 <= i < |OptionalTextKeys| ==> OptionalTextOf(d, i) == TrimToAbsent(o[OptionalTextKeys[i]].s))
            && d.listingPhotos == TrimToAbsent(o[OptionalTextKeys[10]].s)
  {
    var c := CheckSupply(syn, o);
    forall i | 0 <= i < |OptionalTextKeys|
      ensures OptionalCheck(c, i).Valid?
    {
      CheckedOptional(syn, o, i);
    }
    assert OptionalCheck(c, 0).Valid? && OptionalCheck(c, 1).Valid? && OptionalCheck(c, 2).Valid?;
    assert OptionalCheck(c, 3).Valid? && OptionalCheck(c, 4).Valid? && OptionalCheck(c, 5).Valid?;
    assert OptionalCheck(c, 6).Valid? && OptionalCheck(c, 7).Valid? && OptionalCheck(c, 8).Valid?;
    assert OptionalCheck(c, 9).Valid? && OptionalCheck(c, 10).Valid? && OptionalCheck(c, 11).Valid?;
    assert OptionalCheck(c, 12).Valid?;
    assert AllValid(c);
    forall i | 0 <= i < |OptionalTextKeys|
      ensures OptionalTextOf(ParseSupply(syn, o).value, i) == TrimToAbsent(o[OptionalTextKeys[i]].s)
    {
      SupplyOptionalTexts(syn, o, i);
    }
    assert OptionalTextOf(ParseSupply(syn, o).value, 10) == ParseSupply(syn, o).value.listingPhotos;
  }
}
