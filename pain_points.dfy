/** `painPointSchema` of the pain-point route: a story someone shares about finding housing. */
module PainPoints {
  import opened Wrappers
  import opened Text
  import opened Js
  import opened Fields
  import opened Http

  datatype ContactMethod = Mail | Phone | NoContact

  function ContactMethodOf(s: string): Option<ContactMethod> {
    if s == "email" then Some(Mail)
    else if s == "phone" then Some(Phone)
    else if s == "none" then Some(NoContact)
    else None
  }

  /** A validated submission; `contactMethod` is absent when the key was not sent. */
  datatype PainPoint = PainPoint(
    name: string,
    story: string,
    canReachOut: bool,
    contactMethod: Option<ContactMethod>,
    contactInfo: Option<string>)

  /** The keys the schema reads. */
  const PainPointKeys: set<string> := {"name", "story", "can_reach_out", "contact_method", "contact_info"}

  /** When `painPointSchema` accepts an object, key by key. */
  predicate Acceptable(o: Obj) {
    && "name" in o && o["name"].JStr? && |o["name"].s| >= 2
    && "story" in o && o["story"].JStr? && |o["story"].s| >= 10
    && "can_reach_out" in o && o["can_reach_out"].JBool?
    && ("contact_method" in o ==> o["contact_method"].JStr? && ContactMethodOf(o["contact_method"].s).Some?)
    && TextOk(o, "contact_info", None)
  }

  /** `p` holds, field by field, what the schema makes of the object `o`. */
  predicate StoredFrom(o: Obj, p: PainPoint) {
    && "name" in o && o["name"].JStr? && p.name == o["name"].s
    && "story" in o && o["story"].JStr? && p.story == o["story"].s
    && "can_reach_out" in o && o["can_reach_out"].JBool? && p.canReachOut == o["can_reach_out"].b
    && p.contactMethod == (if "contact_method" in o && o["contact_method"].JStr?
                           then ContactMethodOf(o["contact_method"].s) else None)
    && p.contactInfo == Kept(o, "contact_info")
  }

  /**
   * `painPointSchema.parse(body)`: an object is accepted exactly when every
   * key passes its check, and the submission then holds the values sent;
   * otherwise every failing key is reported, in schema order.
   */
  function ParsePainPoint(body: Json): (r: Result<PainPoint, Issues>)
    ensures !body.JObj? ==> r == Failure(NotAnObject)
    ensures body.JObj? ==> (r.Success? <==> Acceptable(body.fields))
    ensures r.Success? ==> body.JObj? && StoredFrom(body.fields, r.value)
    ensures r.Success? ==> |r.value.name| >= 2 && |r.value.story| >= 10 && Canonical(r.value.contactInfo)
    ensures body.JObj? && r.Failure? ==> r.error.FieldIssues? && r.error.fields != []
  {
    if !body.JObj? then Failure(NotAnObject)
    else
      var o := body.fields;
      var name := RequiredText(o, "name", 2);
      var story := RequiredText(o, "story", 10);
      var reach := Flag(o, "can_reach_out");
      var channel := OptionalChoice(o, "contact_method", ContactMethodOf);
      var info := OptionalText(o, "contact_info", None);
      var verdicts := [("name", name.Valid?), ("story", story.Valid?), ("can_reach_out", reach.Valid?),
                       ("contact_method", channel.Valid?), ("contact_info", info.Valid?)];
      if name.Valid? && story.Valid? && reach.Valid? && channel.Valid? && info.Valid? then
        Success(PainPoint(name.value, story.value, reach.value, channel.value, info.value))
      else
        assert !verdicts[0].1 || !verdicts[1].1 || !verdicts[2].1 || !verdicts[3].1 || !verdicts[4].1;
        Failure(FieldIssues(Failing(verdicts)))
  }

  /** The `contact_method` stored: `parsed.contact_method ?? "none"`. */
  function StoredMethod(p: PainPoint): (r: ContactMethod)
    ensures p.contactMethod.Some? ==> r == p.contactMethod.value
    ensures p.contactMethod.None? ==> r == NoContact
  {
    p.contactMethod.GetOr(NoContact)
  }

  /** A submission that leaves out `contact_method` is stored as if it had said "none". */
  lemma AbsentMethodStoredAsNone(o: Obj)
    requires "contact_method" !in o
    requires ParsePainPoint(JObj(o)).Success?
    ensures ParsePainPoint(JObj(o["contact_method" := JStr("none")])).Success?
    ensures StoredMethod(ParsePainPoint(JObj(o)).value)
         == StoredMethod(ParsePainPoint(JObj(o["contact_method" := JStr("none")])).value)
  {
  }

  /** A `contact_method` outside email, phone and none is rejected and reported. */
  lemma UnknownMethodRejected(o: Obj)
    requires "contact_method" in o && o["contact_method"].JStr? && ContactMethodOf(o["contact_method"].s).None?
    ensures ParsePainPoint(JObj(o)).Failure?
    ensures "contact_method" in ParsePainPoint(JObj(o)).error.fields
  {
    var verdicts := [("name", RequiredText(o, "name", 2).Valid?), ("story", RequiredText(o, "story", 10).Valid?),
                     ("can_reach_out", Flag(o, "can_reach_out").Valid?),
                     ("contact_method", OptionalChoice(o, "contact_method", ContactMethodOf).Valid?),
                     ("contact_info", OptionalText(o, "contact_info", None).Valid?)];
    assert ParsePainPoint(JObj(o)) == Failure(FieldIssues(Failing(verdicts)));
    assert !verdicts[3].1;
  }

  /** `contact_info` is the trimmed-to-absent form of what was sent. */
  lemma ContactInfoTrimmed(o: Obj)
    requires ParsePainPoint(JObj(o)).Success?
    ensures "contact_info" in o ==>
              && o["contact_info"].JStr?
              && ParsePainPoint(JObj(o)).value.contactInfo == TrimToAbsent(o["contact_info"].s)
    ensures "contact_info" !in o ==> ParsePainPoint(JObj(o)).value.contactInfo == None
  {
  }

  /** zod strips unknown keys. */
  lemma PainPointIgnoresUnknownKeys(o: Obj, k: string, v: Json)
    requires k !in PainPointKeys
    ensures ParsePainPoint(JObj(o[k := v])) == ParsePainPoint(JObj(o))
  {
    var o' := o[k := v];
    assert forall key :: key in PainPointKeys ==> (key in o' <==> key in o) && (key in o ==> o'[key] == o[key]);
    assert RequiredText(o', "name", 2) == RequiredText(o, "name", 2);
    assert RequiredText(o', "story", 10) == RequiredText(o, "story", 10);
    assert Flag(o', "can_reach_out") == Flag(o, "can_reach_out");
    assert OptionalChoice(o', "contact_method", ContactMethodOf) == OptionalChoice(o, "contact_method", ContactMethodOf);
    assert OptionalText(o', "contact_info", None) == OptionalText(o, "contact_info", None);
  }
}
