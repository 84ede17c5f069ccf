/** Properties of the waitlist handlers over several requests. */
module WaitlistLemmas {
  import opened Wrappers
  import opened Js
  import opened Http
  import opened Fields
  import opened Email
  import opened Referral
  import opened Waitlist
  import opened Files
  import SupplyIntake
  import DemandIntake

  /** The body of an approval request. */
  function ApproveBody(id: string, key: string): Body {
    Parsed(JObj(map["waitlist_id" := JStr(id), "admin_key" := JStr(key)]))
  }

  lemma ApproveBodyParses(env: Env, id: string, key: string)
    requires env.syn.isUuid(id)
    ensures ParseApprove(env.syn, ApproveBody(id, key).value) == Success(ApproveRequest(id, key))
  {
  }

  /**
   * A wrong or missing admin key is refused with 401 before the store is
   * touched: the answer does not depend on the store or on the Supabase setup.
   */
  lemma UnauthorizedBeforeStore(env: Env, db: Db, id: string, key: string, io: Io)
    requires env.syn.isUuid(id) && env.adminKey != Some(key)
    ensures ApproveDemand(env, db, ApproveBody(id, key), io) == (db, Response(401, Failed("Unauthorized")))
    ensures ApproveSupply(env, db, ApproveBody(id, key), io) == (db, Response(401, Failed("Unauthorized")))
  {
    ApproveBodyParses(env, id, key);
  }

  /**
   * An id with no row, or a lookup that fails even though the row exists, is
   * answered 404 and changes nothing, on both approval routes.
   */
  lemma UnknownIdNotFound(env: Env, db: Db, id: string, key: string, io: Io)
    requires env.syn.isUuid(id) && env.adminKey == Some(key) && StoreReady(env)
    ensures id !in db.demand || io.lookupFails ==>
              ApproveDemand(env, db, ApproveBody(id, key), io) == (db, Response(404, Failed("Waitlist entry not found")))
    ensures id !in db.supply || io.lookupFails ==>
              ApproveSupply(env, db, ApproveBody(id, key), io) == (db, Response(404, Failed("Waitlist entry not found")))
  {
    ApproveBodyParses(env, id, key);
  }

  /**
   * Approving a demand row twice: the second request is answered 400
   * "Already approved" and changes nothing — the row keeps the first
   * `approved_at`, and no second mail or event is produced.
   */
  lemma ApproveDemandTwice(env: Env, db: Db, id: string, key: string, io1: Io, io2: Io)
    requires env.syn.isUuid(id)
    requires ApproveDemand(env, db, ApproveBody(id, key), io1).1.status == 200
    requires !io2.lookupFails
    ensures var db1 := ApproveDemand(env, db, ApproveBody(id, key), io1).0;
            && ApproveDemand(env, db1, ApproveBody(id, key), io2) == (db1, BadRequest(Failed("Already approved")))
            && db1.demand[id].approvedAt == Some(io1.now)
  {
    ApproveBodyParses(env, id, key);
  }

  /**
   * When the approval mail call throws, the row is already approved and the
   * answer is 500; a retry is then refused as "Already approved", so the
   * referral link is never returned for that row.
   */
  lemma DemandMailFailureStrandsLink(env: Env, db: Db, id: string, key: string, io1: Io, io2: Io)
    requires env.syn.isUuid(id) && env.adminKey == Some(key) && StoreReady(env)
    requires id in db.demand && db.demand[id].status == Pending
    requires !io1.lookupFails && !io1.updateFails && io1.approvalMailThrows && !io2.lookupFails
    ensures var (db1, resp1) := ApproveDemand(env, db, ApproveBody(id, key), io1);
            && resp1 == ServerError(Unexpected)
            && db1.demand[id].status == Approved
            && db1.journal == db.journal
            && ApproveDemand(env, db1, ApproveBody(id, key), io2) == (db1, BadRequest(Failed("Already approved")))
  {
    ApproveBodyParses(env, id, key);
  }

  /**
   * Approving a supply row twice succeeds both times: the second request
   * overwrites `approved_at` and sends the approval mail again.
   */
  lemma ApproveSupplyTwice(env: Env, db: Db, id: string, key: string, io1: Io, io2: Io)
    requires env.syn.isUuid(id)
    requires ApproveSupply(env, db, ApproveBody(id, key), io1).1.status == 200
    requires !io2.lookupFails && !io2.updateFails && !io2.approvalMailThrows
    ensures var db1 := ApproveSupply(env, db, ApproveBody(id, key), io1).0;
            var (db2, resp2) := ApproveSupply(env, db1, ApproveBody(id, key), io2);
            var link := ReferralLink(env.baseUrl, Supply, id);
            && resp2 == Ok(Linked(link, None))
            && db2.supply[id].status == Approved
            && db2.supply[id].approvedAt == Some(io2.now)
            && db2.journal == db.journal + [MailSent(SupplyApprovalMail(db.supply[id], link)),
                                            MailSent(SupplyApprovalMail(db.supply[id], link))]
  {
    ApproveBodyParses(env, id, key);
    var db1 := ApproveSupply(env, db, ApproveBody(id, key), io1).0;
    assert db1.supply[id].record == db.supply[id].record;
  }

  /** Two outcomes with the same answer and the same tables; only the journals may differ. */
  predicate SameButJournal(a: (Db, Response), b: (Db, Response)) {
    a.1 == b.1 && a.0.demand == b.0.demand && a.0.supply == b.0.supply && a.0.painPoints == b.0.painPoints
  }

  /**
   * No route reads the result of its `waitlist_events` insert: whether that
   * write fails changes neither the answer nor any table. The demand route.
   */
  lemma DemandEventUnread(env: Env, db: Db, body: Body, io: Io)
    ensures SameButJournal(SubmitDemand(env, db, body, io), SubmitDemand(env, db, body, io.(eventFails := !io.eventFails)))
  {
    if body.Parsed? && DemandIntake.ParseDemand(env.syn, body.value).Success? {
      var d := DemandIntake.ParseDemand(env.syn, body.value).value;
      SaveDemandEventUnread(env, db, d, io);
    }
  }

  lemma SaveDemandEventUnread(env: Env, db: Db, d: DemandIntake.DemandRecord, io: Io)
    ensures SameButJournal(SaveDemand(env, db, d, io), SaveDemand(env, db, d, io.(eventFails := !io.eventFails)))
  {
  }

  /** The same for the supply route, on every kind of request. */
  lemma SupplyEventUnread(env: Env, db: Db, req: SupplyRequest, io: Io)
    ensures SameButJournal(SubmitSupply(env, db, req, io), SubmitSupply(env, db, req, io.(eventFails := !io.eventFails)))
  {
    match req
    case JsonRequest(body) =>
      JsonEventUnread(env, db, body, io);
    case Multipart(form, attachment) =>
      MultipartEventUnread(env, db, attachment, SupplyIntake.ParseSupply(env.syn, SupplyIntake.MultipartBody(form)), io);
    case UnreadableForm =>
  }

  lemma JsonEventUnread(env: Env, db: Db, body: Body, io: Io)
    ensures SameButJournal(SubmitJson(env, db, body, io), SubmitJson(env, db, body, io.(eventFails := !io.eventFails)))
  {
    var v := JsonVerdict(env.syn, body);
    if v.Some? && v.value.Success? {
      SaveSupplyEventUnread(env, db, v.value.value, io);
    }
  }

  lemma MultipartEventUnread(env: Env, db: Db, attachment: Option<FileInfo>,
                             parsed: Result<SupplyIntake.SupplyRecord, Issues>, io: Io)
    ensures SameButJournal(SubmitMultipart(env, db, attachment, parsed, io),
                           SubmitMultipart(env, db, attachment, parsed, io.(eventFails := !io.eventFails)))
  {
    if parsed.Success? {
      var io' := io.(eventFails := !io.eventFails);
      if attachment.Some? && attachment.value.size > 0 && StoreReady(env) {
        var path := "supply/" + io.objectId + "-" + attachment.value.name;
        assert StoreAttachment(env, db, path, io') == StoreAttachment(env, db, path, io);
        SaveSupplyEventUnread(env, StoreAttachment(env, db, path, io), parsed.value, io);
      } else {
        SaveSupplyEventUnread(env, db, parsed.value, io);
      }
    }
  }

  lemma SaveSupplyEventUnread(env: Env, db: Db, d: SupplyIntake.SupplyRecord, io: Io)
    ensures SameButJournal(SaveSupplySubmission(env, db, d, io),
                           SaveSupplySubmission(env, db, d, io.(eventFails := !io.eventFails)))
  {
  }

  /** The same for the pain-point route. */
  lemma PainPointEventUnread(env: Env, db: Db, body: Body, io: Io)
    ensures SameButJournal(SubmitPainPoint(env, db, body, io), SubmitPainPoint(env, db, body, io.(eventFails := !io.eventFails)))
  {
  }

  /** The same for the demand approval route. */
  lemma ApprovalEventUnread(env: Env, db: Db, body: Body, io: Io)
    ensures SameButJournal(ApproveDemand(env, db, body, io), ApproveDemand(env, db, body, io.(eventFails := !io.eventFails)))
  {
  }

  /** The sample supply sign-up: an address, a city, one concern, e-mail contact, willing to verify. */
  function SampleSupply(): Obj {
    map[
      "email" := JStr("a@x.com"),
      "city" := JStr("Boston"),
      "concerns" := JArr([JStr("Finding roommates")]),
      "contact_pref" := JArr([JStr("email")]),
      "willing_to_verify" := JBool(true)]
  }

  /** The entries of the sample sign-up, one by one. */
  lemma SampleSupplyEntries()
    ensures var o := SampleSupply();
            && o.Keys == {"email", "city", "concerns", "contact_pref", "willing_to_verify"}
            && o["email"] == JStr("a@x.com") && o["city"] == JStr("Boston")
            && o["concerns"] == JArr([JStr("Finding roommates")])
            && o["contact_pref"] == JArr([JStr("email")]) && o["willing_to_verify"] == JBool(true)
  {
  }

  lemma SampleSupplyParses(syn: Syntax)
    requires syn.isEmail("a@x.com")
    ensures SupplyIntake.ParseSupply(syn, SupplyIntake.JsonBody(JObj(SampleSupply())).value).Success?
    ensures var d := SupplyIntake.ParseSupply(syn, SupplyIntake.JsonBody(JObj(SampleSupply())).value).value;
            d.email == "a@x.com" && d.name == None && d.city == "Boston" && d.willingToVerify
  {
    SampleSupplyEntries();
    var o := SupplyIntake.JsonBody(JObj(SampleSupply())).value;
    assert o == SampleSupply();
    assert forall i :: 0 <= i < |SupplyIntake.OptionalTextKeys| ==> SupplyIntake.OptionalTextKeys[i] !in o;
    assert Texts(o, "concerns", 1).Valid? && Choices(o, "contact_pref", ContactOf, 1).Valid?;
    SupplyIntake.AcceptedWithoutFreeText(syn, o);
    var d := SupplyIntake.ParseSupply(syn, o).value;
    assert SupplyIntake.OptionalTextOf(d, 0) == None;
  }

  /**
   * The supply sign-up end to end: the submission is stored pending under the
   * new id; approving it with the right key answers with
   * `<base>/waitlist/supply?r=<id>` and mails that exact link to a@x.com.
   */
  lemma SupplyScenario(env: Env, id: string, key: string, io1: Io, io2: Io)
    requires env.syn.isEmail("a@x.com") && env.syn.isUuid(id)
    requires env.adminKey == Some(key) && StoreReady(env)
    requires io1.id == id && !io1.insertFails
    requires !io2.lookupFails && !io2.updateFails && !io2.approvalMailThrows
    ensures var (db1, resp1) := SubmitSupply(env, EmptyDb, JsonRequest(Parsed(JObj(SampleSupply()))), io1);
            && resp1 == Ok(Created(id))
            && id in db1.supply && db1.supply[id].status == Pending
            && var (db2, resp2) := ApproveSupply(env, db1, ApproveBody(id, key), io2);
               var link := ReferralLink(env.baseUrl, Supply, id);
               && resp2 == Ok(Linked(link, None))
               && db2.supply[id].status == Approved
               && db2.journal[|db2.journal| - 1] == MailSent(ApprovalRequest("a@x.com", Some("there"), link, None, Some("supply")))
  {
    SampleSupplyStored(env, id, io1);
    ApproveBodyParses(env, id, key);
  }

  /** The sample sign-up is stored pending under the new id, with its e-mail and no name. */
  lemma SampleSupplyStored(env: Env, id: string, io: Io)
    requires env.syn.isEmail("a@x.com") && StoreReady(env)
    requires io.id == id && !io.insertFails
    ensures var (db, resp) := SubmitSupply(env, EmptyDb, JsonRequest(Parsed(JObj(SampleSupply()))), io);
            && resp == Ok(Created(id))
            && db.supply.Keys == {id} && db.supply[id].status == Pending
            && db.supply[id].record.email == "a@x.com" && db.supply[id].record.name == None
            && db.demand == map[] && db.painPoints == map[]
  {
    var body := Parsed(JObj(SampleSupply()));
    SampleSupplyVerdict(env.syn);
    assert SubmitSupply(env, EmptyDb, JsonRequest(body), io) == SubmitJson(env, EmptyDb, body, io);
  }

  /** The JSON path's verdict on the sample sign-up: accepted, with its e-mail and no name. */
  lemma SampleSupplyVerdict(syn: Syntax)
    requires syn.isEmail("a@x.com")
    ensures var v := JsonVerdict(syn, Parsed(JObj(SampleSupply())));
            && v.Some? && v.value.Success?
            && v.value.value.email == "a@x.com" && v.value.value.name == None
  {
    SampleSupplyParses(syn);
    var o := SupplyIntake.JsonBody(JObj(SampleSupply())).value;
    assert JsonVerdict(syn, Parsed(JObj(SampleSupply()))) == Some(SupplyIntake.ParseSupply(syn, o));
  }
}
