/**
 * The waitlist store and the route handlers that change it, as functions from
 * the store before a request to the store after it and the response.
 *
 * The database tables are maps from row id to row. Everything the handlers
 * send out of the process — an event row, a mail, a stored file — goes onto
 * one journal, so the order of those effects is part of the state.
 * Identifiers, timestamps and the success of each remote call are inputs
 * (`Io`); the deployment's settings are `Env`.
 */
module Waitlist {
  import opened Wrappers
  import opened Js
  import opened Http
  import opened Fields
  import opened Email
  import opened Referral
  import opened Files
  import DemandIntake
  import SupplyIntake
  import PainPoints

  datatype Approval = Pending | Approved

  /** A waitlist row: the submitted record and its approval state. */
  datatype Entry<R> = Entry(record: R, status: Approval, approvedAt: Option<string>)

  /** A pain-point row: the submission and the contact method stored for it. */
  datatype StoredPainPoint = StoredPainPoint(point: PainPoints.PainPoint, contactMethod: PainPoints.ContactMethod)

  /** A `waitlist_events` row. */
  datatype Event = Event(kind: string, payload: Obj)

  /**
   * A mail handed off: a confirmation composed by `sendWaitlistConfirmationEmail`,
   * or the arguments of a call to `sendApprovalEmail`, whose body is not part
   * of this model.
   */
  datatype Outgoing =
    | Confirmed(message: Message)
    | ApprovalRequest(to: string, name: Option<string>, referralLink: string,
                      cities: Option<seq<string>>, kind: Option<string>)

  datatype Effect =
    | EventLogged(event: Event)
    | MailSent(mail: Outgoing)
    | ObjectStored(bucket: string, path: string)

  datatype Db = Db(
    demand: map<string, Entry<DemandIntake.DemandRecord>>,
    supply: map<string, Entry<SupplyIntake.SupplyRecord>>,
    painPoints: map<string, StoredPainPoint>,
    journal: seq<Effect>)

  /**
   * The deployment: the syntax checks, `ADMIN_KEY`, `NEXT_PUBLIC_BASE_URL`,
   * `NEXT_PUBLIC_SUPABASE_URL`, `SUPABASE_STORAGE_BUCKET`, whether a Resend key
   * is set, and whether a non-empty `SUPABASE_SERVICE_ROLE_KEY` is.
   */
  datatype Env = Env(
    syn: Syntax,
    adminKey: Option<string>,
    baseUrl: Option<string>,
    projectUrl: Option<string>,
    storageBucket: Option<string>,
    mailerConfigured: bool,
    serviceKeySet: bool)

  /**
   * `createSupabaseAdminClient` returns a client: the project URL and the
   * service key are both set and non-empty. Otherwise it throws.
   */
  predicate StoreReady(env: Env) {
    env.projectUrl.Some? && env.projectUrl.value != "" && env.serviceKeySet
  }

  /**
   * What the outside world decides during one request: the id the database
   * assigns, the UUID of an attachment's path, the current time, and whether
   * the row lookup, the insert, the `waitlist_events` insert, the update, the
   * attachment upload or the approval mail fails.
   */
  datatype Io = Io(
    id: string,
    objectId: string,
    now: string,
    lookupFails: bool,
    insertFails: bool,
    eventFails: bool,
    updateFails: bool,
    uploadFails: bool,
    approvalMailThrows: bool)

  const EmptyDb: Db := Db(map[], map[], map[], [])

  /**
   * How the store may change: rows are never removed, an approved demand row
   * never changes again, an approved supply row stays approved, pain points
   * never change, and the journal only grows.
   */
  predicate Evolves(db: Db, db': Db) {
    && (forall id :: id in db.demand ==> id in db'.demand)
    && (forall id :: id in db.demand && db.demand[id].status == Approved ==> db'.demand[id] == db.demand[id])
    && (forall id :: id in db.supply ==> id in db'.supply)
    && (forall id :: id in db.supply && db.supply[id].status == Approved ==> db'.supply[id].status == Approved)
    && (forall id :: id in db.painPoints ==> id in db'.painPoints && db'.painPoints[id] == db.painPoints[id])
    && |db.journal| <= |db'.journal| && db'.journal[..|db.journal|] == db.journal
  }

  lemma EvolvesTransitive(a: Db, b: Db, c: Db)
    requires Evolves(a, b) && Evolves(b, c)
    ensures Evolves(a, c)
  {
    assert c.journal[..|a.journal|] == c.journal[..|b.journal|][..|a.journal|];
  }

  /** The confirmation mail, when a Resend key is configured. */
  function ConfirmationMail(env: Env, kind: Kind, to: string, cities: seq<string>): (r: seq<Effect>)
    ensures |r| <= 1
    ensures r != [] <==> env.mailerConfigured
  {
    match Confirmation(env.mailerConfigured, kind, to, cities, None)
    case Some(m) => [MailSent(Confirmed(m))]
    case None => []
  }

  /**
   * The `waitlist_events` insert. No route reads its result, so a failed write
   * leaves only the row out: the answer and everything else stay as they are.
   */
  function EventRow(io: Io, e: Event): (r: seq<Effect>)
    ensures |r| <= 1
    ensures r != [] <==> !io.eventFails
  {
    if io.eventFails then [] else [EventLogged(e)]
  }

  function StatusName(s: DemandIntake.Status): string {
    match s
    case Confirmed => "confirmed"
    case Recruiting => "recruiting"
    case Exploring => "exploring"
  }

  // ---------------------------------------------------------------- demand

  /** The `demand_submission` event of a new row. */
  function DemandEvent(id: string, d: DemandIntake.DemandRecord): Event {
    Event("demand_submission", map[
      "waitlist_id" := JStr(id),
      "cities" := Strings(d.targetCities),
      "status" := JStr(StatusName(d.status))])
  }

  /**
   * `POST /api/waitlist/demand`: parse, insert as pending, log the event, send
   * the confirmation, answer with the id. A body that is not JSON, a missing
   * Supabase setup and a failed insert leave the store as it was.
   */
  function SubmitDemand(env: Env, db: Db, body: Body, io: Io): (r: (Db, Response))
    ensures r.1.status == 200 <==>
              && body.Parsed? && DemandIntake.ParseDemand(env.syn, body.value).Success?
              && StoreReady(env) && !io.insertFails && io.id !in db.demand
    ensures r.1.status == 400 <==> body.Parsed? && DemandIntake.ParseDemand(env.syn, body.value).Failure?
    ensures r.1.status != 200 ==> r.0 == db
    ensures r.1.status == 200 ==>
              var d := DemandIntake.ParseDemand(env.syn, body.value).value;
              && r.1.reply == Created(io.id)
              && r.0.demand == db.demand[io.id := Entry(d, Pending, None)]
              && r.0.supply == db.supply && r.0.painPoints == db.painPoints
              && r.0.journal == db.journal + EventRow(io, DemandEvent(io.id, d))
                                + ConfirmationMail(env, Demand, d.email, d.targetCities)
    ensures Evolves(db, r.0)
  {
    if body.Unparsable? then (db, ServerError(Unexpected))
    else match DemandIntake.ParseDemand(env.syn, body.value)
      case Failure(issues) => (db, BadRequest(Rejected(issues)))
      case Success(d) => SaveDemand(env, db, d, io)
  }

  /** The insert, the event and the confirmation of a parsed demand record. */
  function SaveDemand(env: Env, db: Db, d: DemandIntake.DemandRecord, io: Io): (r: (Db, Response))
    ensures r.1.status == 200 <==> StoreReady(env) && !io.insertFails && io.id !in db.demand
    ensures r.1.status != 200 ==> r.0 == db && r.1.status == 500
    ensures r.1.status == 200 ==>
              && r.1.reply == Created(io.id)
              && r.0.demand == db.demand[io.id := Entry(d, Pending, None)]
              && r.0.supply == db.supply && r.0.painPoints == db.painPoints
              && r.0.journal == db.journal + EventRow(io, DemandEvent(io.id, d))
                                + ConfirmationMail(env, Demand, d.email, d.targetCities)
    ensures Evolves(db, r.0)
  {
    if !StoreReady(env) then (db, ServerError(Unexpected))
    else if io.insertFails || io.id in db.demand then (db, ServerError(SaveFailed))
    else
      var db' := db.(
        demand := db.demand[io.id := Entry(d, Pending, None)],
        journal := db.journal + EventRow(io, DemandEvent(io.id, d))
                   + ConfirmationMail(env, Demand, d.email, d.targetCities));
      (db', Ok(Created(io.id)))
  }

  /** A submitted `approval_status` is stripped: the row starts pending whatever the body says. */
  lemma DemandApprovalStatusIgnored(env: Env, db: Db, o: Obj, v: Json, io: Io)
    ensures SubmitDemand(env, db, Parsed(JObj(o["approval_status" := v])), io)
         == SubmitDemand(env, db, Parsed(JObj(o)), io)
  {
    DemandIntake.DemandIgnoresUnknownKeys(env.syn, o, "approval_status", v);
  }

  // ---------------------------------------------------------------- supply

  /**
   * A supply submission: a JSON body, a multipart form with an optional file,
   * or a multipart body that `request.formData()` cannot read.
   */
  datatype SupplyRequest =
    | JsonRequest(body: Body)
    | Multipart(form: map<string, string>, attachment: Option<FileInfo>)
    | UnreadableForm

  function SupplyEvent(id: string, d: SupplyIntake.SupplyRecord): Event {
    Event("supply_submission", map[
      "waitlist_id" := JStr(id),
      "willing_to_verify" := JBool(d.willingToVerify),
      "city" := JStr(d.city)])
  }

  /** `SUPABASE_STORAGE_BUCKET ?? "listing_uploads"`. */
  function Bucket(env: Env): string {
    env.storageBucket.GetOr("listing_uploads")
  }

  /**
   * `saveSupplySubmission`: insert the record as pending, log the event, send
   * the confirmation (no cities), answer with the id.
   */
  function SaveSupplySubmission(env: Env, db: Db, d: SupplyIntake.SupplyRecord, io: Io): (r: (Db, Response))
    ensures r.1.status == 200 <==> StoreReady(env) && !io.insertFails && io.id !in db.supply
    ensures r.1.status != 200 ==> r.0 == db && r.1.status == 500
    ensures r.1.status == 200 ==>
              && r.1.reply == Created(io.id)
              && r.0.supply == db.supply[io.id := Entry(d, Pending, None)]
              && r.0.demand == db.demand && r.0.painPoints == db.painPoints
              && r.0.journal == db.journal + EventRow(io, SupplyEvent(io.id, d))
                                + ConfirmationMail(env, Supply, d.email, [])
    ensures Evolves(db, r.0)
  {
    if !StoreReady(env) then (db, ServerError(Unexpected))
    else if io.insertFails || io.id in db.supply then (db, ServerError(SaveFailed))
    else
      var db' := db.(
        supply := db.supply[io.id := Entry(d, Pending, None)],
        journal := db.journal + EventRow(io, SupplyEvent(io.id, d))
                   + ConfirmationMail(env, Supply, d.email, []));
      (db', Ok(Created(io.id)))
  }

  /** The outcome of `supplyPayloadSchema.parse`: a ZodError answers 400, a record is saved. */
  function SaveParsed(env: Env, db: Db, parsed: Result<SupplyIntake.SupplyRecord, Issues>, io: Io): (r: (Db, Response))
    ensures r.1.status == 400 <==> parsed.Failure?
    ensures parsed.Failure? ==> r == (db, BadRequest(Rejected(parsed.error)))
    ensures parsed.Success? ==> r == SaveSupplySubmission(env, db, parsed.value, io)
    ensures Evolves(db, r.0)
  {
    match parsed
    case Failure(issues) => (db, BadRequest(Rejected(issues)))
    case Success(d) => SaveSupplySubmission(env, db, d, io)
  }

  /**
   * `POST /api/waitlist/supply`. A multipart request with a non-empty file
   * first stores the file under `supply/<uuid>-<name>`; the upload's outcome
   * does not stop the request, and the stored file stays whatever follows.
   * A multipart body that cannot be read throws, and the catch answers 500.
   */
  function SubmitSupply(env: Env, db: Db, req: SupplyRequest, io: Io): (r: (Db, Response))
    ensures r.1.status == 200 ==> req.JsonRequest?
    ensures req.JsonRequest? ==> r == SubmitJson(env, db, req.body, io)
    ensures req.UnreadableForm? ==> r == (db, ServerError(Unexpected))
    ensures req.Multipart? ==>
              r == SubmitMultipart(env, db, req.attachment,
                                   SupplyIntake.ParseSupply(env.syn, SupplyIntake.MultipartBody(req.form)), io)
    ensures Evolves(db, r.0)
  {
    match req
    case JsonRequest(body) => SubmitJson(env, db, body, io)
    case Multipart(form, attachment) =>
      SupplyIntake.MultipartAlwaysRejected(env.syn, form);
      SubmitMultipart(env, db, attachment, SupplyIntake.ParseSupply(env.syn, SupplyIntake.MultipartBody(form)), io)
    case UnreadableForm => (db, ServerError(Unexpected))
  }

  /**
   * What `supplyPayloadSchema` makes of a JSON supply body, or `None` when the
   * route throws before parsing: the body is not JSON, or it is `null`.
   */
  function JsonVerdict(syn: Syntax, body: Body): (v: Option<Result<SupplyIntake.SupplyRecord, Issues>>)
    ensures v.None? <==> body.Unparsable? || body.value.JNull?
  {
    if body.Unparsable? then None
    else match SupplyIntake.JsonBody(body.value)
      case None => None
      case Some(o) => Some(SupplyIntake.ParseSupply(syn, o))
  }

  /**
   * A JSON supply request: `willing_to_verify` coerced, then parsed and saved.
   * 500 with nothing changed when the body cannot be read, 400 with the
   * schema's issues when it is rejected, and otherwise the save's outcome.
   */
  function SubmitJson(env: Env, db: Db, body: Body, io: Io): (r: (Db, Response))
    ensures JsonVerdict(env.syn, body).None? ==> r == (db, ServerError(Unexpected))
    ensures r.1.status == 400 <==> JsonVerdict(env.syn, body).Some? && JsonVerdict(env.syn, body).value.Failure?
    ensures r.1.status == 400 ==> r == (db, BadRequest(Rejected(JsonVerdict(env.syn, body).value.error)))
    ensures r.1.status == 200 <==>
              && JsonVerdict(env.syn, body).Some? && JsonVerdict(env.syn, body).value.Success?
              && StoreReady(env) && !io.insertFails && io.id !in db.supply
    ensures r.1.status != 200 ==> r.0 == db
    ensures r.1.status == 200 ==>
              var d := JsonVerdict(env.syn, body).value.value;
              && r.1.reply == Created(io.id)
              && r.0.supply == db.supply[io.id := Entry(d, Pending, None)]
              && r.0.demand == db.demand && r.0.painPoints == db.painPoints
              && r.0.journal == db.journal + EventRow(io, SupplyEvent(io.id, d))
                                + ConfirmationMail(env, Supply, d.email, [])
    ensures Evolves(db, r.0)
  {
    if body.Unparsable? then (db, ServerError(Unexpected))
    else
      match SupplyIntake.JsonBody(body.value)
      case None => (db, ServerError(Unexpected))
      case Some(o) => SaveParsed(env, db, SupplyIntake.ParseSupply(env.syn, o), io)
  }

  /**
   * A multipart supply request: a non-empty attachment is stored first, then
   * the outcome of parsing the form is answered or saved.
   */
  function SubmitMultipart(env: Env, db: Db, attachment: Option<FileInfo>,
                           parsed: Result<SupplyIntake.SupplyRecord, Issues>, io: Io): (r: (Db, Response))
    ensures parsed.Failure? ==> r.1.status != 200
    ensures parsed.Failure? && attachment.Some? && attachment.value.size > 0 && StoreReady(env) ==>
              r == (StoreAttachment(env, db, "supply/" + io.objectId + "-" + attachment.value.name, io),
                    BadRequest(Rejected(parsed.error)))
    ensures parsed.Failure? && !(attachment.Some? && attachment.value.size > 0) ==>
              r == (db, BadRequest(Rejected(parsed.error)))
    ensures attachment.Some? && attachment.value.size > 0 && !StoreReady(env) ==>
              r == (db, ServerError(Unexpected))
    ensures parsed.Success? && !(attachment.Some? && attachment.value.size > 0) ==>
              r == SaveSupplySubmission(env, db, parsed.value, io)
    ensures Evolves(db, r.0)
  {
    if attachment.Some? && attachment.value.size > 0 then
      if !StoreReady(env) then (db, ServerError(Unexpected))
      else
        var db1 := StoreAttachment(env, db, "supply/" + io.objectId + "-" + attachment.value.name, io);
        var r := SaveParsed(env, db1, parsed, io);
        EvolvesTransitive(db, db1, r.0);
        r
    else SaveParsed(env, db, parsed, io)
  }

  /** The upload of a multipart attachment: stored under `path` unless the upload fails. */
  function StoreAttachment(env: Env, db: Db, path: string, io: Io): (r: Db)
    ensures r.demand == db.demand && r.supply == db.supply && r.painPoints == db.painPoints
    ensures r.journal == db.journal + (if io.uploadFails then [] else [ObjectStored(Bucket(env), path)])
    ensures Evolves(db, r)
  {
    if io.uploadFails then db
    else db.(journal := db.journal + [ObjectStored(Bucket(env), path)])
  }

  /** A multipart submission is always answered 400, and its attachment, once uploaded, stays stored. */
  lemma MultipartLeavesAttachment(env: Env, db: Db, form: map<string, string>, f: FileInfo, io: Io)
    requires f.size > 0 && StoreReady(env) && !io.uploadFails
    ensures var r := SubmitSupply(env, db, Multipart(form, Some(f)), io);
            && r.1.status == 400
            && r.0 == db.(journal := db.journal + [ObjectStored(Bucket(env), "supply/" + io.objectId + "-" + f.name)])
  {
    var parsed := SupplyIntake.ParseSupply(env.syn, SupplyIntake.MultipartBody(form));
    SupplyIntake.MultipartAlwaysRejected(env.syn, form);
    MultipartOutcome(env, db, form, Some(f), io);
    var path := "supply/" + io.objectId + "-" + f.name;
    assert SubmitMultipart(env, db, Some(f), parsed, io).0 == StoreAttachment(env, db, path, io);
  }

  /** A multipart submission without a file changes nothing and is answered 400. */
  lemma MultipartWithoutFile(env: Env, db: Db, form: map<string, string>, io: Io)
    ensures SubmitSupply(env, db, Multipart(form, None), io) == (db, SubmitSupply(env, db, Multipart(form, None), io).1)
    ensures SubmitSupply(env, db, Multipart(form, None), io).1.status == 400
  {
    SupplyIntake.MultipartAlwaysRejected(env.syn, form);
    MultipartOutcome(env, db, form, None, io);
  }

  lemma MultipartOutcome(env: Env, db: Db, form: map<string, string>, attachment: Option<FileInfo>, io: Io)
    ensures SubmitSupply(env, db, Multipart(form, attachment), io)
         == SubmitMultipart(env, db, attachment, SupplyIntake.ParseSupply(env.syn, SupplyIntake.MultipartBody(form)), io)
  {
  }

  // ---------------------------------------------------------------- pain points

  function PainPointEvent(id: string, p: PainPoints.PainPoint): Event {
    Event("pain_point_submitted", map["pain_point_id" := JStr(id), "can_reach_out" := JBool(p.canReachOut)])
  }

  /** `POST /api/pain-points`: parse, insert with the default contact method, log the event. */
  function SubmitPainPoint(env: Env, db: Db, body: Body, io: Io): (r: (Db, Response))
    ensures r.1.status == 200 <==>
              && body.Parsed? && PainPoints.ParsePainPoint(body.value).Success?
              && StoreReady(env) && !io.insertFails && io.id !in db.painPoints
    ensures r.1.status == 400 <==> body.Parsed? && PainPoints.ParsePainPoint(body.value).Failure?
    ensures r.1.status != 200 ==> r.0 == db
    ensures r.1.status == 200 ==>
              var p := PainPoints.ParsePainPoint(body.value).value;
              && r.1.reply == Created(io.id)
              && r.0.painPoints == db.painPoints[io.id := StoredPainPoint(p, PainPoints.StoredMethod(p))]
              && r.0.demand == db.demand && r.0.supply == db.supply
              && r.0.journal == db.journal + EventRow(io, PainPointEvent(io.id, p))
    ensures Evolves(db, r.0)
  {
    if body.Unparsable? then (db, ServerError(Unexpected))
    else match PainPoints.ParsePainPoint(body.value)
      case Failure(issues) => (db, BadRequest(Rejected(issues)))
      case Success(p) =>
        if !StoreReady(env) then (db, ServerError(Unexpected))
        else if io.insertFails || io.id in db.painPoints then (db, ServerError(SaveFailed))
        else
          var db' := db.(
            painPoints := db.painPoints[io.id := StoredPainPoint(p, PainPoints.StoredMethod(p))],
            journal := db.journal + EventRow(io, PainPointEvent(io.id, p)));
          (db', Ok(Created(io.id)))
  }

  // ---------------------------------------------------------------- approval

  /** A request of `approveSchema`. */
  datatype ApproveRequest = ApproveRequest(waitlistId: string, adminKey: string)

  /** `approveSchema.parse(body)`: a UUID `waitlist_id` and a string `admin_key`. */
  function ParseApprove(syn: Syntax, body: Json): (r: Result<ApproveRequest, Issues>)
    ensures r.Success? <==>
              && body.JObj? && "waitlist_id" in body.fields && body.fields["waitlist_id"].JStr?
              && syn.isUuid(body.fields["waitlist_id"].s)
              && "admin_key" in body.fields && body.fields["admin_key"].JStr?
    ensures r.Success? ==> r.value.waitlistId == body.fields["waitlist_id"].s && r.value.adminKey == body.fields["admin_key"].s
    ensures r.Failure? && body.JObj? ==> r.error.FieldIssues? && r.error.fields != []
  {
    if !body.JObj? then Failure(NotAnObject)
    else
      var id := Uuid(syn, body.fields, "waitlist_id");
      var key := RequiredText(body.fields, "admin_key", 0);
      if id.Valid? && key.Valid? then Success(ApproveRequest(id.value, key.value))
      else
        var verdicts := [("waitlist_id", id.Valid?), ("admin_key", key.Valid?)];
        assert !verdicts[0].1 || !verdicts[1].1;
        Failure(FieldIssues(Failing(verdicts)))
  }

  /** `parsed.admin_key !== process.env.ADMIN_KEY`: with no key configured nobody is authorised. */
  predicate Authorized(env: Env, key: string) {
    env.adminKey == Some(key)
  }

  /** The checks every approval runs first: shape, key, Supabase setup. */
  datatype Gate = Pass(req: ApproveRequest) | Stop(response: Response)

  function ApproveGate(env: Env, body: Body, crash: string): (g: Gate)
    ensures g.Pass? <==> body.Parsed? && ParseApprove(env.syn, body.value).Success?
                         && Authorized(env, ParseApprove(env.syn, body.value).value.adminKey) && StoreReady(env)
    ensures g.Pass? ==> g.req == ParseApprove(env.syn, body.value).value
    ensures g.Stop? && body.Parsed? && ParseApprove(env.syn, body.value).Failure? ==>
              g.response == BadRequest(Rejected(ParseApprove(env.syn, body.value).error))
    ensures g.Stop? && body.Parsed? && ParseApprove(env.syn, body.value).Success?
              && !Authorized(env, ParseApprove(env.syn, body.value).value.adminKey) ==>
              g.response == Response(401, Failed("Unauthorized"))
  {
    if body.Unparsable? then Stop(ServerError(crash))
    else match ParseApprove(env.syn, body.value)
      case Failure(issues) => Stop(BadRequest(Rejected(issues)))
      case Success(req) =>
        if !Authorized(env, req.adminKey) then Stop(Response(401, Failed("Unauthorized")))
        else if !StoreReady(env) then Stop(ServerError(crash))
        else Pass(req)
  }

  /** The approval mail of a demand row. */
  function DemandApprovalMail(e: Entry<DemandIntake.DemandRecord>, link: string): Outgoing {
    ApprovalRequest(e.record.email, e.record.name, link, Some(e.record.targetCities), None)
  }

  /** The `demand_approved` event. */
  function ApprovedEvent(id: string): Event {
    Event("demand_approved", map["waitlist_id" := JStr(id)])
  }

  /**
   * `POST /api/waitlist/demand/approve`: bad request, unauthorised, not found
   * (no row, or the lookup failed), already approved, update, link, approval
   * mail, `demand_approved` event.
   */
  function ApproveDemand(env: Env, db: Db, body: Body, io: Io): (r: (Db, Response))
    ensures Evolves(db, r.0)
    ensures r.0.supply == db.supply && r.0.painPoints == db.painPoints
    ensures r.0 != db ==> ApproveGate(env, body, Unexpected).Pass?
    ensures var g := ApproveGate(env, body, Unexpected);
            g.Pass? && (g.req.waitlistId !in db.demand || io.lookupFails) ==>
              r == (db, Response(404, Failed("Waitlist entry not found")))
    ensures r.1.status == 200 <==>
              var g := ApproveGate(env, body, Unexpected);
              && g.Pass? && g.req.waitlistId in db.demand && !io.lookupFails
              && db.demand[g.req.waitlistId].status == Pending
              && !io.updateFails && !io.approvalMailThrows
    ensures r.1.status == 200 ==>
              var id := ApproveGate(env, body, Unexpected).req.waitlistId;
              var e := db.demand[id];
              var link := ReferralLink(env.baseUrl, Demand, id);
              && r.1.reply == Linked(link, Some(ApprovalSent))
              && r.0.demand == db.demand[id := e.(status := Approved, approvedAt := Some(io.now))]
              && r.0.journal == db.journal + [MailSent(DemandApprovalMail(e, link))]
                                + EventRow(io, ApprovedEvent(id))
  {
    match ApproveGate(env, body, Unexpected)
    case Stop(response) => (db, response)
    case Pass(req) =>
      var id := req.waitlistId;
      if id !in db.demand || io.lookupFails then (db, Response(404, Failed("Waitlist entry not found")))
      else
        var e := db.demand[id];
        if e.status == Approved then (db, BadRequest(Failed("Already approved")))
        else if io.updateFails then (db, ServerError("Failed to approve"))
        else
          var db1 := db.(demand := db.demand[id := e.(status := Approved, approvedAt := Some(io.now))]);
          var link := ReferralLink(env.baseUrl, Demand, id);
          if io.approvalMailThrows then (db1, ServerError(Unexpected))
          else
            var db2 := db1.(journal := db1.journal + [MailSent(DemandApprovalMail(e, link))]
                                       + EventRow(io, ApprovedEvent(id)));
            (db2, Ok(Linked(link, Some(ApprovalSent))))
  }

  /** `waitlistEntry.name || "there"`. */
  function Salutation(name: Option<string>): string {
    if name.Some? && name.value != "" then name.value else "there"
  }

  function SupplyApprovalMail(e: Entry<SupplyIntake.SupplyRecord>, link: string): Outgoing {
    ApprovalRequest(e.record.email, Some(Salutation(e.record.name)), link, None, Some("supply"))
  }

  /**
   * `POST /api/waitlist/supply/approve`: bad request, unauthorised, not found
   * (no row, or the lookup failed), update, link, approval mail. There is no already-approved guard and no event.
   */
  function ApproveSupply(env: Env, db: Db, body: Body, io: Io): (r: (Db, Response))
    ensures Evolves(db, r.0)
    ensures r.0.demand == db.demand && r.0.painPoints == db.painPoints
    ensures r.0 != db ==> ApproveGate(env, body, UnexpectedBare).Pass?
    ensures var g := ApproveGate(env, body, UnexpectedBare);
            g.Pass? && (g.req.waitlistId !in db.supply || io.lookupFails) ==>
              r == (db, Response(404, Failed("Waitlist entry not found")))
    ensures r.1.status == 200 <==>
              var g := ApproveGate(env, body, UnexpectedBare);
              && g.Pass? && g.req.waitlistId in db.supply && !io.lookupFails && !io.updateFails && !io.approvalMailThrows
    ensures r.1.status == 200 ==>
              var id := ApproveGate(env, body, UnexpectedBare).req.waitlistId;
              var e := db.supply[id];
              var link := ReferralLink(env.baseUrl, Supply, id);
              && r.1.reply == Linked(link, None)
              && r.0.supply == db.supply[id := e.(status := Approved, approvedAt := Some(io.now))]
              && r.0.journal == db.journal + [MailSent(SupplyApprovalMail(e, link))]
  {
    match ApproveGate(env, body, UnexpectedBare)
    case Stop(response) => (db, response)
    case Pass(req) =>
      var id := req.waitlistId;
      if id !in db.supply || io.lookupFails then (db, Response(404, Failed("Waitlist entry not found")))
      else
        var e := db.supply[id];
        if io.updateFails then (db, ServerError(UpdateFailed))
        else
          var db1 := db.(supply := db.supply[id := e.(status := Approved, approvedAt := Some(io.now))]);
          var link := ReferralLink(env.baseUrl, Supply, id);
          if io.approvalMailThrows then (db1, ServerError(UnexpectedBare))
          else
            var db2 := db1.(journal := db1.journal + [MailSent(SupplyApprovalMail(e, link))]);
            (db2, Ok(Linked(link, None)))
  }
}
