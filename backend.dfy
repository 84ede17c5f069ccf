/**
 * The server routes as they run: one store whose tables and journal each
 * handler updates step by step, with the early returns of the routes. Every
 * handler is proved to leave the store and answer exactly as the matching
 * function of `Waitlist` or `Upload` says, so the properties proved there
 * hold of these handlers.
 */
module Backend {
  import opened Wrappers
  import opened Js
  import opened Http
  import opened Fields
  import opened Email
  import opened Referral
  import opened Files
  import opened Waitlist
  import opened Upload
  import DemandIntake
  import SupplyIntake
  import PainPoints

  class Store {
    var demand: map<string, Entry<DemandIntake.DemandRecord>>
    var supply: map<string, Entry<SupplyIntake.SupplyRecord>>
    var painPoints: map<string, StoredPainPoint>
    var journal: seq<Effect>

    /** The store as a value. */
    function State(): Db
      reads this
    {
      Db(demand, supply, painPoints, journal)
    }

    constructor()
      ensures State() == EmptyDb
    {
      demand := map[];
      supply := map[];
      painPoints := map[];
      journal := [];
    }

    /** `POST /api/waitlist/demand`. */
    method SubmitDemand(env: Env, body: Body, io: Io) returns (resp: Response)
      modifies this
      ensures (State(), resp) == Waitlist.SubmitDemand(env, old(State()), body, io)
    {
      if body.Unparsable? {
        return ServerError(Unexpected);
      }
      var parsed := DemandIntake.ParseDemand(env.syn, body.value);
      if parsed.Failure? {
        return BadRequest(Rejected(parsed.error));
      }
      resp := SaveDemand(env, parsed.value, io);
    }

    /** The insert, the event and the confirmation of a parsed demand record. */
    method SaveDemand(env: Env, d: DemandIntake.DemandRecord, io: Io) returns (resp: Response)
      modifies this
      ensures (State(), resp) == Waitlist.SaveDemand(env, old(State()), d, io)
    {
      if !StoreReady(env) {
        return ServerError(Unexpected);
      }
      if io.insertFails || io.id in demand {
        return ServerError(SaveFailed);
      }
      demand := demand[io.id := Entry(d, Pending, None)];
      journal := journal + EventRow(io, DemandEvent(io.id, d));
      journal := journal + ConfirmationMail(env, Demand, d.email, d.targetCities);
      resp := Ok(Created(io.id));
    }

    /** `saveSupplySubmission`. */
    method SaveSupplySubmission(env: Env, d: SupplyIntake.SupplyRecord, io: Io) returns (resp: Response)
      modifies this
      ensures (State(), resp) == Waitlist.SaveSupplySubmission(env, old(State()), d, io)
    {
      if !StoreReady(env) {
        return ServerError(Unexpected);
      }
      if io.insertFails || io.id in supply {
        return ServerError(SaveFailed);
      }
      supply := supply[io.id := Entry(d, Pending, None)];
      journal := journal + EventRow(io, SupplyEvent(io.id, d));
      journal := journal + ConfirmationMail(env, Supply, d.email, []);
      resp := Ok(Created(io.id));
    }

    /** `POST /api/waitlist/supply`: a JSON body or a multipart form. */
    method SubmitSupply(env: Env, req: SupplyRequest, io: Io) returns (resp: Response)
      modifies this
      ensures (State(), resp) == Waitlist.SubmitSupply(env, old(State()), req, io)
    {
      if req.JsonRequest? {
        resp := SubmitJson(env, req.body, io);
      } else if req.UnreadableForm? {
        resp := ServerError(Unexpected);
      } else {
        resp := SubmitMultipart(env, req.attachment, SupplyIntake.ParseSupply(env.syn, SupplyIntake.MultipartBody(req.form)), io);
      }
    }

    /** The JSON branch: coerce the flag, parse, save. */
    method SubmitJson(env: Env, body: Body, io: Io) returns (resp: Response)
      modifies this
      ensures (State(), resp) == Waitlist.SubmitJson(env, old(State()), body, io)
    {
      if body.Unparsable? {
        return ServerError(Unexpected);
      }
      var json := SupplyIntake.JsonBody(body.value);
      if json.None? {
        return ServerError(Unexpected);
      }
      var parsed := SupplyIntake.ParseSupply(env.syn, json.value);
      if parsed.Failure? {
        return BadRequest(Rejected(parsed.error));
      }
      resp := SaveSupplySubmission(env, parsed.value, io);
    }

    /** The multipart branch: store a non-empty attachment, then answer the parsed form. */
    method SubmitMultipart(env: Env, attachment: Option<FileInfo>,
                           parsed: Result<SupplyIntake.SupplyRecord, Issues>, io: Io) returns (resp: Response)
      modifies this
      ensures (State(), resp) == Waitlist.SubmitMultipart(env, old(State()), attachment, parsed, io)
    {
      if attachment.Some? && attachment.value.size > 0 {
        if !StoreReady(env) {
          return ServerError(Unexpected);
        }
        var path := "supply/" + io.objectId + "-" + attachment.value.name;
        if !io.uploadFails {
          journal := journal + [ObjectStored(Bucket(env), path)];
        }
      }
      if parsed.Failure? {
        return BadRequest(Rejected(parsed.error));
      }
      resp := SaveSupplySubmission(env, parsed.value, io);
    }

    /** `POST /api/pain-points`. */
    method SubmitPainPoint(env: Env, body: Body, io: Io) returns (resp: Response)
      modifies this
      ensures (State(), resp) == Waitlist.SubmitPainPoint(env, old(State()), body, io)
    {
      if body.Unparsable? {
        return ServerError(Unexpected);
      }
      var parsed := PainPoints.ParsePainPoint(body.value);
      if parsed.Failure? {
        return BadRequest(Rejected(parsed.error));
      }
      var p := parsed.value;
      if !StoreReady(env) {
        return ServerError(Unexpected);
      }
      if io.insertFails || io.id in painPoints {
        return ServerError(SaveFailed);
      }
      painPoints := painPoints[io.id := StoredPainPoint(p, PainPoints.StoredMethod(p))];
      journal := journal + EventRow(io, PainPointEvent(io.id, p));
      resp := Ok(Created(io.id));
    }

    /** `POST /api/waitlist/demand/approve`. */
    method ApproveDemand(env: Env, body: Body, io: Io) returns (resp: Response)
      modifies this
      ensures (State(), resp) == Waitlist.ApproveDemand(env, old(State()), body, io)
    {
      var gate := ApproveGate(env, body, Unexpected);
      if gate.Stop? {
        return gate.response;
      }
      var id := gate.req.waitlistId;
      if id !in demand || io.lookupFails {
        return Response(404, Failed("Waitlist entry not found"));
      }
      var e := demand[id];
      if e.status == Approved {
        return BadRequest(Failed("Already approved"));
      }
      if io.updateFails {
        return ServerError("Failed to approve");
      }
      demand := demand[id := e.(status := Approved, approvedAt := Some(io.now))];
      var link := ReferralLink(env.baseUrl, Demand, id);
      if io.approvalMailThrows {
        return ServerError(Unexpected);
      }
      journal := journal + [MailSent(DemandApprovalMail(e, link))];
      journal := journal + EventRow(io, ApprovedEvent(id));
      resp := Ok(Linked(link, Some(ApprovalSent)));
    }

    /** `POST /api/waitlist/supply/approve`. */
    method ApproveSupply(env: Env, body: Body, io: Io) returns (resp: Response)
      modifies this
      ensures (State(), resp) == Waitlist.ApproveSupply(env, old(State()), body, io)
    {
      var gate := ApproveGate(env, body, UnexpectedBare);
      if gate.Stop? {
        return gate.response;
      }
      var id := gate.req.waitlistId;
      if id !in supply || io.lookupFails {
        return Response(404, Failed("Waitlist entry not found"));
      }
      var e := supply[id];
      if io.updateFails {
        return ServerError(UpdateFailed);
      }
      supply := supply[id := e.(status := Approved, approvedAt := Some(io.now))];
      var link := ReferralLink(env.baseUrl, Supply, id);
      if io.approvalMailThrows {
        return ServerError(UnexpectedBare);
      }
      journal := journal + [MailSent(SupplyApprovalMail(e, link))];
      resp := Ok(Linked(link, None));
    }

    /**
     * `POST /api/upload`: the loop checks each file, stores it and collects
     * its URL; a refused file ends the request with the earlier files stored.
     */
    method UploadPhotos(env: Env, form: Option<seq<FormEntry>>, io: UploadIo) returns (resp: Response)
      modifies this
      ensures (State(), resp) == Upload.UploadPhotos(env, old(State()), form, io)
    {
      if form.None? {
        return ServerError("Upload failed");
      }
      var files := form.value;
      if |files| == 0 {
        return BadRequest(Failed("No files provided"));
      }
      if |files| > MaxFiles {
        return BadRequest(Failed("Maximum 5 files allowed"));
      }
      if !StoreReady(env) {
        return ServerError("Upload failed");
      }
      var urls: seq<string> := [];
      for i := 0 to |files|
        invariant forall j :: 0 <= j < i ==> Passes(files, io, j)
        invariant demand == old(demand) && supply == old(supply) && painPoints == old(painPoints)
        invariant journal == old(journal) + Stores(files, io, 0, i)
        invariant urls == Urls(env.projectUrl.value, files, io, 0, i)
      {
        if files[i].TextEntry? {
          // `file.size > limit` is false for a text value; `file.type.startsWith` throws.
          assert !Passes(files, io, i);
          assert FirstStop(files, io, 0) == i;
          return ServerError("Upload failed");
        }
        var f := files[i].file;
        if f.size > MaxBytes {
          assert !Passes(files, io, i);
          assert FirstStop(files, io, 0) == i;
          return BadRequest(Failed("File " + f.name + " exceeds 5MB limit"));
        }
        if !IsImage(f) {
          assert !Passes(files, io, i);
          assert FirstStop(files, io, 0) == i;
          return BadRequest(Failed("File " + f.name + " is not an image"));
        }
        var name := io.stem(i) + "." + Extension(f.name);
        if io.fails(i) {
          assert !Passes(files, io, i);
          assert FirstStop(files, io, 0) == i;
          return ServerError("Failed to upload " + f.name);
        }
        journal := journal + [ObjectStored(PhotoBucket, name)];
        urls := urls + [PublicUrl(env.projectUrl.value, name)];
      }
      assert FirstStop(files, io, 0) == |files|;
      resp := Ok(Uploaded(urls));
    }
  }
}
