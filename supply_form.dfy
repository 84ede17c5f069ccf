/**
 * The supply sign-up page: its client schema and steps, the photo selection
 * it keeps, and the submission that uploads the photos first and then posts
 * the form with their URLs.
 */
module SupplyForm {
  import opened Wrappers
  import opened Text
  import opened Js
  import opened Http
  import opened Fields
  import opened Files
  import opened FormSteps
  import SupplyIntake
  import Upload
  import Waitlist
  import ThankYou

  /**
   * The form's values once the client schema accepted them. Every text input
   * holds a string, "" when left empty; `listing_photos` has no input of its
   * own, the submission fills it. The `other_concern` text area is mounted
   * only while the "Other" concern is ticked and has no default, so its value
   * is absent unless it was shown at some point.
   */
  datatype SupplyValues = SupplyValues(
    name: string,
    college: string,
    gradYear: string,
    linkedin: string,
    instagram: string,
    twitter: string,
    address: string,
    city: string,
    rent: string,
    rooms: string,
    listingLink: string,
    concerns: seq<string>,
    otherConcern: Option<string>,
    contactPref: seq<string>,
    email: string,
    phone: string,
    willingToVerify: bool)

  /** `z.array(z.enum(["email", "text"])).min(1)`. */
  predicate ContactsOk(cs: seq<string>) {
    |cs| >= 1 && forall i :: 0 <= i < |cs| ==> ContactOf(cs[i]).Some?
  }

  /** `supplySchema`: the keys with a check beyond "a string, or empty". */
  predicate ClientValid(syn: Syntax, v: SupplyValues) {
    && 2 <= |v.name| <= 120
    && |v.address| >= 3
    && |v.city| >= 2
    && |v.concerns| >= 1
    && ContactsOk(v.contactPref)
    && syn.isEmail(v.email)
  }

  /** The schema's checks on the keys of step `i`: about you, listing, concerns, contact. */
  predicate StepValid(syn: Syntax, v: SupplyValues, i: nat) {
    match i
    case 0 => 2 <= |v.name| <= 120
    case 1 => |v.address| >= 3 && |v.city| >= 2
    case 2 => |v.concerns| >= 1
    case 3 => ContactsOk(v.contactPref) && syn.isEmail(v.email)
    case _ => true
  }

  /** The four steps between them check exactly the whole schema. */
  lemma StepsCoverSchema(syn: Syntax, v: SupplyValues)
    ensures ClientValid(syn, v) <==> forall i :: 0 <= i <= LastStep ==> StepValid(syn, v, i)
  {
    EveryStep((i: nat) => StepValid(syn, v, i));
  }

  // ---------------------------------------------------------------- photos

  /** The complaint about one file: its size first, then its type. */
  function FileError(f: FileInfo): (r: Option<string>)
    ensures r.None? <==> Upload.Acceptable(f)
  {
    if f.size > MaxBytes then Some("Each file must be under 5MB")
    else if !IsImage(f) then Some("Only image files are allowed")
    else None
  }

  /** The complaint about the first file at or after `i` that has one. */
  function FirstFileError(files: seq<FileInfo>, i: nat): (r: Option<string>)
    requires i <= |files|
    ensures r.None? <==> forall j :: i <= j < |files| ==> Upload.Acceptable(files[j])
    decreases |files| - i
  {
    if i == |files| then None
    else if FileError(files[i]).Some? then FileError(files[i])
    else FirstFileError(files, i + 1)
  }

  /** When the file at `k` is the first with a complaint, that complaint is the one reported. */
  lemma {:induction false} FirstFileErrorAt(files: seq<FileInfo>, i: nat, k: nat)
    requires i <= k < |files|
    requires forall j :: i <= j < k ==> Upload.Acceptable(files[j])
    requires !Upload.Acceptable(files[k])
    ensures FirstFileError(files, i) == FileError(files[k])
    decreases k - i
  {
    if i < k {
      FirstFileErrorAt(files, i + 1, k);
    }
  }

  /** What `handleFileChange` complains about in a selection, if anything. */
  function SelectionError(files: seq<FileInfo>): (r: Option<string>)
    ensures r.None? <==> |files| <= MaxFiles && forall j :: 0 <= j < |files| ==> Upload.Acceptable(files[j])
    ensures |files| > MaxFiles ==> r == Some("Maximum 5 files allowed")
  {
    if |files| > MaxFiles then Some("Maximum 5 files allowed") else FirstFileError(files, 0)
  }

  /**
   * Every selection the page keeps passes the upload route's checks: with
   * storage answering without error, its upload succeeds.
   */
  lemma KeptSelectionUploads(env: Waitlist.Env, db: Waitlist.Db, files: seq<FileInfo>, io: Upload.UploadIo)
    requires SelectionError(files).None? && |files| >= 1 && Waitlist.StoreReady(env)
    requires forall j :: 0 <= j < |files| ==> !io.fails(j)
    ensures Upload.UploadPhotos(env, db, Some(Upload.FileEntries(files)), io).1.status == 200
  {
  }

  // ---------------------------------------------------------------- submission

  /** What the upload request came back with: a response, or a network error. */
  datatype UploadAnswer = UploadThrew | UploadReplied(resp: Response)

  /** How a submission ends on the page. */
  datatype Outcome =
    | UploadFailed(message: string)   // shown under the photo input; nothing is posted
    | Stopped(message: string)        // the post never went out
    | Posted(body: Obj)               // the JSON posted to the supply route

  /** `response.ok`. */
  predicate IsOk(resp: Response) {
    200 <= resp.status <= 299
  }

  /** `error.error || "Failed to upload photos"`. */
  function UploadMessage(resp: Response): string {
    if resp.reply.Failed? && resp.reply.error != "" then resp.reply.error else "Failed to upload photos"
  }

  /** The keys of the posted body whose values are not strings. */
  const ListKeys: set<string> := {"concerns", "contact_pref", "willing_to_verify"}

  /** The keys the posted body can carry: every schema key, `listing_photos` included. */
  const BodyKeys: set<string> := {
    "name", "college", "grad_year", "linkedin", "instagram", "twitter", "address", "city",
    "rent", "rooms", "listing_link", "listing_photos", "concerns", "other_concern",
    "contact_pref", "email", "phone", "willing_to_verify"}

  /**
   * `{ ...values, listing_photos: photoUrls.join(",") }`: the lists as arrays,
   * the flag as a boolean, the rest as strings; `JSON.stringify` leaves out
   * `other_concern` when it has no value.
   */
  function RequestBody(v: SupplyValues, urls: seq<string>): (r: Obj)
    ensures "listing_photos" in r && r["listing_photos"] == JStr(Join(urls, ","))
    ensures "email" in r && r["email"] == JStr(v.email) && "city" in r && r["city"] == JStr(v.city)
    ensures "concerns" in r && r["concerns"] == Strings(v.concerns)
    ensures "contact_pref" in r && r["contact_pref"] == Strings(v.contactPref)
    ensures "willing_to_verify" in r && r["willing_to_verify"] == JBool(v.willingToVerify)
    ensures "other_concern" in r <==> v.otherConcern.Some?
    ensures v.otherConcern.Some? ==> r["other_concern"] == JStr(v.otherConcern.value)
  {
    var base := map[
      "name" := JStr(v.name),
      "college" := JStr(v.college),
      "grad_year" := JStr(v.gradYear),
      "linkedin" := JStr(v.linkedin),
      "instagram" := JStr(v.instagram),
      "twitter" := JStr(v.twitter),
      "address" := JStr(v.address),
      "rent" := JStr(v.rent),
      "rooms" := JStr(v.rooms),
      "listing_link" := JStr(v.listingLink),
      "phone" := JStr(v.phone),
      "city" := JStr(v.city),
      "email" := JStr(v.email),
      "listing_photos" := JStr(Join(urls, ",")),
      "concerns" := Strings(v.concerns),
      "contact_pref" := Strings(v.contactPref),
      "willing_to_verify" := JBool(v.willingToVerify)];
    if v.otherConcern.Some? then base["other_concern" := JStr(v.otherConcern.value)] else base
  }

  /** The profile texts are posted as typed. */
  lemma BodyProfileTexts(v: SupplyValues, urls: seq<string>)
    ensures var r := RequestBody(v, urls);
            && "name" in r && r["name"] == JStr(v.name)
            && "college" in r && r["college"] == JStr(v.college)
            && "grad_year" in r && r["grad_year"] == JStr(v.gradYear)
  {
  }

  /** The social profile links of the body are the form's values, as strings. */
  lemma BodySocialTexts(v: SupplyValues, urls: seq<string>)
    ensures var r := RequestBody(v, urls);
            && "linkedin" in r && r["linkedin"] == JStr(v.linkedin)
            && "instagram" in r && r["instagram"] == JStr(v.instagram)
            && "twitter" in r && r["twitter"] == JStr(v.twitter)
  {
  }

  /** The listing and contact texts are posted as typed. */
  lemma BodyListingTexts(v: SupplyValues, urls: seq<string>)
    ensures var r := RequestBody(v, urls);
            && "address" in r && r["address"] == JStr(v.address)
            && "rent" in r && r["rent"] == JStr(v.rent)
            && "rooms" in r && r["rooms"] == JStr(v.rooms)
            && "listing_link" in r && r["listing_link"] == JStr(v.listingLink)
            && "phone" in r && r["phone"] == JStr(v.phone)
  {
  }

  /** The body carries exactly the schema's keys, less `other_concern` when it has no value. */
  lemma BodyKeysExact(v: SupplyValues, urls: seq<string>)
    ensures RequestBody(v, urls).Keys == if v.otherConcern.Some? then BodyKeys else BodyKeys - {"other_concern"}
  {
  }

  /** The body carries strings under all its keys but the lists and the flag. */
  lemma BodyStrings(v: SupplyValues, urls: seq<string>)
    ensures var r := RequestBody(v, urls);
            forall k :: k in r && k !in ListKeys ==> r[k].JStr?
  {
  }

  /**
   * `handleSubmit`: with photos selected, upload them first; a failed upload
   * ends the submission; otherwise post the values with the URLs joined.
   */
  function HandleSubmit(v: SupplyValues, files: seq<FileInfo>, answer: UploadAnswer): (r: Outcome)
    ensures files == [] ==> r == Posted(RequestBody(v, []))
    ensures files != [] && (answer.UploadThrew? || !IsOk(answer.resp)) ==> r.UploadFailed?
    ensures r.Posted? ==> files == [] || (answer.UploadReplied? && IsOk(answer.resp) && answer.resp.reply.Uploaded?)
    ensures r.Posted? && files != [] ==> r.body == RequestBody(v, answer.resp.reply.urls)
  {
    if files == [] then Posted(RequestBody(v, []))
    else match answer
      case UploadThrew => UploadFailed("Failed to upload photos")
      case UploadReplied(resp) =>
        if !IsOk(resp) then UploadFailed(UploadMessage(resp))
        else if resp.reply.Uploaded? then Posted(RequestBody(v, resp.reply.urls))
        else Stopped("Something went wrong. Try again soon.")
  }

  /** The route's refusal message reaches the page; an empty one is replaced. */
  lemma RefusalShown(v: SupplyValues, files: seq<FileInfo>, resp: Response)
    requires files != [] && !IsOk(resp)
    ensures HandleSubmit(v, files, UploadReplied(resp))
         == UploadFailed(if resp.reply.Failed? && resp.reply.error != "" then resp.reply.error
                         else "Failed to upload photos")
  {
  }

  /**
   * A body the client schema accepted is accepted by the supply route: the
   * row keeps the city, email, concerns and flag as sent; `listing_photos` is
   * the joined URLs trimmed to absent — absent when no photo was uploaded —
   * and `other_concern` is absent both when it was never shown and when it
   * was left blank.
   */
  lemma ServerAcceptsClientBody(syn: Syntax, v: SupplyValues, urls: seq<string>)
    requires ClientValid(syn, v)
    ensures var o := SupplyIntake.JsonBody(JObj(RequestBody(v, urls))).value;
            var r := SupplyIntake.ParseSupply(syn, o);
            && r.Success?
            && r.value.city == v.city && r.value.email == v.email
            && r.value.concerns == v.concerns
            && r.value.willingToVerify == v.willingToVerify
            && r.value.listingPhotos == TrimToAbsent(Join(urls, ","))
            && r.value.otherConcern == (if v.otherConcern.Some? then TrimToAbsent(v.otherConcern.value) else None)
  {
    var body := RequestBody(v, urls);
    SupplyIntake.JsonBodyOfBooleanFlag(body);
    BodyStrings(v, urls);
    AcceptsValues(syn, v, body);
  }

  /** The schema's checks on an object holding the values as the body does. */
  lemma AcceptsValues(syn: Syntax, v: SupplyValues, o: Obj)
    requires ClientValid(syn, v)
    requires "email" in o && "city" in o && "concerns" in o && "contact_pref" in o && "willing_to_verify" in o
    requires o["email"] == JStr(v.email) && o["city"] == JStr(v.city)
    requires o["concerns"] == Strings(v.concerns) && o["contact_pref"] == Strings(v.contactPref)
    requires o["willing_to_verify"] == JBool(v.willingToVerify)
    requires forall k :: k in o && k !in ListKeys ==> o[k].JStr?
    ensures var r := SupplyIntake.ParseSupply(syn, o);
            && r.Success?
            && r.value.city == v.city && r.value.email == v.email
            && r.value.concerns == v.concerns
            && r.value.willingToVerify == v.willingToVerify
            && r.value.listingPhotos == Kept(o, "listing_photos")
            && r.value.otherConcern == Kept(o, "other_concern")
  {
    TextsOfStrings(o, "concerns", v.concerns, 1);
    ChoicesOfStrings(o, "contact_pref", ContactOf, v.contactPref, 1);
    assert SupplyIntake.Acceptable(syn, o);
    var d := SupplyIntake.ParseSupply(syn, o).value;
    assert d.concerns == v.concerns by {
      assert StringsOf(d.concerns, o["concerns"]);
      assert forall i :: 0 <= i < |d.concerns| ==> d.concerns[i] == v.concerns[i];
    }
  }

  /** After a successful post the page goes to `/waitlist/thank-you?type=supply`, whose computed referral link is "". */
  lemma SupplyThanksPage(origin: string)
    ensures var view := ThankYou.ThankYouContent(map["type" := "supply"], origin);
            && view.kind == ThankYou.SupplyThanks
            && view.cities == [] && view.referralLink == "" && view.summary.None?
  {
  }

  /** The photo selection of the page and its complaint. */
  class SupplyPage {
    var uploadedFiles: seq<FileInfo>
    var uploadError: Option<string>

    constructor()
      ensures uploadedFiles == [] && uploadError == None
    {
      uploadedFiles := [];
      uploadError := None;
    }

    /**
     * `handleFileChange`: a selection with a complaint leaves the kept files
     * as they were and shows the complaint; any other replaces them.
     */
    method HandleFileChange(files: seq<FileInfo>)
      modifies this
      ensures SelectionError(files).None? ==> uploadedFiles == files && uploadError == None
      ensures SelectionError(files).Some? ==>
                uploadedFiles == old(uploadedFiles) && uploadError == SelectionError(files)
    {
      if |files| > MaxFiles {
        uploadError := Some("Maximum 5 files allowed");
        return;
      }
      for i := 0 to |files|
        invariant uploadedFiles == old(uploadedFiles)
        invariant forall j :: 0 <= j < i ==> Upload.Acceptable(files[j])
      {
        if files[i].size > MaxBytes {
          FirstFileErrorAt(files, 0, i);
          uploadError := Some("Each file must be under 5MB");
          return;
        }
        if !IsImage(files[i]) {
          FirstFileErrorAt(files, 0, i);
          uploadError := Some("Only image files are allowed");
          return;
        }
      }
      uploadedFiles := files;
      uploadError := None;
    }
  }
}
