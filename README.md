# Cove waitlist and listings, modelled in Dafny

Cove is a housing platform for interns and early-career movers. People join
one of two waitlists:
- the **demand** list, for people looking for a room;
- the **supply** list, for people offering a room.

This project models the logic behind these parts of the system:

- **Intake routes.** `POST /api/waitlist/demand`, `POST /api/waitlist/supply` and `POST /api/pain-points` each do three things:
  - validate and normalise a JSON body with a zod schema;
  - insert a row as `pending`;
  - log an event to `waitlist_events` and send a confirmation email.
- **Approval routes.** `POST /api/waitlist/{demand,supply}/approve` run these checks in order:
  - shape, admin key, lookup, and (demand only) already approved;
  - then they update the row, build a referral link `<base>/waitlist/<kind>?r=<id>` and hand an approval mail off.
- **Email templates.**
  - the confirmation mail of `lib/email.ts`, which does nothing without a Resend key;
  - the standalone `sendWelcomeEmail` function.
- **Photo upload.** `POST /api/upload` checks the files and stores them one at a time, inside its loop.
- **The client forms.** This covers:
  - the four-step navigation;
  - the "Other" city substitution;
  - the photo-selection checks;
  - the bodies the forms post;
  - the thank-you page's query parsing.
- **The listings prototype.** This covers:
  - the swipe page's filters, card index, likes and map markers;
  - the liked-listings page;
  - the labels and drag gesture of one listing card.

## How the model is built

- **JSON values.** Request bodies are a `Json` datatype. `request.json()` can throw, so its outcome is `Body = Unparsable | Parsed(Json)`.
- **Validation.** Every zod field check is a function in `Fields`. A schema checks each key on its own, then combines the results: either the record, or the list of every failing key in schema order (zod reports all of them). The email, URL and UUID syntax checks are library behaviour, so they are parameters (`Syntax`).
- **The store.** `Waitlist` defines the store as a value (`Db`):
  - the demand, supply and pain-point tables, as maps from id to row;
  - one journal of everything sent out of the process: event rows, mails, stored objects. The order of the effects is therefore part of the state.
  
  Each route is a function from the store before a request to the store after it, paired with the response. The predicate `Evolves` states how the store may change:
  - rows are never removed;
  - an approved demand row never changes again;
  - the journal only grows.
  
  Every route is proved to keep it.
- **The running routes.** `Backend.Store` is a class holding the same tables and journal as fields. Its methods do the routes' steps in order, with their early returns and the upload loop. Each method is proved to end in exactly the state and the response that the matching `Waitlist` or `Upload` function gives.
- **Outside inputs.** Whatever the outside world decides is an input (`Io`, `UploadIo`): the assigned id, the time, the random parts of file names, and whether an insert, an event write, an update, an upload or the approval mail fails. No route reads the result of its event write, so a failed one leaves only the event out. The deployment's settings are `Env`. "The store is set up" (`Waitlist.StoreReady`) means that the Supabase project URL and service key are both set and non-empty, which is when `createSupabaseAdminClient` returns a client.
- **Client pages.** The client forms and pages are classes whose fields are the React state hooks. They are specified by pure functions, and the lemmas are about those functions.

### Behaviour of the code worth knowing

- **`rent` and `rooms`.** The supply schema keeps them as trimmed strings; they are never coerced to numbers.
- **Re-approval.** Only the demand approval route refuses an entry that is already approved. The supply route approves again, overwrites `approved_at` and mails again.
- **Approval mail failure.** The mail call is awaited inside the `try`, so a throw is answered 500 after the row is already approved. `WaitlistLemmas.DemandMailFailureStrandsLink` shows the consequence: a retry is refused as "Already approved", so the link is never returned.
- **Missing base URL.** Nothing stops the process when the base URL is unset; the routes print it as `undefined` inside the link.
- **Unconditional update.** The approval update is not conditional on the row's current status.
- **Event logging.** Approval by the supply route logs no event.

## Model

| member | source | states |
|---|---|---|
| Text.Trim | app/api/waitlist/demand/route.ts:11 | The result is the input with its leading and trailing white space cut off: a slice of the input, starting after the leading white space, with only white space after it. It has no white space at either end and is empty exactly when the input is all white space |
| Text.TrimToAbsent | app/api/waitlist/demand/route.ts:11 | An optional text is absent exactly when it is all white space; otherwise it is the trimmed input, non-empty and no longer than what was sent |
| Text.TrimToAbsentIdempotent | app/api/waitlist/demand/route.ts:11 | A value already normalised survives a second normalisation unchanged |
| Text.TrimOfPadded | app/api/waitlist/demand/route.ts:11 | Trimming any white-space padding around a trimmed text gives that text back |
| Text.TrimToAbsentOfPadded | app/api/waitlist/demand/route.ts:11 | A non-empty trimmed text with any white-space padding is kept as exactly that text |
| Text.SplitOn | app/waitlist/thank-you/page.tsx:14-18 | `split(",")` gives at least one piece, and no piece holds the separator |
| Text.SplitJoin | app/waitlist/thank-you/page.tsx:14-18 | Joining separator-free pieces and splitting again gives the same pieces back |
| Text.JoinContains | lib/email.ts:24 | Every element of a joined list occurs verbatim in the joined text |
| Text.NatToString | components/listings/ListingCard.tsx:120 | The decimal rendering of a count is a non-empty string of digits |
| Text.NatToStringInjective | components/listings/ListingCard.tsx:117-122 | Different counts render as different decimal strings |
| Text.UpperAscii | components/listings/ListingCard.tsx:89 | Upper-casing keeps the length, maps each lower-case ASCII letter to the matching capital and leaves every other character unchanged |
| Fields.OptionalText | app/api/waitlist/demand/route.ts:7-11 | An absent key passes as absent. A present value passes exactly when it is a string within the length limit, checked on the raw string. The stored value is the string trimmed to absent |
| Fields.RequiredText | app/api/waitlist/demand/route.ts:39 | A required text passes exactly when it is present, a string and at least the minimum length; the stored value is the string sent |
| Fields.AllStrings | app/api/waitlist/demand/route.ts:38 | An array is read as strings exactly when every element is a string, element for element |
| Fields.Texts | app/api/waitlist/demand/route.ts:38 | A list of strings passes exactly when it is an array of strings with at least the minimum number of elements; the value is those strings, element for element |
| Fields.Choice | app/api/waitlist/demand/route.ts:37 | An enum field passes exactly when it is present, a string, and one of the closed set; the value is the member that string names |
| Fields.OptionalChoice | app/api/pain-points/route.ts:9 | An absent optional enum passes as absent. A present one passes exactly when it is a string of the closed set, and its value is that member |
| Fields.ParseEach | app/api/waitlist/demand/route.ts:60 | A list of enum values parses exactly when every element is a string of the closed set; the result holds the member each element names, in order |
| Fields.Choices | app/api/waitlist/demand/route.ts:60 | A list of enum values passes exactly when it is an array of strings of the closed set with at least the minimum number of elements; the value is the member each element names, in order |
| Fields.TextsOfStrings | app/api/waitlist/supply/route.ts:62 | A JSON array of strings long enough passes as exactly those strings |
| Fields.ChoicesOfStrings | app/api/waitlist/supply/route.ts:69 | A long-enough array of strings of the closed set passes |
| Fields.Email | app/api/waitlist/demand/route.ts:12 | An email passes exactly when it is present, a string and satisfies the address syntax; the value is the string sent |
| Fields.Uuid | app/api/waitlist/demand/approve/route.ts:7 | An id passes exactly when it is present, a string and satisfies the UUID syntax; the value is the string sent |
| Fields.OptionalUuid | app/api/waitlist/demand/route.ts:61-64 | An absent referrer id passes as absent. A present one passes exactly when it is a string satisfying the UUID syntax, and its value is that string |
| Fields.Failing | app/api/waitlist/demand/route.ts:127-128 | The reported keys are exactly the failing ones. The report is empty exactly when every check passed |
| DemandIntake.ParseDemand | app/api/waitlist/demand/route.ts:6-65 | A non-object is rejected as such. An object is accepted exactly when every key passes its check (listed after this table), and the record then holds each key's checked value. An accepted record is well formed; a rejected object names at least one key |
| DemandIntake.DemandIgnoresUnknownKeys | app/api/waitlist/demand/route.ts:98 | A key outside the schema, `approval_status` included, does not change the outcome of the parse |
| DemandIntake.DemandNameLimitBeforeTrim | app/api/waitlist/demand/route.ts:7-11 | A raw `name` over 120 characters is rejected and reported, even when its trimmed form would fit |
| DemandIntake.DemandRejectsEmptyList | app/api/waitlist/demand/route.ts:38-60 | An empty `target_cities`, `concerns` or `contact_pref` is rejected and reported under its key |
| DemandIntake.DemandRejectsOutsideEnums | app/api/waitlist/demand/route.ts:37-60 | A `status` or `housing_search_type` outside its closed set, or a `contact_pref` element outside {email, text}, is rejected and reported |
| DemandIntake.DemandOptionalTexts | app/api/waitlist/demand/route.ts:7-59 | Each of the eleven free-text fields of an accepted record is the trimmed-to-absent form of what was sent, and absent when the key was missing |
| DemandIntake.DemandMissingIsNull | app/api/waitlist/demand/route.ts:91-97 | A missing `referrer_id` or `roommate_preferences` is stored as null |
| DemandIntake.RequiredKeysReported | app/api/waitlist/demand/route.ts:48-55 | A body lacking `housing_search_type`, `budget` and `concerns` is rejected, naming all three |
| SupplyIntake.ParseSupply | app/api/waitlist/supply/route.ts:10-75 | An object is accepted exactly when every key passes its check, and the record then holds each key's checked value: trimmed-to-absent free texts, the email and city as sent, the lists and the flag. An accepted record is well formed; a rejection names at least one key |
| SupplyIntake.JsonBody | app/api/waitlist/supply/route.ts:97-103 | The JSON path throws only on a `null` body. Otherwise the parsed object always carries a boolean `willing_to_verify` |
| SupplyIntake.JsonBodyOfBooleanFlag | app/api/waitlist/supply/route.ts:99-102 | A JSON object whose flag is already a boolean is parsed as sent |
| SupplyIntake.MultipartBody | app/api/waitlist/supply/route.ts:85-96 | The multipart object never carries `concerns` or `contact_pref`. Email and city become strings ("" when missing); the optional keys are copied. The flag is true exactly when the form says "true" |
| SupplyIntake.SupplyIgnoresUnknownKeys | app/api/waitlist/supply/route.ts:126-137 | A key outside the schema, `attachment_url` and `approval_status` included, does not change the parse |
| SupplyIntake.MissingListReported | app/api/waitlist/supply/route.ts:62-69 | A missing `concerns` or `contact_pref` is reported under its key |
| SupplyIntake.MultipartAlwaysRejected | app/api/waitlist/supply/route.ts:88-96 | Whatever a multipart form holds, the schema rejects it and reports both `concerns` and `contact_pref` |
| SupplyIntake.SupplyCityVerbatim | app/api/waitlist/supply/route.ts:43 | An accepted `city` is stored exactly as sent, untrimmed |
| SupplyIntake.SupplyBlankCityAccepted | app/api/waitlist/supply/route.ts:43 | A non-empty all-white-space city passes the city check unchanged |
| SupplyIntake.JsonWillingIsTruthiness | app/api/waitlist/supply/route.ts:101 | On the JSON path the stored flag is the JavaScript truthiness of what was sent (the string "false" counts as willing) |
| SupplyIntake.JsonNonObjectRejected | app/api/waitlist/supply/route.ts:98-102 | A JSON body that is neither null nor an object is rejected for its missing email |
| SupplyIntake.EmailMissingReported | app/api/waitlist/supply/route.ts:38 | A missing email is reported |
| SupplyIntake.SupplyOptionalTexts | app/api/waitlist/supply/route.ts:12-73 | Each of the thirteen free-text fields, `rent` and `rooms` included, is the trimmed-to-absent string sent, never a number |
| SupplyIntake.AcceptedWithoutFreeText | app/api/waitlist/supply/route.ts:10-75 | The required keys alone are accepted, keeping email, city, flag, concerns and contact methods, with every free text absent |
| SupplyIntake.AcceptedWithAllText | app/api/waitlist/supply/route.ts:10-75 | With every free text present, the object is accepted; each free text is its trimmed-to-absent form and the lists are kept element for element |
| PainPoints.ParsePainPoint | app/api/pain-points/route.ts:5-14 | A non-object is rejected as such. An object is accepted exactly when name (at least 2 characters), story (at least 10), the boolean `can_reach_out`, contact method and contact info pass their checks; the story then holds the values sent, the contact info trimmed to absent. A rejection names a key |
| PainPoints.StoredMethod | app/api/pain-points/route.ts:29 | The stored contact method is the one sent, or "none" when absent |
| PainPoints.AbsentMethodStoredAsNone | app/api/pain-points/route.ts:9-29 | Leaving out `contact_method` is stored exactly as sending "none" |
| PainPoints.UnknownMethodRejected | app/api/pain-points/route.ts:9 | A contact method outside email, phone and none is rejected and reported |
| PainPoints.ContactInfoTrimmed | app/api/pain-points/route.ts:10-13 | `contact_info` is the trimmed-to-absent form of what was sent, absent when missing |
| PainPoints.PainPointIgnoresUnknownKeys | app/api/pain-points/route.ts:5-14 | Keys outside the schema do not change the parse |
| Waitlist.EvolvesTransitive | app/api/waitlist/demand/approve/route.ts:34-42 | The allowed store evolution composes over consecutive requests |
| Waitlist.EventRow | app/api/waitlist/demand/route.ts:109-116 | The `waitlist_events` insert adds at most one journal entry, and none exactly when the write fails |
| Waitlist.ConfirmationMail | lib/email.ts:17-21 | A confirmation is sent exactly when a Resend key is configured, at most one |
| Waitlist.SubmitDemand | app/api/waitlist/demand/route.ts:67-133 | See "How the route contracts read" |
| Waitlist.SaveDemand | app/api/waitlist/demand/route.ts:72-125 | A parsed record is saved exactly when the store is set up, the insert succeeds and the id is new. A failure is a 500 with no change. Success appends the event, unless its write fails, and then the mail |
| Waitlist.DemandApprovalStatusIgnored | app/api/waitlist/demand/route.ts:98 | A submitted `approval_status` changes nothing: the row starts pending whatever the body says |
| Waitlist.SaveSupplySubmission | app/api/waitlist/supply/route.ts:149-200 | Insert as pending, then the `supply_submission` event unless its write fails, then a confirmation without cities, then the id. An insert failure is a 500 with no change |
| Waitlist.SaveParsed | app/api/waitlist/supply/route.ts:134-142 | A schema rejection is answered 400 with the store unchanged; an accepted record is saved |
| Waitlist.SubmitSupply | app/api/waitlist/supply/route.ts:79-147 | A JSON request is answered as the JSON path, a multipart request as the multipart path, and a multipart body that cannot be read is a 500 with no change. Only a JSON request can succeed, and the store only evolves |
| Waitlist.JsonVerdict | app/api/waitlist/supply/route.ts:97-137 | The JSON path throws exactly on an unparsable or `null` body; otherwise it gives the schema's verdict |
| Waitlist.SubmitJson | app/api/waitlist/supply/route.ts:97-147 | A throwing read is 500 with no change. 400 exactly on a schema rejection, with its issues and no change. 200 exactly when the record parses, the store is set up, the insert succeeds and the id is new: a pending row under the id, the other tables unchanged, the event unless its write fails, then a confirmation without cities |
| Waitlist.SubmitMultipart | app/api/waitlist/supply/route.ts:85-132 | A rejected multipart form never succeeds. With a non-empty file: the store not set up is a 500 with no change; otherwise only the attachment reaches the store. Without a file a rejection changes nothing and an accepted form is saved |
| Waitlist.StoreAttachment | app/api/waitlist/supply/route.ts:105-123 | The upload touches no table, and stores the object unless the upload fails |
| Waitlist.MultipartLeavesAttachment | app/api/waitlist/supply/route.ts:105-131 | A multipart submission with a file is answered 400, and the uploaded file stays stored |
| Waitlist.MultipartWithoutFile | app/api/waitlist/supply/route.ts:105-142 | A multipart submission without a file is answered 400 and changes nothing |
| Waitlist.SubmitPainPoint | app/api/pain-points/route.ts:16-58 | Success exactly when the story parses, the store is set up and the insert succeeds. It stores the default contact method and logs `pain_point_submitted` unless that write fails. A 400 means a rejected body; no failure changes the store |
| Waitlist.ParseApprove | app/api/waitlist/demand/approve/route.ts:6-14 | An approval body is accepted exactly when `waitlist_id` is a UUID string and `admin_key` a string, carrying both values |
| Waitlist.ApproveGate | app/api/waitlist/demand/approve/route.ts:11-21 | The checks run in order: shape 400, key 401 (unset key refuses everyone), then Supabase setup |
| Waitlist.ApproveDemand | app/api/waitlist/demand/approve/route.ts:11-80 | Success exactly when the gate passes, the lookup succeeds and finds the row pending, the update succeeds and the mail call returns. A missing row or a failed lookup is 404 with no change. Details after this table |
| Waitlist.ApproveSupply | app/api/waitlist/supply/approve/route.ts:11-67 | Success exactly when the gate passes, the lookup succeeds and finds the row, the update succeeds and the mail returns (no pending check). A missing row or a failed lookup is 404 with no change. Details after this table |
| WaitlistLemmas.DemandEventUnread | app/api/waitlist/demand/route.ts:104-125 | Whether the event write fails changes neither the answer nor any table of the demand route |
| WaitlistLemmas.SaveDemandEventUnread | app/api/waitlist/demand/route.ts:104-125 | The same for the save of a parsed demand record |
| WaitlistLemmas.SupplyEventUnread | app/api/waitlist/supply/route.ts:184-199 | The same for the supply route, on JSON, multipart and unreadable requests |
| WaitlistLemmas.JsonEventUnread | app/api/waitlist/supply/route.ts:184-199 | The same for the JSON path |
| WaitlistLemmas.MultipartEventUnread | app/api/waitlist/supply/route.ts:184-199 | The same for the multipart path, with or without an attachment |
| WaitlistLemmas.SaveSupplyEventUnread | app/api/waitlist/supply/route.ts:184-199 | The same for `saveSupplySubmission` |
| WaitlistLemmas.PainPointEventUnread | app/api/pain-points/route.ts:41-50 | The same for the pain-point route |
| WaitlistLemmas.ApprovalEventUnread | app/api/waitlist/demand/approve/route.ts:60-72 | The same for the demand approval route |
| WaitlistLemmas.ApproveBodyParses | app/api/waitlist/demand/approve/route.ts:6-14 | A body with a UUID id and any key string parses to that request |
| WaitlistLemmas.UnauthorizedBeforeStore | app/api/waitlist/demand/approve/route.ts:17-19 | A wrong or missing key gets 401 from both routes whatever the store holds, and changes nothing |
| WaitlistLemmas.UnknownIdNotFound | app/api/waitlist/demand/approve/route.ts:24-32 | On both approval routes, an id with no row, or a lookup that fails, is answered 404 and changes nothing |
| WaitlistLemmas.ApproveDemandTwice | app/api/waitlist/demand/approve/route.ts:34-36 | After a successful demand approval, a second one is answered "Already approved" and changes nothing |
| WaitlistLemmas.DemandMailFailureStrandsLink | app/api/waitlist/demand/approve/route.ts:39-58 | When the mail call throws, the row is approved but the answer is 500, and a retry is refused as "Already approved" |
| WaitlistLemmas.ApproveSupplyTwice | app/api/waitlist/supply/approve/route.ts:34-57 | A supply row approved twice succeeds twice. `approved_at` is overwritten and the mail is sent again |
| WaitlistLemmas.SampleSupplyParses | app/api/waitlist/supply/route.ts:10-75 | A concrete supply sign-up parses, with its email and no name |
| WaitlistLemmas.SampleSupplyStored | app/api/waitlist/supply/route.ts:149-199 | The sample sign-up is stored pending under the new id and answered with that id |
| WaitlistLemmas.SupplyScenario | app/api/waitlist/supply/approve/route.ts:49-59 | Sign-up then approval: the answer carries `<base>/waitlist/supply?r=<id>` and the same link is mailed to the signed-up address |
| Referral.ReferralLink | app/api/waitlist/demand/approve/route.ts:50 | The link is the base (or "undefined"), then the kind's path `/waitlist/<kind>?r=`, then the id |
| Referral.LinkDeterminesId | app/api/waitlist/demand/approve/route.ts:50 | Under one base and kind, the link determines the id |
| Referral.KindsDiffer | app/api/waitlist/supply/approve/route.ts:49 | A demand link never equals a supply link under the same base |
| Email.CityList | lib/email.ts:24 | No cities give "your target cities"; one city is itself; more are the first, ", " and the list of the rest. Every city occurs in the list |
| Email.ReferralCopy | lib/email.ts:31-33 | The invite paragraph is present exactly when the link is present and non-empty |
| Email.Frame | lib/email.ts:39-51 | The message is the wrapper, the greeting, the paragraphs in order, the sign-off and the closing tag |
| Email.Blocks | lib/email.ts:26-48 | The paragraphs are the kind's intro, then the demand city line or the supply review line, then the invite paragraph if any |
| Email.Confirmation | lib/email.ts:17-53 | Without a key nothing is sent. Otherwise one message with the fixed sender and subject, to exactly the given address, framed around the paragraphs |
| Email.DemandNamesEveryCity | lib/email.ts:43-45 | A demand confirmation names every city it was given |
| Email.ConfirmationParagraphs | lib/email.ts:26-47 | The intro is chosen by the kind alone, and so is the detail paragraph (city line or review line) |
| Email.SupplyIgnoresCities | lib/email.ts:43-47 | A supply confirmation is the same whatever cities are passed |
| Email.ReferralPresence | lib/email.ts:31-48 | The invite paragraph holds the link and sits just before the sign-off exactly when a non-empty link was given; otherwise there is none |
| WelcomeEmail.Destructure | supabase/functions/sendWelcomeEmail.ts:23 | Destructuring throws exactly on a `null` body |
| WelcomeEmail.WelcomeCityList | supabase/functions/sendWelcomeEmail.ts:31 | A non-array or empty `cities` gives "your city list"; a non-empty array gives its elements as strings joined by ", " |
| WelcomeEmail.WelcomeCityListOfStrings | supabase/functions/sendWelcomeEmail.ts:31 | An array of strings gives exactly the confirmation mail's city list of those strings |
| WelcomeEmail.Welcome | supabase/functions/sendWelcomeEmail.ts:7-61 | Without a key: 500 before anything else. Another method: 405. A `null` or unparsable body, or a send that throws: 500 "Unexpected error". A falsy email: 400 "Email is required". Otherwise 200 with one message to that email, from the fixed sender, with the fixed subject and the html built from `type` and `cities`; a message is sent exactly when the answer is 200 |
| WelcomeEmail.WelcomeWording | supabase/functions/sendWelcomeEmail.ts:31-47 | A `type` of "supply" gets the review wording; any other gets the flagged-interest wording around the city list, framed by the greeting and sign-off |
| WelcomeEmail.AbsentTypeIsDemand | supabase/functions/sendWelcomeEmail.ts:23 | An absent `type` behaves exactly as "demand" |
| WelcomeEmail.OtherMethodRefused | supabase/functions/sendWelcomeEmail.ts:15-20 | With the key set, any other method gets 405 whatever the body |
| WelcomeEmail.CityWordingNamesCities | supabase/functions/sendWelcomeEmail.ts:31-35 | Any `type` but "supply" gets the city wording, which names every string city |
| Files.Extension | app/api/upload/route.ts:41 | The extension holds no dot and is no longer than the name |
| Files.ExtensionAfterLastDot | app/api/upload/route.ts:41 | The extension is the text after the last dot |
| Files.ExtensionWithoutDot | app/api/upload/route.ts:41 | A name without a dot is its own extension |
| Upload.FirstStop | app/api/upload/route.ts:21-36 | The loop stops at the first entry that is not a file, fails a check or fails its upload; every earlier entry is a file that passed |
| Upload.Stores | app/api/upload/route.ts:49-54 | One stored object per processed file, in order, under its generated name |
| Upload.Urls | app/api/upload/route.ts:64-69 | One public URL per processed file, in order, naming its stored object |
| Upload.Refusal | app/api/upload/route.ts:21-76 | A file over 5 MB or not an image is answered 400. An acceptable file that failed to upload is answered 500, and so is a text value under `files`: the size test is false for it, reading its `type` throws, and the catch answers "Upload failed" |
| Upload.UploadPhotos | app/api/upload/route.ts:4-77 | No table changes. Success exactly when the form has 1 to 5 entries under `files`, the store is set up, and every entry is a file that passes |
| Upload.CountCheckedFirst | app/api/upload/route.ts:9-16 | No files, or more than five, is answered 400 before anything is stored |
| Upload.FirstBadFileAnswers | app/api/upload/route.ts:21-76 | The refusal of the first entry that does not pass is the answer, and the files before it stay stored |
| Upload.TextEntryFails | app/api/upload/route.ts:7-76 | A text value under `files` after passing files is answered 500 "Upload failed", with the files before it stored |
| Upload.OneUrlPerFile | app/api/upload/route.ts:64-72 | A success answers one URL per file in form order, each naming the object stored for it |
| Upload.SizeLimitInclusive | app/api/upload/route.ts:23-28 | Exactly 5 MB passes; one byte more is refused naming the file |
| Upload.StoredNameKeepsExtension | app/api/upload/route.ts:39-42 | The stored name is the stem, a dot and the text after the file's last dot |
| FormSteps.NextStep | app/waitlist/demand/page.tsx:90-98 | Continue moves one step only when the step validated, and never past the last step |
| FormSteps.PreviousStep | app/waitlist/demand/page.tsx:100-102 | Back moves one step back and stays at the first step |
| FormSteps.RunStaysInRange | app/waitlist/demand/page.tsx:90-102 | Any sequence of presses keeps the index within the four steps |
| FormSteps.ProgressNeedsValidation | app/waitlist/demand/page.tsx:90-98 | The index never rises by more than the number of validated Continue presses |
| FormSteps.ContinueThenBack | app/waitlist/demand/page.tsx:97-101 | A validated Continue then Back returns to the same step |
| FormSteps.Wizard.constructor | app/waitlist/demand/page.tsx:63 | The form opens on the first step |
| FormSteps.Wizard.GoToNextStep | app/waitlist/demand/page.tsx:90-98 | The step becomes the next step by the validation outcome, and stays in range |
| FormSteps.Wizard.GoToPreviousStep | app/waitlist/supply/page.tsx:101 | The step becomes the previous step, and stays in range |
| DemandForm.StepsCoverSchema | app/waitlist/demand/page.tsx:15-57 | The four steps' checks together are exactly the client schema |
| DemandForm.FinalCities | app/waitlist/demand/page.tsx:106-111 | With "Other" picked and a typed city, every "Other" goes and the typed city goes last. Otherwise the list is sent unchanged. A non-empty pick stays non-empty |
| DemandForm.OtherWithoutCityKept | app/waitlist/demand/page.tsx:106-111 | "Other" without a typed city is sent as "Other" |
| DemandForm.RequestBody | app/waitlist/demand/page.tsx:112-123 | The body carries the email, the contact methods, the final cities as `target_cities`, no `other_city`, and `referrer_id` exactly when an `r` parameter was given |
| DemandForm.BodyProfileValues | app/waitlist/demand/page.tsx:112-123 | The name, college, graduation year, LinkedIn and phone of the body are the form's values, as strings |
| DemandForm.BodyMoveValues | app/waitlist/demand/page.tsx:112-123 | The status, move-in month, company and roommate preference of the body are the form's values, as strings |
| DemandForm.RequestBodyKeys | app/waitlist/demand/page.tsx:112-123 | The body's keys are the form's keys without `other_city`, plus `referrer_id` only with a referrer |
| DemandForm.ServerRejectsClientBody | app/waitlist/demand/page.tsx:15-32 | Every body the page posts is rejected by the demand route, naming `housing_search_type`, `budget` and `concerns` |
| DemandForm.RedirectQuery | app/waitlist/demand/page.tsx:140-142 | The redirect carries type "demand" and the returned id. No cities give an empty `cities`; comma-free cities split back exactly, and every city occurs in the parameter |
| DemandForm.AfterSubmit | app/waitlist/demand/page.tsx:126-142 | The page redirects exactly on a 200 `{ok, id}` answer, carrying that id |
| DemandForm.ClientSubmissionRefused | app/waitlist/demand/page.tsx:104-148 | Whatever is entered, the route answers the page 400, stores nothing, and the page never redirects |
| SupplyForm.StepsCoverSchema | app/waitlist/supply/page.tsx:21-72 | The four steps' checks together are exactly the client schema |
| SupplyForm.FileError | app/waitlist/supply/page.tsx:111-120 | A file draws a complaint exactly when it is over 5 MB or not an image, the same test as the upload route |
| SupplyForm.FirstFileError | app/waitlist/supply/page.tsx:111-120 | No complaint exactly when every remaining file is acceptable |
| SupplyForm.FirstFileErrorAt | app/waitlist/supply/page.tsx:111-120 | The complaint reported is the first bad file's, size before type |
| SupplyForm.SelectionError | app/waitlist/supply/page.tsx:103-120 | A selection is accepted exactly when it has at most 5 files, all acceptable; more than 5 gives "Maximum 5 files allowed" |
| SupplyForm.KeptSelectionUploads | app/waitlist/supply/page.tsx:103-124 | Any non-empty selection the page keeps is uploaded successfully by the upload route, provided storage does not fail |
| SupplyForm.RequestBody | app/waitlist/supply/page.tsx:165-168 | The body carries the joined URLs as `listing_photos`, the form's email, city, lists and boolean flag, and `other_concern` exactly when the text area's value is present |
| SupplyForm.BodyProfileTexts | app/waitlist/supply/page.tsx:165-168 | The name, college and graduation year of the body are the form's values, as strings |
| SupplyForm.BodySocialTexts | app/waitlist/supply/page.tsx:165-168 | The LinkedIn, Instagram and Twitter links of the body are the form's values, as strings |
| SupplyForm.BodyListingTexts | app/waitlist/supply/page.tsx:165-168 | The address, rent, rooms, listing link and phone of the body are the form's values, as strings |
| SupplyForm.BodyKeysExact | app/waitlist/supply/page.tsx:165-168 | The body carries exactly the schema's keys, less `other_concern` when the form holds none |
| SupplyForm.BodyStrings | app/waitlist/supply/page.tsx:165-168 | Every key but the lists and the flag carries a string |
| SupplyForm.HandleSubmit | app/waitlist/supply/page.tsx:126-169 | With no files, post with no URLs. A failed or throwing upload ends the submission. A post follows only a good upload, with its URLs |
| SupplyForm.RefusalShown | app/waitlist/supply/page.tsx:142-147 | A refused upload ends the submission with the route's message, or the stock one when it is empty |
| SupplyForm.ServerAcceptsClientBody | app/waitlist/supply/page.tsx:160-169 | A body the client schema accepted is accepted by the supply route. City, email and concerns are kept as entered; `listing_photos` and `other_concern` are trimmed to absent |
| SupplyForm.AcceptsValues | app/waitlist/supply/page.tsx:21-47 | An object holding client-valid values is accepted by the route's schema, keeping those values, the concern list and the joined photos and other concern trimmed to absent |
| SupplyForm.SupplyThanksPage | app/waitlist/supply/page.tsx:183 | The supply thank-you page shows the supply heading, and its computed referral link is empty |
| SupplyForm.SupplyPage.constructor | app/waitlist/supply/page.tsx:79-81 | No files are kept and no complaint is shown at first |
| SupplyForm.SupplyPage.HandleFileChange | app/waitlist/supply/page.tsx:103-124 | A selection with a complaint keeps the old files and shows the complaint; any other replaces the files and clears it |
| ThankYou.KindOf | app/waitlist/thank-you/page.tsx:9 | The page is the supply page exactly when `type` is exactly "supply" |
| ThankYou.SelectedCities | app/waitlist/thank-you/page.tsx:14-18 | No parameter gives no cities. Otherwise the result is the non-empty pieces of the split on ",": a subsequence of the pieces, so in their order, holding each non-empty piece exactly as often as the split does, and none empty or holding a comma |
| ThankYou.KeepNonEmpty | app/waitlist/thank-you/page.tsx:14-18 | `.filter(Boolean)` keeps the non-empty pieces in order, each as often as it occurs |
| ThankYou.ReferralLinkOf | app/waitlist/thank-you/page.tsx:20-22 | No id gives ""; otherwise the demand sign-up link of the id. The page computes it but never displays it |
| ThankYou.ThankYouContent | app/waitlist/thank-you/page.tsx:7-46 | The kind follows `type`, and the heading follows the kind. The city summary shows exactly on the demand page with cities, as the cities joined by ", " |
| ThankYou.DemandRedirectRoundTrip | app/waitlist/thank-you/page.tsx:14-22 | The demand redirect's cities (non-empty, comma-free) come back exactly, and the link the page computes is the id's demand link |
| ThankYou.CitiesRoundTrip | app/waitlist/thank-you/page.tsx:14-18 | Joining comma-free cities by "," and reading them back gives the same list |
| ThankYou.CommaSplitsCity | app/waitlist/thank-you/page.tsx:14-18 | A city name containing a comma comes back as two cities |
| ThankYou.LinkIgnoresType | app/waitlist/thank-you/page.tsx:20-22 | The referral link does not depend on `type` |
| Listings.Matching | app/listings/page.tsx:27-53 | The shown listings are an order-preserving subsequence of the catalogue. A listing is shown exactly when it passes every filter that is set |
| Listings.NoFiltersKeepAll | app/listings/page.tsx:27-53 | With no filter set every listing is shown, in order |
| Listings.NarrowingMatches | app/listings/page.tsx:27-53 | The effect's three filter steps, in order, give exactly the matching listings |
| Listings.Advance | app/listings/page.tsx:78-87 | A swipe moves on by one only while a later card exists, and keeps the index in range |
| Listings.SwipesStopAtLast | app/listings/page.tsx:78-87 | k swipes from card i reach card min(i + k, n - 1) |
| Listings.MarkerIndex | app/listings/page.tsx:93-100 | A listed id moves the index to its first card; an unlisted id leaves the index |
| Listings.InitialValid | app/listings/page.tsx:15-24 | The first render satisfies the page invariant |
| Listings.SetCriteria | app/listings/page.tsx:27-55 | A changed filter shows the matching listings from card 0, and setting the same values changes nothing. The invariant is kept |
| Listings.FiltersReset | app/listings/page.tsx:200-205 | Reset clears the filters and shows the whole catalogue |
| Listings.LoadLiked | app/listings/page.tsx:57-67 | A stored list replaces the likes; a missing or unparsable entry keeps them; nothing else changes |
| Listings.SaveLiked | app/listings/page.tsx:70-74 | The id is appended even when already liked, and the stored list is the new likes |
| Listings.SwipedRight | app/listings/page.tsx:76-81 | Like the card, then move on exactly when a later card exists |
| Listings.SwipedLeft | app/listings/page.tsx:83-87 | Record nothing, and move on exactly when a later card exists |
| Listings.MarkerClicked | app/listings/page.tsx:93-100 | The marker's id is selected either way, and its card is shown when it is listed |
| Listings.HandlersKeepValid | app/listings/page.tsx:70-100 | Every handler keeps the page invariant: the shown list matches the filters and the index points into it |
| Listings.Visible | app/listings/page.tsx:237 | At most three cards are drawn, starting at the current index |
| Listings.ScreenInValidState | app/listings/page.tsx:195-248 | Cards show exactly when something matches, starting with the current card. The "seen all listings" screen is never reached |
| Listings.ListingsPage.constructor | app/listings/page.tsx:15-67 | The page opens on the whole catalogue at card 0, with the stored likes loaded |
| Listings.ListingsPage.ApplyFilters | app/listings/page.tsx:27-55 | The filter loop leaves the matching listings and index 0, so the page is valid whatever it was before |
| Listings.ListingsPage.SetCity | app/listings/page.tsx:27-55 | Setting the city acts as the criteria change. A valid page stays valid |
| Listings.ListingsPage.SetMoveIn | app/listings/page.tsx:27-55 | Setting the move-in date acts as the criteria change. A valid page stays valid |
| Listings.ListingsPage.SetMoveOut | app/listings/page.tsx:27-55 | Setting the move-out date acts as the criteria change. A valid page stays valid |
| Listings.ListingsPage.ResetFilters | app/listings/page.tsx:200-205 | The button acts as the filter reset. A valid page stays valid |
| Listings.ListingsPage.SwipeRight | app/listings/page.tsx:76-81 | The handler acts as the right swipe. A valid page stays valid |
| Listings.ListingsPage.SwipeLeft | app/listings/page.tsx:83-87 | The handler acts as the left swipe. A valid page stays valid |
| Listings.ListingsPage.MarkerClick | app/listings/page.tsx:93-100 | The handler acts as the marker click. A valid page stays valid |
| Listings.ListingsPage.StartOver | app/listings/page.tsx:222 | "Start Over" returns to card 0 and changes nothing else. A valid page stays valid |
| LikedListings.LikedOf | app/listings/liked/page.tsx:17-20 | The liked listings are the catalogue's listings whose id is stored, in catalogue order, each as often as in the catalogue |
| LikedListings.LikedOnce | app/listings/liked/page.tsx:17-21 | With distinct catalogue ids, a listing liked several times is shown once |
| LikedListings.Loaded | app/listings/liked/page.tsx:12-26 | Only a parsed stored list loads listings |
| LikedListings.RemoveId | app/listings/liked/page.tsx:36-38 | Every copy of the id goes and every other id keeps its count, in order. An id not present changes nothing |
| LikedListings.WithoutListing | app/listings/liked/page.tsx:30 | The unliked listing leaves the page and the others stay, in order |
| LikedListings.StoredAfterUnlike | app/listings/liked/page.tsx:33-41 | A missing or unparsable entry is left as it was; a parsed list loses the id |
| LikedListings.UnlikeThenReload | app/listings/liked/page.tsx:28-43 | Reloading after unliking shows what the page showed right after unliking |
| LikedListings.SwipedShown | app/listings/liked/page.tsx:12-26 | A listing liked on the swipe page is shown on the liked page once it loads |
| LikedListings.LikedPage.constructor | app/listings/liked/page.tsx:10-26 | The page opens on the liked listings of the stored list, or none |
| LikedListings.LikedPage.Unlike | app/listings/liked/page.tsx:28-43 | Unliking updates the shown list and the storage entry as described above |
| ListingCard.DragEnd | components/listings/ListingCard.tsx:33-43 | Above 100 px is a like, below -100 px a pass; anything from -100 to 100 does nothing |
| ListingCard.DragMirrors | components/listings/ListingCard.tsx:33-43 | A drag and its mirror image give opposite gestures |
| ListingCard.CardGesture | components/listings/ListingCard.tsx:56 | Only the top card reports a gesture |
| ListingCard.CountLabel | components/listings/ListingCard.tsx:120-122 | The word is singular exactly when the count is 1 |
| ListingCard.BedLabel | components/listings/ListingCard.tsx:117 | "Studio" exactly for no bedroom, "1 bed" for one, "n beds" otherwise |
| ListingCard.CountLabelInjective | components/listings/ListingCard.tsx:120-122 | Different counts give different labels |
| ListingCard.BedLabelInjective | components/listings/ListingCard.tsx:117 | Different bedroom counts give different labels |
| ListingCard.AmenitiesShown | components/listings/ListingCard.tsx:132 | At most four amenities are shown, the first ones in order, and all of them when there are at most four |
| ListingCard.MoreLabel | components/listings/ListingCard.tsx:140-144 | The "more" label shows exactly when there are more than four amenities |
| ListingCard.AmenitiesAccounted | components/listings/ListingCard.tsx:132-144 | The shown names and the number in "+n more" account for every amenity exactly once |
| ListingCard.CityCode | components/listings/ListingCard.tsx:89 | The code is the city's first two characters (fewer for a shorter name), each lower-case ASCII letter replaced by its capital and every other character kept |
| ListingCard.View | components/listings/ListingCard.tsx:54-158 | The caption is the neighbourhood, ", " and the city code; the labels are the bed label and the bath and guest count labels. Dragging and the action buttons are enabled exactly on the top card. The amenities and "more" label follow the rules above |
| ListingCard.TopCardIsCurrent | app/listings/page.tsx:237-245 | On the swipe page the only card taking input is the current listing, so a swipe acts on exactly that listing |
| Backend.Store.SubmitDemand | app/api/waitlist/demand/route.ts:67-133 | The route's steps leave the store and the answer exactly as `Waitlist.SubmitDemand` says |
| Backend.Store.SaveDemand | app/api/waitlist/demand/route.ts:72-125 | The insert, event and confirmation steps leave the store and the answer exactly as `Waitlist.SaveDemand` says |
| Backend.Store.SaveSupplySubmission | app/api/waitlist/supply/route.ts:149-200 | As `Waitlist.SaveSupplySubmission` |
| Backend.Store.SubmitSupply | app/api/waitlist/supply/route.ts:79-147 | As `Waitlist.SubmitSupply` |
| Backend.Store.SubmitJson | app/api/waitlist/supply/route.ts:97-147 | As `Waitlist.SubmitJson` |
| Backend.Store.SubmitMultipart | app/api/waitlist/supply/route.ts:85-132 | As `Waitlist.SubmitMultipart` |
| Backend.Store.SubmitPainPoint | app/api/pain-points/route.ts:16-58 | As `Waitlist.SubmitPainPoint` |
| Backend.Store.ApproveDemand | app/api/waitlist/demand/approve/route.ts:11-80 | The early-return sequence leaves the store and the answer exactly as `Waitlist.ApproveDemand` |
| Backend.Store.ApproveSupply | app/api/waitlist/supply/approve/route.ts:11-67 | As `Waitlist.ApproveSupply` |
| Backend.Store.UploadPhotos | app/api/upload/route.ts:4-77 | The loop, which stores each file and collects its URL, leaves the store and answer exactly as `Upload.UploadPhotos` |

### Details of the longer rows

**The demand checks** (`DemandIntake.Acceptable`, used by `DemandIntake.ParseDemand`) accept an object exactly when:
- each of the eleven free texts is absent or a string, `name` at most 120 characters before trimming;
- `email` is a string satisfying the address syntax;
- `status` and `housing_search_type` are strings of their closed sets;
- `target_cities` and `concerns` are non-empty arrays of strings, and `roommate_preferences`, if present, an array of strings;
- `move_in_month` and `budget` are non-empty strings;
- `contact_pref` is a non-empty array of "email" or "text";
- `referrer_id`, if present, is a string satisfying the UUID syntax.

The accepted record (`DemandIntake.StoredFrom`) holds each free text trimmed to absent, the other strings and lists as sent, the enum members the strings name, and null for a missing `referrer_id` or `roommate_preferences`.

**A well-formed demand record** (`DemandIntake.ParseDemand`) has:
- canonical free texts;
- a name of at most 120 characters;
- an email that satisfies the address syntax;
- non-empty city, concern and contact lists;
- a non-empty move-in month and budget;
- a UUID referrer, if one is given.

### How the route contracts read

`Waitlist.SubmitDemand` returns:
- **200** exactly when:
  - the body parses;
  - the store is set up;
  - the insert succeeds and the id is new.
  
  The new row is pending under the id, and the other tables are unchanged. The journal gains the `demand_submission` event, then the demand confirmation carrying the cities. A failed event write only leaves the event out.
- **400** exactly on a schema rejection.
- Any other answer leaves the store unchanged.

`Waitlist.ApproveDemand` always leaves the supply and pain-point tables unchanged, and changes nothing unless the gate passed. On success:
- the row is approved at the request time;
- the answer carries `<base>/waitlist/demand?r=<id>` and the message;
- the journal gains the approval mail of that link, then the `demand_approved` event unless its write fails.

`Waitlist.ApproveSupply` always leaves the demand and pain-point tables unchanged, and changes nothing unless the gate passed. On success:
- the row is approved at the request time;
- the answer carries `<base>/waitlist/supply?r=<id>`;
- the journal gains only the approval mail, addressed to the row's name or "there".

## Left out

- The Supabase client, database and storage are the in-memory `Db`. Generated ids, times and random name parts are inputs. Storage's unique-name rejection (`upsert: false`) and a primary-key clash are folded into the upload and insert failure flags.
- Resend is a flag saying whether a key is set, and a sent mail is a journal entry. A confirmation send that throws is not modelled: the routes await it inside their `try`, so it would answer 500 after the row and the event are written. The welcome function's send that throws is an input flag.
- `sendApprovalEmail` is imported from `lib/email.ts`, but that file does not define it. The approval mail is therefore an opaque request holding its arguments, with a flag for the call throwing.
- The check-then-update race of the two approval routes is out of scope. Requests are taken one at a time.
- `logAnalyticsEvent`, the analytics route, the admin list routes (which sort in the database and check no key), and the listings API stubs are left out.
- `console` logging, JSX rendering, animation values and progress percentages are left out. So are `navigator.clipboard`, the router pushes other than the thank-you redirect, and `ListingMap` and `FilterBar` beyond the values they hand to the page.
- zod's email, URL and UUID expressions are parameters. Multipart parsing is library behaviour: a form is a map from keys to strings plus an optional file. On the supply route a body that `formData()` cannot read is its own request kind, answered 500; on the upload route a body that is not a form is `None`, and a form is the sequence of values under `files`, each a file or a text value.
- `encodeURIComponent`, `decodeURIComponent` and `URLSearchParams` are taken as the identity, so a city that needs escaping is not modelled.
- String lengths count characters, not UTF-16 code units.
- `lib/listings-data.ts` is not part of this model. A listing carries the fields the pages read, and bathrooms are counted as whole numbers.
- Dates in the listings filter are a parameter from text to an optional time; an invalid date fails every comparison. Drag offsets are whole pixels.
- `formatPrice`, `formatDate` and `toLocaleString` are display formatting and are left out.
- A stored likes entry that parses to something other than an array of strings is not modelled: the storage entry is missing, unparsable, or a list of ids.
- The exit animation of a swiped card is left out.
- The supply form's handling of a post answered with an error other than the route's `{ error }` object is not modelled; the page shows its stock message.
- JSON numbers are integers; no check reads a fraction.
- The public object URL is the project URL followed by the storage path. Supabase's own URL format is not modelled.
- Text.UpperAscii: upper-cases ASCII letters only. JavaScript's `toUpperCase` also maps other letters (for example "ß" to "SS", which changes the length); Unicode case mapping is not modelled.
- ListingCard.CityCode: the same ASCII-only upper-casing, for the same reason.
- ThankYou.ReferralLinkOf: the page computes the referral link, but only `copyToClipboard` reads it, and nothing calls that; the page never displays the link, and no rendering is modelled.
