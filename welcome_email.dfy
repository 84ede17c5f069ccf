/**
 * The standalone `sendWelcomeEmail` function: a POST whose JSON body names an
 * address, a sign-up type and a list of cities becomes one welcome message.
 */
module WelcomeEmail {
  import opened Wrappers
  import opened Text
  import opened Js
  import opened Http
  import opened Email

  datatype Request = Request(verb: string, body: Body)

  const WelcomeWrapper: string :=
    "<div style=\"font-family: " + "'Encode Sans', Inter, " + "sans-serif; " + "line-height:1.5;\">"
  const FlagLead: string := "We flagged your interest in "
  const FlagTail: string :=
    ". We\U{2019}ll nudge you once " + "verified rooms are open."
  const ReviewIntro: string :=
    "We\U{2019}re reviewing your " + "listing details now. Expect a " +
    "note as soon as we have a " + "match."

  /** The members `{ email, type = "demand", cities = [] }` read; a default applies only to an absent key. */
  datatype Fields = Fields(email: Option<Json>, kind: Json, cities: Json)

  /** Destructuring the parsed body: `null` throws; a non-object has none of the keys. */
  function Destructure(j: Json): (r: Option<Fields>)
    ensures r.None? <==> j.JNull?
  {
    match j
    case JNull => None
    case JObj(f) => Some(Fields(
      if "email" in f then Some(f["email"]) else None,
      if "type" in f then f["type"] else JStr("demand"),
      if "cities" in f then f["cities"] else JArr([])))
    case _ => Some(Fields(None, JStr("demand"), JArr([])))
  }

  /** How `join` writes each element of an array: `null` as "", anything else as `String(x)`. */
  function Elements(items: seq<Json>): (r: seq<string>)
    ensures |r| == |items| && forall i :: 0 <= i < |items| ==> r[i] == Element(items[i])
  {
    seq(|items|, i requires 0 <= i < |items| => Element(items[i]))
  }

  /**
   * `Array.isArray(cities) && cities.length ? cities.join(", ") : "your city list"`:
   * a non-empty array is joined exactly as the confirmation mail joins its
   * cities, first element, then ", " and the rest.
   */
  function WelcomeCityList(cities: Json): (r: string)
    ensures !cities.JArr? || cities.items == [] ==> r == "your city list"
    ensures cities.JArr? && cities.items != [] ==> r == CityList(Elements(cities.items))
  {
    if cities.JArr? && |cities.items| > 0 then
      Join(seq(|cities.items|, i requires 0 <= i < |cities.items| => Element(cities.items[i])), ", ")
    else "your city list"
  }

  /** An array of city names reads exactly as the confirmation mail's list of the same cities. */
  lemma WelcomeCityListOfStrings(xs: seq<string>)
    requires xs != []
    ensures WelcomeCityList(Strings(xs)) == CityList(xs)
  {
    var items := Strings(xs).items;
    assert Elements(items) == xs by {
      forall i | 0 <= i < |xs| ensures Elements(items)[i] == xs[i] {
        assert items[i] == JStr(xs[i]);
        assert Element(items[i]) == Render(items[i]) == xs[i];
      }
    }
  }

  /** Only the exact string "supply" selects the supply wording. */
  function Intro(kind: Json, cities: Json): string {
    if kind == JStr("supply") then ReviewIntro
    else FlagLead + WelcomeCityList(cities) + FlagTail
  }

  /** The body of the welcome message for the destructured members. */
  function WelcomeHtml(f: Fields): seq<string> {
    Frame(WelcomeWrapper, ["<p>" + Intro(f.kind, f.cities) + "</p>"])
  }

  /**
   * The handler: the API key is checked before the method, the method before
   * the body; `(response, message sent)`. `sendThrows` says whether the call
   * to the mail service throws, which the handler answers 500.
   */
  function Welcome(configured: bool, req: Request, sendThrows: bool): (r: (Response, Option<Message>))
    ensures r.1.Some? <==> r.0.status == 200
    ensures r.0.status == 200 <==>
              && configured && req.verb == "POST" && req.body.Parsed?
              && req.body.value.JObj? && TruthyAt(req.body.value.fields, "email") && !sendThrows
    ensures r.1.Some? ==>
              var f := Destructure(req.body.value).value;
              && r.1.value.to == req.body.value.fields["email"] && r.1.value.subject == Subject
              && r.1.value.from == Sender && r.1.value.html == WelcomeHtml(f)
    ensures !configured ==> r.0 == ServerError("RESEND_API_KEY is not configured.")
    ensures r == (BadRequest(Failed("Email is required")), None) <==>
              && configured && req.verb == "POST" && req.body.Parsed? && !req.body.value.JNull?
              && !(req.body.value.JObj? && TruthyAt(req.body.value.fields, "email"))
    ensures configured && req.verb == "POST" && (req.body.Unparsable? || req.body.value.JNull?) ==>
              r == (ServerError("Unexpected error"), None)
    ensures configured && req.verb == "POST" && req.body.Parsed? && req.body.value.JObj?
            && TruthyAt(req.body.value.fields, "email") && sendThrows ==>
              r == (ServerError("Unexpected error"), None)
  {
    if !configured then (ServerError("RESEND_API_KEY is not configured."), None)
    else if req.verb != "POST" then (Response(405, Failed("Method not allowed")), None)
    else if req.body.Unparsable? then (ServerError("Unexpected error"), None)
    else match Destructure(req.body.value)
      case None => (ServerError("Unexpected error"), None)
      case Some(f) =>
        if f.email.None? || !Truthy(f.email.value) then (BadRequest(Failed("Email is required")), None)
        else if sendThrows then (ServerError("Unexpected error"), None)
        else
          var m := Message(Sender, f.email.value, Subject, WelcomeHtml(f));
          (Ok(Sent), Some(m))
  }

  /**
   * The welcome text follows `type` and `cities`: "supply" gets the review
   * wording, anything else — an absent `type` included — the wording that
   * names the cities.
   */
  lemma WelcomeWording(f: Obj, sendThrows: bool)
    requires TruthyAt(f, "email") && !sendThrows
    ensures var r := Welcome(true, Request("POST", Parsed(JObj(f))), sendThrows);
            var cities := if "cities" in f then f["cities"] else JArr([]);
            && r.1.Some?
            && ("type" in f && f["type"] == JStr("supply") ==> r.1.value.html == Frame(WelcomeWrapper, ["<p>" + ReviewIntro + "</p>"]))
            && (!("type" in f && f["type"] == JStr("supply")) ==>
                  r.1.value.html == Frame(WelcomeWrapper, ["<p>" + (FlagLead + WelcomeCityList(cities) + FlagTail) + "</p>"]))
  {
    var d := Destructure(JObj(f)).value;
    DestructureObject(f);
    HtmlWording(d);
  }

  /** The members read from an object: `type` defaults to "demand", `cities` to []. */
  lemma DestructureObject(f: Obj)
    ensures var d := Destructure(JObj(f)).value;
            && d.cities == (if "cities" in f then f["cities"] else JArr([]))
            && (d.kind == JStr("supply") <==> "type" in f && f["type"] == JStr("supply"))
  {
    assert "demand"[0] != "supply"[0];
  }

  /** The message body for each kind of intro. */
  lemma HtmlWording(d: Fields)
    ensures d.kind == JStr("supply") ==> WelcomeHtml(d) == Frame(WelcomeWrapper, ["<p>" + ReviewIntro + "</p>"])
    ensures d.kind != JStr("supply") ==>
              WelcomeHtml(d) == Frame(WelcomeWrapper, ["<p>" + (FlagLead + WelcomeCityList(d.cities) + FlagTail) + "</p>"])
  {
  }

  /** An absent `type` reads as "demand". */
  lemma AbsentTypeIsDemand(configured: bool, verb: string, f: Obj, sendThrows: bool)
    requires "type" !in f
    ensures Welcome(configured, Request(verb, Parsed(JObj(f))), sendThrows)
         == Welcome(configured, Request(verb, Parsed(JObj(f["type" := JStr("demand")]))), sendThrows)
  {
    var g := f["type" := JStr("demand")];
    assert ("email" in g) == ("email" in f);
    assert "email" in f ==> g["email"] == f["email"];
    assert ("cities" in g) == ("cities" in f);
    assert "cities" in f ==> g["cities"] == f["cities"];
  }

  /** A method other than POST is refused with 405 once the key is configured, whatever the body. */
  lemma OtherMethodRefused(verb: string, b1: Body, b2: Body, t1: bool, t2: bool)
    requires verb != "POST"
    ensures Welcome(true, Request(verb, b1), t1).0 == Response(405, Failed("Method not allowed"))
    ensures Welcome(true, Request(verb, b1), t1) == Welcome(true, Request(verb, b2), t2)
  {
  }

  /** Anything but "supply" as `type` — "Supply", `null`, a number — gets the city wording, naming each string city. */
  lemma CityWordingNamesCities(kind: Json, items: seq<Json>, i: nat)
    requires kind != JStr("supply")
    requires i < |items| && items[i].JStr?
    ensures IsInfix(items[i].s, Intro(kind, JArr(items)))
  {
    var rendered := seq(|items|, k requires 0 <= k < |items| => Element(items[k]));
    JoinContains(rendered, ", ", i);
    assert rendered[i] == Element(items[i]) == Render(items[i]) == items[i].s;
    InfixOfMiddle(items[i].s, FlagLead, Join(rendered, ", "), FlagTail);
  }
}
