/**
 * The waitlist confirmation email of `lib/email.ts`: who it goes to and what
 * its HTML says. The Resend client is a flag, `configured`, that says whether
 * an API key was set; the message is the request handed to it.
 */
module Email {
  import opened Wrappers
  import opened Text
  import opened Js

  datatype Kind = Demand | Supply

  /**
   * A message handed to the mail service. `html` lists the markup in order:
   * the wrapper's opening tag, one paragraph per block, the closing tag; the
   * indentation between them is not kept.
   */
  datatype Message = Message(from: string, to: Json, subject: string, html: seq<string>)

  // The longer texts are written as concatenations of short literals.
  const Sender: string := "Cove Team <hello@cove.house>"
  const Subject: string :=
    "You\U{2019}re on the Cove " + "early-access list!"
  const Greeting: string := "<p>Hey there,</p>"
  const SignOff: string :=
    "<p>Talk soon,<br/>The Cove " + "Team</p>"
  const Close: string := "</div>"
  const Wrapper: string :=
    "<div style=\"font-family: " + "'Encode Sans', Inter, " + "system-ui, -apple-system, " +
    "BlinkMacSystemFont, " + "sans-serif; " + "line-height:1.5;\">"

  const DemandIntro: string :=
    "We\U{2019}re gathering " + "verified rooms and pre-vetted " + "roommates so you can move " +
    "with confidence."
  const SupplyIntro: string :=
    "Thanks for offering your " + "space to the Cove " + "community\U{2014}we\U{2019}ll " +
    "reach out when we have " + "qualified matches."
  const SupplyReview: string :=
    "<p>Your submission is in " + "review. We'll confirm once we " + "verify your listing " +
    "details.</p>"

  /**
   * The cities named in the email: joined with ", " — the first city, then
   * ", " and the others — or a stock phrase when there are none.
   */
  function CityList(cities: seq<string>): (r: string)
    ensures cities == [] ==> r == "your target cities"
    ensures |cities| == 1 ==> r == cities[0]
    ensures |cities| >= 2 ==> r == cities[0] + ", " + CityList(cities[1..])
    ensures forall i :: 0 <= i < |cities| ==> IsInfix(cities[i], r)
    decreases |cities|
  {
    if |cities| == 0 then "your target cities"
    else
      assert forall i :: 0 <= i < |cities| ==> IsInfix(cities[i], Join(cities, ", ")) by {
        forall i | 0 <= i < |cities| ensures IsInfix(cities[i], Join(cities, ", ")) {
          JoinContains(cities, ", ", i);
        }
      }
      Join(cities, ", ")
  }

  const CityLead: string :=
    "<p>We noted that you're " + "focused on <strong>"
  const CityTail: string :=
    "</strong>. We\U{2019}ll keep " + "you posted as soon as " + "verified options open up.</p>"
  const InviteLead: string :=
    "<p style=\"margin:16px " + "0;\">Share your invite link " + "to boost priority:<br/><a " +
    "href=\""

  /** The paragraph that names the cities of a demand sign-up. */
  function CityParagraph(cities: seq<string>): string {
    CityLead + CityList(cities) + CityTail
  }

  /** The invite-link paragraph; the link appears twice, as target and as text. */
  function ReferralParagraph(link: string): string {
    InviteLead + link + "\">" + link + "</a></p>"
  }

  /** `referralLink ? ... : ""`: an absent or empty link adds no paragraph. */
  function ReferralCopy(link: Option<string>): (r: seq<string>)
    ensures |r| <= 1
    ensures r != [] <==> link.Some? && link.value != ""
  {
    if link.Some? && link.value != "" then [ReferralParagraph(link.value)] else []
  }

  /** The markup around the blocks of a message: wrapper, greeting, blocks, sign-off. */
  function Frame(wrapper: string, blocks: seq<string>): (r: seq<string>)
    ensures |r| == |blocks| + 4
    ensures r[0] == wrapper && r[1] == Greeting && r[|r| - 2] == SignOff && r[|r| - 1] == Close
    ensures r[2..|r| - 2] == blocks
  {
    [wrapper, Greeting] + blocks + [SignOff, Close]
  }

  /** The paragraphs between greeting and sign-off: intro, the kind's detail, the invite link if any. */
  function Blocks(kind: Kind, cities: seq<string>, referralLink: Option<string>): (r: seq<string>)
    ensures |r| == 2 + |ReferralCopy(referralLink)| && r[2..] == ReferralCopy(referralLink)
    ensures r[0] == "<p>" + (if kind == Demand then DemandIntro else SupplyIntro) + "</p>"
    ensures r[1] == (if kind == Demand then CityParagraph(cities) else SupplyReview)
  {
    var intro := if kind == Demand then DemandIntro else SupplyIntro;
    var detail := if kind == Demand then CityParagraph(cities) else SupplyReview;
    ["<p>" + intro + "</p>", detail] + ReferralCopy(referralLink)
  }

  /**
   * `sendWaitlistConfirmationEmail`: nothing is sent without an API key;
   * otherwise one message to `to`. An absent `cities` is the empty list.
   */
  function Confirmation(configured: bool, kind: Kind, to: string, cities: seq<string>,
                        referralLink: Option<string>): (r: Option<Message>)
    ensures r.None? <==> !configured
    ensures r.Some? ==> r.value.from == Sender && r.value.to == JStr(to) && r.value.subject == Subject
    ensures r.Some? ==> r.value.html == Frame(Wrapper, Blocks(kind, cities, referralLink))
  {
    if !configured then None
    else Some(Message(Sender, JStr(to), Subject, Frame(Wrapper, Blocks(kind, cities, referralLink))))
  }

  /** A demand email names every city it was given. */
  lemma DemandNamesEveryCity(to: string, cities: seq<string>, link: Option<string>, i: nat)
    requires i < |cities|
    ensures var m := Confirmation(true, Demand, to, cities, link).value;
            |m.html| >= 4 && IsInfix(cities[i], m.html[3])
  {
    InfixOfMiddle(cities[i], CityLead, CityList(cities), CityTail);
    ConfirmationParagraphs(Demand, to, cities, link);
  }

  /** The first two paragraphs: the intro and the detail of the kind of sign-up. */
  lemma ConfirmationParagraphs(kind: Kind, to: string, cities: seq<string>, link: Option<string>)
    ensures var m := Confirmation(true, kind, to, cities, link).value;
            && |m.html| >= 6
            && m.html[2] == "<p>" + (if kind == Demand then DemandIntro else SupplyIntro) + "</p>"
            && m.html[3] == (if kind == Demand then CityParagraph(cities) else SupplyReview)
  {
    var blocks := Blocks(kind, cities, link);
    var html := Frame(Wrapper, blocks);
    assert html[2] == blocks[0] && html[3] == blocks[1];
  }

  /** A supply email says the same whatever cities were passed. */
  lemma SupplyIgnoresCities(to: string, c1: seq<string>, c2: seq<string>, link: Option<string>)
    ensures Confirmation(true, Supply, to, c1, link) == Confirmation(true, Supply, to, c2, link)
  {
  }

  /** The invite paragraph is present exactly when a non-empty link was given, just before the sign-off. */
  lemma ReferralPresence(kind: Kind, to: string, cities: seq<string>, link: Option<string>)
    ensures var m := Confirmation(true, kind, to, cities, link).value;
            && (link.Some? && link.value != "" ==> |m.html| == 7 && m.html[4] == ReferralParagraph(link.value))
            && (link.None? || link.value == "" ==> |m.html| == 6)
  {
    FramedReferral(Wrapper, Blocks(kind, cities, link), link);
  }

  /** Framing two paragraphs and the invite copy puts the invite paragraph fifth. */
  lemma FramedReferral(wrapper: string, blocks: seq<string>, link: Option<string>)
    requires |blocks| == 2 + |ReferralCopy(link)| && blocks[2..] == ReferralCopy(link)
    ensures link.Some? && link.value != "" ==>
              |Frame(wrapper, blocks)| == 7 && Frame(wrapper, blocks)[4] == ReferralParagraph(link.value)
    ensures link.None? || link.value == "" ==> |Frame(wrapper, blocks)| == 6
  {
    var html := Frame(wrapper, blocks);
    if link.Some? && link.value != "" {
      assert blocks[2] == blocks[2..][0];
      assert html[4] == html[2..|html| - 2][2];
    }
  }
}
