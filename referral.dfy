/** The referral links the approval routes hand out and the thank-you page shows. */
module Referral {
  import opened Wrappers
  import opened Email

  /** `${process.env.NEXT_PUBLIC_BASE_URL}`: an unset variable prints as "undefined". */
  function BaseText(base: Option<string>): string {
    if base.Some? then base.value else "undefined"
  }

  function KindPath(kind: Kind): string {
    if kind == Demand then "/waitlist/demand?r=" else "/waitlist/supply?r="
  }

  /** `${base}/waitlist/${kind}?r=${id}`. */
  function ReferralLink(base: Option<string>, kind: Kind, id: string): (r: string)
    ensures |r| == |BaseText(base)| + |KindPath(kind)| + |id|
    ensures r[..|BaseText(base)|] == BaseText(base)
    ensures r[|BaseText(base)|..|r| - |id|] == KindPath(kind)
    ensures r[|r| - |id|..] == id
  {
    BaseText(base) + KindPath(kind) + id
  }

  /** Different ids under the same base and kind give different links. */
  lemma LinkDeterminesId(base: Option<string>, kind: Kind, id1: string, id2: string)
    requires ReferralLink(base, kind, id1) == ReferralLink(base, kind, id2)
    ensures id1 == id2
  {
    var p := BaseText(base) + KindPath(kind);
    assert ReferralLink(base, kind, id1)[|p|..] == id1;
    assert ReferralLink(base, kind, id2)[|p|..] == id2;
  }

  /** Under one base, a demand link and a supply link never coincide. */
  lemma KindsDiffer(base: Option<string>, id1: string, id2: string)
    ensures ReferralLink(base, Demand, id1) != ReferralLink(base, Supply, id2)
  {
    var b := BaseText(base);
    var d := ReferralLink(base, Demand, id1);
    var s := ReferralLink(base, Supply, id2);
    assert d[|b| + 10] == 'd';
    assert s[|b| + 10] == 's';
  }
}
