/**
 * The zod field checks the intake schemas are built from, over a JSON object.
 * A check either yields the field's value or marks the field invalid.
 */
module Fields {
  import opened Wrappers
  import opened Text
  import opened Js

  /**
   * The address, URL and UUID syntax checks of zod (`.email()`, `.url()`,
   * `.uuid()`, the last being the textual form of section 3 of RFC 4122).
   * They are library behaviour, so the model takes them as parameters.
   */
  datatype Syntax = Syntax(isEmail: string -> bool, isUrl: string -> bool, isUuid: string -> bool)

  datatype Field<+T> = Valid(value: T) | Invalid

  /** The contact channels every contact-preference list draws from. */
  datatype Contact = ByEmail | ByText

  function ContactOf(s: string): Option<Contact> {
    if s == "email" then Some(ByEmail) else if s == "text" then Some(ByText) else None
  }

  /** An optional text after normalisation: absent, or non-empty with no white space at either end. */
  predicate Canonical(o: Option<string>) {
    o.None? || (o.value != "" && Trimmed(o.value))
  }

  /** What an optional free-text check accepts: the key is absent, or a string within the limit. */
  predicate TextOk(o: Obj, key: string, maxLen: Option<nat>) {
    key !in o || (o[key].JStr? && (maxLen.None? || |o[key].s| <= maxLen.value))
  }

  /** The stored form of an optional free-text key: its trimmed-to-absent string, or absent. */
  function Kept(o: Obj, key: string): Option<string> {
    if key in o && o[key].JStr? then TrimToAbsent(o[key].s) else None
  }

  /**
   * `z.string()[.max(n)].optional().transform(v => v?.trim() ? v.trim() : undefined)`:
   * an absent key is fine; a present value must be a string, whose length limit
   * is checked before trimming.
   */
  function OptionalText(o: Obj, key: string, maxLen: Option<nat>): (r: Field<Option<string>>)
    ensures r.Valid? <==> key !in o || (o[key].JStr? && (maxLen.None? || |o[key].s| <= maxLen.value))
    ensures r.Valid? && key !in o ==> r.value == None
    ensures r.Valid? && key in o ==> r.value == TrimToAbsent(o[key].s)
    ensures r.Valid? ==> Canonical(r.value)
    ensures r.Valid? && r.value.Some? && maxLen.Some? ==> |r.value.value| <= maxLen.value
    ensures r.Valid? <==> TextOk(o, key, maxLen)
    ensures r.Valid? ==> r.value == Kept(o, key)
  {
    if key !in o then Valid(None)
    else match o[key]
      case JStr(s) => if maxLen.Some? && |s| > maxLen.value then Invalid else Valid(TrimToAbsent(s))
      case _ => Invalid
  }

  /** `z.string().min(n)`: the key is required. */
  function RequiredText(o: Obj, key: string, min: nat): (r: Field<string>)
    ensures r.Valid? <==> key in o && o[key].JStr? && |o[key].s| >= min
    ensures r.Valid? ==> r.value == o[key].s && |r.value| >= min
  {
    if key in o && o[key].JStr? && |o[key].s| >= min then Valid(o[key].s) else Invalid
  }

  /** The strings of a JSON array, if every element is one. */
  function AllStrings(items: seq<Json>): (r: Option<seq<string>>)
    ensures r.Some? <==> forall i :: 0 <= i < |items| ==> items[i].JStr?
    ensures r.Some? ==> |r.value| == |items| && forall i :: 0 <= i < |items| ==> r.value[i] == items[i].s
  {
    if items == [] then Some([])
    else if !items[0].JStr? then None
    else match AllStrings(items[1..])
      case None => None
      case Some(rest) => Some([items[0].s] + rest)
  }

  /** A JSON array whose every element is a string. */
  predicate StringArray(j: Json) {
    j.JArr? && forall i :: 0 <= i < |j.items| ==> j.items[i].JStr?
  }

  /** `xs` lists, in order, the strings of the JSON array `j`. */
  predicate StringsOf(xs: seq<string>, j: Json)
    requires j.JArr?
  {
    |xs| == |j.items| && forall i :: 0 <= i < |xs| ==> j.items[i].JStr? && xs[i] == j.items[i].s
  }

  /** `es` is, element by element, what `parse` makes of the strings of the JSON array `j`. */
  ghost predicate ChoicesOf<E>(es: seq<E>, j: Json, parse: string -> Option<E>) {
    && j.JArr? && |es| == |j.items|
    && forall i :: 0 <= i < |es| ==> j.items[i].JStr? && parse(j.items[i].s) == Some(es[i])
  }

  /** A JSON array whose every element is a string `parse` accepts. */
  predicate ChoiceArray<E>(j: Json, parse: string -> Option<E>) {
    j.JArr? && forall i :: 0 <= i < |j.items| ==> j.items[i].JStr? && parse(j.items[i].s).Some?
  }

  /** `z.array(z.string()).min(n)`. */
  function Texts(o: Obj, key: string, min: nat): (r: Field<seq<string>>)
    ensures r.Valid? <==> key in o && StringArray(o[key]) && |o[key].items| >= min
    ensures r.Valid? ==> StringsOf(r.value, o[key]) && |r.value| >= min
  {
    if key in o && o[key].JArr? then
      match AllStrings(o[key].items)
      case Some(xs) => if |xs| >= min then Valid(xs) else Invalid
      case None => Invalid
    else Invalid
  }

  /** `z.array(z.string()).optional()`. */
  function OptionalTexts(o: Obj, key: string): (r: Field<Option<seq<string>>>)
    ensures key !in o ==> r == Valid(None)
    ensures key in o ==> (r.Valid? <==> StringArray(o[key]))
    ensures key in o && r.Valid? ==> r.value.Some? && StringsOf(r.value.value, o[key])
  {
    if key !in o then Valid(None)
    else if o[key].JArr? then
      match AllStrings(o[key].items)
      case Some(xs) => Valid(Some(xs))
      case None => Invalid
    else Invalid
  }

  /** `z.enum([...])`: the value must be one of the strings `parse` accepts. */
  function Choice<E>(o: Obj, key: string, parse: string -> Option<E>): (r: Field<E>)
    ensures r.Valid? <==> key in o && o[key].JStr? && parse(o[key].s).Some?
    ensures r.Valid? ==> Some(r.value) == parse(o[key].s)
  {
    if key in o && o[key].JStr? then
      match parse(o[key].s)
      case Some(e) => Valid(e)
      case None => Invalid
    else Invalid
  }

  /** `z.enum([...]).optional()`. */
  function OptionalChoice<E>(o: Obj, key: string, parse: string -> Option<E>): (r: Field<Option<E>>)
    ensures key !in o ==> r == Valid(None)
    ensures key in o ==> (r.Valid? <==> o[key].JStr? && parse(o[key].s).Some?)
    ensures key in o && r.Valid? ==> r.value == parse(o[key].s)
  {
    if key !in o then Valid(None)
    else match Choice(o, key, parse)
      case Valid(e) => Valid(Some(e))
      case Invalid => Invalid
  }

  /** Every element parsed, or `None` as soon as one is outside the closed set. */
  function ParseEach<E>(items: seq<Json>, parse: string -> Option<E>): (r: Option<seq<E>>)
    ensures r.Some? <==> forall i :: 0 <= i < |items| ==> items[i].JStr? && parse(items[i].s).Some?
    ensures r.Some? ==> |r.value| == |items|
    ensures r.Some? ==> forall i :: 0 <= i < |items| ==> Some(r.value[i]) == parse(items[i].s)
  {
    if items == [] then Some([])
    else if !items[0].JStr? || parse(items[0].s).None? then None
    else match ParseEach(items[1..], parse)
      case None => None
      case Some(rest) => Some([parse(items[0].s).value] + rest)
  }

  /** `z.array(z.enum([...])).min(n)`. */
  function Choices<E>(o: Obj, key: string, parse: string -> Option<E>, min: nat): (r: Field<seq<E>>)
    ensures r.Valid? <==> key in o && o[key].JArr? && |o[key].items| >= min
                          && forall i :: 0 <= i < |o[key].items| ==> o[key].items[i].JStr? && parse(o[key].items[i].s).Some?
    ensures r.Valid? ==> |r.value| == |o[key].items| >= min
    ensures r.Valid? ==> forall i :: 0 <= i < |r.value| ==> Some(r.value[i]) == parse(o[key].items[i].s)
    ensures r.Valid? <==> key in o && ChoiceArray(o[key], parse) && |o[key].items| >= min
    ensures r.Valid? ==> ChoicesOf(r.value, o[key], parse)
  {
    if key in o && o[key].JArr? then
      match ParseEach(o[key].items, parse)
      case Some(es) => if |es| >= min then Valid(es) else Invalid
      case None => Invalid
    else Invalid
  }

  /** A list of strings sent as a JSON array passes `z.array(z.string()).min(n)` when long enough. */
  lemma TextsOfStrings(o: Obj, key: string, xs: seq<string>, min: nat)
    requires key in o && o[key] == Strings(xs) && |xs| >= min
    ensures Texts(o, key, min) == Valid(xs)
  {
    assert AllStrings(o[key].items).value == xs;
  }

  /** A list of strings each naming a member of the enum passes `z.array(z.enum(...)).min(n)` when long enough. */
  lemma ChoicesOfStrings<E>(o: Obj, key: string, parse: string -> Option<E>, xs: seq<string>, min: nat)
    requires key in o && o[key] == Strings(xs) && |xs| >= min
    requires forall i :: 0 <= i < |xs| ==> parse(xs[i]).Some?
    ensures Choices(o, key, parse, min).Valid?
  {
  }

  /** `z.string().email()`. */
  function Email(syn: Syntax, o: Obj, key: string): (r: Field<string>)
    ensures r.Valid? <==> key in o && o[key].JStr? && syn.isEmail(o[key].s)
    ensures r.Valid? ==> r.value == o[key].s && syn.isEmail(r.value)
  {
    if key in o && o[key].JStr? && syn.isEmail(o[key].s) then Valid(o[key].s) else Invalid
  }

  /** `z.string().uuid()`. */
  function Uuid(syn: Syntax, o: Obj, key: string): (r: Field<string>)
    ensures r.Valid? <==> key in o && o[key].JStr? && syn.isUuid(o[key].s)
    ensures r.Valid? ==> r.value == o[key].s && syn.isUuid(r.value)
  {
    if key in o && o[key].JStr? && syn.isUuid(o[key].s) then Valid(o[key].s) else Invalid
  }

  /** `z.string().uuid().optional()`. */
  function OptionalUuid(syn: Syntax, o: Obj, key: string): (r: Field<Option<string>>)
    ensures key !in o ==> r == Valid(None)
    ensures key in o ==> (r.Valid? <==> o[key].JStr? && syn.isUuid(o[key].s))
    ensures key in o && r.Valid? ==> r.value == Some(o[key].s)
    ensures r.Valid? && r.value.Some? ==> syn.isUuid(r.value.value)
  {
    if key !in o then Valid(None)
    else if o[key].JStr? && syn.isUuid(o[key].s) then Valid(Some(o[key].s))
    else Invalid
  }

  /** `z.boolean()`. */
  function Flag(o: Obj, key: string): (r: Field<bool>)
    ensures r.Valid? <==> key in o && o[key].JBool?
    ensures r.Valid? ==> r.value == o[key].b
  {
    if key in o && o[key].JBool? then Valid(o[key].b) else Invalid
  }

  /** The keys whose check failed, in schema order. */
  function Failing(checks: seq<(string, bool)>): (r: seq<string>)
    ensures r == [] <==> forall i :: 0 <= i < |checks| ==> checks[i].1
    ensures forall i :: 0 <= i < |checks| && !checks[i].1 ==> checks[i].0 in r
    ensures forall k :: k in r ==> exists i :: 0 <= i < |checks| && checks[i] == (k, false)
  {
    if checks == [] then []
    else
      var rest := Failing(checks[1..]);
      assert forall k :: k in rest ==> exists i :: 0 <= i < |checks| && checks[i] == (k, false) by {
        forall k | k in rest ensures exists i :: 0 <= i < |checks| && checks[i] == (k, false) {
          var j :| 0 <= j < |checks[1..]| && checks[1..][j] == (k, false);
          assert checks[j + 1] == (k, false);
        }
      }
      if checks[0].1 then rest else [checks[0].0] + rest
  }
}
