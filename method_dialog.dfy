/** The parameter form of the management GUI's method dialog: turning the
    text typed for each declared parameter into the JSON argument list of a
    call, according to the parameter's schema type. */
module MethodDialog {
  import opened Json

  /** A declared parameter: its name and its schema's "type", when it has one. */
  datatype ParamSpec = ParamSpec(name: string, schemaType: Option<string>)

  /** What a parameter's input widget holds: the text of an entry field, or
      the state of the check box a boolean parameter gets. */
  datatype Entry = Text(text: string) | Checked(on: bool)

  /** The error box the dialog shows before giving up on a call. */
  datatype Failure = InvalidJson(param: string) | InvalidInteger(param: string)

  datatype Coerced = Value(v: Json) | Bad(failure: Failure)

  /** What pressing Execute does: show an error and make no call, or call the
      method with the argument list (None when it is empty). */
  datatype Outcome = Aborted(failure: Failure) | Invoked(name: string, params: Option<seq<Json>>)

  predicate IsBoolean(p: ParamSpec) {
    p.schemaType == Some("boolean")
  }

  /** The widget built for `p` holds a check box exactly for boolean parameters. */
  predicate EntryFits(p: ParamSpec, e: Entry) {
    e.Checked? <==> IsBoolean(p)
  }

  /** Every declared parameter has a widget of the kind its type asks for. */
  predicate EntriesFit(ps: seq<ParamSpec>, entries: map<string, Entry>) {
    forall k :: 0 <= k < |ps| ==> ps[k].name in entries && EntryFits(ps[k], entries[ps[k].name])
  }

  // ---------------------------------------------------------------------
  // Integer text: an optional sign followed by one or more decimal digits.
  // ---------------------------------------------------------------------

  predicate IsDigit(c: char) {
    '0' <= c <= '9'
  }

  predicate AllDigits(s: string) {
    forall k :: 0 <= k < |s| ==> IsDigit(s[k])
  }

  function DigitValue(c: char): nat
    requires IsDigit(c)
  {
    c as int - '0' as int
  }

  function DigitChar(d: nat): char
    requires d < 10
  {
    ('0' as int + d) as char
  }

  function DigitsValue(s: string): nat
    requires AllDigits(s)
  {
    if s == [] then 0 else DigitsValue(s[..|s| - 1]) * 10 + DigitValue(s[|s| - 1])
  }

  function Abs(n: int): nat {
    if n < 0 then -n else n
  }

  /** The digits of integer text: what follows an optional leading sign. */
  function Unsigned(s: string): string {
    if s != [] && (s[0] == '-' || s[0] == '+') then s[1..] else s
  }

  /** Digit text without its redundant leading zeros (the last digit stays). */
  function StripZeros(u: string): string {
    if |u| > 1 && u[0] == '0' then StripZeros(u[1..]) else u
  }

  /** Python's `int(text)` for text made of an optional sign and digits: the
      text is accepted exactly when one or more digits follow the sign; the
      digits, leading zeros aside, spell the magnitude, and only a '-' makes
      the value negative. */
  function ParseInt(s: string): (r: Option<int>)
    ensures r.Some? <==> Unsigned(s) != [] && AllDigits(Unsigned(s))
    ensures r.Some? ==> StripZeros(Unsigned(s)) == NatDigits(Abs(r.value))
    ensures r.Some? && r.value < 0 ==> s != [] && s[0] == '-'
    ensures r.Some? && s != [] && s[0] == '-' ==> r.value <= 0
  {
    var u := Unsigned(s);
    if u == [] || !AllDigits(u) then None
    else
      StripZerosValue(u);
      Some(if s[0] == '-' then 0 - DigitsValue(u) as int else DigitsValue(u))
  }

  /** Decimal digits of a natural number, most significant first. */
  function NatDigits(n: nat): (s: string)
    ensures s != [] && AllDigits(s)
  {
    if n < 10 then [DigitChar(n)] else NatDigits(n / 10) + [DigitChar(n % 10)]
  }

  /** The text Python's `str(n)` gives an integer. */
  function IntText(n: int): string {
    if n < 0 then "-" + NatDigits(-n) else NatDigits(n)
  }

  lemma {:induction false} NatDigitsValue(n: nat)
    ensures DigitsValue(NatDigits(n)) == n
  {
    var s := NatDigits(n);
    if n >= 10 {
      NatDigitsValue(n / 10);
      assert s[..|s| - 1] == NatDigits(n / 10);
    }
  }

  /** A leading zero does not change the value of digit text. */
  lemma {:induction false} LeadingZeroValue(u: string)
    requires AllDigits(u)
    ensures DigitsValue(['0'] + u) == DigitsValue(u)
  {
    var w := ['0'] + u;
    if u == [] {
      assert w[..0] == [];
    } else {
      assert w[..|w| - 1] == ['0'] + u[..|u| - 1];
      LeadingZeroValue(u[..|u| - 1]);
    }
  }

  /** Digit text without a leading zero is exactly the decimal text of its
      value. */
  lemma {:induction false} CanonicalDigits(u: string)
    requires u != [] && AllDigits(u) && (|u| == 1 || u[0] != '0')
    ensures NatDigits(DigitsValue(u)) == u
    ensures u[0] != '0' ==> DigitsValue(u) > 0
  {
    var w := u[..|u| - 1];
    if |u| == 1 {
      assert w == [];
    } else {
      CanonicalDigits(w);
      var v, d := DigitsValue(w), DigitValue(u[|u| - 1]);
      assert (v * 10 + d) / 10 == v && (v * 10 + d) % 10 == d;
      assert u == w + [DigitChar(d)];
    }
  }

  /** Digit text, leading zeros removed, is the decimal text of its value. */
  lemma {:induction false} StripZerosValue(u: string)
    requires u != [] && AllDigits(u)
    ensures StripZeros(u) == NatDigits(DigitsValue(u))
  {
    if |u| > 1 && u[0] == '0' {
      StripZerosValue(u[1..]);
      LeadingZeroValue(u[1..]);
      assert ['0'] + u[1..] == u;
    } else {
      CanonicalDigits(u);
    }
  }

  /** Whatever integer the text of `str(n)` spells, ParseInt reads back n. */
  lemma ParseIntText(n: int)
    ensures ParseInt(IntText(n)) == Some(n)
  {
    if n < 0 {
      NatDigitsValue(-n);
      assert IntText(n)[1..] == NatDigits(-n);
    } else {
      NatDigitsValue(n);
    }
  }

  // ---------------------------------------------------------------------
  // Coercion of one parameter and of the whole form.
  // ---------------------------------------------------------------------

  /** One parameter's argument, given its widget's content; `parseJson` is
      `json.loads`, None meaning a decode error. Non-empty text of an array
      parameter is decoded, non-empty text of an integer parameter converted;
      empty text of either is passed on as the empty string. */
  function CoerceOne(p: ParamSpec, e: Entry, parseJson: string -> Option<Json>): (c: Coerced)
    requires EntryFits(p, e)
    ensures c.Bad? ==> e.Text? && e.text != "" && c.failure.param == p.name
    ensures c.Bad? && c.failure.InvalidJson? <==> p.schemaType == Some("array") && e.Text? && e.text != "" && parseJson(e.text).None?
    ensures c.Bad? && c.failure.InvalidInteger? <==> p.schemaType == Some("integer") && e.Text? && e.text != "" && ParseInt(e.text).None?
    ensures e.Checked? ==> c == Value(JBool(e.on))
    ensures p.schemaType == Some("array") && e.Text? && e.text != "" && parseJson(e.text).Some? ==>
      c == Value(parseJson(e.text).value)
    ensures p.schemaType == Some("integer") && e.Text? && e.text != "" && ParseInt(e.text).Some? ==>
      c == Value(JInt(ParseInt(e.text).value))
    ensures e.Text? && (e.text == "" || p.schemaType !in {Some("array"), Some("integer")}) ==> c == Value(JStr(e.text))
  {
    match e
    case Checked(b) => Value(JBool(b))
    case Text(t) =>
      if p.schemaType == Some("array") && t != "" then
        match parseJson(t)
        case None => Bad(InvalidJson(p.name))
        case Some(j) => Value(j)
      else if p.schemaType == Some("integer") && t != "" then
        match ParseInt(t)
        case None => Bad(InvalidInteger(p.name))
        case Some(n) => Value(JInt(n))
      else Value(JStr(t))
  }

  /** Empty text never fails: it becomes the empty string. */
  lemma EmptyTextPassesThrough(p: ParamSpec, parseJson: string -> Option<Json>)
    requires !IsBoolean(p)
    ensures CoerceOne(p, Text(""), parseJson) == Value(JStr(""))
  {
  }

  /** An integer parameter holding the text of an integer yields that integer. */
  lemma IntegerTextCoerces(p: ParamSpec, n: int, parseJson: string -> Option<Json>)
    requires p.schemaType == Some("integer")
    ensures CoerceOne(p, Text(IntText(n)), parseJson) == Value(JInt(n))
  {
    ParseIntText(n);
  }

  /** `MethodDialog.execute`: coerce the parameters in declaration order,
      stopping at the first one that fails; otherwise call `name` with the
      arguments, or with None when there are none. */
  method Execute(name: string, ps: seq<ParamSpec>, entries: map<string, Entry>, parseJson: string -> Option<Json>)
    returns (outcome: Outcome)
    requires EntriesFit(ps, entries)
    ensures outcome.Invoked? <==>
      forall k :: 0 <= k < |ps| ==> CoerceOne(ps[k], entries[ps[k].name], parseJson).Value?
    ensures outcome.Invoked? ==> outcome.name == name && (outcome.params.None? <==> ps == [])
    ensures outcome.Invoked? && outcome.params.Some? ==>
      |outcome.params.value| == |ps| &&
      forall k :: 0 <= k < |ps| ==> CoerceOne(ps[k], entries[ps[k].name], parseJson) == Value(outcome.params.value[k])
    ensures outcome.Aborted? ==>
      exists i :: 0 <= i < |ps| && CoerceOne(ps[i], entries[ps[i].name], parseJson) == Bad(outcome.failure) &&
        forall k :: 0 <= k < i ==> CoerceOne(ps[k], entries[ps[k].name], parseJson).Value?
  {
    var args: seq<Json> := [];
    for i := 0 to |ps|
      invariant |args| == i
      invariant forall k :: 0 <= k < i ==> CoerceOne(ps[k], entries[ps[k].name], parseJson) == Value(args[k])
    {
      var c := CoerceOne(ps[i], entries[ps[i].name], parseJson);
      if c.Bad? {
        return Aborted(c.failure);
      }
      args := args + [c.v];
    }
    outcome := Invoked(name, if args != [] then Some(args) else None);
  }
}
