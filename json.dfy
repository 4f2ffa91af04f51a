/** Parsed JSON documents. Text is never parsed here: a document arrives as a tree, and
    where a program parses text the parser is a parameter. */
module JsonTree {
  import opened Wrappers

  /** A JSON value. Integral numbers are `JInt`; other numbers keep the text the parser
      renders them with (`JDec`). Object members keep their order and any duplicates. */
  datatype Json =
    | JNull
    | JBool(b: bool)
    | JInt(i: int)
    | JDec(r: real, text: string)
    | JStr(s: string)
    | JArr(items: seq<Json>)
    | JObj(fields: seq<(string, Json)>)

  /** The member named `key`; with duplicate names the last one wins, as in Jackson,
      System.Text.Json and `JSON.parse`. */
  function Lookup(fields: seq<(string, Json)>, key: string): (r: Option<Json>)
    ensures r.None? <==> forall k :: 0 <= k < |fields| ==> fields[k].0 != key
    ensures r.Some? ==> exists k :: 0 <= k < |fields| && fields[k] == (key, r.value)
                          && forall j :: k < j < |fields| ==> fields[j].0 != key
  {
    if |fields| == 0 then None
    else if fields[|fields| - 1].0 == key then Some(fields[|fields| - 1].1)
    else
      var r := Lookup(fields[..|fields| - 1], key);
      assert forall k :: 0 <= k < |fields| - 1 ==> fields[..|fields| - 1][k] == fields[k];
      r
  }

  /** The member named `key` of an object; `None` for an object without it and for any value
      that is not an object. This one reading serves Jackson's `get(key)` (Java `null`), the
      C# `JsonElement.GetProperty` (which throws) and a JavaScript property read `x.key`
      (`undefined`). */
  function Member(j: Json, key: string): (r: Option<Json>)
    ensures r.Some? <==> j.JObj? && Lookup(j.fields, key).Some?
    ensures r.Some? ==> r == Lookup(j.fields, key)
  {
    if j.JObj? then Lookup(j.fields, key) else None
  }

  /** A parser of JSON text: the tree, or `None` when the text is not JSON. */
  type Parser = string -> Option<Json>
}

/** The parts of Jackson's tree model the Java stream processors use. */
module Jackson {
  import opened Wrappers
  import opened Text
  import opened Decimals
  import opened JsonTree

  /** A node as `path` returns it: Jackson's missing node, or a present value. */
  datatype Node = Missing | Present(json: Json)

  /** `ObjectMapper.readTree` on text: blank text has no content and reads as the missing node;
      otherwise the parser's tree, or `None` when it throws. */
  function ReadTree(parse: Parser, s: string): (r: Option<Node>)
    ensures JavaTrim(s) == "" ==> r == Some(Missing)
    ensures JavaTrim(s) != "" ==> (r.None? <==> parse(s).None?)
    ensures JavaTrim(s) != "" && r.Some? ==> r.value == Present(parse(s).value)
  {
    if JavaTrim(s) == "" then Some(Missing)
    else match parse(s)
      case None => None
      case Some(j) => Some(Present(j))
  }

  /** `path(key)`: an object's member, else the missing node. */
  function Path(n: Node, key: string): (r: Node)
    ensures r.Present? ==> n.Present? && n.json.JObj? && Lookup(n.json.fields, key) == Some(r.json)
    ensures n.Present? && n.json.JObj? && Lookup(n.json.fields, key).Some? ==> r.Present?
  {
    if n.Present? && n.json.JObj? then
      match Lookup(n.json.fields, key)
      case Some(v) => Present(v)
      case None => Missing
    else Missing
  }

  /** `String.trim()`: strips every character up to U+0020 at both ends. */
  function JavaTrim(s: string): (r: string)
    ensures |r| <= |s|
    ensures r == [] || (r[0] > ' ' && r[|r| - 1] > ' ')
  {
    JavaTrimEnd(JavaTrimStart(s))
  }

  function JavaTrimStart(s: string): (r: string)
    ensures |r| <= |s| && r == s[|s| - |r|..]
    ensures r == [] || r[0] > ' '
  {
    if |s| > 0 && s[0] <= ' ' then JavaTrimStart(s[1..]) else s
  }

  function JavaTrimEnd(s: string): (r: string)
    ensures |r| <= |s| && r == s[..|r|]
    ensures r == [] || r[|r| - 1] > ' '
    ensures |s| > 0 && s[0] > ' ' ==> |r| > 0
  {
    if |s| > 0 && s[|s| - 1] <= ' ' then JavaTrimEnd(s[..|s| - 1]) else s
  }

  /** `asText()`: a string's text, a boolean or number rendered, "null" for null, and ""
      for containers and the missing node. */
  function AsText(n: Node): (s: string)
    ensures n.Present? && n.json.JStr? ==> s == n.json.s
    ensures n.Missing? || (n.Present? && (n.json.JArr? || n.json.JObj?)) ==> s == ""
    ensures n.Present? && n.json.JNull? ==> s == "null"
  {
    match n
    case Missing => ""
    case Present(j) =>
      match j
      case JNull => "null"
      case JBool(b) => if b then "true" else "false"
      case JInt(i) => IntToString(i)
      case JDec(_, text) => text
      case JStr(s) => s
      case JArr(_) => ""
      case JObj(_) => ""
  }

  /** `asText(default)`: the default (possibly Java `null`, i.e. `None`) for the missing node
      and JSON null, otherwise `asText()` — which is "" for containers, never the default. */
  function AsTextOr(n: Node, default: Option<string>): (r: Option<string>)
    ensures n.Missing? || n.json.JNull? ==> r == default
    ensures n.Present? && !n.json.JNull? ==> r == Some(AsText(n))
  {
    if n.Missing? || n.json.JNull? then default else Some(AsText(n))
  }

  /** `asText(default)` with a non-null default. */
  function AsTextOrElse(n: Node, default: string): (s: string)
    ensures AsTextOr(n, Some(default)) == Some(s)
  {
    if n.Missing? || n.json.JNull? then default else AsText(n)
  }

  function Pow10(n: nat): (r: nat)
    ensures r >= 1
  {
    if n == 0 then 1 else 10 * Pow10(n - 1)
  }

  predicate DigitsOnly(s: string) {
    forall k :: 0 <= k < |s| ==> IsDigit(s[k])
  }

  /** The plain decimal forms of `Double.parseDouble` (an optional sign, digits with at most one
      point, at least one digit); exponents, hexadecimal and the named values are not modelled. */
  function ParseDecimal(s: string): (r: Option<real>)
    ensures ParseLong(s).Some? ==> r == Some(ParseLong(s).value as real)
  {
    if |s| > 0 && (s[0] == '-' || s[0] == '+') then
      match ParseUnsignedDecimal(s[1..])
      case None => None
      case Some(v) => Some(if s[0] == '-' then -v else v)
    else ParseUnsignedDecimal(s)
  }

  function ParseUnsignedDecimal(s: string): (r: Option<real>)
    ensures AllDigits(s) ==> r == Some(DigitsValue(s) as real)
  {
    var i := IndexOf(s, '.');
    if i < 0 then
      if AllDigits(s) then Some(DigitsValue(s) as real) else None
    else
      var whole := s[..i];
      var fraction := s[i + 1..];
      if |whole| + |fraction| > 0 && DigitsOnly(whole) && DigitsOnly(fraction) then
        Some(DigitsValue(whole) as real + DigitsValue(fraction) as real / Pow10(|fraction|) as real)
      else None
  }

  /** Dropping a leading '+' keeps what integer text reads as. */
  lemma PlusSignDropped(t: string)
    requires t != ""
    ensures ParseLong(t).Some? ==> ParseLong(if t[0] == '+' then t[1..] else t) == ParseLong(t)
  {
  }

  /** Jackson's lenient text-to-long: trimmed; a leading '+' dropped; integer text read exactly,
      other decimal text cast toward zero; anything else, or nothing, gives the default. */
  function TextAsLong(s: string, default: int): (r: int)
    ensures JavaTrim(s) == "" ==> r == default
    ensures ParseLong(JavaTrim(s)).Some? ==> r == ParseLong(JavaTrim(s)).value
  {
    var t := JavaTrim(s);
    if t == "" then default
    else
      var u := if t[0] == '+' then t[1..] else t;
      PlusSignDropped(t);
      match ParseLong(u)
      case Some(v) => v
      case None =>
        match ParseDecimal(u)
        case Some(x) => Truncate(x)
        case None => default
  }

  /** `asLong(default)`: numbers cast toward zero, booleans 1/0, text read leniently; null,
      containers and the missing node give the default. */
  function AsLongOr(n: Node, default: int): (r: int)
    ensures n.Missing? ==> r == default
    ensures n.Present? && (n.json.JNull? || n.json.JArr? || n.json.JObj?) ==> r == default
    ensures n.Present? && n.json.JInt? ==> r == n.json.i
    ensures n.Present? && n.json.JStr? && ParseLong(JavaTrim(n.json.s)).Some? ==> r == ParseLong(JavaTrim(n.json.s)).value
  {
    match n
    case Missing => default
    case Present(j) =>
      match j
      case JInt(i) => i
      case JDec(x, _) => Truncate(x)
      case JBool(b) => if b then 1 else 0
      case JStr(s) => TextAsLong(s, default)
      case _ => default
  }

  /** `asDouble(default)`: numbers as they are, booleans 1/0, text read as a decimal; null,
      containers and the missing node give the default. */
  function AsDoubleOr(n: Node, default: real): (r: real)
    ensures n.Missing? ==> r == default
    ensures n.Present? && (n.json.JNull? || n.json.JArr? || n.json.JObj?) ==> r == default
    ensures n.Present? && n.json.JInt? ==> r == n.json.i as real
    ensures n.Present? && n.json.JDec? ==> r == n.json.r
  {
    match n
    case Missing => default
    case Present(j) =>
      match j
      case JInt(i) => i as real
      case JDec(x, _) => x
      case JBool(b) => if b then 1.0 else 0.0
      case JStr(s) =>
        var t := JavaTrim(s);
        (match ParseDecimal(t)
         case Some(x) => x
         case None => default)
      case _ => default
  }

  /** `asBoolean(default)`: a boolean as it is, an integer as "not zero", the text "true" or
      "false" (trimmed); anything else gives the default. */
  function AsBooleanOr(n: Node, default: bool): (r: bool)
    ensures n.Present? && n.json.JBool? ==> r == n.json.b
    ensures n.Present? && n.json.JInt? ==> r == (n.json.i != 0)
    ensures n.Missing? || (n.Present? && (n.json.JNull? || n.json.JArr? || n.json.JObj? || n.json.JDec?)) ==> r == default
  {
    match n
    case Missing => default
    case Present(j) =>
      match j
      case JBool(b) => b
      case JInt(i) => i != 0
      case JStr(s) =>
        var t := JavaTrim(s);
        if t == "true" then true else if t == "false" then false else default
      case _ => default
  }

  /** `isTextual()`. */
  predicate IsTextual(n: Node) {
    n.Present? && n.json.JStr?
  }

  /** `isArray() && !isEmpty()`. */
  predicate IsNonEmptyArray(n: Node) {
    n.Present? && n.json.JArr? && |n.json.items| > 0
  }
}
