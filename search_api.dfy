/** The search screen's client for the employee search index: the renaming of index field
    names to camelCase and the mapping of search hits to employee rows. The HTTP exchange
    itself is not modelled; a response arrives as its status flag and parsed body. */
module SearchApi {
  import opened Wrappers
  import opened Text
  import opened JsonTree

  // ---------------------------------------------------------------------------------------
  // JavaScript objects
  // ---------------------------------------------------------------------------------------

  predicate UniqueKeys(fields: seq<(string, Json)>) {
    forall i, j :: 0 <= i < j < |fields| ==> fields[i].0 != fields[j].0
  }

  /** With unique keys, looking a key up finds exactly the member that carries it. */
  lemma LookupUnique(fields: seq<(string, Json)>, key: string, v: Json)
    requires UniqueKeys(fields)
    ensures Lookup(fields, key) == Some(v) <==> (key, v) in fields
  {
    if (key, v) in fields {
      var r := Lookup(fields, key);
      var i :| 0 <= i < |fields| && fields[i] == (key, v);
      var j :| 0 <= j < |fields| && fields[j] == (key, r.value) && forall m :: j < m < |fields| ==> fields[m].0 != key;
      assert i == j;
    }
  }

  /** Position of the member named `key`, or -1. */
  function FindKey(fields: seq<(string, Json)>, key: string): (i: int)
    ensures -1 <= i < |fields|
    ensures i == -1 <==> forall j :: 0 <= j < |fields| ==> fields[j].0 != key
    ensures 0 <= i ==> fields[i].0 == key
  {
    if |fields| == 0 then -1
    else if fields[|fields| - 1].0 == key then |fields| - 1
    else FindKey(fields[..|fields| - 1], key)
  }

  /** Assigning `obj[key] = v`: an existing member keeps its place and takes the new value;
      a new member goes last. */
  function Put(obj: seq<(string, Json)>, key: string, v: Json): (r: seq<(string, Json)>)
    requires UniqueKeys(obj)
    ensures UniqueKeys(r)
    ensures Lookup(r, key) == Some(v)
    ensures forall k :: k != key ==> Lookup(r, k) == Lookup(obj, k)
    ensures forall e :: e in r ==> e in obj || e == (key, v)
  {
    var i := FindKey(obj, key);
    var r := if i < 0 then obj + [(key, v)] else obj[i := (key, v)];
    assert r[if i < 0 then |obj| else i] == (key, v);
    LookupUnique(r, key, v);
    forall k | k != key
      ensures Lookup(r, k) == Lookup(obj, k)
    {
      if Lookup(obj, k).Some? {
        var w := Lookup(obj, k).value;
        LookupUnique(obj, k, w);
        var m :| 0 <= m < |obj| && obj[m] == (k, w);
        assert r[m] == (k, w);
        LookupUnique(r, k, w);
      } else {
        assert forall m :: 0 <= m < |r| ==> r[m].0 != k;
      }
    }
    r
  }

  /** Assigning the members of `es` one after another onto `acc`. */
  function PutAll(acc: seq<(string, Json)>, es: seq<(string, Json)>): (r: seq<(string, Json)>)
    requires UniqueKeys(acc)
    ensures UniqueKeys(r)
    ensures forall k :: Lookup(r, k) == if Lookup(es, k).Some? then Lookup(es, k) else Lookup(acc, k)
    ensures forall e :: e in r ==> e in acc || e in es
  {
    if |es| == 0 then acc
    else
      var init := PutAll(acc, es[..|es| - 1]);
      assert forall e :: e in es[..|es| - 1] ==> e in es;
      Put(init, es[|es| - 1].0, es[|es| - 1].1)
  }

  /** `Object.entries` of a parsed object: one entry per name, at the name's first position,
      with the value of its last occurrence. */
  function Entries(fields: seq<(string, Json)>): (r: seq<(string, Json)>)
    ensures UniqueKeys(r)
    ensures forall k :: Lookup(r, k) == Lookup(fields, k)
    ensures forall e :: e in r ==> e in fields
  {
    PutAll([], fields)
  }

  // ---------------------------------------------------------------------------------------
  // snake_case to camelCase
  // ---------------------------------------------------------------------------------------

  predicate IsLowerLetter(c: char) {
    'a' <= c <= 'z'
  }

  /** No underscore is followed by a lower-case letter. */
  predicate NoSnakePairs(s: string) {
    forall i :: 0 <= i < |s| - 1 && s[i] == '_' ==> !IsLowerLetter(s[i + 1])
  }

  /** A key with each underscore-letter pair replaced by the letter in upper case, scanning
      left to right; every other character is kept. */
  function CamelKey(s: string): (r: string)
    ensures |r| <= |s|
    ensures |s| > 0 ==> |r| > 0
    ensures |s| > 0 && !(s[0] == '_' && |s| >= 2 && IsLowerLetter(s[1])) ==> r[0] == s[0]
    ensures |s| >= 2 && s[0] == '_' && IsLowerLetter(s[1]) ==> r[0] == UpperChar(s[1])
    ensures NoSnakePairs(r)
    decreases |s|
  {
    if |s| == 0 then ""
    else if |s| >= 2 && s[0] == '_' && IsLowerLetter(s[1]) then
      var rest := CamelKey(s[2..]);
      [UpperChar(s[1])] + rest
    else
      var rest := CamelKey(s[1..]);
      assert s[0] == '_' && |rest| > 0 ==> !IsLowerLetter(rest[0]);
      [s[0]] + rest
  }

  /** Keys without underscores are kept as they are. */
  lemma {:induction false} CamelKeyWithoutUnderscore(s: string)
    requires '_' !in s
    ensures CamelKey(s) == s
  {
    if |s| > 0 {
      assert '_' !in s[1..];
      CamelKeyWithoutUnderscore(s[1..]);
    }
  }

  /** A key already in camelCase is kept: renaming twice is renaming once. */
  lemma {:induction false} CamelKeyKeepsCamel(s: string)
    requires NoSnakePairs(s)
    ensures CamelKey(s) == s
  {
    if |s| > 0 {
      assert NoSnakePairs(s[1..]) by {
        forall i | 0 <= i < |s[1..]| - 1 && s[1..][i] == '_'
          ensures !IsLowerLetter(s[1..][i + 1])
        {
          assert s[i + 1] == '_';
        }
      }
      CamelKeyKeepsCamel(s[1..]);
    }
  }

  lemma CamelKeyIdempotent(s: string)
    ensures CamelKey(CamelKey(s)) == CamelKey(s)
  {
    CamelKeyKeepsCamel(CamelKey(s));
  }

  /** An underscore before a lower-case letter, after a part without underscores. */
  lemma {:induction false} CamelKeyJoin(p: string, c: char, q: string)
    requires '_' !in p && IsLowerLetter(c)
    ensures CamelKey(p + ['_', c] + q) == p + [UpperChar(c)] + CamelKey(q)
    decreases |p|
  {
    var s := p + ['_', c] + q;
    if |p| == 0 {
      assert s[2..] == q;
    } else {
      assert s[1..] == p[1..] + ['_', c] + q;
      assert '_' !in p[1..];
      CamelKeyJoin(p[1..], c, q);
    }
  }

  /** A name with one underscore pair. */
  lemma SnakePair(s: string, n: nat)
    requires n + 1 < |s| && '_' !in s[..n] && s[n] == '_' && IsLowerLetter(s[n + 1]) && '_' !in s[n + 2..]
    ensures CamelKey(s) == s[..n] + [UpperChar(s[n + 1])] + s[n + 2..]
  {
    assert s == s[..n] + ['_', s[n + 1]] + s[n + 2..];
    CamelKeyJoin(s[..n], s[n + 1], s[n + 2..]);
    CamelKeyWithoutUnderscore(s[n + 2..]);
  }

  /** The index's employee id field becomes the name the search screen reads. */
  lemma EmployeeIdName(name: string)
    requires name == "employee_id"
    ensures CamelKey(name) == "employeeId"
  {
    SnakePair(name, 8);
  }

  /** The index's pay type field becomes the name the search screen reads. */
  lemma PayTypeName(name: string)
    requires name == "pay_type"
    ensures CamelKey(name) == "payType"
  {
    SnakePair(name, 3);
  }

  /** `snakeToCamel` as a value: arrays element by element, objects with renamed keys and
      converted values, everything else unchanged. */
  function Camelize(j: Json): (r: Json)
    ensures !j.JArr? && !j.JObj? ==> r == j
    ensures j.JArr? ==> r.JArr? && |r.items| == |j.items|
    ensures j.JObj? ==> r.JObj? && UniqueKeys(r.fields)
    decreases j
  {
    match j
    case JArr(items) => JArr(seq(|items|, i requires 0 <= i < |items| => Camelize(items[i])))
    case JObj(fields) =>
      var es := Entries(fields);
      JObj(CamelizeEntries(j, es, |es|))
    case _ => j
  }

  /** The result object after the first `k` entries of `es` have been assigned. */
  function CamelizeEntries(j: Json, es: seq<(string, Json)>, k: nat): (r: seq<(string, Json)>)
    requires j.JObj? && k <= |es| && forall e :: e in es ==> e in j.fields
    ensures UniqueKeys(r)
    decreases j, k
  {
    if k == 0 then []
    else
      var e := es[k - 1];
      assert e in j.fields;
      Put(CamelizeEntries(j, es, k - 1), CamelKey(e.0), Camelize(e.1))
  }

  /** `snakeToCamel`. */
  method SnakeToCamel(obj: Json) returns (r: Json)
    ensures r == Camelize(obj)
    decreases obj
  {
    if obj.JArr? {
      var out: seq<Json> := [];
      for i := 0 to |obj.items|
        invariant |out| == i && forall k :: 0 <= k < i ==> out[k] == Camelize(obj.items[k])
      {
        var v := SnakeToCamel(obj.items[i]);
        out := out + [v];
      }
      return JArr(out);
    }
    if !obj.JObj? {
      return obj;
    }
    var entries := Entries(obj.fields);
    var result: seq<(string, Json)> := [];
    for i := 0 to |entries|
      invariant result == CamelizeEntries(obj, entries, i)
    {
      var (key, value) := entries[i];
      assert entries[i] in obj.fields;
      var camelKey := CamelKey(key);
      var v := SnakeToCamel(value);
      result := Put(result, camelKey, v);
    }
    return JObj(result);
  }

  /** Arrays are converted element by element. */
  lemma ArraysElementwise(items: seq<Json>, i: nat)
    requires i < |items|
    ensures Camelize(JArr(items)).items[i] == Camelize(items[i])
  {
  }

  /** The renaming is injective on the names of `fields`. */
  predicate CamelInjective(fields: seq<(string, Json)>) {
    forall i, j :: 0 <= i < |fields| && 0 <= j < |fields| && fields[i].0 != fields[j].0
      ==> CamelKey(fields[i].0) != CamelKey(fields[j].0)
  }

  /** Where no two names rename to the same key, each member is found under its renamed key,
      with its value converted. */
  lemma {:induction false} CamelizedMember(fields: seq<(string, Json)>, key: string)
    requires CamelInjective(fields)
    requires Lookup(fields, key).Some?
    ensures Lookup(Camelize(JObj(fields)).fields, CamelKey(key)) == Some(Camelize(Lookup(fields, key).value))
  {
    CamelizedEntriesMember(JObj(fields), key);
  }

  lemma CamelizedEntriesMember(j: Json, key: string)
    requires j.JObj? && CamelInjective(j.fields) && Lookup(j.fields, key).Some?
    ensures Lookup(CamelizeEntries(j, Entries(j.fields), |Entries(j.fields)|), CamelKey(key))
         == Some(Camelize(Lookup(j.fields, key).value))
  {
    var es := Entries(j.fields);
    CamelizeEntriesLookup(j, es, |es|, key);
    assert es[..|es|] == es;
  }

  lemma {:induction false} CamelizeEntriesLookup(j: Json, es: seq<(string, Json)>, k: nat, key: string)
    requires j.JObj? && k <= |es| && forall e :: e in es ==> e in j.fields
    requires CamelInjective(j.fields) && Lookup(j.fields, key).Some?
    ensures Lookup(CamelizeEntries(j, es, k), CamelKey(key))
         == (match Lookup(es[..k], key)
             case None => None
             case Some(v) => Some(Camelize(v)))
  {
    var pre := es[..k];
    if k == 0 {
      assert pre == [];
    } else {
      var e := es[k - 1];
      assert pre[k - 1] == e;
      assert pre[..k - 1] == es[..k - 1];
      CamelizeEntriesLookup(j, es, k - 1, key);
      if e.0 != key {
        assert e in j.fields;
        var a :| 0 <= a < |j.fields| && j.fields[a] == e;
        var b :| 0 <= b < |j.fields| && j.fields[b].0 == key;
        assert CamelKey(e.0) != CamelKey(key);
      }
    }
  }

  // ---------------------------------------------------------------------------------------
  // Hits to employees
  // ---------------------------------------------------------------------------------------

  /** `x?.key`: undefined when `x` is undefined or null. */
  function OptProp(x: Option<Json>, key: string): (r: Option<Json>)
    ensures x.None? || x == Some(JNull) ==> r.None?
  {
    match x
    case None => None
    case Some(v) => if v.JNull? then None else Member(v, key)
  }

  /** JavaScript truthiness of a value that may be undefined. */
  predicate Truthy(x: Option<Json>) {
    match x
    case None => false
    case Some(v) =>
      match v
      case JNull => false
      case JBool(b) => b
      case JInt(i) => i != 0
      case JDec(r, _) => r != 0.0
      case JStr(s) => s != ""
      case JArr(_) => true
      case JObj(_) => true
  }

  /** The length of the run of decimal digits at the start of `s`. */
  function LeadingDigitCount(s: string): (n: nat)
    ensures n <= |s|
    ensures forall k :: 0 <= k < n ==> IsDigit(s[k])
    ensures n < |s| ==> !IsDigit(s[n])
  {
    if |s| > 0 && IsDigit(s[0]) then 1 + LeadingDigitCount(s[1..]) else 0
  }

  /** `parseInt(text, 10)`: leading white space, an optional sign, then the digits that
      follow; NaN (`None`) when there are none. */
  function ParseIntText(s: string): (r: Option<int>)
    ensures var t := TrimStart(s);
      var digits := if |t| > 0 && (t[0] == '-' || t[0] == '+') then t[1..] else t;
      (r.None? <==> LeadingDigitCount(digits) == 0)
      && (r.Some? && !(|t| > 0 && t[0] == '-') ==> r.value >= 0)
      && (r.Some? ==> r == (if |t| > 0 && t[0] == '-' then Some(-LeadingValue(digits).value) else LeadingValue(digits)))
  {
    var t := TrimStart(s);
    var digits := if |t| > 0 && (t[0] == '-' || t[0] == '+') then t[1..] else t;
    match LeadingValue(digits)
    case None => None
    case Some(v) => if |t| > 0 && t[0] == '-' then Some(-v) else Some(v)
  }

  /** The value of the digits `s` starts with; `None` when it does not start with one. */
  function LeadingValue(s: string): (r: Option<int>)
    ensures r.None? <==> LeadingDigitCount(s) == 0
    ensures r.Some? ==> r.value == DigitsValue(s[..LeadingDigitCount(s)])
  {
    var n := LeadingDigitCount(s);
    if n == 0 then None else Some(DigitsValue(s[..n]))
  }

  /** A text starting with a digit reads as the value of its leading digits. */
  lemma ParseIntOfDigitStart(s: string)
    requires |s| > 0 && IsDigit(s[0])
    ensures LeadingDigitCount(s) > 0
    ensures ParseIntText(s) == Some(DigitsValue(s[..LeadingDigitCount(s)]) as int)
  {
    assert TrimStart(s) == s by {
      assert !IsWhitespace(s[0]);
    }
    assert s[0] != '-' && s[0] != '+';
    ParseIntTextUnsigned(s);
  }

  /** A text that starts with neither white space nor a sign reads as its leading digits. */
  lemma ParseIntTextUnsigned(s: string)
    requires TrimStart(s) == s && |s| > 0 && s[0] != '-' && s[0] != '+'
    ensures ParseIntText(s) == LeadingValue(s)
  {
  }

  /** A text of decimal digits reads as its value, as `Long.parseLong` would read it. */
  lemma {:induction false} ParseIntDigits(s: string)
    requires AllDigits(s)
    ensures ParseIntText(s) == Some(DigitsValue(s)) == ParseLong(s)
  {
    ParseIntOfDigitStart(s);
    assert s[..|s|] == s;
  }

  /** Whatever follows the leading digits is ignored. */
  lemma {:induction false} ParseIntIgnoresTail(d: string, rest: string)
    requires AllDigits(d) && (|rest| == 0 || !IsDigit(rest[0]))
    ensures ParseIntText(d + rest) == Some(DigitsValue(d))
  {
    var s := d + rest;
    assert s[0] == d[0];
    ParseIntOfDigitStart(s);
    var n := LeadingDigitCount(s);
    assert forall k :: 0 <= k < |d| ==> s[k] == d[k];
    assert |d| < |s| ==> s[|d|] == rest[0];
    assert n == |d|;
    assert s[..n] == d;
  }

  /** `parseInt(x, 10)` on a value: the value is first turned into text. Arrays are read as
      NaN. */
  function ParseIntValue(x: Option<Json>): (r: Option<int>)
    ensures x.None? || x == Some(JNull) ==> r.None?
    ensures x.Some? && x.value.JInt? ==> r == Some(x.value.i)
    ensures x.Some? && x.value.JStr? ==> r == ParseIntText(x.value.s)
  {
    match x
    case None => None
    case Some(v) =>
      match v
      case JInt(i) => Some(i)
      case JDec(_, text) => ParseIntText(text)
      case JStr(s) => ParseIntText(s)
      case _ => None
  }

  /** An employee row of the search screen; `None` in a field stands for undefined. */
  datatype EmployeeRow = EmployeeRow(
    id: Option<Json>,
    firstName: Option<Json>,
    lastName: Option<Json>,
    email: Option<Json>,
    payType: Option<int>,
    payRate: Option<Json>,
    payPeriodHours: Option<Json>,
    isActive: Option<Json>,
    hireDate: Option<Json>,
    payPeriods: Json)

  /** The row for a converted `_source`. */
  function RowOf(source: Json): (e: EmployeeRow)
    requires !source.JNull?
    ensures e.payType == ParseIntValue(Member(source, "payType"))
    ensures Truthy(Member(source, "payPeriods")) ==> e.payPeriods == Member(source, "payPeriods").value
    ensures !Truthy(Member(source, "payPeriods")) ==> e.payPeriods == JArr([])
    ensures e.id == Member(source, "employeeId")
  {
    var periods := Member(source, "payPeriods");
    EmployeeRow(
      Member(source, "employeeId"),
      Member(source, "firstName"),
      Member(source, "lastName"),
      Member(source, "email"),
      ParseIntValue(Member(source, "payType")),
      Member(source, "payRate"),
      Member(source, "payPeriodHours"),
      Member(source, "isActive"),
      Member(source, "hireDate"),
      if Truthy(periods) then periods.value else JArr([]))
  }

  /** The row for one hit, or `None` where reading it throws: a hit that is not an object or
      whose `_source` is missing or null. */
  function HitRow(hit: Json): (r: Option<EmployeeRow>)
    ensures r.None? <==> Member(hit, "_source").None? || Member(hit, "_source") == Some(JNull)
    ensures r.Some? ==> r.value == RowOf(Camelize(Member(hit, "_source").value))
  {
    match Member(hit, "_source")
    case None => None
    case Some(src) => if src.JNull? then None else Some(RowOf(Camelize(src)))
  }

  /** The rows for all hits, or `None` when any hit throws. */
  function HitRows(hits: seq<Json>): (r: Option<seq<EmployeeRow>>)
    ensures r.Some? <==> forall i :: 0 <= i < |hits| ==> HitRow(hits[i]).Some?
    ensures r.Some? ==> |r.value| == |hits| && forall i :: 0 <= i < |hits| ==> Some(r.value[i]) == HitRow(hits[i])
  {
    if forall i :: 0 <= i < |hits| ==> HitRow(hits[i]).Some? then
      Some(seq(|hits|, i requires 0 <= i < |hits| => HitRow(hits[i]).value))
    else None
  }

  datatype SearchResult = SearchResult(employees: seq<EmployeeRow>, total: Json)

  /** The hits of a response body (`data.hits?.hits || []`), or `None` when they are neither
      falsy nor an array and mapping over them throws. */
  function HitsOf(data: Json): (r: Option<seq<Json>>)
    requires !data.JNull?
    ensures !Truthy(OptProp(Member(data, "hits"), "hits")) ==> r == Some([])
    ensures Truthy(OptProp(Member(data, "hits"), "hits")) ==>
              (r.Some? <==> OptProp(Member(data, "hits"), "hits").value.JArr?)
  {
    var hits := OptProp(Member(data, "hits"), "hits");
    if !Truthy(hits) then Some([])
    else if hits.value.JArr? then Some(hits.value.items)
    else None
  }

  /** The result of a search request: `None` when the response is not OK or reading the
      body throws. The total is the index's hit count when it reports one, else the number
      of rows. */
  function SearchEmployees(ok: bool, data: Json): (r: Option<SearchResult>)
    ensures !ok || data.JNull? ==> r.None?
    ensures r.Some? <==> ok && !data.JNull? && HitsOf(data).Some? && HitRows(HitsOf(data).value).Some?
    ensures r.Some? ==> Some(r.value.employees) == HitRows(HitsOf(data).value)
    ensures r.Some? ==> var t := OptProp(OptProp(Member(data, "hits"), "total"), "value");
              r.value.total == if t.None? || t == Some(JNull) then JInt(|r.value.employees|) else t.value
  {
    if !ok || data.JNull? then None
    else
      match HitsOf(data)
      case None => None
      case Some(hits) =>
        match HitRows(hits)
        case None => None
        case Some(employees) =>
          var t := OptProp(OptProp(Member(data, "hits"), "total"), "value");
          Some(SearchResult(employees, if t.None? || t.value.JNull? then JInt(|employees|) else t.value))
  }

  /** A hit's row reads the index's own snake_case fields, whatever the order of its members,
      provided no two of them rename to the same key. */
  lemma {:induction false} RowReadsIndexFields(src: seq<(string, Json)>, idKey: string, typeKey: string)
    requires idKey == "employee_id" && typeKey == "pay_type"
    requires CamelInjective(src)
    requires Lookup(src, idKey).Some? && Lookup(src, typeKey).Some?
    ensures RowOf(Camelize(JObj(src))).id == Some(Camelize(Lookup(src, idKey).value))
    ensures RowOf(Camelize(JObj(src))).payType == ParseIntValue(Some(Camelize(Lookup(src, typeKey).value)))
  {
    EmployeeIdName(idKey);
    PayTypeName(typeKey);
    CamelizedMember(src, idKey);
    CamelizedMember(src, typeKey);
  }

  /** `{key: v, ...members}`: the members, with `key` set to `v` first unless they set it. */
  function WithDefault(key: string, v: Json, members: seq<(string, Json)>): (body: seq<(string, Json)>)
    ensures UniqueKeys(body)
    ensures Lookup(members, key).None? ==> Lookup(body, key) == Some(v)
    ensures forall k :: Lookup(members, k).Some? ==> Lookup(body, k) == Lookup(members, k)
    ensures forall k :: k != key ==> Lookup(body, k) == Lookup(members, k)
  {
    var first := [(key, v)];
    assert Lookup(first, key) == Some(v);
    assert forall k :: k != key ==> Lookup(first, k).None?;
    PutAll(first, Entries(members))
  }

  /** The search request body: `size` 200 unless the query sets its own, then the query's
      members. */
  function RequestBody(esQuery: seq<(string, Json)>): (body: seq<(string, Json)>)
    ensures UniqueKeys(body)
    ensures Lookup(esQuery, "size").None? ==> Lookup(body, "size") == Some(JInt(200))
    ensures forall k :: Lookup(esQuery, k).Some? ==> Lookup(body, k) == Lookup(esQuery, k)
    ensures forall k :: k != "size" ==> Lookup(body, k) == Lookup(esQuery, k)
  {
    WithDefault("size", JInt(200), esQuery)
  }
}
