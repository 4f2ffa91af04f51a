/** The search screen's query builder: field definitions discovered from the index mapping,
    the quick-search query, and the translation of an advanced condition tree into an
    Elasticsearch query. */
module SearchQueryBuilder {
  import opened Wrappers
  import opened Text

  // ---------------------------------------------------------------------------------------
  // Index mapping and field definitions
  // ---------------------------------------------------------------------------------------

  /** One property of an index mapping. `mtype` is its `type` ("" when it has none), and
      `hasProperties` says whether it carries a `properties` object, listed in `properties`. */
  datatype Mapping = Mapping(mtype: string, hasProperties: bool, properties: seq<Entry>)

  /** A named member of a `properties` object, in the object's order. */
  datatype Entry = Entry(name: string, mapping: Mapping)

  datatype SelectOption = SelectOption(value: string, caption: string)

  /** A searchable field as the search screen lists it. `esType` is "" when the mapping has
      no type; `options` is present only for select fields that carry a fixed choice list. */
  datatype FieldDef = FieldDef(
    field: string,
    caption: string,
    uiType: string,
    esType: string,
    esField: string,
    nested: bool,
    category: string,
    options: Option<seq<SelectOption>>)

  /** The UI treatment given to specific fields regardless of their mapping. */
  datatype Enrichment = Enrichment(caption: string, uiType: string, options: seq<SelectOption>)

  const ExcludedFields: set<string> := {"employee_id"}

  const DefaultCategory := "Employee Info"

  const UiTypes: set<string> := {"text", "number", "date", "select"}

  const TrueFalseOptions := [SelectOption("true", "True"), SelectOption("false", "False")]

  function FieldEnrichment(fullField: string): (r: Option<Enrichment>)
    ensures r.Some? ==> r.value.uiType == "select"
    ensures r.Some? <==> fullField == "pay_type" || fullField == "is_active"
  {
    if fullField == "pay_type" then
      Some(Enrichment("Pay Type", "select", [SelectOption("1", "Hourly"), SelectOption("2", "Salary")]))
    else if fullField == "is_active" then
      Some(Enrichment("Status", "select", [SelectOption("true", "Active"), SelectOption("false", "Inactive")]))
    else None
  }

  /** The UI type for an index type; `None` for types the search screen cannot offer. */
  function EsTypeMap(esType: string): (r: Option<string>)
    ensures r.Some? ==> r.value in UiTypes
    ensures r == Some("select") <==> esType == "boolean"
    ensures r.None? <==> esType !in {"text", "keyword", "float", "double", "integer", "long",
                                     "half_float", "scaled_float", "date", "boolean"}
  {
    if esType == "text" || esType == "keyword" then Some("text")
    else if esType in {"float", "double", "integer", "long", "half_float", "scaled_float"} then Some("number")
    else if esType == "date" then Some("date")
    else if esType == "boolean" then Some("select")
    else None
  }

  predicate IsWordChar(c: char) {
    ('a' <= c <= 'z') || ('A' <= c <= 'Z') || ('0' <= c <= '9') || c == '_'
  }

  function Unsnake(s: string): (t: string)
    ensures |t| == |s|
    ensures forall k :: 0 <= k < |s| ==> t[k] == if s[k] == '_' then ' ' else s[k]
  {
    seq(|s|, k requires 0 <= k < |s| => if s[k] == '_' then ' ' else s[k])
  }

  /** Underscores become spaces and every word starts with a capital letter. */
  function SnakeToLabel(s: string): (r: string)
    ensures |r| == |s|
    ensures forall k :: 0 <= k < |r| ==> r[k] != '_'
    ensures forall k :: 0 <= k < |s| && IsWordChar(s[k]) && s[k] != '_' && (k == 0 || !IsWordChar(s[k - 1]) || s[k - 1] == '_')
              ==> r[k] == UpperChar(s[k])
    ensures forall k :: 0 < k < |s| && s[k] != '_' && IsWordChar(s[k - 1]) && s[k - 1] != '_' ==> r[k] == s[k]
    ensures forall k :: 0 <= k < |s| && !IsWordChar(s[k]) ==> r[k] == s[k]
  {
    var t := Unsnake(s);
    seq(|t|, k requires 0 <= k < |t| =>
      if IsWordChar(t[k]) && (k == 0 || !IsWordChar(t[k - 1])) then UpperChar(t[k]) else t[k])
  }

  /** The dotted path of a property below `prefix`. */
  function FullField(prefix: string, name: string): (r: string)
    ensures prefix == "" ==> r == name
    ensures prefix != "" ==> r == prefix + "." + name
  {
    if prefix != "" then prefix + "." + name else name
  }

  /** The definition of a leaf property, or `None` when neither an enrichment nor the
      property's index type gives it a UI type. */
  function LeafDef(fullField: string, name: string, esType: string, nested: bool, category: string): (r: Option<FieldDef>)
    ensures r.None? <==> FieldEnrichment(fullField).None? && EsTypeMap(esType).None?
    ensures r.Some? ==> r.value.field == fullField && r.value.esField == fullField && r.value.esType == esType
    ensures r.Some? ==> r.value.uiType in UiTypes && r.value.nested == nested
    ensures r.Some? ==> r.value.category == if nested then category else DefaultCategory
    ensures r.Some? && FieldEnrichment(fullField).None? ==>
              r.value.caption == SnakeToLabel(name) && r.value.uiType == EsTypeMap(esType).value
    ensures r.Some? && FieldEnrichment(fullField).None? && esType == "boolean" ==> r.value.options == Some(TrueFalseOptions)
    ensures r.Some? && FieldEnrichment(fullField).Some? ==> r.value.options == Some(FieldEnrichment(fullField).value.options)
  {
    var enrichment := FieldEnrichment(fullField);
    var uiType := if enrichment.Some? then Some(enrichment.value.uiType) else EsTypeMap(esType);
    if uiType.None? then None
    else
      var options :=
        if enrichment.Some? then Some(enrichment.value.options)
        else if uiType.value == "select" && esType == "boolean" then Some(TrueFalseOptions)
        else None;
      Some(FieldDef(
        fullField,
        if enrichment.Some? then enrichment.value.caption else SnakeToLabel(name),
        uiType.value,
        esType,
        fullField,
        nested,
        if nested then category else DefaultCategory,
        options))
  }

  /** What every definition the walk emits satisfies. */
  predicate WellFormedDef(f: FieldDef) {
    && f.field !in ExcludedFields
    && f.uiType in UiTypes
    && f.esField == f.field
    && (!f.nested ==> f.category == DefaultCategory)
    && (FieldEnrichment(f.field).None? && f.esType == "boolean" ==> f.options == Some(TrueFalseOptions))
  }

  /** A property the walk does not descend into: neither a nested mapping nor an untyped
      object with `properties`. */
  predicate IsLeafMapping(m: Mapping) {
    !(m.hasProperties && (m.mtype == "nested" || m.mtype == ""))
  }

  /** The definitions emitted for the first `k` properties of `owner`, walked below `prefix`. */
  function WalkFields(owner: Mapping, k: nat, prefix: string, nested: bool, category: string): (r: seq<FieldDef>)
    requires k <= |owner.properties|
    ensures forall f :: f in r ==> WellFormedDef(f)
    ensures nested ==> forall f :: f in r ==> f.nested
    ensures prefix != "" ==> forall f :: f in r ==> StartsWith(f.field, prefix + ".")
    decreases owner, k
  {
    if k == 0 then []
    else WalkFields(owner, k - 1, prefix, nested, category) + EntryFields(owner, k - 1, prefix, nested, category)
  }

  /** The walk loses nothing: a definition property `j` emits is among those of any walk
      over the first `k > j` properties. */
  lemma {:induction false} WalkFieldsComplete(owner: Mapping, k: nat, prefix: string, nested: bool, category: string,
                                              j: nat, f: FieldDef)
    requires j < k <= |owner.properties|
    requires f in EntryFields(owner, j, prefix, nested, category)
    ensures f in WalkFields(owner, k, prefix, nested, category)
  {
    if j < k - 1 {
      WalkFieldsComplete(owner, k - 1, prefix, nested, category, j, f);
    }
  }

  /** The definitions emitted for property `i` of `owner`: none for an excluded path, the
      walk of its properties for a nested mapping (category: its label) or an untyped object
      (category inherited), and otherwise at most one leaf definition. */
  function EntryFields(owner: Mapping, i: nat, prefix: string, nested: bool, category: string): (r: seq<FieldDef>)
    requires i < |owner.properties|
    ensures forall f :: f in r ==> WellFormedDef(f)
    ensures nested ==> forall f :: f in r ==> f.nested
    ensures prefix != "" ==> forall f :: f in r ==> StartsWith(f.field, prefix + ".")
    ensures FullField(prefix, owner.properties[i].name) in ExcludedFields ==> r == []
    ensures var e := owner.properties[i];
      var leaf := LeafDef(FullField(prefix, e.name), e.name, e.mapping.mtype, nested, category);
      FullField(prefix, e.name) !in ExcludedFields && IsLeafMapping(e.mapping) ==>
        r == (if leaf.Some? then [leaf.value] else [])
    decreases owner, i
  {
    var name := owner.properties[i].name;
    var mapping := owner.properties[i].mapping;
    var fullField := FullField(prefix, name);
    if fullField in ExcludedFields then []
    else if mapping.mtype == "nested" && mapping.hasProperties then
      var r := WalkFields(mapping, |mapping.properties|, fullField, true, SnakeToLabel(name));
      DottedBelow(r, prefix, fullField);
      r
    else if mapping.mtype == "" && mapping.hasProperties then
      var r := WalkFields(mapping, |mapping.properties|, fullField, nested, category);
      DottedBelow(r, prefix, fullField);
      r
    else
      match LeafDef(fullField, name, mapping.mtype, nested, category)
      case None => []
      case Some(d) => [d]
  }

  lemma DottedBelow(r: seq<FieldDef>, prefix: string, fullField: string)
    requires fullField != "" ==> forall f :: f in r ==> StartsWith(f.field, fullField + ".")
    requires prefix != "" ==> StartsWith(fullField, prefix + ".")
    ensures prefix != "" ==> forall f :: f in r ==> StartsWith(f.field, prefix + ".")
  {
    if prefix != "" {
      forall f | f in r
        ensures StartsWith(f.field, prefix + ".")
      {
        assert StartsWith(f.field, fullField + ".");
        assert f.field[..|prefix| + 1] == (fullField + ".")[..|fullField| + 1][..|prefix| + 1];
        assert (fullField + ".")[..|prefix| + 1] == prefix + ".";
      }
    }
  }

  /** The mapping's `properties` object viewed as an untyped object mapping, where the walk starts. */
  function Root(mappingProperties: seq<Entry>): (m: Mapping)
    ensures m.properties == mappingProperties && m.mtype == "" && m.hasProperties
  {
    Mapping("", true, mappingProperties)
  }

  /** A top-level property that is listed as a leaf: not excluded, not walked into, and given
      a UI type by its enrichment or its index type. */
  predicate ListedTopLeaf(e: Entry) {
    e.name !in ExcludedFields && IsLeafMapping(e.mapping)
    && LeafDef(e.name, e.name, e.mapping.mtype, false, DefaultCategory).Some?
  }

  /** `buildFieldDefinitions` as a value: every definition is well formed, and every listed
      top-level leaf appears as its definition. */
  function FieldDefinitions(mappingProperties: seq<Entry>): (r: seq<FieldDef>)
    ensures forall f :: f in r ==> WellFormedDef(f)
    ensures forall e :: e in mappingProperties && ListedTopLeaf(e) ==>
              LeafDef(e.name, e.name, e.mapping.mtype, false, DefaultCategory).value in r
  {
    forall e | e in mappingProperties && ListedTopLeaf(e)
      ensures LeafDef(e.name, e.name, e.mapping.mtype, false, DefaultCategory).value in
                WalkFields(Root(mappingProperties), |mappingProperties|, "", false, DefaultCategory)
    {
      var i :| 0 <= i < |mappingProperties| && mappingProperties[i] == e;
      assert EntryFields(Root(mappingProperties), i, "", false, DefaultCategory)
          == [LeafDef(e.name, e.name, e.mapping.mtype, false, DefaultCategory).value];
      WalkFieldsComplete(Root(mappingProperties), |mappingProperties|, "", false, DefaultCategory, i,
                         LeafDef(e.name, e.name, e.mapping.mtype, false, DefaultCategory).value);
    }
    WalkFields(Root(mappingProperties), |mappingProperties|, "", false, DefaultCategory)
  }

  /** The recursive walk: appends to the found definitions property by property. */
  method Walk(owner: Mapping, prefix: string, nested: bool, category: string) returns (found: seq<FieldDef>)
    ensures found == WalkFields(owner, |owner.properties|, prefix, nested, category)
    decreases owner
  {
    found := [];
    for i := 0 to |owner.properties|
      invariant found == WalkFields(owner, i, prefix, nested, category)
    {
      var name := owner.properties[i].name;
      var mapping := owner.properties[i].mapping;
      var fullField := FullField(prefix, name);
      if fullField in ExcludedFields {
        continue;
      }
      if mapping.mtype == "nested" && mapping.hasProperties {
        var sub := Walk(mapping, fullField, true, SnakeToLabel(name));
        found := found + sub;
        continue;
      }
      if mapping.mtype == "" && mapping.hasProperties {
        var sub := Walk(mapping, fullField, nested, category);
        found := found + sub;
        continue;
      }
      var def := LeafDef(fullField, name, mapping.mtype, nested, category);
      if def.None? {
        continue;
      }
      found := found + [def.value];
    }
  }

  method BuildFieldDefinitions(mappingProperties: seq<Entry>) returns (fields: seq<FieldDef>)
    ensures fields == FieldDefinitions(mappingProperties)
    ensures forall f :: f in fields ==> WellFormedDef(f)
    ensures forall e :: e in mappingProperties && ListedTopLeaf(e) ==>
              LeafDef(e.name, e.name, e.mapping.mtype, false, DefaultCategory).value in fields
  {
    fields := Walk(Root(mappingProperties), "", false, DefaultCategory);
  }

  /** A leaf one level down a top-level nested property is listed too: as a nested field under
      its dotted path, in the category named after the nested property. */
  lemma {:induction false} NestedLeafListed(mappingProperties: seq<Entry>, i: nat, j: nat)
    requires i < |mappingProperties|
    requires mappingProperties[i].name !in ExcludedFields && mappingProperties[i].name != ""
    requires mappingProperties[i].mapping.mtype == "nested" && mappingProperties[i].mapping.hasProperties
    requires j < |mappingProperties[i].mapping.properties|
    requires IsLeafMapping(mappingProperties[i].mapping.properties[j].mapping)
    requires var name := mappingProperties[i].name;
      var sub := mappingProperties[i].mapping.properties[j];
      LeafDef(name + "." + sub.name, sub.name, sub.mapping.mtype, true, SnakeToLabel(name)).Some?
    ensures var name := mappingProperties[i].name;
      var sub := mappingProperties[i].mapping.properties[j];
      var d := LeafDef(name + "." + sub.name, sub.name, sub.mapping.mtype, true, SnakeToLabel(name)).value;
      d in FieldDefinitions(mappingProperties) && d.nested && d.category == SnakeToLabel(name)
  {
    var name := mappingProperties[i].name;
    var m := mappingProperties[i].mapping;
    var sub := m.properties[j];
    var d := LeafDef(name + "." + sub.name, sub.name, sub.mapping.mtype, true, SnakeToLabel(name)).value;
    assert name + "." + sub.name !in ExcludedFields by {
      assert |name + "." + sub.name| > |sub.name|;
      if sub.name == "" {
        assert name + "." + sub.name != "employee_id" by {
          assert (name + "." + sub.name)[|name|] == '.';
        }
      } else {
        assert (name + "." + sub.name)[|name|] == '.';
        assert forall k :: 0 <= k < |"employee_id"| ==> "employee_id"[k] != '.';
      }
    }
    assert d in EntryFields(m, j, name, true, SnakeToLabel(name));
    var inner := WalkFields(m, |m.properties|, name, true, SnakeToLabel(name));
    WalkFieldsComplete(m, |m.properties|, name, true, SnakeToLabel(name), j, d);
    assert d in inner;
    assert EntryFields(Root(mappingProperties), i, "", false, DefaultCategory) == inner;
    WalkFieldsComplete(Root(mappingProperties), |mappingProperties|, "", false, DefaultCategory, i, d);
  }

  /** A top-level nested property contributes only nested definitions, all below its path. */
  lemma {:induction false} NestedPropertyFields(owner: Mapping, i: nat)
    requires i < |owner.properties|
    requires owner.properties[i].name !in ExcludedFields && owner.properties[i].name != ""
    requires owner.properties[i].mapping.mtype == "nested" && owner.properties[i].mapping.hasProperties
    ensures forall f :: f in EntryFields(owner, i, "", false, DefaultCategory) ==>
              f.nested && StartsWith(f.field, owner.properties[i].name + ".")
  {
    var m := owner.properties[i].mapping;
    var name := owner.properties[i].name;
    assert EntryFields(owner, i, "", false, DefaultCategory)
        == WalkFields(m, |m.properties|, name, true, SnakeToLabel(name));
  }

  /** The leaves of a walk carry the walk's category when it is nested and no nested
      mapping lies below it. */
  lemma {:induction false} FlatWalkCategory(owner: Mapping, k: nat, prefix: string, category: string)
    requires k <= |owner.properties|
    requires forall e :: e in owner.properties ==> !e.mapping.hasProperties
    ensures forall f :: f in WalkFields(owner, k, prefix, true, category) ==> f.category == category
  {
    if k > 0 {
      FlatWalkCategory(owner, k - 1, prefix, category);
      assert owner.properties[k - 1] in owner.properties;
    }
  }

  /** The fields of a top-level nested property whose own properties are all leaves fall in
      the category named after it. */
  lemma {:induction false} NestedCategoryIsParentLabel(owner: Mapping, i: nat)
    requires i < |owner.properties|
    requires owner.properties[i].name !in ExcludedFields
    requires owner.properties[i].mapping.mtype == "nested" && owner.properties[i].mapping.hasProperties
    requires forall e :: e in owner.properties[i].mapping.properties ==> !e.mapping.hasProperties
    ensures forall f :: f in EntryFields(owner, i, "", false, DefaultCategory) ==>
              f.category == SnakeToLabel(owner.properties[i].name)
  {
    var m := owner.properties[i].mapping;
    var name := owner.properties[i].name;
    FlatWalkCategory(m, |m.properties|, name, SnakeToLabel(name));
  }

  /** A leaf property whose index type has no UI type and that has no enrichment yields nothing. */
  lemma {:induction false} UnknownTypeSkipped(owner: Mapping, i: nat, prefix: string, nested: bool, category: string)
    requires i < |owner.properties|
    requires !owner.properties[i].mapping.hasProperties
    requires EsTypeMap(owner.properties[i].mapping.mtype).None?
    requires FieldEnrichment(FullField(prefix, owner.properties[i].name)).None?
    ensures EntryFields(owner, i, prefix, nested, category) == []
  {
  }

  // ---------------------------------------------------------------------------------------
  // Queries
  // ---------------------------------------------------------------------------------------

  /** A scalar in a query: a string, a number as `parseFloat` yields it, or a boolean. */
  datatype Scalar = Str(s: string) | Num(x: real) | Boolean(b: bool)

  /** The query clauses the builder emits, each with the JSON shape it stands for:
      `MatchAll` is `{match_all:{}}`; `PhrasePrefix(q, fs)` is a `multi_match` of type
      `phrase_prefix`; `Wildcard`, `Term` and `Prefix` are the one-field queries; `Range`
      carries the bounds present; `BoolQuery` is `{bool:{…}}` where an empty list means the
      key is absent; `Nested` is `{nested:{path, query}}`. */
  datatype Query =
    | MatchAll
    | PhrasePrefix(text: string, fields: seq<string>)
    | Wildcard(field: string, pattern: string)
    | Term(field: string, value: Scalar)
    | Prefix(field: string, start: string)
    | Range(field: string, gt: Option<Scalar>, gte: Option<Scalar>, lt: Option<Scalar>, lte: Option<Scalar>)
    | BoolQuery(must: seq<Query>, filter: seq<Query>, should: seq<Query>, mustNot: seq<Query>,
                minimumShouldMatch: Option<int>)
    | Nested(path: string, query: Query)

  function Must(clauses: seq<Query>): Query {
    BoolQuery(clauses, [], [], [], None)
  }

  /** At least one of `clauses` must match. */
  function AnyOf(clauses: seq<Query>): Query {
    BoolQuery([], [], clauses, [], Some(1))
  }

  function MustNot(q: Query): Query {
    BoolQuery([], [], [], [q], None)
  }

  /** `*text*`: matches any value containing `text`. */
  function ContainsPattern(text: string): (p: string)
    ensures |p| == |text| + 2 && p[0] == '*' && p[|p| - 1] == '*' && p[1..|p| - 1] == ToLower(text)
  {
    "*" + ToLower(text) + "*"
  }

  // ---- quick search ---------------------------------------------------------------------

  /** The index fields of the top-level text fields whose index type is `esType`, in order. */
  function TextFieldsOfType(defs: seq<FieldDef>, esType: string): (r: seq<string>)
    ensures forall f :: f in defs && f.uiType == "text" && f.esType == esType && !f.nested ==> f.esField in r
    ensures forall x :: x in r ==> exists f :: f in defs && f.uiType == "text" && f.esType == esType && !f.nested && f.esField == x
    ensures |r| <= |defs|
  {
    if |defs| == 0 then []
    else
      var f := defs[|defs| - 1];
      var init := TextFieldsOfType(defs[..|defs| - 1], esType);
      assert defs == defs[..|defs| - 1] + [f];
      if f.uiType == "text" && f.esType == esType && !f.nested then init + [f.esField] else init
  }

  /** The fields keep the definitions' order: the fields of any first `n` definitions come
      first, in the same order. */
  lemma {:induction false} TextFieldsOfTypeInOrder(defs: seq<FieldDef>, esType: string, n: nat)
    requires n <= |defs|
    ensures TextFieldsOfType(defs[..n], esType) <= TextFieldsOfType(defs, esType)
    decreases |defs| - n
  {
    if n < |defs| {
      TextFieldsOfTypeInOrder(defs, esType, n + 1);
      TextFieldsOfTypeStep(defs[..n + 1], esType);
      assert defs[..n + 1][..n] == defs[..n];
    } else {
      assert defs[..n] == defs;
    }
  }

  lemma TextFieldsOfTypeStep(defs: seq<FieldDef>, esType: string)
    requires |defs| > 0
    ensures TextFieldsOfType(defs[..|defs| - 1], esType) <= TextFieldsOfType(defs, esType)
  {
  }

  /** One wildcard clause per keyword field. */
  function KeywordClauses(keywordFields: seq<string>, text: string): (r: seq<Query>)
    ensures |r| == |keywordFields|
    ensures forall k :: 0 <= k < |r| ==> r[k] == Wildcard(keywordFields[k], ContainsPattern(text))
  {
    seq(|keywordFields|, k requires 0 <= k < |keywordFields| => Wildcard(keywordFields[k], ContainsPattern(text)))
  }

  /** The alternatives the search text is matched by: a phrase-prefix search over the analysed
      text fields when there are any, then a wildcard per keyword field. */
  function TextAlternatives(text: string, defs: seq<FieldDef>): seq<Query> {
    var analyzed := TextFieldsOfType(defs, "text");
    (if |analyzed| > 0 then [PhrasePrefix(text, analyzed)] else [])
      + KeywordClauses(TextFieldsOfType(defs, "keyword"), text)
  }

  function SimpleMust(searchText: string, defs: seq<FieldDef>): seq<Query> {
    var text := Trim(searchText);
    if text == "" then []
    else
      var should := TextAlternatives(text, defs);
      if |should| > 0 then [AnyOf(should)] else []
  }

  /** A filter value is set when it is present, not empty and not "all". */
  predicate FilterSet(value: string) {
    value != "" && value != "all"
  }

  function SimpleFilter(status: string, payType: string): seq<Query> {
    (if FilterSet(status) then [Term("is_active", Boolean(status == "active"))] else [])
      + (if FilterSet(payType) then [Term("pay_type", Str(payType))] else [])
  }

  /** The `query` of the quick-search request. */
  function SimpleQuery(searchText: string, status: string, payType: string, defs: seq<FieldDef>): (q: Query)
    ensures q == MatchAll || (q.BoolQuery? && q.should == [] && q.mustNot == [] && q.minimumShouldMatch.None?
                              && |q.must| <= 1 && |q.filter| <= 2 && |q.must| + |q.filter| > 0)
    ensures q.BoolQuery? && |q.must| == 1 ==> q.must[0].BoolQuery? && q.must[0].minimumShouldMatch == Some(1)
  {
    var must := SimpleMust(searchText, defs);
    var filter := SimpleFilter(status, payType);
    if |must| == 0 && |filter| == 0 then MatchAll else BoolQuery(must, filter, [], [], None)
  }

  /** The alternatives for non-blank search text, gathered as `buildSimpleQuery` pushes them. */
  method CollectAlternatives(text: string, fieldDefs: seq<FieldDef>) returns (should: seq<Query>)
    ensures should == TextAlternatives(text, fieldDefs)
  {
    var analyzedFields := TextFieldsOfType(fieldDefs, "text");
    var keywordFields := TextFieldsOfType(fieldDefs, "keyword");
    should := [];
    if |analyzedFields| > 0 {
      should := should + [PhrasePrefix(text, analyzedFields)];
    }
    ghost var head := should;
    for i := 0 to |keywordFields|
      invariant should == head + KeywordClauses(keywordFields[..i], text)
    {
      assert keywordFields[..i + 1] == keywordFields[..i] + [keywordFields[i]];
      should := should + [Wildcard(keywordFields[i], ContainsPattern(text))];
    }
    assert keywordFields[..|keywordFields|] == keywordFields;
  }

  /** `buildSimpleQuery`; a missing text or filter value is "". */
  method BuildSimpleQuery(searchText: string, status: string, payType: string, fieldDefs: seq<FieldDef>)
    returns (q: Query)
    ensures q == SimpleQuery(searchText, status, payType, fieldDefs)
  {
    var must: seq<Query> := [];
    var filter: seq<Query> := [];
    var text := Trim(searchText);
    if text != "" {
      var should := CollectAlternatives(text, fieldDefs);
      if |should| > 0 {
        must := must + [AnyOf(should)];
      }
    }
    assert must == SimpleMust(searchText, fieldDefs);
    if FilterSet(status) {
      filter := filter + [Term("is_active", Boolean(status == "active"))];
    }
    if FilterSet(payType) {
      filter := filter + [Term("pay_type", Str(payType))];
    }
    assert filter == SimpleFilter(status, payType);
    if |must| == 0 && |filter| == 0 {
      return MatchAll;
    }
    return BoolQuery(must, filter, [], [], None);
  }

  /** The quick search matches everything exactly when there is no text to match (blank, or
      no top-level text field to match it in) and neither filter is set. */
  lemma {:induction false} MatchAllExactly(searchText: string, status: string, payType: string, defs: seq<FieldDef>)
    ensures SimpleQuery(searchText, status, payType, defs) == MatchAll
        <==> (Trim(searchText) == "" || TextAlternatives(Trim(searchText), defs) == [])
             && !FilterSet(status) && !FilterSet(payType)
  {
  }

  /** A set status filter becomes a term on `is_active` that is true exactly for "active". */
  lemma {:induction false} StatusFilter(searchText: string, status: string, payType: string, defs: seq<FieldDef>)
    requires FilterSet(status)
    ensures SimpleQuery(searchText, status, payType, defs).BoolQuery?
    ensures SimpleQuery(searchText, status, payType, defs).filter[0] == Term("is_active", Boolean(status == "active"))
  {
  }

  /** A set pay-type filter becomes a term on `pay_type` holding the value as given, after
      the status filter if there is one. */
  lemma {:induction false} PayTypeFilter(searchText: string, status: string, payType: string, defs: seq<FieldDef>)
    requires FilterSet(payType)
    ensures SimpleQuery(searchText, status, payType, defs).BoolQuery?
    ensures var filter := SimpleQuery(searchText, status, payType, defs).filter;
      |filter| == (if FilterSet(status) then 2 else 1) && filter[|filter| - 1] == Term("pay_type", Str(payType))
  {
  }

  /** When some top-level field is an analysed text field, the first alternative of non-blank
      search text is one phrase-prefix search over all such fields, that one among them. */
  lemma {:induction false} AnalyzedFieldsSearched(searchText: string, status: string, payType: string, defs: seq<FieldDef>, f: FieldDef)
    requires Trim(searchText) != ""
    requires f in defs && f.uiType == "text" && f.esType == "text" && !f.nested
    ensures SimpleQuery(searchText, status, payType, defs).BoolQuery?
    ensures var should := SimpleQuery(searchText, status, payType, defs).must[0].should;
      |should| > 0 && should[0] == PhrasePrefix(Trim(searchText), TextFieldsOfType(defs, "text"))
      && f.esField in should[0].fields
  {
    var analyzed := TextFieldsOfType(defs, "text");
    assert f.esField in analyzed;
    var alts := TextAlternatives(Trim(searchText), defs);
    assert alts[0] == PhrasePrefix(Trim(searchText), analyzed);
  }

  /** Every top-level keyword text field is searched with a wildcard on the trimmed,
      lower-cased text. */
  lemma {:induction false} KeywordFieldSearched(searchText: string, status: string, payType: string, defs: seq<FieldDef>, f: FieldDef)
    requires Trim(searchText) != ""
    requires f in defs && f.uiType == "text" && f.esType == "keyword" && !f.nested
    ensures SimpleQuery(searchText, status, payType, defs).BoolQuery?
    ensures Wildcard(f.esField, ContainsPattern(Trim(searchText)))
              in SimpleQuery(searchText, status, payType, defs).must[0].should
  {
    var text := Trim(searchText);
    var kws := TextFieldsOfType(defs, "keyword");
    assert f.esField in kws;
    var k :| 0 <= k < |kws| && kws[k] == f.esField;
    var kc := KeywordClauses(kws, text);
    assert kc[k] == Wildcard(f.esField, ContainsPattern(text));
    var alts := TextAlternatives(text, defs);
    assert kc[k] in alts;
  }

  // ---- advanced search ------------------------------------------------------------------

  /** A node of the advanced search tree; nodes of any other type are `OtherNode`. Missing
      condition values are "". */
  datatype Node =
    | Group(operator: string, children: seq<Node>)
    | Condition(field: string, operator: string, value: string, value2: string)
    | OtherNode

  /** `parseFloat`: the number a text starts with, or `None` for NaN. */
  type NumberParser = string -> Option<real>

  /** "true" and "false" select values stand for booleans; other values stay text. */
  function SelectValue(value: string): (v: Scalar)
    ensures value == "true" ==> v == Boolean(true)
    ensures value == "false" ==> v == Boolean(false)
    ensures value != "true" && value != "false" ==> v == Str(value)
  {
    if value == "true" then Boolean(true) else if value == "false" then Boolean(false) else Str(value)
  }

  /** A number comparison: equality as a term, its negation as a must-not, and each order
      comparison as a range with just that bound. */
  function NumberClause(esField: string, operator: string, x: real): (r: Option<Query>)
    ensures r.Some? <==> operator in {"eq", "neq", "gt", "gte", "lt", "lte"}
    ensures operator == "eq" ==> r == Some(Term(esField, Num(x)))
    ensures operator == "neq" ==> r == Some(MustNot(Term(esField, Num(x))))
    ensures operator == "gt" ==> r == Some(Range(esField, Some(Num(x)), None, None, None))
    ensures operator == "gte" ==> r == Some(Range(esField, None, Some(Num(x)), None, None))
    ensures operator == "lt" ==> r == Some(Range(esField, None, None, Some(Num(x)), None))
    ensures operator == "lte" ==> r == Some(Range(esField, None, None, None, Some(Num(x))))
  {
    var n := Some(Num(x));
    if operator == "eq" then Some(Term(esField, Num(x)))
    else if operator == "neq" then Some(MustNot(Term(esField, Num(x))))
    else if operator == "gt" then Some(Range(esField, n, None, None, None))
    else if operator == "gte" then Some(Range(esField, None, n, None, None))
    else if operator == "lt" then Some(Range(esField, None, None, n, None))
    else if operator == "lte" then Some(Range(esField, None, None, None, n))
    else None
  }

  /** The query for one operator on one field; `None` for an operator the field's UI type does
      not offer, a number that does not parse, or a date range without its upper end. */
  function Clause(d: FieldDef, operator: string, value: string, value2: string, parseFloat: NumberParser): (r: Option<Query>)
    ensures d.uiType !in UiTypes ==> r.None?
    ensures d.uiType == "number" && parseFloat(value).None? ==> r.None?
    ensures d.uiType == "date" && operator == "between" && value2 == "" ==> r.None?
    ensures d.uiType == "text" ==> (r.Some? <==> operator in {"contains", "equals", "starts_with"})
    ensures d.uiType == "select" ==> (r.Some? <==> operator in {"is", "is_not"})
    ensures d.uiType == "date" && operator != "between" ==> (r.Some? <==> operator in {"eq", "before", "after"})
    ensures d.uiType == "number" && parseFloat(value).Some? ==> r == NumberClause(d.esField, operator, parseFloat(value).value)
    ensures d.uiType == "text" && operator == "contains" ==> r == Some(Wildcard(d.esField, ContainsPattern(value)))
    ensures d.uiType == "text" && operator == "starts_with" ==> r == Some(Prefix(d.esField, ToLower(value)))
    ensures d.uiType == "text" && operator == "equals" ==> r.Some? && r.value.Term? && r.value.value == Str(value)
    ensures d.uiType == "select" && operator == "is" ==> r == Some(Term(d.esField, SelectValue(value)))
    ensures d.uiType == "date" && operator == "before" ==> r == Some(Range(d.esField, None, None, Some(Str(value)), None))
    ensures d.uiType == "date" && operator == "after" ==> r == Some(Range(d.esField, Some(Str(value)), None, None, None))
    ensures d.uiType == "date" && operator == "between" && value2 != "" ==>
              r == Some(Range(d.esField, None, Some(Str(value)), None, Some(Str(value2))))
  {
    var esField := d.esField;
    if d.uiType == "text" then
      if operator == "contains" then Some(Wildcard(esField, ContainsPattern(value)))
      else if operator == "equals" then
        Some(Term(if d.esType == "keyword" then esField else esField + ".keyword", Str(value)))
      else if operator == "starts_with" then Some(Prefix(esField, ToLower(value)))
      else None
    else if d.uiType == "number" then
      match parseFloat(value)
      case None => None
      case Some(x) => NumberClause(esField, operator, x)
    else if d.uiType == "select" then
      if operator == "is" then Some(Term(esField, SelectValue(value)))
      else if operator == "is_not" then Some(MustNot(Term(esField, SelectValue(value))))
      else None
    else if d.uiType == "date" then
      if operator == "eq" then Some(Range(esField, None, Some(Str(value)), None, Some(Str(value))))
      else if operator == "before" then Some(Range(esField, None, None, Some(Str(value)), None))
      else if operator == "after" then Some(Range(esField, Some(Str(value)), None, None, None))
      else if operator == "between" then
        if value2 == "" then None else Some(Range(esField, None, Some(Str(value)), None, Some(Str(value2))))
      else None
    else None
  }

  /** "Not equal" and "is not" are exactly the negations of "equal" and "is". */
  lemma {:induction false} NegatedOperators(d: FieldDef, value: string, value2: string, parseFloat: NumberParser)
    ensures d.uiType == "number" ==>
              Clause(d, "neq", value, value2, parseFloat)
                == (match Clause(d, "eq", value, value2, parseFloat)
                    case None => None
                    case Some(q) => Some(MustNot(q)))
    ensures d.uiType == "select" ==>
              Clause(d, "is_not", value, value2, parseFloat) == Some(MustNot(Clause(d, "is", value, value2, parseFloat).value))
  {
  }

  /** "Is" on a select field compares with a boolean for "true"/"false" and with the text otherwise. */
  lemma {:induction false} SelectBooleans(d: FieldDef, value: string, value2: string, parseFloat: NumberParser)
    requires d.uiType == "select"
    ensures value == "true" ==> Clause(d, "is", value, value2, parseFloat) == Some(Term(d.esField, Boolean(true)))
    ensures value == "false" ==> Clause(d, "is", value, value2, parseFloat) == Some(Term(d.esField, Boolean(false)))
    ensures value != "true" && value != "false" ==> Clause(d, "is", value, value2, parseFloat) == Some(Term(d.esField, Str(value)))
  {
  }

  /** "Equals" on an analysed text field compares with its `.keyword` sub-field; a keyword
      field is compared directly. */
  lemma {:induction false} TextEqualsTarget(d: FieldDef, value: string, value2: string, parseFloat: NumberParser)
    requires d.uiType == "text"
    ensures Clause(d, "equals", value, value2, parseFloat).value.Term?
    ensures d.esType == "keyword" ==> Clause(d, "equals", value, value2, parseFloat).value.field == d.esField
    ensures d.esType != "keyword" ==> Clause(d, "equals", value, value2, parseFloat).value.field == d.esField + ".keyword"
  {
  }

  /** A date "equals" is the range from the day to itself, the same as "between" it and itself. */
  lemma {:induction false} DateEqualsIsBetweenItself(d: FieldDef, value: string, parseFloat: NumberParser)
    requires d.uiType == "date" && value != ""
    ensures Clause(d, "eq", value, "", parseFloat) == Clause(d, "between", value, value, parseFloat)
  {
  }

  lemma {:induction false} ToLowerIdempotent(s: string)
    ensures ToLower(ToLower(s)) == ToLower(s)
  {
    var t := ToLower(s);
    assert forall k :: 0 <= k < |s| ==> LowerChar(t[k]) == t[k];
  }

  /** Text matching ignores the case of the value typed. */
  lemma {:induction false} TextMatchIgnoresCase(d: FieldDef, operator: string, value: string, parseFloat: NumberParser)
    requires d.uiType == "text" && (operator == "contains" || operator == "starts_with")
    ensures Clause(d, operator, value, "", parseFloat) == Clause(d, operator, ToLower(value), "", parseFloat)
  {
    ToLowerIdempotent(value);
  }

  /** `getFieldDef`: the first definition for `field`. */
  function FindFieldDef(defs: seq<FieldDef>, field: string): (r: Option<FieldDef>)
    ensures r.None? <==> forall k :: 0 <= k < |defs| ==> defs[k].field != field
    ensures r.Some? ==> exists k :: 0 <= k < |defs| && defs[k] == r.value && r.value.field == field
                          && forall j :: 0 <= j < k ==> defs[j].field != field
  {
    if |defs| == 0 then None
    else if defs[0].field == field then Some(defs[0])
    else
      var r := FindFieldDef(defs[1..], field);
      assert forall k :: 0 < k < |defs| ==> defs[1..][k - 1] == defs[k];
      r
  }

  /** The nested path: the text before the first '.' ("" when there is none). */
  function NestedPath(esField: string): (p: string)
    ensures '.' !in p
    ensures '.' in esField ==> StartsWith(esField, p + ".")
    ensures '.' !in esField ==> p == ""
  {
    var i := IndexOf(esField, '.');
    if i < 0 then "" else esField[..i]
  }

  /** A condition with no field, no operator or an empty value (other than for "between")
      asks for nothing. */
  predicate Incomplete(field: string, operator: string, value: string) {
    field == "" || operator == "" || (value == "" && operator != "between")
  }

  /** `buildConditionQuery`: the clause for the condition's field, wrapped in a `nested`
      query on its nested path when the field is nested. */
  function ConditionQuery(c: Node, defs: seq<FieldDef>, parseFloat: NumberParser): (r: Option<Query>)
    requires c.Condition?
    ensures Incomplete(c.field, c.operator, c.value) ==> r.None?
    ensures FindFieldDef(defs, c.field).None? ==> r.None?
    ensures r.Some? ==> !Incomplete(c.field, c.operator, c.value) && FindFieldDef(defs, c.field).Some?
    ensures r.Some? && FindFieldDef(defs, c.field).value.nested ==>
              Clause(FindFieldDef(defs, c.field).value, c.operator, c.value, c.value2, parseFloat).Some? &&
              r.value == Nested(NestedPath(FindFieldDef(defs, c.field).value.esField),
                                Clause(FindFieldDef(defs, c.field).value, c.operator, c.value, c.value2, parseFloat).value)
    ensures !Incomplete(c.field, c.operator, c.value) && FindFieldDef(defs, c.field).Some?
              && !FindFieldDef(defs, c.field).value.nested ==>
              r == Clause(FindFieldDef(defs, c.field).value, c.operator, c.value, c.value2, parseFloat)
  {
    if Incomplete(c.field, c.operator, c.value) then None
    else
      match FindFieldDef(defs, c.field)
      case None => None
      case Some(d) =>
        match Clause(d, c.operator, c.value, c.value2, parseFloat)
        case None => None
        case Some(clause) =>
          if d.nested then Some(Nested(NestedPath(d.esField), clause)) else Some(clause)
  }

  /** The query for a group's clauses: none, the single clause itself, all of them for
      "AND", and at least one of them for any other operator. */
  function Combine(operator: string, clauses: seq<Query>): (r: Option<Query>)
    ensures r.None? <==> |clauses| == 0
    ensures |clauses| == 1 ==> r == Some(clauses[0])
    ensures |clauses| >= 2 && operator == "AND" ==> r == Some(Must(clauses))
    ensures |clauses| >= 2 && operator != "AND" ==> r == Some(AnyOf(clauses))
  {
    if |clauses| == 0 then None
    else if |clauses| == 1 then Some(clauses[0])
    else if operator == "AND" then Some(Must(clauses))
    else Some(AnyOf(clauses))
  }

  /** The query a child contributes: a sub-group's query, a condition's query, or none. */
  function ChildQuery(g: Node, i: nat, defs: seq<FieldDef>, parseFloat: NumberParser): Option<Query>
    requires g.Group? && i < |g.children|
    decreases g, 0, i
  {
    var child := g.children[i];
    if child.Group? then AdvancedQuery(child, defs, parseFloat)
    else if child.Condition? then ConditionQuery(child, defs, parseFloat)
    else None
  }

  /** The clauses of the first `k` children, in order, skipping children that yield none. */
  function ChildClauses(g: Node, k: nat, defs: seq<FieldDef>, parseFloat: NumberParser): (r: seq<Query>)
    requires g.Group? && k <= |g.children|
    ensures |r| <= k
    decreases g, 0, k
  {
    if k == 0 then []
    else
      var init := ChildClauses(g, k - 1, defs, parseFloat);
      match ChildQuery(g, k - 1, defs, parseFloat)
      case None => init
      case Some(q) => init + [q]
  }

  /** `buildAdvancedQuery` as a value. */
  function AdvancedQuery(g: Node, defs: seq<FieldDef>, parseFloat: NumberParser): (r: Option<Query>)
    requires g.Group?
    ensures r.None? <==> ChildClauses(g, |g.children|, defs, parseFloat) == []
    decreases g, 1, 0
  {
    Combine(g.operator, ChildClauses(g, |g.children|, defs, parseFloat))
  }

  /** `buildAdvancedQuery`: collects the children's clauses, recursing into sub-groups. */
  method BuildAdvancedQuery(g: Node, defs: seq<FieldDef>, parseFloat: NumberParser) returns (r: Option<Query>)
    requires g.Group?
    ensures r == AdvancedQuery(g, defs, parseFloat)
    decreases g
  {
    var clauses: seq<Query> := [];
    for i := 0 to |g.children|
      invariant clauses == ChildClauses(g, i, defs, parseFloat)
    {
      var child := g.children[i];
      if child.Group? {
        var subQuery := BuildAdvancedQuery(child, defs, parseFloat);
        if subQuery.Some? {
          clauses := clauses + [subQuery.value];
        }
      } else if child.Condition? {
        var condQuery := ConditionQuery(child, defs, parseFloat);
        if condQuery.Some? {
          clauses := clauses + [condQuery.value];
        }
      }
    }
    r := Combine(g.operator, clauses);
  }

  /** Children of an unknown type change nothing. */
  lemma {:induction false} OtherNodesIgnored(operator: string, children: seq<Node>, defs: seq<FieldDef>, parseFloat: NumberParser)
    ensures AdvancedQuery(Group(operator, children + [OtherNode]), defs, parseFloat)
         == AdvancedQuery(Group(operator, children), defs, parseFloat)
  {
    var g := Group(operator, children);
    var g' := Group(operator, children + [OtherNode]);
    assert g'.children[..|children|] == children == g.children[..|children|];
    ChildClausesOfPrefix(g, g', |children|, defs, parseFloat);
    assert ChildQuery(g', |children|, defs, parseFloat).None?;
    assert ChildClauses(g', |children| + 1, defs, parseFloat) == ChildClauses(g', |children|, defs, parseFloat);
  }

  lemma {:induction false} ChildClausesOfPrefix(g: Node, g': Node, k: nat, defs: seq<FieldDef>, parseFloat: NumberParser)
    requires g.Group? && g'.Group? && k <= |g.children| && k <= |g'.children|
    requires g.children[..k] == g'.children[..k]
    ensures ChildClauses(g, k, defs, parseFloat) == ChildClauses(g', k, defs, parseFloat)
  {
    if k > 0 {
      assert g.children[..k - 1] == g'.children[..k - 1] by {
        assert g.children[..k - 1] == g.children[..k][..k - 1];
        assert g'.children[..k - 1] == g'.children[..k][..k - 1];
      }
      ChildClausesOfPrefix(g, g', k - 1, defs, parseFloat);
      assert g.children[k - 1] == g.children[..k][k - 1];
      assert g'.children[k - 1] == g'.children[..k][k - 1];
    }
  }

  /** A group with a single sub-group is that sub-group, whatever either operator. */
  lemma {:induction false} SingleSubgroupTransparent(operator: string, sub: Node, defs: seq<FieldDef>, parseFloat: NumberParser)
    requires sub.Group?
    ensures AdvancedQuery(Group(operator, [sub]), defs, parseFloat) == AdvancedQuery(sub, defs, parseFloat)
  {
    var g := Group(operator, [sub]);
    assert ChildClauses(g, 0, defs, parseFloat) == [];
    assert ChildQuery(g, 0, defs, parseFloat) == AdvancedQuery(sub, defs, parseFloat);
  }

  // ---- new groups ---------------------------------------------------------------------

  /** `createEmptyCondition`. */
  function EmptyCondition(): (c: Node)
    ensures c.Condition? && c.field == "" && c.operator == "" && c.value == "" && c.value2 == ""
  {
    Condition("", "", "", "")
  }

  /** `createEmptyGroup`; the operator defaults to "AND". */
  function CreateEmptyGroup(operator: Option<string>): (g: Node)
    ensures g.Group? && g.children == [EmptyCondition()]
    ensures g.operator == operator.GetOr("AND")
  {
    Group(operator.GetOr("AND"), [EmptyCondition()])
  }

  /** A freshly created group asks for nothing until its condition is filled in. */
  lemma {:induction false} EmptyGroupHasNoQuery(operator: Option<string>, defs: seq<FieldDef>, parseFloat: NumberParser)
    ensures AdvancedQuery(CreateEmptyGroup(operator), defs, parseFloat).None?
  {
    var g := CreateEmptyGroup(operator);
    assert ChildClauses(g, 0, defs, parseFloat) == [];
    assert ChildQuery(g, 0, defs, parseFloat).None?;
  }
}
