/** The filter compiler (src/utils/convert-filter.ts): turns the admin
    panel's filter object into the ORM's condition object, one field at a
    time, choosing the condition by the field's presentation type. */
module FilterCompiler {
  import opened Wrappers
  import opened JsObject
  import opened PropertyModel
  import opened MikroMeta

  /** A JSON value, as `JSON.parse` produces it. */
  datatype Json =
    | JNull
    | JBool(b: bool)
    | JNumber(n: int)
    | JString(s: string)
    | JArray(elems: seq<Json>)
    | JObject(members: seq<(string, Json)>)

  /** `JSON.parse`, kept abstract: `None` when it throws. */
  type JsonParser = string -> Option<Json>

  /** `new Date(text)`, kept opaque: the date is known only by its text. */
  datatype DateValue = DateOf(text: string)

  /** A filter value: a plain string, or a range whose bounds may be absent. */
  datatype FilterValue = Plain(text: string) | Range(from: Option<string>, to: Option<string>)

  /** One filtered field: its value and the property it filters on. */
  datatype FilterElement = FilterElement(value: FilterValue, property: Property)

  /** The admin panel's filter; its `filters` object may be absent. */
  datatype Filter = Filter(filters: Option<Obj<FilterElement>>)

  /** One condition of the ORM's query object. */
  datatype Condition =
    | Parsed(json: Json)                           // the parsed value, matched exactly
    | Between(gte: DateValue, lte: DateValue)      // { $gte, $lte }
    | AtLeast(gte: DateValue)                      // { $gte }
    | AtMost(lte: DateValue)                       // { $lte }
    | Exact(raw: FilterValue)                      // the raw value, matched exactly
    | Like(pattern: string)                        // { $like }

  /** The types whose values are parsed as JSON. `"mixed"` is not one. */
  const JsonTypes: set<string> := {"boolean", "number", "float", "object", "array"}

  /** The types whose values are date ranges. */
  const DateTypes: set<string> := {"date", "datetime"}

  /** `list.includes(type)`: an undefined type is in no list. */
  predicate TypeIn(t: Option<string>, types: set<string>) {
    t.Some? && t.value in types
  }

  /** The value converted to a string: a plain value is its own text, a
      range object renders as `"[object Object]"`. */
  function ValueText(v: FilterValue): string {
    match v
    case Plain(s) => s
    case Range(_, _) => "[object Object]"
  }

  /** `safeParseJSON`: the parsed value, or `null` when parsing throws. */
  function SafeParseJson(parse: JsonParser, text: string): (j: Json)
    ensures parse(text).Some? ==> j == parse(text).value
    ensures parse(text).None? ==> j == JNull
  {
    parse(text).GetOr(JNull)
  }

  /** The condition for a date field: a range bound counts only when it is a
      non-empty string; a plain value or a range without bounds gives none. */
  function DateCondition(v: FilterValue): (c: Option<Condition>)
    ensures v.Plain? ==> c.None?
    ensures v.Range? && Truthy(v.from) && Truthy(v.to) ==>
              c == Some(Between(DateOf(v.from.value), DateOf(v.to.value)))
    ensures v.Range? && Truthy(v.from) && !Truthy(v.to) ==> c == Some(AtLeast(DateOf(v.from.value)))
    ensures v.Range? && !Truthy(v.from) && Truthy(v.to) ==> c == Some(AtMost(DateOf(v.to.value)))
    ensures v.Range? && !Truthy(v.from) && !Truthy(v.to) ==> c.None?
  {
    match v
    case Plain(_) => None
    case Range(from, to) =>
      if Truthy(from) && Truthy(to) then Some(Between(DateOf(from.value), DateOf(to.value)))
      else if Truthy(from) then Some(AtLeast(DateOf(from.value)))
      else if Truthy(to) then Some(AtMost(DateOf(to.value)))
      else None
  }

  /** The condition for one field, or `None` when the field is left out of
      the query. The branches are tried in this order: JSON types, date
      types, enums and references, everything else. */
  function CompileField(table: DataTypes, parse: JsonParser, e: FilterElement): (r: Option<Condition>)
    ensures r.None? <==> TypeIn(Type(table, e.property), DateTypes) && DateCondition(e.value).None?
    ensures r.Some? && r.value.Parsed? <==> TypeIn(Type(table, e.property), JsonTypes)
    ensures r.Some? && r.value.Parsed? ==> r.value.json == SafeParseJson(parse, ValueText(e.value))
    ensures TypeIn(Type(table, e.property), DateTypes) ==> r == DateCondition(e.value)
    ensures r.Some? && (r.value.Between? || r.value.AtLeast? || r.value.AtMost?) <==>
              TypeIn(Type(table, e.property), DateTypes) && DateCondition(e.value).Some?
    ensures r.Some? && r.value.Exact? <==>
              && !TypeIn(Type(table, e.property), JsonTypes)
              && !TypeIn(Type(table, e.property), DateTypes)
              && (IsEnum(e.property) || Type(table, e.property) == Some(ReferenceType))
    ensures r.Some? && r.value.Exact? ==> r.value.raw == e.value
    ensures r.Some? && r.value.Like? ==> r.value.pattern == "%" + ValueText(e.value) + "%"
  {
    var t := Type(table, e.property);
    if TypeIn(t, JsonTypes) then
      Some(Parsed(SafeParseJson(parse, ValueText(e.value))))
    else if TypeIn(t, DateTypes) then
      DateCondition(e.value)
    else if IsEnum(e.property) || t == Some(ReferenceType) then
      Some(Exact(e.value))
    else
      Some(Like("%" + ValueText(e.value) + "%"))
  }

  /** The condition the compiled query holds for a key, judged from the
      filter object alone. */
  function Expected(table: DataTypes, parse: JsonParser, filters: Obj<FilterElement>, k: string): Option<Condition> {
    match Get(filters, k)
    case None => None
    case Some(e) => CompileField(table, parse, e)
  }

  /** The `reduce` over the filter's entries: `where` is the object built
      so far, `entries` the fields still to visit. */
  function Reduce(table: DataTypes, parse: JsonParser, where: Obj<Condition>, entries: Obj<FilterElement>): (r: Obj<Condition>)
    requires KeySet(where) !! KeySet(entries)
    ensures KeySet(r) <= KeySet(where) + KeySet(entries)
    ensures forall k :: k !in KeySet(entries) ==> Get(r, k) == Get(where, k)
    ensures forall k :: k in KeySet(entries) ==> Get(r, k) == Expected(table, parse, entries, k)
    decreases |entries|
  {
    if entries == [] then where
    else
      var (name, e) := entries[0];
      var rest: Obj<FilterElement> := entries[1..];
      KeyAbsent(rest, name);
      var next := match CompileField(table, parse, e)
        case Some(c) => Put(where, name, c)
        case None => where;
      assert forall k :: k != name ==> Get(next, k) == Get(where, k) by {
        forall k | k != name ensures Get(next, k) == Get(where, k) {
          if CompileField(table, parse, e).Some? {
            GetPutOther(where, name, CompileField(table, parse, e).value, k);
          }
        }
      }
      assert Get(next, name) == CompileField(table, parse, e) by {
        if CompileField(table, parse, e).Some? {
          GetPutSame(where, name, CompileField(table, parse, e).value);
        }
      }
      assert forall k :: k in KeySet(rest) ==> Expected(table, parse, entries, k) == Expected(table, parse, rest, k);
      Reduce(table, parse, next, rest)
  }

  /** `convertFilter`: no filter, or a filter without a `filters` object,
      gives the empty query; otherwise the query holds, for each filtered
      field, the condition that field's own value and property call for,
      and nothing for fields that are not filtered. */
  function ConvertFilter(table: DataTypes, parse: JsonParser, filter: Option<Filter>): (r: Obj<Condition>)
    ensures filter.None? || filter.value.filters.None? ==> r == []
    ensures filter.Some? && filter.value.filters.Some? ==>
              KeySet(r) <= KeySet(filter.value.filters.value)
    ensures filter.Some? && filter.value.filters.Some? ==>
              forall k :: Get(r, k) == Expected(table, parse, filter.value.filters.value, k)
  {
    match filter
    case None => []
    case Some(f) =>
      var filters := f.filters.GetOr([]);
      var r := Reduce(table, parse, [], filters);
      assert forall k :: k !in KeySet(filters) ==> Get(r, k) == Expected(table, parse, filters, k);
      r
  }

  // ---------------------------------------------------------------------
  // The per-type rules, stated for a field of the compiled query

  /** The filter object a query is compiled from, when there is one. */
  predicate HasFilters(filter: Option<Filter>) {
    filter.Some? && filter.value.filters.Some?
  }

  /** Boolean, numeric, object and array fields hold the parsed value, or
      `null` when the text does not parse: a malformed value never fails. */
  lemma JsonFieldIsParsed(table: DataTypes, parse: JsonParser, filter: Option<Filter>, k: string, e: FilterElement)
    requires HasFilters(filter) && Get(filter.value.filters.value, k) == Some(e)
    requires TypeIn(Type(table, e.property), JsonTypes)
    ensures parse(ValueText(e.value)).Some? ==>
              Get(ConvertFilter(table, parse, filter), k) == Some(Parsed(parse(ValueText(e.value)).value))
    ensures parse(ValueText(e.value)).None? ==>
              Get(ConvertFilter(table, parse, filter), k) == Some(Parsed(JNull))
  {
  }

  /** Date fields hold the range's bounds: both, the lower one or the upper
      one; a plain value or a range without bounds leaves the field out. */
  lemma DateFieldIsRange(table: DataTypes, parse: JsonParser, filter: Option<Filter>, k: string, e: FilterElement)
    requires HasFilters(filter) && Get(filter.value.filters.value, k) == Some(e)
    requires TypeIn(Type(table, e.property), DateTypes)
    ensures Get(ConvertFilter(table, parse, filter), k) == DateCondition(e.value)
    ensures Get(ConvertFilter(table, parse, filter), k).None? <==>
              e.value.Plain? || (!Truthy(e.value.from) && !Truthy(e.value.to))
  {
    assert Expected(table, parse, filter.value.filters.value, k) == CompileField(table, parse, e);
    assert !TypeIn(Type(table, e.property), JsonTypes);
  }

  /** Enum and reference fields that are neither JSON nor date typed hold
      the raw value unchanged. */
  lemma EnumOrReferenceFieldPassesThrough(table: DataTypes, parse: JsonParser, filter: Option<Filter>, k: string, e: FilterElement)
    requires HasFilters(filter) && Get(filter.value.filters.value, k) == Some(e)
    requires !TypeIn(Type(table, e.property), JsonTypes) && !TypeIn(Type(table, e.property), DateTypes)
    requires IsEnum(e.property) || Type(table, e.property) == Some(ReferenceType)
    ensures Get(ConvertFilter(table, parse, filter), k) == Some(Exact(e.value))
  {
  }

  /** Every other field holds a substring match on the value's text. */
  lemma OtherFieldIsSubstringMatch(table: DataTypes, parse: JsonParser, filter: Option<Filter>, k: string, e: FilterElement)
    requires HasFilters(filter) && Get(filter.value.filters.value, k) == Some(e)
    requires !TypeIn(Type(table, e.property), JsonTypes) && !TypeIn(Type(table, e.property), DateTypes)
    requires !IsEnum(e.property) && Type(table, e.property) != Some(ReferenceType)
    ensures Get(ConvertFilter(table, parse, filter), k) == Some(Like("%" + ValueText(e.value) + "%"))
  {
  }

  /** A `"mixed"` (JSON column) field is not parsed: unless it is an enum,
      it is matched as a substring of its text. */
  lemma MixedFieldIsSubstringMatch(table: DataTypes, parse: JsonParser, filter: Option<Filter>, k: string, e: FilterElement)
    requires HasFilters(filter) && Get(filter.value.filters.value, k) == Some(e)
    requires Type(table, e.property) == Some("mixed") && !IsEnum(e.property)
    ensures Get(ConvertFilter(table, parse, filter), k) == Some(Like("%" + ValueText(e.value) + "%"))
  {
    assert "mixed" !in JsonTypes && "mixed" !in DateTypes && "mixed" != ReferenceType;
    OtherFieldIsSubstringMatch(table, parse, filter, k, e);
  }

  /** Whether a field passes its raw value through is decided by its
      declared type `"enum"`, not by the enum marker and item list that
      give it its allowed values: changing those changes no condition. */
  lemma FilterIgnoresEnumMarker(table: DataTypes, parse: JsonParser, v: FilterValue, p: Property,
                                enumFlag: bool, items: Option<seq<EnumItem>>)
    ensures var q := Property(p.column.(enumFlag := enumFlag, items := items), p.columnPosition);
            CompileField(table, parse, FilterElement(v, q)) == CompileField(table, parse, FilterElement(v, p))
    ensures var t := Type(table, p);
            !TypeIn(t, JsonTypes) && !TypeIn(t, DateTypes) && t != Some(ReferenceType) ==>
              (CompileField(table, parse, FilterElement(v, p)) == Some(Exact(v)) <==> p.column.declaredType == "enum")
  {
    var q := Property(p.column.(enumFlag := enumFlag, items := items), p.columnPosition);
    assert Reference(q) == Reference(p) && PrimaryColumnType(q) == PrimaryColumnType(p);
  }

  /** Each field of the query depends only on that field's own entry: two
      filters that agree on a key compile to queries that agree on it, in
      whatever order their entries were inserted. */
  lemma FieldDependsOnlyOnItsEntry(table: DataTypes, parse: JsonParser, f1: Filter, f2: Filter, k: string)
    requires f1.filters.Some? && f2.filters.Some?
    requires Get(f1.filters.value, k) == Get(f2.filters.value, k)
    ensures Get(ConvertFilter(table, parse, Some(f1)), k) == Get(ConvertFilter(table, parse, Some(f2)), k)
  {
  }
}
