/** The presentation facts the adapter derives from one field descriptor
    (src/Property.ts). Every fact is a function of the descriptor and its
    position alone. */
module PropertyModel {
  import opened Wrappers
  import opened MikroMeta

  /** The static table from storage column type to presentation type.
      Its contents are not part of this model: every statement here holds
      for any table. */
  type DataTypes = map<string, string>

  /** A field descriptor wrapped together with its position in the entity. */
  datatype Property = Property(column: ColumnMeta, columnPosition: int)

  /** Field names that are never editable: the creation and update
      timestamps the ORM maintains itself. */
  const NonEditableNames: set<string> := {"createdAt", "updatedAt"}

  /** The presentation type of a relation. */
  const ReferenceType: string := "reference"

  /** The constructor: the position defaults to 0 when not given. */
  function NewProperty(column: ColumnMeta, columnPosition: Option<int>): (p: Property)
    ensures Path(p) == column.name
    ensures p.column == column
    ensures columnPosition.None? ==> Position(p) == 0
    ensures columnPosition.Some? ==> Position(p) == columnPosition.value
  {
    Property(column, columnPosition.GetOr(0))
  }

  /** The record key of the property: the field name. */
  function Path(p: Property): string {
    p.column.name
  }

  function IsId(p: Property): bool {
    p.column.primary
  }

  /** Primary keys and the two timestamp fields are read-only; every other
      field is editable. */
  function IsEditable(p: Property): (r: bool)
    ensures IsId(p) ==> !r
    ensures Path(p) in NonEditableNames ==> !r
    ensures !IsId(p) && Path(p) !in NonEditableNames ==> r
  {
    !IsId(p) && p.column.name != "createdAt" && p.column.name != "updatedAt"
  }

  /** The relation kinds whose value is a single related record. */
  predicate IsSingleReference(kind: ReferenceKind) {
    kind == OneToOne || kind == ManyToOne
  }

  /** The name of the referenced resource: the target entity's name, or the
      declared type when the ORM resolved no target. */
  function Reference(p: Property): (r: Option<string>)
    ensures r.Some? <==> IsSingleReference(p.column.reference)
    ensures r.Some? && p.column.targetName.Some? ==> r.value == p.column.targetName.value
    ensures r.Some? && p.column.targetName.None? ==> r.value == p.column.declaredType
  {
    if IsSingleReference(p.column.reference) then
      Some(p.column.targetName.GetOr(p.column.declaredType))
    else
      None
  }

  /** The key the type table is consulted with: the first storage column
      type. Indexing an empty list yields `undefined`, which JavaScript
      turns into the key `"undefined"`. */
  function PrimaryColumnType(p: Property): string {
    if |p.column.columnTypes| > 0 then p.column.columnTypes[0] else "undefined"
  }

  /** The presentation type. A relation is typed `"reference"` whatever the
      table says, provided its reference name is non-empty (`type()` tests
      the name's truthiness); every other field gets the table's entry for
      its first column type, or `None` when the table has no entry. */
  function Type(table: DataTypes, p: Property): (r: Option<string>)
    ensures Truthy(Reference(p)) ==> r == Some(ReferenceType)
    ensures !Truthy(Reference(p)) && PrimaryColumnType(p) in table ==>
              r == Some(table[PrimaryColumnType(p)])
    ensures !Truthy(Reference(p)) && PrimaryColumnType(p) !in table ==> r.None?
  {
    var looked := if PrimaryColumnType(p) in table then Some(table[PrimaryColumnType(p)]) else None;
    if Truthy(Reference(p)) then Some(ReferenceType) else looked
  }

  /** Sorting is offered for everything except relations. */
  function IsSortable(table: DataTypes, p: Property): (r: bool)
    ensures Truthy(Reference(p)) ==> !r
    ensures !Truthy(Reference(p)) ==>
              (r <==> !(PrimaryColumnType(p) in table && table[PrimaryColumnType(p)] == ReferenceType))
  {
    Type(table, p) != Some(ReferenceType)
  }

  /** The allowed literals of an enum field, as strings, when the field is
      marked enum and lists its items; `None` otherwise. */
  function AvailableValues(p: Property): (r: Option<seq<string>>)
    ensures r.Some? <==> p.column.enumFlag && p.column.items.Some?
    ensures r.Some? ==> |r.value| == |p.column.items.value|
    ensures r.Some? ==> forall i :: 0 <= i < |r.value| ==>
              r.value[i] == ItemString(p.column.items.value[i])
  {
    if p.column.enumFlag && p.column.items.Some? then
      Some(ItemStrings(p.column.items.value))
    else
      None
  }

  /** `String(item)` for every item, in order. */
  function ItemStrings(items: seq<EnumItem>): (r: seq<string>)
    ensures |r| == |items|
    ensures forall i :: 0 <= i < |items| ==> r[i] == ItemString(items[i])
  {
    if items == [] then [] else [ItemString(items[0])] + ItemStrings(items[1..])
  }

  /** `String(item)`: text as is, integers in decimal. */
  function ItemString(item: EnumItem): string {
    match item
    case Text(s) => s
    case Number(n) => DecimalString(n)
  }

  function Position(p: Property): int {
    p.columnPosition
  }

  /** An enum field is one whose declared type is `"enum"`. */
  function IsEnum(p: Property): bool {
    p.column.declaredType == "enum"
  }

  // ---------------------------------------------------------------------
  // Decimal rendering of integers, as `String(n)` does for integral numbers

  function DigitChar(d: int): (c: char)
    requires 0 <= d < 10
    ensures '0' <= c <= '9'
    ensures c as int - '0' as int == d
  {
    ('0' as int + d) as char
  }

  predicate AllDigits(s: string) {
    forall i :: 0 <= i < |s| ==> '0' <= s[i] <= '9'
  }

  /** The digits of a natural number, most significant first, no leading
      zero. */
  function NatDigits(n: nat): (s: string)
    ensures |s| > 0 && AllDigits(s)
    ensures |s| > 1 ==> s[0] != '0'
    decreases n
  {
    if n < 10 then [DigitChar(n)] else NatDigits(n / 10) + [DigitChar(n % 10)]
  }

  function DecimalString(n: int): (s: string)
    ensures |s| > 0
    ensures n < 0 <==> s[0] == '-'
    ensures n >= 0 ==> AllDigits(s)
    ensures n < 0 ==> AllDigits(s[1..])
    ensures n >= 0 ==> DigitsValue(s) == n
    ensures n < 0 ==> DigitsValue(s[1..]) == -n
    ensures n >= 0 && |s| > 1 ==> s[0] != '0'
    ensures n < 0 ==> |s| > 1 && s[1] != '0'
  {
    if n < 0 then
      NatDigitsRoundTrip(-n);
      assert ("-" + NatDigits(-n))[1..] == NatDigits(-n);
      "-" + NatDigits(-n)
    else
      NatDigitsRoundTrip(n);
      NatDigits(n)
  }

  /** The number a string of decimal digits denotes. */
  function DigitsValue(s: string): nat
    requires AllDigits(s)
  {
    if s == [] then 0
    else DigitsValue(s[..|s| - 1]) * 10 + (s[|s| - 1] as int - '0' as int)
  }

  /** Reading a rendered integer back gives the integer: distinct numeric
      enum items render to distinct strings. */
  lemma {:induction false} NatDigitsRoundTrip(n: nat)
    ensures DigitsValue(NatDigits(n)) == n
    decreases n
  {
    if n >= 10 {
      var s := NatDigits(n);
      assert s[..|s| - 1] == NatDigits(n / 10);
      NatDigitsRoundTrip(n / 10);
    }
  }

  lemma DecimalStringInjective(m: int, n: int)
    requires DecimalString(m) == DecimalString(n)
    ensures m == n
  {
    if m < 0 {
      assert DecimalString(m)[1..] == NatDigits(-m);
      assert DecimalString(n)[1..] == NatDigits(-n);
      NatDigitsRoundTrip(-m);
      NatDigitsRoundTrip(-n);
    } else {
      NatDigitsRoundTrip(m);
      NatDigitsRoundTrip(n);
    }
  }

  // ---------------------------------------------------------------------
  // Relations between the facts

  /** Every single-valued relation with a non-empty reference name is typed
      `"reference"` and so cannot be sorted on, whatever the table says. */
  lemma RelationsAreReferencesAndUnsortable(table: DataTypes, p: Property)
    requires IsSingleReference(p.column.reference)
    requires Truthy(p.column.targetName) || (p.column.targetName.None? && p.column.declaredType != "")
    ensures Type(table, p) == Some(ReferenceType)
    ensures !IsSortable(table, p)
  {
  }

  /** A field that is not a relation is typed by the table alone: two tables
      that agree on its column type agree on its type. */
  lemma NonRelationTypedByTable(t1: DataTypes, t2: DataTypes, p: Property)
    requires !IsSingleReference(p.column.reference)
    requires PrimaryColumnType(p) in t1 <==> PrimaryColumnType(p) in t2
    requires PrimaryColumnType(p) in t1 ==> t1[PrimaryColumnType(p)] == t2[PrimaryColumnType(p)]
    ensures Type(t1, p) == Type(t2, p)
  {
  }

  /** `isEnum` looks only at the declared type and `availableValues` only at
      the enum marker and items: changing one side leaves the other alone. */
  lemma EnumFactsIndependent(p: Property, enumFlag: bool, items: Option<seq<EnumItem>>, declaredType: string)
    ensures IsEnum(Property(p.column.(enumFlag := enumFlag, items := items), p.columnPosition)) == IsEnum(p)
    ensures AvailableValues(Property(p.column.(declaredType := declaredType), p.columnPosition)) == AvailableValues(p)
  {
  }
}
