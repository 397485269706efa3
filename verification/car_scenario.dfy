/** The test entity `Car` (spec/entities/Car.ts): the facts its test suite
    expects, derived as lemmas from the general results. */
module CarScenario {
  import opened Wrappers
  import opened JsObject
  import opened MikroMeta
  import opened PropertyModel
  import opened FilterCompiler
  import opened ResourceModel

  function ScalarField(name: string, declaredType: string, columnType: string, primary: bool): ColumnMeta {
    ColumnMeta(name, declaredType, [columnType], primary, Scalar, None, false, None)
  }

  function ManyToOneOf(name: string, target: string): ColumnMeta {
    ColumnMeta(name, target, ["int"], false, ManyToOne, Some(target), false, None)
  }

  /** The fields of `Car`, in declaration order. */
  function CarFields(): seq<ColumnMeta> {
    [ ScalarField("id", "number", "int", true),
      ScalarField("name", "string", "text", false),
      ScalarField("meta", "object", "jsonb", false),
      ScalarField("createdAt", "Date", "timestamptz", false),
      ScalarField("updatedAt", "Date", "timestamptz", false),
      ColumnMeta("type", "enum", ["text"], false, Scalar, None, true, Some([Text("modern"), Text("old")])),
      ManyToOneOf("owner", "User"),
      ManyToOneOf("seller", "Seller") ]
  }

  function CarMeta(): EntityMeta {
    EntityMeta(Some("Car"), Some("Car"), CarFields(), ["id"])
  }

  function TestOrm(): OrmSlot {
    Some(AdapterOrm(Some("mikroorm_test"), Some("postgresql"), Some(map["Car" := CarMeta()])))
  }

  /** The resource reports eight properties at positions 0 to 7, and its
      name is `Car`. */
  lemma CarProperties()
    ensures |Properties(NewResource(TestOrm(), "Car"))| == 8
    ensures forall i :: 0 <= i < 8 ==> Position(Properties(NewResource(TestOrm(), "Car"))[i]) == i
    ensures Name(NewResource(TestOrm(), "Car")) == "Car"
  {
    CarPropsAreFields();
  }

  lemma CarNamesDistinct()
    ensures DistinctNames(CarFields())
  {
    var names := ["id", "name", "meta", "createdAt", "updatedAt", "type", "owner", "seller"];
    assert forall i :: 0 <= i < 8 ==> CarFields()[i].name == names[i];
    assert forall i, j :: 0 <= i < j < 8 ==> names[i] != names[j];
  }

  /** The property list the `Car` resource reports. */
  function CarProps(): seq<Property> {
    Properties(NewResource(TestOrm(), "Car"))
  }

  /** `properties()` wraps each field of `Car` with its index. */
  lemma CarPropsAreFields()
    ensures |CarProps()| == 8
    ensures forall i :: 0 <= i < 8 ==> CarProps()[i] == Property(CarFields()[i], i)
  {
    CarNamesDistinct();
    AllFieldsPositions(TestOrm(), "Car");
  }

  /** Read from `properties()`: `id` is the read-only primary key, `name`
      an editable plain field, the timestamps are read-only, `owner`
      references `User` and cannot be sorted on, and `type` offers `modern`
      and `old`. */
  lemma CarPropertyFacts(table: DataTypes)
    ensures |CarProps()| == 8
    ensures Path(CarProps()[0]) == "id" && IsId(CarProps()[0]) && !IsEditable(CarProps()[0])
    ensures Path(CarProps()[1]) == "name" && !IsId(CarProps()[1]) && IsEditable(CarProps()[1])
    ensures Path(CarProps()[3]) == "createdAt" && !IsEditable(CarProps()[3])
    ensures Path(CarProps()[4]) == "updatedAt" && !IsEditable(CarProps()[4])
    ensures Path(CarProps()[6]) == "owner" && Reference(CarProps()[6]) == Some("User")
    ensures Reference(CarProps()[1]) == None
    ensures !IsSortable(table, CarProps()[6])
    ensures AvailableValues(CarProps()[1]) == None
    ensures Path(CarProps()[5]) == "type" && AvailableValues(CarProps()[5]) == Some(["modern", "old"])
  {
    CarPropsAreFields();
    FieldFacts(table, CarProps());
  }

  /** The expectations, for any list that wraps the fields of `Car` in
      order. */
  lemma FieldFacts(table: DataTypes, props: seq<Property>)
    requires |props| == 8
    requires forall i :: 0 <= i < 8 ==> props[i] == Property(CarFields()[i], i)
    ensures Path(props[0]) == "id" && IsId(props[0]) && !IsEditable(props[0])
    ensures Path(props[1]) == "name" && !IsId(props[1]) && IsEditable(props[1])
    ensures Path(props[3]) == "createdAt" && !IsEditable(props[3])
    ensures Path(props[4]) == "updatedAt" && !IsEditable(props[4])
    ensures Path(props[6]) == "owner" && Reference(props[6]) == Some("User")
    ensures Reference(props[1]) == None
    ensures !IsSortable(table, props[6])
    ensures AvailableValues(props[1]) == None
    ensures Path(props[5]) == "type" && AvailableValues(props[5]) == Some(["modern", "old"])
  {
    var fields := CarFields();
    assert props[0] == Property(fields[0], 0) && props[1] == Property(fields[1], 1);
    assert props[3] == Property(fields[3], 3) && props[4] == Property(fields[4], 4);
    assert props[5] == Property(fields[5], 5) && props[6] == Property(fields[6], 6);
    var values := AvailableValues(props[5]);
    assert values.Some? && |values.value| == 2;
    assert values.value == ["modern", "old"];
  }

  /** With `jsonb` mapped to `mixed`, `meta` is typed `mixed`, and a filter
      on it is a substring match, not a parsed JSON value. */
  lemma CarMetaFilter(table: DataTypes, parse: JsonParser, text: string)
    requires "jsonb" in table && table["jsonb"] == "mixed"
    ensures Type(table, Property(CarFields()[2], 2)) == Some("mixed")
    ensures var filter := Some(Filter(Some([("meta", FilterElement(Plain(text), Property(CarFields()[2], 2)))])));
            Get(ConvertFilter(table, parse, filter), "meta") == Some(Like("%" + text + "%"))
  {
    var e := FilterElement(Plain(text), Property(CarFields()[2], 2));
    var filter := Some(Filter(Some([("meta", e)])));
    assert Get(filter.value.filters.value, "meta") == Some(e);
    MixedFieldIsSubstringMatch(table, parse, filter, "meta", e);
  }

  /** A name shorter than ten characters is rejected with one entry, keyed
      `name`, of kind `minLength`. */
  lemma CarNameTooShort(persist: PersistResult, message: string)
    ensures var errors := [ValidatorError("name", [("minLength", message)])];
            Create(TestOrm(), Some(errors), persist) ==
              Err(ValidationError([("name", ErrorEntry(Some("minLength"), Some(message)))]))
  {
    var errors := [ValidatorError("name", [("minLength", message)])];
    assert FoldErrors(errors, 0) == [];
  }

  /** An entity without a primary key answers `findMany` with nothing. */
  lemma NoPrimaryKeyFindsNothing(ids: seq<RecordId>)
    ensures FindMany(TestOrm(), Resource("Log", Some(CarMeta().(primaryKeys := [])), []), ids) == Ok(None)
  {
  }
}
