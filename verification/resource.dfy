/** The pure part of the resource adapter (src/Resource.ts): the property
    object built from an entity's metadata, the names the resource reports,
    the guards and defaults of each data operation, and the shaping of
    validation and persistence failures. The ORM's own calls are not
    modelled: an operation yields the repository request it would issue,
    and what the ORM answers (a record found, a persistence failure, the
    validator's error list) is a parameter. */
module ResourceModel {
  import opened Wrappers
  import opened JsObject
  import opened MikroMeta
  import opened PropertyModel
  import opened FilterCompiler

  /** What the adapter keeps of the registered ORM: the database name, the
      dialect, and the metadata catalog. */
  datatype AdapterOrm = AdapterOrm(database: Option<string>, databaseType: Option<string>, metadata: Option<Catalog>)

  /** The registered ORM, or `None` before registration. */
  type OrmSlot = Option<AdapterOrm>

  /** One resource: the entity class name it was built for, that entity's
      metadata when the catalog knows it, and its properties keyed by path. */
  datatype Resource = Resource(modelName: string, metadata: Option<EntityMeta>, propertiesObject: Obj<Property>)

  const OrmNotFoundError: string :=
    "ORM is not set. Make sure to set it before registering the adapter: AdminBro.setORM(mikroOrmInstance)"

  const RecordNotFoundError: string := "Record to update not found"

  const DefaultDatabaseName: string := "mikroorm"

  const DefaultLimit: int := 10

  const DefaultOffset: int := 0

  // ---------------------------------------------------------------------
  // Building the properties

  /** The relation kinds that become properties; collections and embedded
      objects do not. */
  predicate Hydratable(kind: ReferenceKind) {
    kind == Scalar || kind == ManyToOne || kind == OneToOne
  }

  /** The field at index `i` is the last hydratable field among the first
      `n` with its name. */
  ghost predicate LastOfName(hydrate: seq<ColumnMeta>, n: int, i: int)
    requires 0 <= i < n <= |hydrate|
  {
    forall j :: i < j < n && Hydratable(hydrate[j].reference) ==> hydrate[j].name != hydrate[i].name
  }

  /** The names of the hydratable fields among the first `n`. */
  ghost function HydratableNames(hydrate: seq<ColumnMeta>, n: nat): set<string>
    requires n <= |hydrate|
  {
    set i | 0 <= i < n && Hydratable(hydrate[i].reference) :: hydrate[i].name
  }

  /** An entry of the property object is keyed by its property's path and
      wraps a hydratable field found, among the first `n`, at the index the
      property reports as its position. */
  ghost predicate FromField(hydrate: seq<ColumnMeta>, n: nat, key: string, p: Property)
    requires n <= |hydrate|
  {
    && key == Path(p)
    && 0 <= Position(p) < n
    && hydrate[Position(p)] == p.column
    && Hydratable(p.column.reference)
  }

  ghost predicate AllFromFields(hydrate: seq<ColumnMeta>, n: nat, o: Obj<Property>)
    requires n <= |hydrate|
  {
    forall i :: 0 <= i < |o| ==> FromField(hydrate, n, o[i].0, o[i].1)
  }

  /** The `reduce` of `prepareProperties` after its first `n` steps. */
  function PrepareUpTo(hydrate: seq<ColumnMeta>, n: nat): Obj<Property>
    requires n <= |hydrate|
  {
    if n == 0 then []
    else
      var memo := PrepareUpTo(hydrate, n - 1);
      var prop := hydrate[n - 1];
      if !Hydratable(prop.reference) then memo
      else
        var property := NewProperty(prop, Some(n - 1));
        Put(memo, Path(property), property)
  }

  /** Every property comes from a hydratable field and sits at that field's
      index in the FULL list, not in the list of hydratable fields. */
  lemma {:induction false} PrepareSound(hydrate: seq<ColumnMeta>, n: nat)
    requires n <= |hydrate|
    ensures AllFromFields(hydrate, n, PrepareUpTo(hydrate, n))
  {
    if n > 0 {
      PrepareSound(hydrate, n - 1);
      var memo := PrepareUpTo(hydrate, n - 1);
      var prop := hydrate[n - 1];
      if Hydratable(prop.reference) {
        var property := NewProperty(prop, Some(n - 1));
        var r := Put(memo, Path(property), property);
        PutEntries(memo, Path(property), property);
        forall i | 0 <= i < |r| ensures FromField(hydrate, n, r[i].0, r[i].1) {
          if i < |memo| && memo[i].0 != Path(property) {
            assert FromField(hydrate, n - 1, memo[i].0, memo[i].1);
          }
        }
      }
    }
  }

  /** The keys are exactly the names of the hydratable fields: collections
      and embedded objects are skipped. */
  lemma {:induction false} PrepareKeys(hydrate: seq<ColumnMeta>, n: nat)
    requires n <= |hydrate|
    ensures KeySet(PrepareUpTo(hydrate, n)) == HydratableNames(hydrate, n)
  {
    if n > 0 {
      PrepareKeys(hydrate, n - 1);
      if Hydratable(hydrate[n - 1].reference) {
        assert HydratableNames(hydrate, n) == HydratableNames(hydrate, n - 1) + {hydrate[n - 1].name};
      } else {
        assert HydratableNames(hydrate, n) == HydratableNames(hydrate, n - 1);
      }
    }
  }

  /** A name is bound to the last hydratable field carrying it, with that
      field's index as position. */
  lemma {:induction false} PrepareLastWins(hydrate: seq<ColumnMeta>, n: nat, i: nat)
    requires i < n <= |hydrate|
    requires Hydratable(hydrate[i].reference) && LastOfName(hydrate, n, i)
    ensures Get(PrepareUpTo(hydrate, n), hydrate[i].name) == Some(Property(hydrate[i], i))
  {
    var memo := PrepareUpTo(hydrate, n - 1);
    var prop := hydrate[n - 1];
    if i == n - 1 {
      GetPutSame(memo, prop.name, NewProperty(prop, Some(n - 1)));
    } else {
      PrepareLastWins(hydrate, n - 1, i);
      if Hydratable(prop.reference) {
        GetPutOther(memo, prop.name, NewProperty(prop, Some(n - 1)), hydrate[i].name);
      }
    }
  }

  /** `prepareProperties`: the entity's hydrated fields, or none when the
      entity's metadata is missing. */
  function PrepareProperties(metadata: Option<EntityMeta>): (r: Obj<Property>)
    ensures metadata.None? ==> r == []
    ensures var h := FieldsOf(metadata);
            && KeySet(r) == HydratableNames(h, |h|)
            && AllFromFields(h, |h|, r)
            && (DistinctNames(h) ==> Values(r) == Hydrated(h, |h|))
  {
    var hydrate := FieldsOf(metadata);
    PrepareKeys(hydrate, |hydrate|);
    PrepareSound(hydrate, |hydrate|);
    PrepareListsHydrated(hydrate);
    PrepareUpTo(hydrate, |hydrate|)
  }

  /** `hydrateProps`, or no fields when the metadata is missing. */
  function FieldsOf(metadata: Option<EntityMeta>): seq<ColumnMeta> {
    if metadata.Some? then metadata.value.hydrateProps else []
  }

  lemma PrepareListsHydrated(hydrate: seq<ColumnMeta>)
    ensures DistinctNames(hydrate) ==> Values(PrepareUpTo(hydrate, |hydrate|)) == Hydrated(hydrate, |hydrate|)
  {
    if DistinctNames(hydrate) {
      PropertiesAreHydratedFields(hydrate, |hydrate|);
    }
  }

  /** The entity registered under `modelName`, when there is one. */
  function Lookup(orm: OrmSlot, modelName: string): Option<EntityMeta> {
    if orm.Some? && orm.value.metadata.Some? && modelName in orm.value.metadata.value
    then Some(orm.value.metadata.value[modelName])
    else None
  }

  /** The constructor: look the entity up in the registered catalog, then
      build its properties. An entity the catalog does not know gets no
      metadata and no properties; a known one gets one property per name
      of its scalar, `m:1` and `1:1` fields. */
  function NewResource(orm: OrmSlot, modelName: string): (r: Resource)
    ensures r.modelName == modelName
    ensures r.metadata.Some? <==> orm.Some? && orm.value.metadata.Some? && modelName in orm.value.metadata.value
    ensures r.metadata.Some? ==> r.metadata.value == orm.value.metadata.value[modelName]
    ensures r.metadata.None? ==> r.propertiesObject == []
    ensures r.metadata.Some? ==>
              KeySet(r.propertiesObject) == HydratableNames(r.metadata.value.hydrateProps, |r.metadata.value.hydrateProps|)
  {
    var metadata := Lookup(orm, modelName);
    Resource(modelName, metadata, PrepareProperties(metadata))
  }

  /** `properties()`: the property object's values, in insertion order. */
  function Properties(res: Resource): (r: seq<Property>)
    ensures |r| == |res.propertiesObject|
    ensures forall i :: 0 <= i < |r| ==> r[i] == res.propertiesObject[i].1
  {
    Values(res.propertiesObject)
  }

  /** `property(path)`: the property stored under `path`; `None` exactly
      when no property has that key. */
  function PropertyAt(res: Resource, path: string): (r: Option<Property>)
    ensures r.None? <==> path !in KeySet(res.propertiesObject)
    ensures forall i :: 0 <= i < |res.propertiesObject| && res.propertiesObject[i].0 == path ==>
              r == Some(res.propertiesObject[i].1)
  {
    Get(res.propertiesObject, path)
  }

  // ---------------------------------------------------------------------
  // The reference description of the property list

  /** The hydratable fields among the first `n`, each wrapped with its index
      in the full list, in order. */
  function Hydrated(hydrate: seq<ColumnMeta>, n: nat): seq<Property>
    requires n <= |hydrate|
  {
    if n == 0 then []
    else if Hydratable(hydrate[n - 1].reference) then Hydrated(hydrate, n - 1) + [Property(hydrate[n - 1], n - 1)]
    else Hydrated(hydrate, n - 1)
  }

  ghost predicate DistinctNames(hydrate: seq<ColumnMeta>) {
    forall i, j :: 0 <= i < j < |hydrate| ==> hydrate[i].name != hydrate[j].name
  }

  /** When field names are distinct, as the ORM guarantees for one entity,
      `properties()` lists exactly the hydratable fields in metadata order,
      each with its index in the full list. */
  lemma {:induction false} PropertiesAreHydratedFields(hydrate: seq<ColumnMeta>, n: nat)
    requires n <= |hydrate| && DistinctNames(hydrate)
    ensures Values(PrepareUpTo(hydrate, n)) == Hydrated(hydrate, n)
  {
    if n > 0 {
      PropertiesAreHydratedFields(hydrate, n - 1);
      var memo := PrepareUpTo(hydrate, n - 1);
      var prop := hydrate[n - 1];
      if Hydratable(prop.reference) {
        var property := NewProperty(prop, Some(n - 1));
        NewNameIsAbsent(hydrate, n);
        var r := memo + [(prop.name, property)];
        assert PrepareUpTo(hydrate, n) == r;
        assert Hydrated(hydrate, n) == Hydrated(hydrate, n - 1) + [property];
        assert Values(r) == Values(memo) + [property];
      }
    }
  }

  /** With distinct names, the name of field `n - 1` is not yet a key after
      the first `n - 1` steps. */
  lemma NewNameIsAbsent(hydrate: seq<ColumnMeta>, n: nat)
    requires 0 < n <= |hydrate| && DistinctNames(hydrate)
    ensures hydrate[n - 1].name !in KeySet(PrepareUpTo(hydrate, n - 1))
  {
    var memo := PrepareUpTo(hydrate, n - 1);
    PrepareSound(hydrate, n - 1);
    forall i | 0 <= i < |memo| ensures memo[i].0 != hydrate[n - 1].name {
      assert FromField(hydrate, n - 1, memo[i].0, memo[i].1);
    }
    KeyAbsent(memo, hydrate[n - 1].name);
  }

  /** The positions of the hydrated fields strictly increase. */
  lemma {:induction false} HydratedPositionsIncrease(hydrate: seq<ColumnMeta>, n: nat)
    requires n <= |hydrate|
    ensures forall i :: 0 <= i < |Hydrated(hydrate, n)| ==> 0 <= Position(Hydrated(hydrate, n)[i]) < n
    ensures forall i, j :: 0 <= i < j < |Hydrated(hydrate, n)| ==>
              Position(Hydrated(hydrate, n)[i]) < Position(Hydrated(hydrate, n)[j])
  {
    if n > 0 {
      HydratedPositionsIncrease(hydrate, n - 1);
    }
  }

  /** When every field is hydratable, the positions are 0, 1, 2, ... */
  lemma {:induction false} AllHydratedPositions(hydrate: seq<ColumnMeta>, n: nat)
    requires n <= |hydrate|
    requires forall i :: 0 <= i < |hydrate| ==> Hydratable(hydrate[i].reference)
    ensures |Hydrated(hydrate, n)| == n
    ensures forall i :: 0 <= i < n ==> Hydrated(hydrate, n)[i] == Property(hydrate[i], i)
  {
    if n > 0 {
      AllHydratedPositions(hydrate, n - 1);
    }
  }

  /** For an entity whose fields all become properties and have distinct
      names, `properties()` lists one property per field, in order, with
      positions 0, 1, 2, ... */
  lemma AllFieldsPositions(orm: OrmSlot, modelName: string)
    requires orm.Some? && orm.value.metadata.Some? && modelName in orm.value.metadata.value
    requires var h := orm.value.metadata.value[modelName].hydrateProps;
             DistinctNames(h) && forall i :: 0 <= i < |h| ==> Hydratable(h[i].reference)
    ensures var props := Properties(NewResource(orm, modelName));
            && |props| == |orm.value.metadata.value[modelName].hydrateProps|
            && forall i :: 0 <= i < |props| ==>
                 props[i] == Property(orm.value.metadata.value[modelName].hydrateProps[i], i)
  {
    var h := orm.value.metadata.value[modelName].hydrateProps;
    PropertiesAreHydratedFields(h, |h|);
    AllHydratedPositions(h, |h|);
  }

  /** A property of a resource is an id exactly when the metadata field it
      wraps, found at the property's position, is a primary key. */
  lemma IdPropertiesArePrimaryFields(orm: OrmSlot, modelName: string)
    ensures var res := NewResource(orm, modelName);
            var h := FieldsOf(res.metadata);
            forall i :: 0 <= i < |Properties(res)| ==>
              && 0 <= Position(Properties(res)[i]) < |h|
              && (IsId(Properties(res)[i]) <==> h[Position(Properties(res)[i])].primary)
  {
  }

  /** `property(name)` reports as its position the index, in the full
      field list, of the last scalar, `m:1` or `1:1` field with that name. */
  lemma PositionIsFieldIndex(orm: OrmSlot, modelName: string, j: nat)
    requires Lookup(orm, modelName).Some?
    requires var h := Lookup(orm, modelName).value.hydrateProps;
             j < |h| && Hydratable(h[j].reference) && LastOfName(h, |h|, j)
    ensures var h := Lookup(orm, modelName).value.hydrateProps;
            var p := PropertyAt(NewResource(orm, modelName), h[j].name);
            p.Some? && Position(p.value) == j && p.value.column == h[j]
  {
    var h := Lookup(orm, modelName).value.hydrateProps;
    PrepareLastWins(h, |h|, j);
  }

  /** `property(path)` returns a property whose path is `path`, and finds
      every hydratable field of the entity by its name. */
  lemma PropertyLookupByPath(orm: OrmSlot, modelName: string, path: string)
    ensures var res := NewResource(orm, modelName);
            PropertyAt(res, path).Some? ==> Path(PropertyAt(res, path).value) == path
    ensures var res := NewResource(orm, modelName);
            res.metadata.Some? ==>
              (PropertyAt(res, path).Some? <==> path in HydratableNames(res.metadata.value.hydrateProps, |res.metadata.value.hydrateProps|))
  {
    var res := NewResource(orm, modelName);
    var h := if res.metadata.Some? then res.metadata.value.hydrateProps else [];
    var o := res.propertiesObject;
    PrepareKeys(h, |h|);
    PrepareSound(h, |h|);
    if PropertyAt(res, path).Some? {
      var i := KeyPresent(o, path);
      assert FromField(h, |h|, o[i].0, o[i].1);
    }
  }

  // ---------------------------------------------------------------------
  // Names

  /** `name()`: the metadata's name, else its class name, else empty. */
  function Name(res: Resource): (r: string)
    ensures res.metadata.None? ==> r == ""
    ensures res.metadata.Some? && res.metadata.value.name.Some? ==> r == res.metadata.value.name.value
    ensures res.metadata.Some? && res.metadata.value.name.None? && res.metadata.value.className.Some? ==>
              r == res.metadata.value.className.value
    ensures res.metadata.Some? && res.metadata.value.name.None? && res.metadata.value.className.None? ==>
              r == ""
  {
    match res.metadata
    case None => ""
    case Some(m) => m.name.GetOr(m.className.GetOr(""))
  }

  /** `id()`: the resource is identified by its name. */
  function Id(res: Resource): string {
    Name(res)
  }

  /** The id of a resource is the registered entity's name, else its class
      name, else empty; an entity the catalog does not know has the empty
      id. */
  lemma IdOfRegisteredEntity(orm: OrmSlot, modelName: string)
    ensures var res := NewResource(orm, modelName);
            Lookup(orm, modelName).None? ==> Id(res) == ""
    ensures var res := NewResource(orm, modelName);
            Lookup(orm, modelName).Some? ==>
              Id(res) == orm.value.metadata.value[modelName].name.GetOr(orm.value.metadata.value[modelName].className.GetOr(""))
  {
  }

  /** `databaseName()`: the registered database name, or `"mikroorm"` when
      there is no ORM or the name is absent or empty; never empty. */
  function DatabaseName(orm: OrmSlot): (r: string)
    ensures r != ""
    ensures orm.Some? && Truthy(orm.value.database) ==> r == orm.value.database.value
    ensures !(orm.Some? && Truthy(orm.value.database)) ==> r == DefaultDatabaseName
  {
    if orm.Some? && Truthy(orm.value.database) then orm.value.database.value else DefaultDatabaseName
  }

  /** `databaseType()`: the registered dialect, or the database name when
      the dialect is absent or empty; never empty. */
  function DatabaseType(orm: OrmSlot): (r: string)
    ensures r != ""
    ensures orm.Some? && Truthy(orm.value.databaseType) ==> r == orm.value.databaseType.value
    ensures !(orm.Some? && Truthy(orm.value.databaseType)) ==> r == DatabaseName(orm)
  {
    if orm.Some? && Truthy(orm.value.databaseType) then orm.value.databaseType.value else DatabaseName(orm)
  }

  // ---------------------------------------------------------------------
  // Errors

  /** One entry of a validation error: the violated rule and its message,
      either of which is undefined when the validator listed no rule. */
  datatype ErrorEntry = ErrorEntry(kind: Option<string>, message: Option<string>)

  /** The errors the adapter reports. */
  datatype AdapterError =
    | OrmNotSet(message: string)
    | RecordNotFound(message: string)
    | ValidationError(propertyErrors: Obj<ErrorEntry>)

  /** One error of the validator: the property and its violated rules
      (rule name to message, in the validator's order). */
  datatype ValidatorError = ValidatorError(property: string, constraints: Obj<string>)

  /** The outcome of persisting an entity; a failure carries the error's
      class name, the offending column and the message. */
  datatype PersistResult = Persisted | PersistFailed(name: string, column: string, message: string)

  /** The name of the persistence error that is reported as a validation
      error. */
  const QueryFailedError: string := "QueryFailedError"

  /** The entry for one validator error: its first rule and that rule's
      message. */
  function EntryOf(e: ValidatorError): (r: ErrorEntry)
    ensures |e.constraints| > 0 ==> r == ErrorEntry(Some(e.constraints[0].0), Some(e.constraints[0].1))
    ensures |e.constraints| == 0 ==> r == ErrorEntry(None, None)
  {
    if |e.constraints| > 0 then ErrorEntry(Some(Keys(e.constraints)[0]), Some(Values(e.constraints)[0]))
    else ErrorEntry(None, None)
  }

  /** The property names of a list of validator errors. */
  function ErrorProperties(errors: seq<ValidatorError>): set<string> {
    set i | 0 <= i < |errors| :: errors[i].property
  }

  /** The `reduce` of the validator's errors after its first `n` steps. */
  function FoldErrors(errors: seq<ValidatorError>, n: nat): Obj<ErrorEntry>
    requires n <= |errors|
  {
    if n == 0 then []
    else Put(FoldErrors(errors, n - 1), errors[n - 1].property, EntryOf(errors[n - 1]))
  }

  /** One entry per property the validator named, and no other. */
  lemma {:induction false} FoldErrorsKeys(errors: seq<ValidatorError>, n: nat)
    requires n <= |errors|
    ensures KeySet(FoldErrors(errors, n)) == ErrorProperties(errors[..n])
  {
    if n > 0 {
      FoldErrorsKeys(errors, n - 1);
      assert ErrorProperties(errors[..n]) == ErrorProperties(errors[..n - 1]) + {errors[n - 1].property} by {
        assert forall i :: 0 <= i < n - 1 ==> errors[..n][i] == errors[..n - 1][i];
        assert errors[..n][n - 1] == errors[n - 1];
      }
    }
  }

  /** A later error for a property overwrites an earlier one: the entry of
      a property is the one of its last error. */
  lemma {:induction false} FoldErrorsLastWins(errors: seq<ValidatorError>, n: nat, i: nat)
    requires i < n <= |errors|
    requires forall j :: i < j < n ==> errors[j].property != errors[i].property
    ensures Get(FoldErrors(errors, n), errors[i].property) == Some(EntryOf(errors[i]))
  {
    var memo := FoldErrors(errors, n - 1);
    var e := errors[n - 1];
    if i == n - 1 {
      GetPutSame(memo, e.property, EntryOf(e));
    } else {
      FoldErrorsLastWins(errors, n - 1, i);
      GetPutOther(memo, e.property, EntryOf(e), errors[i].property);
    }
  }

  /** The validation error object built from the validator's list. */
  function ValidationErrors(errors: seq<ValidatorError>): (r: Obj<ErrorEntry>)
    ensures KeySet(r) == ErrorProperties(errors)
    ensures forall i :: 0 <= i < |errors| && LastError(errors, i) ==> Get(r, errors[i].property) == Some(EntryOf(errors[i]))
  {
    assert errors[..|errors|] == errors;
    FoldErrorsKeys(errors, |errors|);
    FoldErrorsAllLastWins(errors);
    FoldErrors(errors, |errors|)
  }

  /** Error `i` is the last one the validator reported for its property. */
  ghost predicate LastError(errors: seq<ValidatorError>, i: int)
    requires 0 <= i < |errors|
  {
    forall j :: i < j < |errors| ==> errors[j].property != errors[i].property
  }

  lemma FoldErrorsAllLastWins(errors: seq<ValidatorError>)
    ensures forall i :: 0 <= i < |errors| && LastError(errors, i) ==>
              Get(FoldErrors(errors, |errors|), errors[i].property) == Some(EntryOf(errors[i]))
  {
    forall i | 0 <= i < |errors| && LastError(errors, i)
      ensures Get(FoldErrors(errors, |errors|), errors[i].property) == Some(EntryOf(errors[i]))
    {
      FoldErrorsLastWins(errors, |errors|, i);
    }
  }

  /** What a persistence outcome becomes: a failure named `QueryFailedError`
      is reported as a one-entry validation error keyed by its column; any
      other failure is dropped. */
  function PersistOutcome(persist: PersistResult): (r: Result<(), AdapterError>)
    ensures r.Err? <==> persist.PersistFailed? && persist.name == QueryFailedError
    ensures r.Err? ==> r.error == ValidationError([(persist.column, ErrorEntry(Some(QueryFailedError), Some(persist.message)))])
  {
    if persist.PersistFailed? && persist.name == QueryFailedError then
      Err(ValidationError([(persist.column, ErrorEntry(Some(QueryFailedError), Some(persist.message)))]))
    else
      Ok(())
  }

  /** `validateAndSave`: `validation` is the configured validator's error
      list (`None` when no validator is configured or it returned nothing).
      A non-empty list is reported as a validation error and nothing is
      persisted; otherwise the persistence outcome decides. */
  function ValidateAndSave(validation: Option<seq<ValidatorError>>, persist: PersistResult): (r: Result<(), AdapterError>)
    ensures validation.Some? && |validation.value| > 0 ==> r == Err(ValidationError(ValidationErrors(validation.value)))
    ensures validation.None? || |validation.value| == 0 ==> r == PersistOutcome(persist)
  {
    if validation.Some? && |validation.value| > 0 then Err(ValidationError(ValidationErrors(validation.value)))
    else PersistOutcome(persist)
  }

  /** The validation error reports exactly the properties the validator
      named, each with the first rule of that property's last error. */
  lemma ValidationErrorShape(errors: seq<ValidatorError>, persist: PersistResult, i: int)
    requires |errors| > 0 && 0 <= i < |errors|
    requires forall j :: i < j < |errors| ==> errors[j].property != errors[i].property
    ensures ValidateAndSave(Some(errors), persist).Err?
    ensures KeySet(ValidateAndSave(Some(errors), persist).error.propertyErrors) == ErrorProperties(errors)
    ensures Get(ValidateAndSave(Some(errors), persist).error.propertyErrors, errors[i].property) == Some(EntryOf(errors[i]))
  {
    assert errors[..|errors|] == errors;
    FoldErrorsKeys(errors, |errors|);
    FoldErrorsLastWins(errors, |errors|, i);
  }

  /** An error is raised exactly when the validator reported something or
      persistence failed with `QueryFailedError`; every other persistence
      failure is swallowed. */
  lemma ValidateAndSaveFailsIff(validation: Option<seq<ValidatorError>>, persist: PersistResult)
    ensures ValidateAndSave(validation, persist).Err? <==>
              (validation.Some? && |validation.value| > 0) ||
              (persist.PersistFailed? && persist.name == QueryFailedError)
  {
  }

  // ---------------------------------------------------------------------
  // Operations: guards, defaults and the request issued

  /** An identifier as the admin panel passes it. */
  datatype RecordId = StringId(s: string) | NumberId(n: int)

  datatype Direction = Asc | Desc

  /** The sort the admin panel asks for; either part may be undefined. */
  datatype Sort = Sort(sortBy: Option<string>, direction: Option<Direction>)

  /** `find`'s options; each may be undefined. */
  datatype FindParams = FindParams(limit: Option<int>, offset: Option<int>, sort: Option<Sort>)

  /** A request to the entity's repository. The order key of a find is
      the sort field, or `"undefined"` when none is given (JavaScript's
      rendering of an undefined computed key). */
  datatype Request =
    | CountRequest(where: Obj<Condition>)
    | FindRequest(where: Obj<Condition>, orderKey: string, direction: Option<Direction>, limit: int, offset: int)
    | FindOneRequest(id: RecordId)
    | FindInRequest(pk: string, ids: seq<RecordId>)
    | DeleteRequest(id: RecordId)

  /** `count`: fails without an ORM, otherwise counts the compiled filter. */
  function Count(orm: OrmSlot, table: DataTypes, parse: JsonParser, filter: Option<Filter>): (r: Result<Request, AdapterError>)
    ensures orm.None? ==> r == Err(OrmNotSet(OrmNotFoundError))
    ensures orm.Some? ==> r == Ok(CountRequest(ConvertFilter(table, parse, filter)))
  {
    if orm.None? then Err(OrmNotSet(OrmNotFoundError))
    else Ok(CountRequest(ConvertFilter(table, parse, filter)))
  }

  /** `find`: fails without an ORM; otherwise finds by the compiled filter,
      ten records from offset zero unless told otherwise. */
  function Find(orm: OrmSlot, table: DataTypes, parse: JsonParser, filter: Option<Filter>, params: Option<FindParams>): (r: Result<Request, AdapterError>)
    ensures orm.None? ==> r == Err(OrmNotSet(OrmNotFoundError))
    ensures orm.Some? ==> r.Ok? && r.value.FindRequest? && r.value.where == ConvertFilter(table, parse, filter)
    ensures orm.Some? && (params.None? || params.value.limit.None?) ==> r.value.limit == DefaultLimit
    ensures orm.Some? && params.Some? && params.value.limit.Some? ==> r.value.limit == params.value.limit.value
    ensures orm.Some? && (params.None? || params.value.offset.None?) ==> r.value.offset == DefaultOffset
    ensures orm.Some? && params.Some? && params.value.offset.Some? ==> r.value.offset == params.value.offset.value
    ensures orm.Some? && (params.None? || params.value.sort.None?) ==>
              r.value.orderKey == "undefined" && r.value.direction.None?
    ensures orm.Some? && params.Some? && params.value.sort.Some? ==>
              r.value.orderKey == params.value.sort.value.sortBy.GetOr("undefined") &&
              r.value.direction == params.value.sort.value.direction
  {
    if orm.None? then Err(OrmNotSet(OrmNotFoundError))
    else
      var p := params.GetOr(FindParams(None, None, None));
      var sort := p.sort.GetOr(Sort(None, None));
      Ok(FindRequest(ConvertFilter(table, parse, filter), sort.sortBy.GetOr("undefined"), sort.direction,
                     p.limit.GetOr(DefaultLimit), p.offset.GetOr(DefaultOffset)))
  }

  /** `findOne`: fails without an ORM, otherwise looks the id up. */
  function FindOne(orm: OrmSlot, id: RecordId): (r: Result<Request, AdapterError>)
    ensures orm.None? ==> r == Err(OrmNotSet(OrmNotFoundError))
    ensures orm.Some? ==> r == Ok(FindOneRequest(id))
  {
    if orm.None? then Err(OrmNotSet(OrmNotFoundError)) else Ok(FindOneRequest(id))
  }

  /** The entity's first primary key field, when its metadata lists one. */
  function FirstPrimaryKey(res: Resource): Option<string> {
    if res.metadata.Some? && |res.metadata.value.primaryKeys| > 0 then Some(res.metadata.value.primaryKeys[0])
    else None
  }

  /** `findMany`: fails without an ORM; answers `[]` without asking the
      repository (`Ok(None)`) when the entity has no primary key; otherwise
      looks the ids up by the first primary key. */
  function FindMany(orm: OrmSlot, res: Resource, ids: seq<RecordId>): (r: Result<Option<Request>, AdapterError>)
    ensures orm.None? ==> r == Err(OrmNotSet(OrmNotFoundError))
    ensures orm.Some? && !Truthy(FirstPrimaryKey(res)) ==> r == Ok(None)
    ensures orm.Some? && Truthy(FirstPrimaryKey(res)) ==> r == Ok(Some(FindInRequest(FirstPrimaryKey(res).value, ids)))
  {
    if orm.None? then Err(OrmNotSet(OrmNotFoundError))
    else if !Truthy(FirstPrimaryKey(res)) then Ok(None)
    else Ok(Some(FindInRequest(FirstPrimaryKey(res).value, ids)))
  }

  /** `create`: fails without an ORM, otherwise validates and persists. */
  function Create(orm: OrmSlot, validation: Option<seq<ValidatorError>>, persist: PersistResult): (r: Result<(), AdapterError>)
    ensures orm.None? ==> r == Err(OrmNotSet(OrmNotFoundError))
    ensures orm.Some? ==> r == ValidateAndSave(validation, persist)
  {
    if orm.None? then Err(OrmNotSet(OrmNotFoundError)) else ValidateAndSave(validation, persist)
  }

  /** What `update` does: the lookup it sends to the repository, if any,
      and how it ends. */
  datatype UpdateRun = UpdateRun(lookup: Option<Request>, outcome: Result<(), AdapterError>)

  /** `update`: fails without an ORM and asks nothing; otherwise looks the
      record up by `pk` (`found` is the repository's answer), fails when it
      is missing, and otherwise validates and persists. */
  function Update(orm: OrmSlot, pk: RecordId, found: bool, validation: Option<seq<ValidatorError>>, persist: PersistResult): (r: UpdateRun)
    ensures orm.None? ==> r.lookup.None? && r.outcome == Err(OrmNotSet(OrmNotFoundError))
    ensures orm.Some? ==> r.lookup == Some(FindOneRequest(pk))
    ensures orm.Some? && !found ==> r.outcome == Err(RecordNotFound(RecordNotFoundError))
    ensures orm.Some? && found ==> r.outcome == ValidateAndSave(validation, persist)
  {
    if orm.None? then UpdateRun(None, Err(OrmNotSet(OrmNotFoundError)))
    else if !found then UpdateRun(Some(FindOneRequest(pk)), Err(RecordNotFound(RecordNotFoundError)))
    else UpdateRun(Some(FindOneRequest(pk)), ValidateAndSave(validation, persist))
  }

  /** `delete`: without an ORM it returns quietly and asks nothing. */
  function Delete(orm: OrmSlot, id: RecordId): (r: Option<Request>)
    ensures r.None? <==> orm.None?
    ensures r.Some? ==> r.value == DeleteRequest(id)
  {
    if orm.None? then None else Some(DeleteRequest(id))
  }
}
