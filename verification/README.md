# MikroORM adapter for AdminBro: a Dafny model

This project models the pure core of the adapter between the MikroORM
object-relational mapper and the AdminBro admin panel. It proves properties
of that model. The core has three parts:

- **Property model** (`property.dfy`, module `PropertyModel`). It derives the
  presentation facts of one field descriptor: path, id flag, editability,
  reference target, enum literals, position, presentation type and
  sortability.
- **Filter compiler** (`convert_filter.dfy`, module `FilterCompiler`). It turns
  the panel's filter object (field → `{property, value}`) into the ORM's
  condition object. The condition depends on the field's type: a parsed JSON
  value, a date range (`$gte`/`$lte`), the raw value, or a `$like` pattern.
- **Resource adapter, pure part** (`resource.dfy`, module `ResourceModel`). It
  covers:
  - the property object built from the entity's hydrated fields;
  - the name fallback chain, and the database name and dialect defaults;
  - the "ORM is not set" guard of every operation;
  - `findMany`'s no-primary-key short cut and `find`'s default pagination;
  - the shaping of validator and persistence failures into a `ValidationError`.

Supporting modules:

- `Wrappers` holds `Option`/`Result` and JavaScript string truthiness.
- `JsObject` models a plain JavaScript object used as a dictionary. It keeps
  insertion order, holds each key once, and an assignment replaces an
  existing key where it stands.
- `MikroMeta` holds the ORM metadata shapes the adapter reads.
- `CarScenario` derives, as lemmas, what the test suite expects of the test
  entity `Car`.

The environment is passed explicitly:

- The static type table `DATA_TYPES` is a parameter `table: map<string,
  string>`. Its contents are not known, so every result holds for any table.
- `JSON.parse` is a parameter `parse: string -> Option<Json>`, where `None`
  means it throws.
- `new Date(text)` is the opaque wrapper `DateOf(text)`.
- The process-wide `Resource.orm` slot is a parameter `orm: Option<AdapterOrm>`.
- ORM calls and the configured validator (`Resource.validate`) are not
  executed. Their answers are parameters: whether `update` found its record
  and the persistence outcome (from the ORM), and the validator's error list.
  - `count`, `find`, `findOne`, `findMany` and `delete` return the repository
    request they would issue, or the adapter's error.
  - `update` returns the lookup by `pk` it issues (none without an ORM) and
    how it ends.
  - `create` returns only how it ends: the entity it builds and flushes is
    not modelled.

JavaScript semantics are followed literally where the code depends on them:

- Truthiness:
  - an empty reference name does not turn the type into `reference`;
  - an empty date bound counts as absent;
  - an empty database name or dialect falls back to the default.
- An empty `columnTypes` list is looked up under the key `"undefined"`.
- A range value converted to a string is `"[object Object]"`.
- A missing sort field becomes the order key `"undefined"`.

Some behaviours of the code may be unexpected. The model follows the code:

- One might expect a `mixed` (JSON column) field to be parsed as JSON. It is
  not in the JSON-parsed list (src/utils/convert-filter.ts:18), so it falls
  through to a `$like` match.
- One might expect an unmapped column type to get a fallback type. The code
  leaves the type undefined (`None`) (src/Property.ts:55-64).
- One might expect every persistence error to reach the caller. An error
  not named `QueryFailedError` is swallowed (src/Resource.ts:214-224).
- One might expect every single-valued relation to be typed `reference`.
  The code does so only when the reference name is non-empty
  (src/Property.ts:58).

## Model

| member | source | states |
|---|---|---|
| JsObject.Get | src/Resource.ts:71-73 | reading a key gives `None` exactly for keys the object lacks, and otherwise the value stored under that key |
| JsObject.Put | src/Resource.ts:233 | assigning a key adds it to the key set, keeps the object free of duplicate keys, appends a new key at the end and leaves the order of existing keys alone |
| JsObject.GetPutSame | src/Resource.ts:233 | a key just assigned reads back as the assigned value |
| JsObject.GetPutOther | src/Resource.ts:233 | assigning a key leaves every other key's value unchanged |
| JsObject.PutEntries | src/Resource.ts:233 | entry by entry, an assignment replaces the key's entry in place or adds it at the end |
| PropertyModel.NewProperty | src/Property.ts:10-15 | the path is the field name and the position is the given one, or 0 when none is given |
| PropertyModel.IsEditable | src/Property.ts:21-23 | primary keys and the `createdAt`/`updatedAt` fields are read-only, and every other field is editable |
| PropertyModel.Reference | src/Property.ts:33-39 | a reference exists exactly for `1:1` and `m:1` relations; it is the target entity's name, or the declared type when no target name is known |
| PropertyModel.Type | src/Property.ts:55-64 | a non-empty reference forces the type `reference` whatever the table says; otherwise the table's entry for the first column type, or undefined when the table has none |
| PropertyModel.RelationsAreReferencesAndUnsortable | src/Property.ts:29-39 | every single-valued relation with a non-empty reference name is typed `reference` and is not sortable |
| PropertyModel.NonRelationTypedByTable | src/Property.ts:55-64 | a field that is not a relation is typed by the table alone: two tables that agree on its column type give it the same type |
| PropertyModel.IsSortable | src/Property.ts:29-31 | references with a non-empty name are never sortable; any other field is sortable unless the table types its column `reference` |
| PropertyModel.AvailableValues | src/Property.ts:41-45 | the literals exist exactly when the field is marked enum and lists items; they are the items as strings, with the same length and order |
| PropertyModel.ItemStrings | src/Property.ts:43 | each item is converted to a string in place, and the length is kept |
| PropertyModel.EnumFactsIndependent | src/Property.ts:41-53 | `isEnum` ignores the enum marker and items, and `availableValues` ignores the declared type |
| PropertyModel.DecimalString | src/Property.ts:43 | an integer renders as a non-empty run of decimal digits that denote its magnitude, with no leading zero, and with a leading `-` exactly when the integer is negative |
| PropertyModel.NatDigitsRoundTrip | src/Property.ts:43 | reading the rendered digits of a natural number gives the number back |
| PropertyModel.DecimalStringInjective | src/Property.ts:43 | distinct numeric enum items render to distinct strings |
| FilterCompiler.SafeParseJson | src/utils/convert-filter.ts:5-11 | never fails: the parsed value when the text parses, `null` otherwise |
| FilterCompiler.DateCondition | src/utils/convert-filter.ts:20-27 | a range with both bounds gives `$gte` and `$lte`, with the lower bound only gives `$gte`, with the upper bound only gives `$lte`; a plain value or a range without bounds gives no condition |
| FilterCompiler.CompileField | src/utils/convert-filter.ts:18-33 | a field is left out exactly when it is date-typed and its value gives no range; it holds the safely parsed value of its text exactly when it is JSON-typed, the range's bounds (as `DateCondition` gives them) exactly when it is date-typed with a bound, the raw value exactly when it is neither and is an enum or a reference, and otherwise the pattern `%value%` |
| FilterCompiler.Reduce | src/utils/convert-filter.ts:17-35 | folding the entries into the object built so far adds only filtered keys; each one holds the condition of its own entry, and every other key is left as it was |
| FilterCompiler.ConvertFilter | src/utils/convert-filter.ts:13-36 | no filter or no `filters` object gives the empty query; otherwise the query's keys are among the filter's keys, and each key holds exactly the condition its own entry calls for |
| FilterCompiler.JsonFieldIsParsed | src/utils/convert-filter.ts:18-19 | boolean, number, float, object and array fields hold the parsed value, or `null` when the value does not parse |
| FilterCompiler.DateFieldIsRange | src/utils/convert-filter.ts:20-27 | date and datetime fields hold the range's bounds; the key is absent exactly when the value is plain or has no bound |
| FilterCompiler.EnumOrReferenceFieldPassesThrough | src/utils/convert-filter.ts:28-29 | enum or reference fields that are neither JSON- nor date-typed hold the raw value unchanged |
| FilterCompiler.OtherFieldIsSubstringMatch | src/utils/convert-filter.ts:30-31 | every remaining field holds the `$like` pattern `%value%` |
| FilterCompiler.MixedFieldIsSubstringMatch | src/utils/convert-filter.ts:18 | a `mixed` field that is not an enum is matched as a substring, not parsed as JSON |
| FilterCompiler.FieldDependsOnlyOnItsEntry | src/utils/convert-filter.ts:17-35 | two filters that agree on a key compile to queries that agree on it, whatever their other entries and their order |
| FilterCompiler.FilterIgnoresEnumMarker | src/Property.ts:51-53 | `isEnum` reads the declared type only: the enum marker and items never change a field's condition, and a field that is neither JSON-, date- nor reference-typed passes its raw value through exactly when its declared type is `enum` |
| ResourceModel.PrepareSound | src/Resource.ts:227-237 | every property is keyed by its path and wraps a scalar, `m:1` or `1:1` field; its position is that field's index in the full list of hydrated fields |
| ResourceModel.PrepareKeys | src/Resource.ts:229-233 | the property keys are exactly the names of the scalar, `m:1` and `1:1` fields; `1:m`, `m:n` and embedded fields are skipped |
| ResourceModel.PrepareLastWins | src/Resource.ts:232-233 | a name is bound to the last hydratable field carrying it, with that field's index as position |
| ResourceModel.PrepareProperties | src/Resource.ts:227-237 | without metadata there are no properties; otherwise the keys are exactly the names of the scalar, `m:1` and `1:1` fields, every entry is keyed by its path and wraps such a field at its index, and with distinct names the values are those fields in order |
| ResourceModel.NewResource | src/Resource.ts:38-43 | the metadata is the catalog entry for the model name, or none when the ORM, its catalog or the entry is missing; then there are no properties, and otherwise one per name of a scalar, `m:1` or `1:1` field |
| ResourceModel.Properties | src/Resource.ts:67-69 | `properties()` lists the property object's values, one per key, in insertion order |
| ResourceModel.PropertyAt | src/Resource.ts:71-73 | `property(path)` is undefined exactly when no property has that key, and otherwise the property stored under it |
| ResourceModel.PropertiesAreHydratedFields | src/Resource.ts:67-69 | when field names are distinct, `properties()` lists exactly the hydratable fields in metadata order, each wrapped with its index in the full list |
| ResourceModel.HydratedPositionsIncrease | src/Resource.ts:229-232 | in the list of hydratable fields, positions strictly increase and stay below the field count; `properties()` is that list when names are distinct |
| ResourceModel.AllHydratedPositions | src/Resource.ts:229-232 | when every field is hydratable, the list wraps each field in order with its own index as position |
| ResourceModel.AllFieldsPositions | src/Resource.ts:39-44 | a resource built for a registered entity whose fields all become properties and have distinct names lists each field in order, wrapped with its index |
| ResourceModel.IdPropertiesArePrimaryFields | src/Property.ts:25-27 | a property of a built resource is an id exactly when the metadata field at its position is a primary key |
| ResourceModel.PositionIsFieldIndex | src/Property.ts:47-49 | `property(name).position()` is the index, in the full field list, of the last scalar, `m:1` or `1:1` field with that name, and the property wraps that field |
| ResourceModel.PropertyLookupByPath | src/Resource.ts:71-73 | `property(path)` returns a property with that path, and finds one exactly when a hydratable field has that name |
| ResourceModel.Name | src/Resource.ts:59-61 | the metadata's name, else its class name, else the empty string, and also the empty string when there is no metadata |
| ResourceModel.IdOfRegisteredEntity | src/Resource.ts:63-65 | the id of a resource is its registered entity's name, else its class name, else empty; an entity the catalog does not know has the empty id |
| ResourceModel.DatabaseName | src/Resource.ts:51-53 | the registered database name when non-empty, otherwise `mikroorm`; never empty |
| ResourceModel.DatabaseType | src/Resource.ts:55-57 | the registered dialect when non-empty, otherwise the database name; never empty |
| ResourceModel.EntryOf | src/Resource.ts:204-207 | the entry's type is the first constraint's rule and its message that rule's message, both undefined when there is no constraint |
| ResourceModel.FoldErrorsKeys | src/Resource.ts:200-209 | the validation error has one key per property the validator named, and no other |
| ResourceModel.FoldErrorsLastWins | src/Resource.ts:200-209 | a later error for the same property overwrites an earlier one |
| ResourceModel.ValidationErrors | src/Resource.ts:200-209 | the validation error object has exactly one key per property the validator named, holding the first rule and message of that property's last error |
| ResourceModel.PersistOutcome | src/Resource.ts:214-224 | a persistence failure named `QueryFailedError` becomes a one-entry validation error keyed by its column with type `QueryFailedError`; any other outcome succeeds |
| ResourceModel.ValidateAndSave | src/Resource.ts:196-225 | a non-empty validator list raises the validation error built from it; otherwise the persistence outcome decides |
| ResourceModel.ValidationErrorShape | src/Resource.ts:197-211 | a non-empty validator list fails; the keys are exactly the properties named, and each holds the entry of its last error |
| ResourceModel.ValidateAndSaveFailsIff | src/Resource.ts:196-225 | it fails exactly when the validator reported errors or persistence failed with `QueryFailedError` |
| ResourceModel.Count | src/Resource.ts:79-85 | fails with "ORM is not set" without an ORM, and otherwise counts by the compiled filter |
| ResourceModel.Find | src/Resource.ts:87-106 | fails without an ORM; otherwise finds by the compiled filter with limit 10 and offset 0 unless given, ordered by the given sort field and direction, or by the key `"undefined"` with no direction when no sort is given |
| ResourceModel.FindOne | src/Resource.ts:108-110 | fails without an ORM, and otherwise looks the id up |
| ResourceModel.FindMany | src/Resource.ts:120-133 | fails without an ORM; with no (or an empty) first primary key it answers `[]` without a query; otherwise it looks the ids up by that key |
| ResourceModel.Create | src/Resource.ts:135-147 | fails without an ORM, and otherwise validates and persists |
| ResourceModel.Update | src/Resource.ts:149-165 | fails without an ORM and asks nothing; otherwise looks the record up by `pk`, fails with "Record to update not found" when it is missing, and otherwise validates and persists |
| ResourceModel.Delete | src/Resource.ts:167-173 | issues no request and raises nothing exactly when there is no ORM, and otherwise deletes by id |
| CarScenario.CarProperties | spec/Resource.spec.ts:70-86 | the `Car` resource has eight properties at positions 0 to 7, and its name is `Car` |
| CarScenario.CarPropertyFacts | spec/Property.spec.ts:45-110 | in the `Car` resource's `properties()`, `id` is a read-only id, `name` is editable, the timestamps are read-only, `owner` references `User` and is unsortable, and `type` offers `modern` and `old` |
| CarScenario.CarMetaFilter | spec/Property.spec.ts:112-118 | `meta` is typed `mixed` under a table mapping `jsonb` to `mixed`, and a filter on it is a substring match |
| CarScenario.CarNameTooShort | spec/Resource.spec.ts:138-154 | a validator rejection of `name` by `minLength` yields exactly one entry, keyed `name`, of type `minLength` |
| CarScenario.NoPrimaryKeyFindsNothing | src/Resource.ts:125-126 | an entity without a primary key answers `findMany` with nothing and asks the repository nothing |

## Left out

- Every ORM call is left out: repository `find`/`count`/`findOne`/`nativeDelete`, `persistAndFlush`, `create`, `wrap().toJSON()` and `assign`. They are asynchronous foreign calls. The model states the repository request each read, lookup or delete issues and takes the answers as parameters.
- ResourceModel.Create: the entity built by the repository's `create` and then persisted is not modelled; only the outcome is.
- The records returned by `find`/`findOne`/`findMany` and the flattened parameters returned by `create`/`update` are left out. `flat.flatten`/`flat.unflatten` come from a third-party library.
- `build` is left out. It only unflattens parameters into a record.
- `setORM`, `stripOrmConfig` and `isAdapterFor` are left out. They read driver configuration and catch errors over duck-typed objects.
- src/Database.ts is not part of this model. It enumerates the catalog and probes `isConnected()`.
- The contents of `DATA_TYPES` (src/utils/data-types.ts) are not modelled: the table is a parameter, so every result holds for any table.
- `JSON.parse` and `new Date` are not modelled concretely. The parser is an abstract parameter and dates are opaque wrappers. JSON numbers are integers in the `Json` datatype.
- The `console.warn` for an unmapped type is a diagnostic and is left out.
- Numeric enum items are modelled as integers. `String` of a fractional number is not modelled.
- A validator error whose `constraints` is undefined is not modelled (a nested-object error, where `Object.keys` would throw). An empty constraint list gives an undefined type and message.
- The order of keys in the validation error object is not stated. Only its key set and entries are.
- `JsObject.Put` keeps plain insertion order. JavaScript lists integer-like keys (such as `"1"`) first, in numeric order; field names of that shape are not modelled.
- The entity class name used for the catalog lookup is taken as given (`model.name`).
- PropertyModel.Type: a `DATA_TYPES` key inherited from `Object.prototype` (such as `"constructor"`) is not modelled; the table is a plain map.
- JsObject.Get: a key inherited from `Object.prototype` (such as `"constructor"` or `"toString"`) is not modelled. JavaScript reads the inherited member there; the model reads `None`.
- ResourceModel.PropertyAt: for the same reason, `property("constructor")` and similar paths read `None` in the model, not the inherited member.
- ResourceModel.PropertyLookupByPath: in JavaScript the lookup facts fail for inherited `Object.prototype` keys such as `"constructor"`, where `property()` returns the inherited member; the model states them for every path.
- ResourceModel.PrepareProperties: a field named `__proto__` is not modelled. In JavaScript, assigning it replaces the object's prototype and adds no key, so such a field is missing from `properties()`; the model adds it like any other name.
- PropertyModel.DecimalString: renders every integer in plain decimal. JavaScript numbers are doubles: `String(n)` switches to exponent form (`"1e+21"`) from 1e21 in magnitude, and integers beyond 2^53 are not held exactly. Neither is modelled.
