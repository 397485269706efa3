/** The slice of the ORM's entity metadata that the adapter reads. These
    values come from the ORM; the adapter never builds or changes them. */
module MikroMeta {
  import opened Wrappers

  /** The relation kind of a field (`'scalar'`, `'m:1'`, `'1:1'`, `'1:m'`,
      `'m:n'`, `'embedded'`). */
  datatype ReferenceKind = Scalar | ManyToOne | OneToOne | OneToMany | ManyToMany | Embedded

  /** One literal of an enum field; the ORM allows strings and numbers. */
  datatype EnumItem = Text(text: string) | Number(number: int)

  /** One field descriptor of an entity.
      - `declaredType` is the field's declared type; for a relation it is the name
        of the target class, for an enum it is `"enum"`;
      - `columnTypes` are the storage column types, the first one decides
        the presentation type;
      - `targetName` is the name of the related entity's metadata, when the
        ORM resolved one;
      - `enumFlag` and `items` are the enum marker and its literals. */
  datatype ColumnMeta = ColumnMeta(
    name: string,
    declaredType: string,
    columnTypes: seq<string>,
    primary: bool,
    reference: ReferenceKind,
    targetName: Option<string>,
    enumFlag: bool,
    items: Option<seq<EnumItem>>)

  /** The metadata of one entity: its names, its hydrated fields in
      declaration order, and its primary key field names. */
  datatype EntityMeta = EntityMeta(
    name: Option<string>,
    className: Option<string>,
    hydrateProps: seq<ColumnMeta>,
    primaryKeys: seq<string>)

  /** The ORM's metadata catalog: entity class name to metadata. */
  type Catalog = map<string, EntityMeta>
}
