/** The report record: one schema object (table, function or procedure) with
    its ordered list of fields or parameters. */
module DocObjects {

  /** The kind tag stored in a record; the report code uses these two. */
  datatype DbObjectKind = Table | Function

  /** One line of a record: primary-key flag, name, type name, description. */
  datatype Field = Field(isPK: bool, name: string, typeName: string, description: string)

  /** A record as the report code builds it: a new record starts with no
      fields, and fields are appended in the order the schema lists them. */
  datatype DocObject = DocObject(name: string, description: string, kind: DbObjectKind, columns: seq<Field>)
}
