/** Building the report records from the schema model: which tables,
    functions and procedures become records, what each record's name,
    description and fields are, and the table each list is printed as
    (ThisDocument.InsertTables, InsertFunctions, InsertFunctionType,
    InsertStoredProcedures). */
module Selection {
  import opened Results
  import opened Strings
  import opened DocObjects
  import opened ExtendedProperties
  import opened Layout

  /** A multi-part schema name (`[schema].[object]`, `[schema].[table].[column]`);
      a schema element's name has at least one part. */
  type NameParts = s: seq<string> | |s| > 0 witness [""]

  /** A child of a schema object: its object type's name ("Column",
      "Parameter", ...), its name, whether a primary key constraint refers to
      it, and the displayed name of its data type when it refers to one. */
  datatype Child = Child(objectType: string, name: NameParts, isPK: bool, dataType: Option<string>)

  /** A table, function or procedure of the schema model: its name as text,
      its name as parts, and its children in model order. */
  datatype SchemaObject = SchemaObject(fullName: string, name: NameParts, children: seq<Child>)

  /* ---------------- names and selection rules ---------------- */

  /** The object name is the last part of a name. */
  function LastPart(n: NameParts): string { n[|n| - 1] }

  /** The schema is the first part of an object's name. */
  function SchemaOf(o: SchemaObject): string { o.name[0] }

  function NameOf(o: SchemaObject): string { LastPart(o.name) }

  /** Only tables of the `dbo` schema are documented. */
  predicate IsDbo(o: SchemaObject) { SchemaOf(o) == "dbo" }

  /** Functions whose full name starts with `[master]` are not documented. */
  predicate NotInMaster(o: SchemaObject) { !StartsWith(o.fullName, "[master]") }

  predicate IsColumn(c: Child) { c.objectType == "Column" }

  predicate IsParameter(c: Child) { c.objectType == "Parameter" }

  /** The type cell of a table column or function parameter: the type name,
      or empty when the child refers to no type. */
  function TypeText(c: Child): string {
    match c.dataType
    case Some(t) => t
    case None => ""
  }

  /** The extended properties whose name, as text, contains `name`. */
  function PropertiesOf(name: string, props: seq<ExtProperty>): seq<ExtProperty> {
    Filter(props, (p: ExtProperty) => Contains(p.fullName, name))
  }

  /* ---------------- the records, as functions ---------------- */

  /** A table column: key flag, name, type and the description found under
      `SqlColumn.<schema>.<table>.<column>` among the table's properties. */
  function ColumnField(schema: string, name: string, props: seq<ExtProperty>, c: Child): Result<Field> {
    var d :- Description(["SqlColumn", schema, name, LastPart(c.name)], props);
    Ok(Field(c.isPK, LastPart(c.name), TypeText(c), d))
  }

  function ColumnStep(schema: string, name: string, props: seq<ExtProperty>): Child -> Result<Field> {
    (c: Child) => ColumnField(schema, name, props, c)
  }

  /** A table's record: its description under `SqlTableBase.<schema>.<table>`,
      then one field per column, in model order. */
  function TableRecord(t: SchemaObject, allProps: seq<ExtProperty>): Result<DocObject> {
    var props := PropertiesOf(NameOf(t), allProps);
    var d :- Description(["SqlTableBase", SchemaOf(t), NameOf(t)], props);
    var cols :- MapResult(Filter(t.children, IsColumn), ColumnStep(SchemaOf(t), NameOf(t), props));
    Ok(DocObject(NameOf(t), d, Table, cols))
  }

  function TableStep(allProps: seq<ExtProperty>): SchemaObject -> Result<DocObject> {
    (t: SchemaObject) => TableRecord(t, allProps)
  }

  /** The records of the `dbo` tables, in model order. */
  function TableRecords(tables: seq<SchemaObject>, allProps: seq<ExtProperty>): Result<seq<DocObject>> {
    MapResult(Filter(tables, IsDbo), TableStep(allProps))
  }

  /** A parameter of a function or procedure, typed `typeName`: never a key,
      described under `SqlSubroutineParameter.<schema>.<object>.<parameter>`
      among all the properties. */
  function ParameterField(schema: string, name: string, allProps: seq<ExtProperty>, c: Child, typeName: string)
    : Result<Field>
  {
    var d :- Description(["SqlSubroutineParameter", schema, name, LastPart(c.name)], allProps);
    Ok(Field(false, LastPart(c.name), typeName, d))
  }

  function FunctionParameterStep(schema: string, name: string, allProps: seq<ExtProperty>): Child -> Result<Field> {
    (c: Child) => ParameterField(schema, name, allProps, c, TypeText(c))
  }

  /** A function's record: its description under the three-part key
      `SqlSubroutineParameter.<schema>.<function>`, then one field per parameter. */
  function FunctionRecord(f: SchemaObject, allProps: seq<ExtProperty>): Result<DocObject> {
    var props := PropertiesOf(NameOf(f), allProps);
    var d :- Description(["SqlSubroutineParameter", SchemaOf(f), NameOf(f)], props);
    var params :- MapResult(Filter(f.children, IsParameter), FunctionParameterStep(SchemaOf(f), NameOf(f), allProps));
    Ok(DocObject(NameOf(f), d, Function, params))
  }

  function FunctionStep(allProps: seq<ExtProperty>): SchemaObject -> Result<DocObject> {
    (f: SchemaObject) => FunctionRecord(f, allProps)
  }

  /** The records of the given functions, all of them, in order. */
  function FunctionRecords(functions: seq<SchemaObject>, allProps: seq<ExtProperty>): Result<seq<DocObject>> {
    MapResult(functions, FunctionStep(allProps))
  }

  /** A procedure parameter: taking the first referenced type fails when
      there is none, before the description is looked up. */
  function ProcedureParameterField(schema: string, name: string, allProps: seq<ExtProperty>, c: Child)
    : Result<Field>
  {
    match c.dataType
    case None => Err(NoElements)
    case Some(t) => ParameterField(schema, name, allProps, c, t)
  }

  function ProcedureParameterStep(schema: string, name: string, allProps: seq<ExtProperty>): Child -> Result<Field> {
    (c: Child) => ProcedureParameterField(schema, name, allProps, c)
  }

  /** A procedure's record, tagged as a table: its description under
      `SqlProcedure.<schema>.<procedure>`, then one field per parameter. */
  function ProcedureRecord(p: SchemaObject, allProps: seq<ExtProperty>): Result<DocObject> {
    var props := PropertiesOf(NameOf(p), allProps);
    var d :- Description(["SqlProcedure", SchemaOf(p), NameOf(p)], props);
    var params :- MapResult(Filter(p.children, IsParameter), ProcedureParameterStep(SchemaOf(p), NameOf(p), allProps));
    Ok(DocObject(NameOf(p), d, Table, params))
  }

  function ProcedureStep(allProps: seq<ExtProperty>): SchemaObject -> Result<DocObject> {
    (p: SchemaObject) => ProcedureRecord(p, allProps)
  }

  /** The records of all procedures, in model order. */
  function ProcedureRecords(procedures: seq<SchemaObject>, allProps: seq<ExtProperty>): Result<seq<DocObject>> {
    MapResult(procedures, ProcedureStep(allProps))
  }

  /** The table printed for the records, unless building them failed. */
  function Report(records: Result<seq<DocObject>>, isTable: bool): Result<TableLayout> {
    var rs :- records;
    Ok(LayoutOf(rs, isTable))
  }

  /** The two function tables: table-valued functions, then scalar ones,
      each list without the `[master]` functions. A failure in the first list
      prints nothing; a failure in the second keeps the first table, which is
      already in the document, beside the second list's fault. */
  function FunctionReports(tableValued: seq<SchemaObject>, scalar: seq<SchemaObject>, allProps: seq<ExtProperty>)
    : Result<(TableLayout, Result<TableLayout>)>
  {
    var first :- Report(FunctionRecords(Filter(tableValued, NotInMaster), allProps), false);
    Ok((first, Report(FunctionRecords(Filter(scalar, NotInMaster), allProps), false)))
  }

  /* ---------------- the imperative builders ---------------- */

  /** Documents the `dbo` tables, printed in table mode. */
  method InsertTables(allDbTables: seq<SchemaObject>, allExtProperties: seq<ExtProperty>)
    returns (r: Result<TableLayout>)
    ensures r == Report(TableRecords(allDbTables, allExtProperties), true)
  {
    var records: seq<DocObject> := [];
    for n := 0 to |allDbTables|
      invariant MapResult(Filter(allDbTables[..n], IsDbo), TableStep(allExtProperties)) == Ok(records)
    {
      var table := allDbTables[n];
      var tableSchema := table.name[0];
      if tableSchema != "dbo" {
        MapFilterStep(allDbTables, n, IsDbo, TableStep(allExtProperties), records);
        continue;
      }
      var acDocObject := BuildTable(table, allExtProperties);
      if acDocObject.Err? {
        MapFilterStops(allDbTables, n, IsDbo, TableStep(allExtProperties));
        return Err(acDocObject.error);
      }
      MapFilterStep(allDbTables, n, IsDbo, TableStep(allExtProperties), records);
      records := records + [acDocObject.value];
    }
    FilterWhole(allDbTables, IsDbo);
    var layout := PrintRecords(records, true);
    return Ok(layout);
  }

  /** The body of the table loop: a fresh record, its description, then its columns. */
  method BuildTable(table: SchemaObject, allExtProperties: seq<ExtProperty>) returns (r: Result<DocObject>)
    ensures r == TableRecord(table, allExtProperties)
  {
    var tableSchema := table.name[0];
    var acDocObject := DocObject(table.name[|table.name| - 1], "", Table, []);
    var tableExtProperty := PropertiesOf(acDocObject.name, allExtProperties);
    var description :- GetExtPropertyDescription(["SqlTableBase", tableSchema, acDocObject.name], tableExtProperty);
    acDocObject := acDocObject.(description := description);
    var step := ColumnStep(tableSchema, acDocObject.name, tableExtProperty);
    for n := 0 to |table.children|
      invariant acDocObject == DocObject(NameOf(table), description, Table, acDocObject.columns)
      invariant MapResult(Filter(table.children[..n], IsColumn), step) == Ok(acDocObject.columns)
    {
      var column := table.children[n];
      if column.objectType != "Column" {
        MapFilterStep(table.children, n, IsColumn, step, acDocObject.columns);
        continue;
      }
      var fieldType := if column.dataType.Some? then column.dataType.value else "";
      var fieldName := column.name[|column.name| - 1];
      var fieldDescription :=
        GetExtPropertyDescription(["SqlColumn", tableSchema, acDocObject.name, fieldName], tableExtProperty);
      if fieldDescription.Err? {
        MapFilterStops(table.children, n, IsColumn, step);
        return Err(fieldDescription.error);
      }
      MapFilterStep(table.children, n, IsColumn, step, acDocObject.columns);
      acDocObject := acDocObject.(columns := acDocObject.columns +
                                             [Field(column.isPK, fieldName, fieldType, fieldDescription.value)]);
    }
    FilterWhole(table.children, IsColumn);
    return Ok(acDocObject);
  }

  /** Documents the table-valued and then the scalar functions outside
      `[master]`, each list printed as its own table in parameter mode; a
      failure in the first list leaves the second undone, and a failure in
      the second leaves the first table printed. */
  method InsertFunctions(tableValued: seq<SchemaObject>, scalar: seq<SchemaObject>, allExtProperties: seq<ExtProperty>)
    returns (r: Result<(TableLayout, Result<TableLayout>)>)
    ensures r == FunctionReports(tableValued, scalar, allExtProperties)
  {
    var functions := Filter(tableValued, NotInMaster);
    var first :- InsertFunctionType(functions, allExtProperties);
    functions := Filter(scalar, NotInMaster);
    var second := InsertFunctionType(functions, allExtProperties);
    return Ok((first, second));
  }

  /** Documents the given functions, printed in parameter mode. */
  method InsertFunctionType(functions: seq<SchemaObject>, allExtProperties: seq<ExtProperty>)
    returns (r: Result<TableLayout>)
    ensures r == Report(FunctionRecords(functions, allExtProperties), false)
  {
    var records: seq<DocObject> := [];
    for n := 0 to |functions|
      invariant MapResult(functions[..n], FunctionStep(allExtProperties)) == Ok(records)
    {
      var acDocObject := BuildFunction(functions[n], allExtProperties);
      if acDocObject.Err? {
        MapStops(functions, n, FunctionStep(allExtProperties));
        return Err(acDocObject.error);
      }
      MapStep(functions, n, FunctionStep(allExtProperties), records);
      records := records + [acDocObject.value];
    }
    assert functions[..|functions|] == functions;
    var layout := PrintRecords(records, false);
    return Ok(layout);
  }

  /** The body of the function loop. */
  method BuildFunction(dbFunction: SchemaObject, allExtProperties: seq<ExtProperty>) returns (r: Result<DocObject>)
    ensures r == FunctionRecord(dbFunction, allExtProperties)
  {
    var functionSchema := dbFunction.name[0];
    var acDocObject := DocObject(dbFunction.name[|dbFunction.name| - 1], "", Function, []);
    var functionExtProperty := PropertiesOf(acDocObject.name, allExtProperties);
    var description :-
      GetExtPropertyDescription(["SqlSubroutineParameter", functionSchema, acDocObject.name], functionExtProperty);
    acDocObject := acDocObject.(description := description);
    var step := FunctionParameterStep(functionSchema, acDocObject.name, allExtProperties);
    for n := 0 to |dbFunction.children|
      invariant acDocObject == DocObject(NameOf(dbFunction), description, Function, acDocObject.columns)
      invariant MapResult(Filter(dbFunction.children[..n], IsParameter), step) == Ok(acDocObject.columns)
    {
      var parameter := dbFunction.children[n];
      if parameter.objectType != "Parameter" {
        MapFilterStep(dbFunction.children, n, IsParameter, step, acDocObject.columns);
        continue;
      }
      var parameterType := if parameter.dataType.Some? then parameter.dataType.value else "";
      var parameterName := parameter.name[|parameter.name| - 1];
      var parameterDescription := GetExtPropertyDescription(
        ["SqlSubroutineParameter", functionSchema, acDocObject.name, parameterName], allExtProperties);
      if parameterDescription.Err? {
        MapFilterStops(dbFunction.children, n, IsParameter, step);
        return Err(parameterDescription.error);
      }
      MapFilterStep(dbFunction.children, n, IsParameter, step, acDocObject.columns);
      acDocObject := acDocObject.(columns := acDocObject.columns +
                                             [Field(false, parameterName, parameterType, parameterDescription.value)]);
    }
    FilterWhole(dbFunction.children, IsParameter);
    return Ok(acDocObject);
  }

  /** Documents every procedure, printed in parameter mode. */
  method InsertStoredProcedures(allProcedures: seq<SchemaObject>, allExtProperties: seq<ExtProperty>)
    returns (r: Result<TableLayout>)
    ensures r == Report(ProcedureRecords(allProcedures, allExtProperties), false)
  {
    var records: seq<DocObject> := [];
    for n := 0 to |allProcedures|
      invariant MapResult(allProcedures[..n], ProcedureStep(allExtProperties)) == Ok(records)
    {
      var acDocObject := BuildProcedure(allProcedures[n], allExtProperties);
      if acDocObject.Err? {
        MapStops(allProcedures, n, ProcedureStep(allExtProperties));
        return Err(acDocObject.error);
      }
      MapStep(allProcedures, n, ProcedureStep(allExtProperties), records);
      records := records + [acDocObject.value];
    }
    assert allProcedures[..|allProcedures|] == allProcedures;
    var layout := PrintRecords(records, false);
    return Ok(layout);
  }

  /** The body of the procedure loop. */
  method BuildProcedure(proc: SchemaObject, allExtProperties: seq<ExtProperty>) returns (r: Result<DocObject>)
    ensures r == ProcedureRecord(proc, allExtProperties)
  {
    var procSchema := proc.name[0];
    var acDocObject := DocObject(proc.name[|proc.name| - 1], "", Table, []);
    var procExtProperties := PropertiesOf(acDocObject.name, allExtProperties);
    var description :- GetExtPropertyDescription(["SqlProcedure", procSchema, acDocObject.name], procExtProperties);
    acDocObject := acDocObject.(description := description);
    var step := ProcedureParameterStep(procSchema, acDocObject.name, allExtProperties);
    for n := 0 to |proc.children|
      invariant acDocObject == DocObject(NameOf(proc), description, Table, acDocObject.columns)
      invariant MapResult(Filter(proc.children[..n], IsParameter), step) == Ok(acDocObject.columns)
    {
      var parameter := proc.children[n];
      if parameter.objectType != "Parameter" {
        MapFilterStep(proc.children, n, IsParameter, step, acDocObject.columns);
        continue;
      }
      if parameter.dataType.None? {
        MapFilterStops(proc.children, n, IsParameter, step);
        return Err(NoElements);
      }
      var dataType := parameter.dataType.value;
      var parameterName := parameter.name[|parameter.name| - 1];
      var parameterDescription := GetExtPropertyDescription(
        ["SqlSubroutineParameter", procSchema, acDocObject.name, parameterName], allExtProperties);
      if parameterDescription.Err? {
        MapFilterStops(proc.children, n, IsParameter, step);
        return Err(parameterDescription.error);
      }
      MapFilterStep(proc.children, n, IsParameter, step, acDocObject.columns);
      acDocObject := acDocObject.(columns := acDocObject.columns +
                                             [Field(false, parameterName, dataType, parameterDescription.value)]);
    }
    FilterWhole(proc.children, IsParameter);
    return Ok(acDocObject);
  }

  /* ---------------- which objects become records ---------------- */

  /** The properties a table, function or procedure is looked up in are
      exactly those whose name mentions the object's name. */
  lemma PropertiesOfMention(name: string, props: seq<ExtProperty>, p: ExtProperty)
    ensures p in PropertiesOf(name, props) <==> p in props && Contains(p.fullName, name)
  {
    FilterMembers(props, (q: ExtProperty) => Contains(q.fullName, name), p);
  }

  /** The table records are, one for one and in order, the records of the
      `dbo` tables of the model; a table of any other schema has none. */
  lemma TableRecordsAreDboTables(tables: seq<SchemaObject>, allProps: seq<ExtProperty>)
    requires TableRecords(tables, allProps).Ok?
    ensures |TableRecords(tables, allProps).value| == |Filter(tables, IsDbo)|
    ensures forall i :: 0 <= i < |Filter(tables, IsDbo)| ==>
              Filter(tables, IsDbo)[i] in tables && SchemaOf(Filter(tables, IsDbo)[i]) == "dbo" &&
              TableRecord(Filter(tables, IsDbo)[i], allProps) == Ok(TableRecords(tables, allProps).value[i])
  {
    var dbo := Filter(tables, IsDbo);
    MapResultOk(dbo, TableStep(allProps));
    forall i | 0 <= i < |dbo|
      ensures dbo[i] in tables && SchemaOf(dbo[i]) == "dbo"
    {
      FilterMembers(tables, IsDbo, dbo[i]);
    }
  }

  /** Every `dbo` table of the model is documented. */
  lemma EveryDboTableDocumented(tables: seq<SchemaObject>, allProps: seq<ExtProperty>, t: SchemaObject)
    requires TableRecords(tables, allProps).Ok? && t in tables && SchemaOf(t) == "dbo"
    ensures exists i :: 0 <= i < |TableRecords(tables, allProps).value| &&
                        TableRecord(t, allProps) == Ok(TableRecords(tables, allProps).value[i])
  {
    var dbo := Filter(tables, IsDbo);
    FilterMembers(tables, IsDbo, t);
    var i :| 0 <= i < |dbo| && dbo[i] == t;
    MapResultOk(dbo, TableStep(allProps));
  }

  /** The function records of one list are, one for one and in order, the
      records of its functions outside `[master]`. */
  lemma FunctionRecordsOutsideMaster(functions: seq<SchemaObject>, allProps: seq<ExtProperty>)
    requires FunctionRecords(Filter(functions, NotInMaster), allProps).Ok?
    ensures |FunctionRecords(Filter(functions, NotInMaster), allProps).value| == |Filter(functions, NotInMaster)|
    ensures forall i :: 0 <= i < |Filter(functions, NotInMaster)| ==>
              Filter(functions, NotInMaster)[i] in functions &&
              !StartsWith(Filter(functions, NotInMaster)[i].fullName, "[master]") &&
              FunctionRecord(Filter(functions, NotInMaster)[i], allProps) ==
                Ok(FunctionRecords(Filter(functions, NotInMaster), allProps).value[i])
  {
    var kept := Filter(functions, NotInMaster);
    MapResultOk(kept, FunctionStep(allProps));
    forall i | 0 <= i < |kept|
      ensures kept[i] in functions && NotInMaster(kept[i])
    {
      FilterMembers(functions, NotInMaster, kept[i]);
    }
  }

  /** Nothing is printed exactly when the table-valued list fails; otherwise
      the table-valued table is the same whatever the scalar functions are,
      so a failing scalar list does not take it back. */
  lemma FunctionReportsKeepFirst(tableValued: seq<SchemaObject>, scalar: seq<SchemaObject>, other: seq<SchemaObject>,
                                 allProps: seq<ExtProperty>)
    ensures FunctionReports(tableValued, scalar, allProps).Err? <==>
              FunctionRecords(Filter(tableValued, NotInMaster), allProps).Err?
    ensures FunctionReports(tableValued, scalar, allProps).Ok? ==>
              FunctionReports(tableValued, other, allProps).Ok? &&
              FunctionReports(tableValued, other, allProps).value.0 == FunctionReports(tableValued, scalar, allProps).value.0 &&
              FunctionReports(tableValued, scalar, allProps).value.0 ==
                LayoutOf(FunctionRecords(Filter(tableValued, NotInMaster), allProps).value, false)
    ensures FunctionReports(tableValued, scalar, allProps).Ok? ==>
              FunctionReports(tableValued, scalar, allProps).value.1 ==
                Report(FunctionRecords(Filter(scalar, NotInMaster), allProps), false)
  {
  }

  /** The procedure records are, one for one and in order, the records of all procedures. */
  lemma ProcedureRecordsAll(procedures: seq<SchemaObject>, allProps: seq<ExtProperty>)
    requires ProcedureRecords(procedures, allProps).Ok?
    ensures |ProcedureRecords(procedures, allProps).value| == |procedures|
    ensures forall i :: 0 <= i < |procedures| ==>
              ProcedureRecord(procedures[i], allProps) == Ok(ProcedureRecords(procedures, allProps).value[i])
  {
    MapResultOk(procedures, ProcedureStep(allProps));
  }

  /* ---------------- what a record holds ---------------- */

  /** A table's record: named by the table's last name part, tagged as a
      table, described under `SqlTableBase.<schema>.<table>`, with one field
      per column child, in order, carrying its key flag, its last name part,
      its type and its `SqlColumn.<schema>.<table>.<column>` description,
      all looked up among the properties that mention the table. */
  lemma TableRecordShape(t: SchemaObject, allProps: seq<ExtProperty>)
    requires TableRecord(t, allProps).Ok?
    ensures var r := TableRecord(t, allProps).value;
            var props := PropertiesOf(NameOf(t), allProps);
            var cols := Filter(t.children, IsColumn);
            r.name == NameOf(t) && r.kind == Table &&
            Description(["SqlTableBase", SchemaOf(t), NameOf(t)], props) == Ok(r.description) &&
            |r.columns| == |cols| &&
            forall j :: 0 <= j < |cols| ==>
              cols[j].objectType == "Column" && cols[j] in t.children &&
              r.columns[j].isPK == cols[j].isPK && r.columns[j].name == LastPart(cols[j].name) &&
              r.columns[j].typeName == TypeText(cols[j]) &&
              Description(["SqlColumn", SchemaOf(t), NameOf(t), LastPart(cols[j].name)], props) ==
                Ok(r.columns[j].description)
  {
    var props := PropertiesOf(NameOf(t), allProps);
    var cols := Filter(t.children, IsColumn);
    MapResultOk(cols, ColumnStep(SchemaOf(t), NameOf(t), props));
    forall j | 0 <= j < |cols|
      ensures cols[j].objectType == "Column" && cols[j] in t.children
    {
      FilterMembers(t.children, IsColumn, cols[j]);
    }
  }

  /** A function's record: named by the function's last name part, tagged as
      a function, described under the three-part key
      `SqlSubroutineParameter.<schema>.<function>` among the properties that
      mention it, with one non-key field per parameter child, in order, whose
      description is looked up among all the properties. */
  lemma FunctionRecordShape(f: SchemaObject, allProps: seq<ExtProperty>)
    requires FunctionRecord(f, allProps).Ok?
    ensures var r := FunctionRecord(f, allProps).value;
            var params := Filter(f.children, IsParameter);
            r.name == NameOf(f) && r.kind == Function &&
            Description(["SqlSubroutineParameter", SchemaOf(f), NameOf(f)], PropertiesOf(NameOf(f), allProps)) ==
              Ok(r.description) &&
            |r.columns| == |params| &&
            forall j :: 0 <= j < |params| ==>
              params[j].objectType == "Parameter" && params[j] in f.children &&
              !r.columns[j].isPK && r.columns[j].name == LastPart(params[j].name) &&
              r.columns[j].typeName == TypeText(params[j]) &&
              Description(["SqlSubroutineParameter", SchemaOf(f), NameOf(f), LastPart(params[j].name)], allProps) ==
                Ok(r.columns[j].description)
  {
    var params := Filter(f.children, IsParameter);
    MapResultOk(params, FunctionParameterStep(SchemaOf(f), NameOf(f), allProps));
    forall j | 0 <= j < |params|
      ensures params[j].objectType == "Parameter" && params[j] in f.children
    {
      FilterMembers(f.children, IsParameter, params[j]);
    }
  }

  /** A procedure's record: named by the procedure's last name part, tagged
      as a table, described under `SqlProcedure.<schema>.<procedure>` among
      the properties that mention it, with one non-key field per parameter
      child, in order, each parameter having a type, whose name is the
      field's type. */
  lemma ProcedureRecordShape(p: SchemaObject, allProps: seq<ExtProperty>)
    requires ProcedureRecord(p, allProps).Ok?
    ensures var r := ProcedureRecord(p, allProps).value;
            var params := Filter(p.children, IsParameter);
            r.name == NameOf(p) && r.kind == Table &&
            Description(["SqlProcedure", SchemaOf(p), NameOf(p)], PropertiesOf(NameOf(p), allProps)) ==
              Ok(r.description) &&
            |r.columns| == |params| &&
            forall j :: 0 <= j < |params| ==>
              params[j].objectType == "Parameter" && params[j] in p.children &&
              params[j].dataType == Some(r.columns[j].typeName) &&
              !r.columns[j].isPK && r.columns[j].name == LastPart(params[j].name) &&
              Description(["SqlSubroutineParameter", SchemaOf(p), NameOf(p), LastPart(params[j].name)], allProps) ==
                Ok(r.columns[j].description)
  {
    var params := Filter(p.children, IsParameter);
    MapResultOk(params, ProcedureParameterStep(SchemaOf(p), NameOf(p), allProps));
    forall j | 0 <= j < |params|
      ensures params[j].objectType == "Parameter" && params[j] in p.children
    {
      FilterMembers(p.children, IsParameter, params[j]);
    }
  }

  /* ---------------- how building a record fails ---------------- */

  /** Building a table record fails only in a description lookup. */
  lemma TableRecordFaults(t: SchemaObject, allProps: seq<ExtProperty>)
    ensures TableRecord(t, allProps).Err? ==>
              TableRecord(t, allProps).error == IndexOutOfRange || TableRecord(t, allProps).error == SubstringOutOfRange
  {
    var props := PropertiesOf(NameOf(t), allProps);
    DescriptionFaults(["SqlTableBase", SchemaOf(t), NameOf(t)], props);
    var cols := Filter(t.children, IsColumn);
    var step := ColumnStep(SchemaOf(t), NameOf(t), props);
    if MapResult(cols, step).Err? {
      MapResultErrWitness(cols, step);
      var k :| 0 <= k < |cols| && step(cols[k]) == Err(MapResult(cols, step).error) &&
               forall j :: 0 <= j < k ==> step(cols[j]).Ok?;
      DescriptionFaults(["SqlColumn", SchemaOf(t), NameOf(t), LastPart(cols[k].name)], props);
    }
  }

  /** Building a function record fails only in a description lookup: a
      parameter without a type gets an empty type cell. */
  lemma FunctionRecordFaults(f: SchemaObject, allProps: seq<ExtProperty>)
    ensures FunctionRecord(f, allProps).Err? ==>
              FunctionRecord(f, allProps).error == IndexOutOfRange ||
              FunctionRecord(f, allProps).error == SubstringOutOfRange
  {
    DescriptionFaults(["SqlSubroutineParameter", SchemaOf(f), NameOf(f)], PropertiesOf(NameOf(f), allProps));
    var params := Filter(f.children, IsParameter);
    var step := FunctionParameterStep(SchemaOf(f), NameOf(f), allProps);
    if MapResult(params, step).Err? {
      MapResultErrWitness(params, step);
      var k :| 0 <= k < |params| && step(params[k]) == Err(MapResult(params, step).error) &&
               forall j :: 0 <= j < k ==> step(params[j]).Ok?;
      DescriptionFaults(["SqlSubroutineParameter", SchemaOf(f), NameOf(f), LastPart(params[k].name)], allProps);
    }
  }

  /** A procedure parameter without a type, reached after the procedure's
      description and the parameters before it were looked up, fails the
      procedure with "no elements". */
  lemma UntypedProcedureParameterFails(p: SchemaObject, allProps: seq<ExtProperty>, k: nat)
    requires Description(["SqlProcedure", SchemaOf(p), NameOf(p)], PropertiesOf(NameOf(p), allProps)).Ok?
    requires k < |Filter(p.children, IsParameter)| && Filter(p.children, IsParameter)[k].dataType.None?
    requires forall j :: 0 <= j < k ==>
               ProcedureParameterField(SchemaOf(p), NameOf(p), allProps, Filter(p.children, IsParameter)[j]).Ok?
    ensures ProcedureRecord(p, allProps) == Err(NoElements)
  {
    MapResultFirstErr(Filter(p.children, IsParameter), ProcedureParameterStep(SchemaOf(p), NameOf(p), allProps), k);
  }

  /** Conversely, a "no elements" failure of a procedure comes from a
      parameter without a type. */
  lemma ProcedureNoElementsCause(p: SchemaObject, allProps: seq<ExtProperty>)
    requires ProcedureRecord(p, allProps) == Err(NoElements)
    ensures exists k :: 0 <= k < |Filter(p.children, IsParameter)| &&
                        Filter(p.children, IsParameter)[k].dataType.None?
  {
    DescriptionFaults(["SqlProcedure", SchemaOf(p), NameOf(p)], PropertiesOf(NameOf(p), allProps));
    var params := Filter(p.children, IsParameter);
    var step := ProcedureParameterStep(SchemaOf(p), NameOf(p), allProps);
    MapResultErrWitness(params, step);
    var k :| 0 <= k < |params| && step(params[k]) == Err(NoElements) &&
             forall j :: 0 <= j < k ==> step(params[j]).Ok?;
    DescriptionFaults(["SqlSubroutineParameter", SchemaOf(p), NameOf(p), LastPart(params[k].name)], allProps);
  }

  /** The documented tables fail as a whole exactly when some `dbo` table's
      record fails, with the failure of the first one that does. */
  lemma TableRecordsFail(tables: seq<SchemaObject>, allProps: seq<ExtProperty>)
    ensures TableRecords(tables, allProps).Err? <==>
              exists k :: 0 <= k < |Filter(tables, IsDbo)| && TableRecord(Filter(tables, IsDbo)[k], allProps).Err?
    ensures TableRecords(tables, allProps).Err? ==>
              exists k :: 0 <= k < |Filter(tables, IsDbo)| &&
                          TableRecord(Filter(tables, IsDbo)[k], allProps) == Err(TableRecords(tables, allProps).error) &&
                          forall j :: 0 <= j < k ==> TableRecord(Filter(tables, IsDbo)[j], allProps).Ok?
  {
    var dbo := Filter(tables, IsDbo);
    var step := TableStep(allProps);
    if TableRecords(tables, allProps).Err? {
      MapResultErrWitness(dbo, step);
      var k :| 0 <= k < |dbo| && step(dbo[k]) == Err(TableRecords(tables, allProps).error) &&
               forall j :: 0 <= j < k ==> step(dbo[j]).Ok?;
      assert TableRecord(dbo[k], allProps).Err?;
    } else {
      MapResultOk(dbo, TableStep(allProps));
    }
  }
}
