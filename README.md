# VSTOExample report core in Dafny

VSTOExample is a Word document extension. It reads a database schema model and writes one report table per kind of object: tables, table-valued functions, scalar functions and stored procedures. This project models the logic in `ThisDocument.cs` that does not depend on Word or on the schema library:

- **Record selection** (`Selection`, file `selection.dfy`).
  - Only `dbo` tables are documented. Functions whose full name starts with `[master]` are skipped. Every procedure is documented.
  - A record is named by the last part of the object's name. The first part is its schema.
  - A record's fields are the object's `Column` children (tables) or `Parameter` children (functions, procedures), in model order.
  - `InsertTables`, `InsertFunctions`, `InsertFunctionType` and `InsertStoredProcedures` are methods with the source's `foreach` loops, `continue` and early failure. Each is proved equal to a function that builds the record list, followed by the table layout of that list.
- **The record type** (`DocObjects`, file `doc_object.dfy`).
  - Name, description, kind tag and an ordered sequence of `(isPK, name, type, description)` fields.
  - The builders start a record with no fields and append one field per child.
- **The extended-property lookup** (`ExtendedProperties`, file `ext_properties.dfy`).
  - `GetExtPropertyDescription` scans the properties in order. It copies the first |key| name parts of each one and returns the value of the first property whose copied parts equal the key, or the empty string when none does. It then strips SQL `N'…'` quoting.
  - It fails when an examined property has fewer name parts than the key (an out-of-range index).
  - It also fails on the two-character value `N'`, for which the substring length is negative.
- **The table layout** (`Layout`, file `layout.dfy`).
  - `PrintRecords` is a method with the source's sizing loop, record loop, field loop and padding loop. It produces the table size (5 columns, `2 + Σ max(2, |fields|)` rows) and the ordered list of cell operations `Cell(row, col)` receives: text, key icon, shading, border and merge.
  - It is proved equal to a specification function `LayoutOf`.
  - The lemmas about `LayoutOf` show the following:
    - The record blocks tile rows 3..numRows in order and do not overlap.
    - Every operation lies inside the allocated table.
    - Closing borders are solid in the last record's block and dotted above it.
    - Key icons appear only in table mode.
    - Each field's name, type and description land in columns 3–5 (table mode) or 2–4 (otherwise).
- **Shared combinators** (`Results` and `Strings`, file `results.dfy`).
  - Failure-carrying results.
  - LINQ's `Where` as an order-preserving `Filter`.
  - A `foreach` whose body may throw, as `MapResult`, which stops at the first failure.
  - Ordinal `StartsWith`, `EndsWith` and `Contains`.

Exceptions are results: `IndexOutOfRange` (an `IList` indexer past its end), `SubstringOutOfRange` and `NoElements` (`Enumerable.First` on an empty sequence).

The schema library's objects become abstract inputs:
- A `SchemaObject` has its name as text, its name as a non-empty sequence of parts, and its children.
- A `Child` has its object type's name, its name parts, whether a primary key refers to it, and the displayed name of its data type when it has one.
- An `ExtProperty` has its name as text, its name parts and its value.

Behaviours of the code that the model keeps:

- `hOffset` is set only inside the field loop, so a table-mode record without fields pads its rows with column shift 0 (ThisDocument.cs:328-345, 406-407).
- A record with one field has `isLastField` false for that field, because the block's height is 2. Its closing borders come from its single padding row.
- Procedures are tagged as tables (ThisDocument.cs:203).
- A function's own description is looked up under the three-part key `SqlSubroutineParameter.<schema>.<name>` (ThisDocument.cs:154).
- Parameter descriptions are looked up among all the extended properties. Table, function and procedure descriptions, and column descriptions, use only the properties whose name mentions the object (ThisDocument.cs:75, 153, 167, 206, 219).
- A procedure parameter without a type fails with `NoElements` before its description is looked up (ThisDocument.cs:211). A function parameter or column without a type gets an empty type cell (ThisDocument.cs:84, 91, 159, 166).

## Model

| member | source | states |
|---|---|---|
| Results.FilterMembers | VSTOExample/ThisDocument.cs:78 | an element is kept by `Where` exactly when it is in the input and satisfies the predicate |
| Results.FilterAppend | VSTOExample/ThisDocument.cs:78 | `Where` over a concatenation is the concatenation of the two filtered parts, so the kept elements stay in input order |
| Results.MapResultOk | VSTOExample/ThisDocument.cs:139-171 | a loop that does not throw yields one result per element, in order, each that element's image |
| Results.MapResultFirstErr | VSTOExample/ThisDocument.cs:139-171 | the first element whose body throws, after all earlier ones succeeded, makes the whole loop throw that exception |
| Results.MapResultErrWitness | VSTOExample/ThisDocument.cs:139-171 | conversely, a loop that throws does so at some element whose body throws, all earlier ones succeeding |
| Results.MapResultErrExtends | VSTOExample/ThisDocument.cs:139-171 | once a prefix of the loop throws, later elements do not change the outcome |
| Strings.ContainsPosition | VSTOExample/ThisDocument.cs:75 | `Contains` holds only when the substring occurs at some position |
| Strings.ContainsAt | VSTOExample/ThisDocument.cs:75 | a substring occurring at any position is found by `Contains` |
| ExtendedProperties.Unquote | VSTOExample/ThisDocument.cs:468 | fails exactly on the value `N'`, with a substring fault; a quoted value loses its `N'` and `'` (length \|s\|-3, re-quoting gives it back); any other value is unchanged |
| ExtendedProperties.UnquoteQuote | VSTOExample/ThisDocument.cs:468 | unquoting `N'` + t + `'` gives back t for every t |
| ExtendedProperties.FindFirstFound | VSTOExample/ThisDocument.cs:456-465 | the first property in list order whose leading \|key\| parts equal the key is found, when every property before it could be examined |
| ExtendedProperties.FindFirstAbsent | VSTOExample/ThisDocument.cs:456-465 | with no matching property and all properties long enough, nothing is found |
| ExtendedProperties.FindFirstFails | VSTOExample/ThisDocument.cs:459-462 | a property with fewer than \|key\| parts reached before any match makes the search fail with an index fault |
| ExtendedProperties.FindFirstNone | VSTOExample/ThisDocument.cs:456-465 | finding nothing implies every property was long enough and none matched |
| ExtendedProperties.FindFirstSome | VSTOExample/ThisDocument.cs:456-465 | a found property is in the list, matches the key, and every property before it was examined without matching |
| ExtendedProperties.FindFirstErr | VSTOExample/ThisDocument.cs:459-462 | a failed search failed with an index fault at a property too short for the key, all before it examined without matching |
| ExtendedProperties.FindFirstCases | VSTOExample/ThisDocument.cs:456-465 | each of the three outcomes of the search is explained by the corresponding case above |
| ExtendedProperties.DescriptionOfMatch | VSTOExample/ThisDocument.cs:456-468 | the description is the unquoted value of the first matching property |
| ExtendedProperties.DescriptionAbsent | VSTOExample/ThisDocument.cs:467-468 | with no match the description is the empty string |
| ExtendedProperties.DescriptionFaults | VSTOExample/ThisDocument.cs:459-468 | the lookup fails only with an index fault (short property) or a substring fault (value `N'`) |
| ExtendedProperties.GetExtPropertyDescription | VSTOExample/ThisDocument.cs:453-469 | the loop that copies each property's leading parts and compares them returns exactly the specified description, including its failures |
| Layout.PrintRecords | VSTOExample/ThisDocument.cs:237-424 | the table has 5 columns and `NumRows` rows, and its operations are the header's followed by each record's block at its start row |
| Layout.CountRows | VSTOExample/ThisDocument.cs:242-247 | the sizing loop computes 2 plus the sum of max(2, \|fields\|) over the records |
| Layout.LayOutRecords | VSTOExample/ThisDocument.cs:302-421 | the record loop, with its row cursor, emits the blocks of records 0..n-1 in order, each at its start row |
| Layout.LayOutBlock | VSTOExample/ThisDocument.cs:303-306 | one iteration emits record k's block and advances the cursor from record k's start row to record k+1's |
| Layout.LayOutRecord | VSTOExample/ThisDocument.cs:305-418 | a record's block is its name and description cells (merged down the block when it is taller than 2), its field rows, then its padding rows |
| Layout.LayOutFields | VSTOExample/ThisDocument.cs:328-390 | the field loop emits field v on row row+v for every field, and leaves `hOffset` 1 exactly in table mode after at least one field |
| Layout.LayOutFieldRow | VSTOExample/ThisDocument.cs:330-332 | one iteration writes field v on row row+v, closing it when it is the block's last row |
| Layout.LayOutField | VSTOExample/ThisDocument.cs:332-389 | the cells of one field row: key icon, shading and left edge, or the 2–3 merge; name, type and description shifted by the mode's offset; closing borders on the block's last row |
| Layout.LayOutPads | VSTOExample/ThisDocument.cs:394-418 | a record with fewer than two fields gets 2 - \|fields\| padding rows below its fields |
| Layout.LayOutPadding | VSTOExample/ThisDocument.cs:399-416 | the cells of one padding row, with closing borders on the last one |
| Layout.SumHeightsAppend | VSTOExample/ThisDocument.cs:244-247 | adding a record adds its block height to the row count |
| Layout.StartRowIsSum | VSTOExample/ThisDocument.cs:302-306 | record k starts on row 3 plus the heights of the records before it |
| Layout.BlocksSpanTable | VSTOExample/ThisDocument.cs:243-246 | the first block starts on row 3, and the cursor after the last block is numRows + 1 |
| Layout.StartRowMonotone | VSTOExample/ThisDocument.cs:420 | block start rows never decrease and are never above row 3 |
| Layout.BlocksDisjoint | VSTOExample/ThisDocument.cs:420 | an earlier block ends before any later one starts |
| Layout.BlockOf | VSTOExample/ThisDocument.cs:302-421 | finds, for a row of the record area, the record whose block holds it |
| Layout.RowInOneBlock | VSTOExample/ThisDocument.cs:302-421 | every row 3..numRows lies in exactly one record's block |
| Layout.FieldsAndPadsFillBlock | VSTOExample/ThisDocument.cs:394-397 | field rows plus padding rows equal the block height; there is padding exactly when a record has fewer than two fields |
| Layout.FieldOpsInBlock | VSTOExample/ThisDocument.cs:332-389 | every cell of a field row is on that row, in columns 1..5, closed in the record's style, with a key icon only in table mode |
| Layout.PadOpsInBlock | VSTOExample/ThisDocument.cs:399-416 | every cell of a padding row is on that row, in columns 1..5, closed in the record's style |
| Layout.FieldRowInBlock | VSTOExample/ThisDocument.cs:330-389 | field v's cells lie on row row+v |
| Layout.PadRowInBlock | VSTOExample/ThisDocument.cs:397-416 | padding row i's cells lie on row row+i+\|fields\| |
| Layout.RecordOpInBlock | VSTOExample/ThisDocument.cs:305-418 | every cell of a record's block lies in rows row..row+height-1, closed in the record's style |
| Layout.HeadOpInBlock | VSTOExample/ThisDocument.cs:309-325 | the name and description cells, including the description merge down to row+height-1, lie in the block |
| Layout.FieldsOpInBlock | VSTOExample/ThisDocument.cs:330-390 | every field-row cell lies in the block |
| Layout.PadsOpInBlock | VSTOExample/ThisDocument.cs:394-418 | every padding-row cell lies in the block |
| Layout.BlockInArea | VSTOExample/ThisDocument.cs:243-246 | block k lies within rows 3..numRows; the last block starts at the last start row and every earlier block ends above it |
| Layout.InBlockInArea | VSTOExample/ThisDocument.cs:305-325 | a cell kept within its block and closed in the block's style lies in the record area with the closing style of its row, when the block is the last one or ends above the last one |
| Layout.BlockOpInArea | VSTOExample/ThisDocument.cs:302-421 | every cell of record k's block lies in rows 3..numRows, closed solid from the last block's first row on and dotted above |
| Layout.HeaderOpInTable | VSTOExample/ThisDocument.cs:266-300 | the header cells lie in rows 1–2 and put no key icon |
| Layout.PlanOpInTable | VSTOExample/ThisDocument.cs:237-424 | every operation lies in rows 1..numRows and columns 1..5; closing borders of the record area are solid exactly in the last block; key icons only in table mode |
| Layout.PlanInsideTable | VSTOExample/ThisDocument.cs:242-250 | no operation touches a row or column outside the allocated numRows × 5 table |
| Layout.PlanClosingBorders | VSTOExample/ThisDocument.cs:305 | bottom borders of the record area are solid in the last record's block and dotted in all earlier ones |
| Layout.PicturesOnlyForTables | VSTOExample/ThisDocument.cs:334-339 | the key icon is placed only in table mode |
| Layout.RecordInPlan | VSTOExample/ThisDocument.cs:303-421 | every cell of record k's block, at its start row, is issued by the table |
| Layout.HeadInRecord | VSTOExample/ThisDocument.cs:309-325 | the name and description cells are part of the record's block |
| Layout.FieldInRecord | VSTOExample/ThisDocument.cs:330-390 | every cell of field v's row is part of the record's block |
| Layout.PadInRecord | VSTOExample/ThisDocument.cs:394-418 | every cell of a padding row is part of the record's block |
| Layout.RecordHeadCells | VSTOExample/ThisDocument.cs:309-325 | the name goes to (row, 1), the description to (row+1, 1), and (row+1, 1) gets a bottom border in the record's style |
| Layout.DescriptionMerged | VSTOExample/ThisDocument.cs:319-322 | in a block taller than 2, the description cell is merged from row+1 down to row+height-1 |
| Layout.FieldRowCells | VSTOExample/ThisDocument.cs:334-383 | field v's name, type and description go to columns 2, 3, 4 plus the offset on row row+v; a key field gets the icon in table mode; columns 2–3 are merged otherwise |
| Layout.FieldCells | VSTOExample/ThisDocument.cs:334-383 | the same cells are part of the record's block |
| Layout.FieldRowInRecord | VSTOExample/ThisDocument.cs:330-390 | every cell of field v's row belongs to the record's block |
| Layout.FieldRowFrame | VSTOExample/ThisDocument.cs:343-385 | a field row is shaded in column 2 and gets its right edge in column 4 plus the offset |
| Layout.PadRowCells | VSTOExample/ThisDocument.cs:404-407 | a padding row is shaded in column 2 and gets its right edge in column 4 plus the offset |
| Layout.FieldRowFormatted | VSTOExample/ThisDocument.cs:343-385 | a field row's shading and right edge are part of the record's block |
| Layout.PadRowFormatted | VSTOExample/ThisDocument.cs:404-407 | a padding row's shading and right edge are part of the record's block |
| Layout.BlockRowFormatted | VSTOExample/ThisDocument.cs:330-418 | every row of a block is shaded in column 2 and has its right edge in column 4 plus the offset |
| Layout.EveryRecordRowShaded | VSTOExample/ThisDocument.cs:302-421 | every row 3..numRows of the table is shaded in column 2 |
| Layout.LastFieldCloses | VSTOExample/ThisDocument.cs:347-389 | for two or more fields, the last field row gets bottom borders in the record's style in columns 2–4 plus the offset |
| Layout.LastPadCloses | VSTOExample/ThisDocument.cs:409-416 | for fewer than two fields, the last padding row gets those bottom borders |
| Layout.BlockClosed | VSTOExample/ThisDocument.cs:347-416 | the last row of every block is closed in columns 2–4 plus the offset in the record's style |
| Selection.InsertTables | VSTOExample/ThisDocument.cs:46-102 | the table loop skips non-`dbo` tables, stops at the first failure, and prints the records of the `dbo` tables in table mode |
| Selection.BuildTable | VSTOExample/ThisDocument.cs:59-95 | one table's record: its description, then one field per `Column` child, failing at the first failed lookup |
| Selection.InsertFunctions | VSTOExample/ThisDocument.cs:109-126 | the table-valued functions and then the scalar functions outside `[master]` are each printed; a failure in the first list prints nothing and stops the second, and a failure in the second keeps the first table beside that list's fault |
| Selection.FunctionReportsKeepFirst | VSTOExample/ThisDocument.cs:116-125 | nothing is printed exactly when the table-valued list fails; otherwise the table-valued table is the layout of its records whatever the scalar list holds, and the scalar outcome is that list's own report |
| Selection.InsertFunctionType | VSTOExample/ThisDocument.cs:135-177 | the function loop prints the records of all given functions, in order, in parameter mode |
| Selection.BuildFunction | VSTOExample/ThisDocument.cs:141-170 | one function's record: its description, then one field per `Parameter` child |
| Selection.InsertStoredProcedures | VSTOExample/ThisDocument.cs:184-229 | the procedure loop prints the records of all procedures, in order, in parameter mode |
| Selection.BuildProcedure | VSTOExample/ThisDocument.cs:197-222 | one procedure's record, failing when a parameter has no type |
| Selection.PropertiesOfMention | VSTOExample/ThisDocument.cs:75 | an object's properties are exactly those of the model whose name contains the object's name |
| Selection.TableRecordsAreDboTables | VSTOExample/ThisDocument.cs:57-66 | the table records are, one for one and in order, the records of the model's tables whose schema is `dbo` |
| Selection.EveryDboTableDocumented | VSTOExample/ThisDocument.cs:57-96 | every `dbo` table of the model has its record among the table records |
| Selection.FunctionRecordsOutsideMaster | VSTOExample/ThisDocument.cs:116 | the function records of a list are, one for one and in order, those of its functions whose full name does not start with `[master]` |
| Selection.ProcedureRecordsAll | VSTOExample/ThisDocument.cs:193-223 | every procedure has a record, in model order |
| Selection.TableRecordShape | VSTOExample/ThisDocument.cs:68-93 | a table record is named by its last name part, tagged as a table, described under `SqlTableBase`, with one field per column: key flag, last name part, type and `SqlColumn` description |
| Selection.FunctionRecordShape | VSTOExample/ThisDocument.cs:141-168 | a function record is tagged as a function and described under the three-part `SqlSubroutineParameter` key; its fields are the parameters, never keys, described from all properties |
| Selection.ProcedureRecordShape | VSTOExample/ThisDocument.cs:197-220 | a procedure record is tagged as a table and described under `SqlProcedure`; every parameter has a type, which is its field's type |
| Selection.TableRecordFaults | VSTOExample/ThisDocument.cs:76-92 | building a table record fails only in a description lookup, never with "no elements" |
| Selection.FunctionRecordFaults | VSTOExample/ThisDocument.cs:154-167 | building a function record fails only in a description lookup |
| Selection.UntypedProcedureParameterFails | VSTOExample/ThisDocument.cs:209-211 | the first parameter without a type that is reached fails the procedure with "no elements" |
| Selection.ProcedureNoElementsCause | VSTOExample/ThisDocument.cs:211 | a "no elements" failure of a procedure comes from a parameter without a type |
| Selection.TableRecordsFail | VSTOExample/ThisDocument.cs:57-96 | the table list fails exactly when some `dbo` table's record fails, with the failure of the first one that does |

## Left out

- Word interop is not modelled. This covers fonts, sizes, widths, heights, alignment, colours, `FitText` and the key icon's file path. It also covers the effect of a merge on later cell indices, the table's creation in the document, bookmarks, `Range.Next`, `InsertSpace`, `CommitRange` and the returned range (ThisDocument.cs:239, 250-263, 423-445). Only the (row, column) indices the code passes to `Cell` are modelled, as operations in a plan, with no document semantics.
- The schema library (`TSqlModel` loading, `GetObjects`, `GetChildren`, `GetReferencing`, `GetReferenced`, `GetProperty`) is a foreign library. Its results enter as abstract inputs.
  - A name has at least one part, so `First()` and `Last()` on a name do not fail.
  - A property's value text is given directly; a null property value is not modelled.
- `Name.ToString()` is the abstract `fullName` input; its format is not modelled.
- `ToUpper` on type names is culture-dependent. The input gives the type cell's text already upper-cased, and a referenced type's first name part is not modelled separately.
- `Contains`, `StartsWith` and `EndsWith` are modelled as ordinal comparisons. The `[master]` test at ThisDocument.cs:116 and 124 and the `N'` tests at line 468 use culture-sensitive comparison in the source.
- `records.Last()` at line 305 compares references. It is modelled as "the record's index is the last one", which is the same thing because every record is a fresh object.
- Startup, shutdown, configuration and locating the `.dacpac` file three directories above the current one (ThisDocument.cs:12-39, 491-502) are host plumbing and I/O.
- The unused `allFunctions` query (ThisDocument.cs:150) has no effect and is not modelled.
- The `DBObject` enumeration is not part of this model. Its two values used here are mirrored as `DbObjectKind`.
- Laziness of `Where` is not modelled. The filter's predicate is pure, so evaluating it eagerly gives the same records.
