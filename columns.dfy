/** The column-list and DDL-request logic of `postMaterializedColumn`,
    `updateMaterializedColumn` and `deleteMaterializedColumn`: the guards each
    runs before any effect, and the request each hands to the DDL service. */
module MatColumns {
  import opened Wrappers
  import opened DataSourceTypes
  import opened Seqs
  import opened Sanitize

  /** `settings.materializedColumns || []`. */
  function OriginalColumns(ds: DataSource): seq<MatColumn> {
    match ds.settings.materializedColumns
    case Some(cols) => cols
    case None => []
  }

  /** `originalColumns.findIndex((col) => col.columnName === name)`. */
  function FindColumn(cols: seq<MatColumn>, name: string): (r: Option<nat>)
    ensures r.Some? ==> r.value < |cols| && cols[r.value].columnName == name
    ensures r.Some? ==> forall j :: 0 <= j < r.value ==> cols[j].columnName != name
    ensures r.None? <==> forall j :: 0 <= j < |cols| ==> cols[j].columnName != name
  {
    FindIndex(cols, (c: MatColumn) => c.columnName == name)
  }

  /** The checks shared by the three column controllers once the data source
      is looked up: it exists, the caller may update its settings, and it is a
      managed ClickHouse source. */
  function ManagedDataSource(lookup: Option<DataSource>, canUpdate: bool): (r: Result<DataSource, Error>)
    ensures r.Ok? <==> lookup.Some? && canUpdate && lookup.value.dsType == ClickhouseType
    ensures r.Ok? ==> r.value == lookup.value
    ensures lookup.None? ==> r == Err(DataSourceNotFound)
    ensures lookup.Some? && !canUpdate ==> r == Err(PermissionDenied)
    ensures lookup.Some? && canUpdate && lookup.value.dsType != ClickhouseType ==> r == Err(NotClickhouse)
  {
    if lookup.None? then Err(DataSourceNotFound)
    else if !canUpdate then Err(PermissionDenied)
    else if lookup.value.dsType != ClickhouseType then Err(NotClickhouse)
    else Ok(lookup.value)
  }

  function AddRequest(orig: seq<MatColumn>, c: MatColumn): ColumnUpdateRequest {
    ColumnUpdateRequest([c], [], [], orig + [c], orig)
  }

  /** A column whose datatype and source field stay is renamed in place; any
      other change drops the old column and adds the new one. */
  function UpdateRequest(orig: seq<MatColumn>, i: nat, c: MatColumn): ColumnUpdateRequest
    requires i < |orig|
  {
    var was := orig[i];
    var final := ReplaceAt(orig, i, c);
    if was.dataType == c.dataType && was.sourceField == c.sourceField then
      ColumnUpdateRequest([], [], [Rename(was.columnName, c.columnName)], final, orig)
    else
      ColumnUpdateRequest([c], [was.columnName], [], final, orig)
  }

  function DeleteRequest(orig: seq<MatColumn>, i: nat, name: string): ColumnUpdateRequest
    requires i < |orig|
  {
    ColumnUpdateRequest([], [name], [], RemoveAt(orig, i), orig)
  }

  /** `postMaterializedColumn` up to the DDL call. The input is validated
      before the data source is looked up. */
  function PlanAdd(input: MatColumn, lookup: Option<DataSource>, canUpdate: bool,
                   reserved: set<string>, allowedTypes: seq<string>): (r: Result<ColumnUpdateRequest, Error>)
    ensures r.Ok? <==> SanitizeInput(input, reserved, allowedTypes).Ok? && ManagedDataSource(lookup, canUpdate).Ok?
    ensures SanitizeInput(input, reserved, allowedTypes).Ok? && ManagedDataSource(lookup, canUpdate).Err? ==>
              r == Err(ManagedDataSource(lookup, canUpdate).error)
    ensures r.Ok? ==>
              var orig := OriginalColumns(lookup.value);
              && r.value.originalColumns == orig && r.value.finalColumns == orig + [input]
              && r.value.columnsToAdd == [input] && r.value.columnsToDelete == [] && r.value.columnsToRename == []
  {
    var c :- SanitizeInput(input, reserved, allowedTypes);
    var ds :- ManagedDataSource(lookup, canUpdate);
    Ok(AddRequest(OriginalColumns(ds), c))
  }

  /** `updateMaterializedColumn` up to the DDL call. The same-name check
      comes before the column is looked for. */
  function PlanUpdate(input: MatColumn, matColumnName: string, lookup: Option<DataSource>, canUpdate: bool,
                      reserved: set<string>, allowedTypes: seq<string>): (r: Result<ColumnUpdateRequest, Error>)
    ensures r.Ok? <==>
              && SanitizeInput(input, reserved, allowedTypes).Ok? && ManagedDataSource(lookup, canUpdate).Ok?
              && matColumnName != input.columnName
              && exists j :: 0 <= j < |OriginalColumns(lookup.value)| && OriginalColumns(lookup.value)[j].columnName == matColumnName
    ensures SanitizeInput(input, reserved, allowedTypes).Ok? && ManagedDataSource(lookup, canUpdate).Err? ==>
              r == Err(ManagedDataSource(lookup, canUpdate).error)
    ensures SanitizeInput(input, reserved, allowedTypes).Ok? && ManagedDataSource(lookup, canUpdate).Ok?
              && r.Err? ==>
              r == (if matColumnName == input.columnName then Err(SameColumnName) else Err(ColumnNotFound))
    ensures r.Ok? ==>
              && r.value.originalColumns == OriginalColumns(lookup.value)
              && |r.value.finalColumns| == |OriginalColumns(lookup.value)|
              && input in r.value.finalColumns
  {
    var c :- SanitizeInput(input, reserved, allowedTypes);
    var ds :- ManagedDataSource(lookup, canUpdate);
    if matColumnName == c.columnName then Err(SameColumnName)
    else
      var orig := OriginalColumns(ds);
      match FindColumn(orig, matColumnName)
      case None => Err(ColumnNotFound)
      case Some(i) => Ok(UpdateRequest(orig, i, c))
  }

  /** `deleteMaterializedColumn` up to the DDL call; it has no input to
      validate. */
  function PlanDelete(matColumnName: string, lookup: Option<DataSource>, canUpdate: bool): (r: Result<ColumnUpdateRequest, Error>)
    ensures r.Ok? <==>
              && ManagedDataSource(lookup, canUpdate).Ok?
              && exists j :: 0 <= j < |OriginalColumns(lookup.value)| && OriginalColumns(lookup.value)[j].columnName == matColumnName
    ensures ManagedDataSource(lookup, canUpdate).Err? ==> r == Err(ManagedDataSource(lookup, canUpdate).error)
    ensures ManagedDataSource(lookup, canUpdate).Ok? && r.Err? ==> r == Err(ColumnNotFound)
    ensures r.Ok? ==>
              && r.value.originalColumns == OriginalColumns(lookup.value)
              && |r.value.finalColumns| == |OriginalColumns(lookup.value)| - 1
              && r.value.columnsToDelete == [matColumnName]
              && r.value.columnsToAdd == [] && r.value.columnsToRename == []
  {
    var ds :- ManagedDataSource(lookup, canUpdate);
    var orig := OriginalColumns(ds);
    match FindColumn(orig, matColumnName)
    case None => Err(ColumnNotFound)
    case Some(i) => Ok(DeleteRequest(orig, i, matColumnName))
  }

  // ---------------------------------------------------------------------
  // Properties of the three plans

  /** Invalid input is refused with its validation error whatever the data
      source, the permission, or the column list: validation comes first. */
  lemma ValidationPrecedesLookup(input: MatColumn, matColumnName: string, lookup: Option<DataSource>, canUpdate: bool,
                                 reserved: set<string>, allowedTypes: seq<string>)
    requires SanitizeInput(input, reserved, allowedTypes).Err?
    ensures var e := SanitizeInput(input, reserved, allowedTypes).error;
            && PlanAdd(input, lookup, canUpdate, reserved, allowedTypes) == Err(e)
            && PlanUpdate(input, matColumnName, lookup, canUpdate, reserved, allowedTypes) == Err(e)
  {
  }

  /** Add: the final list is the original followed by the new column, and
      the DDL request only adds that column. */
  lemma AddAppends(input: MatColumn, ds: DataSource, canUpdate: bool,
                   reserved: set<string>, allowedTypes: seq<string>)
    requires PlanAdd(input, Some(ds), canUpdate, reserved, allowedTypes).Ok?
    ensures var req := PlanAdd(input, Some(ds), canUpdate, reserved, allowedTypes).value;
            && req.originalColumns == OriginalColumns(ds)
            && req.finalColumns == OriginalColumns(ds) + [input]
            && |req.finalColumns| == |OriginalColumns(ds)| + 1
            && req.finalColumns[|req.finalColumns| - 1] == input
            && req.columnsToAdd == [input]
            && req.columnsToDelete == [] && req.columnsToRename == []
  {
  }

  /** Add refuses nothing on account of names already in the list: a valid
      column whose name is taken is appended a second time. */
  lemma AddKeepsDuplicateNames(input: MatColumn, ds: DataSource, k: nat,
                               reserved: set<string>, allowedTypes: seq<string>)
    requires SanitizeInput(input, reserved, allowedTypes).Ok?
    requires ds.dsType == ClickhouseType
    requires k < |OriginalColumns(ds)| && OriginalColumns(ds)[k].columnName == input.columnName
    ensures PlanAdd(input, Some(ds), true, reserved, allowedTypes).Ok?
    ensures var final := PlanAdd(input, Some(ds), true, reserved, allowedTypes).value.finalColumns;
            final[k].columnName == final[|final| - 1].columnName && k != |final| - 1
  {
  }

  /** Update to the name in the path is refused whatever else changes, and
      before the list is searched. */
  lemma UpdateSameNameRefused(input: MatColumn, ds: DataSource,
                              reserved: set<string>, allowedTypes: seq<string>)
    requires SanitizeInput(input, reserved, allowedTypes).Ok?
    requires ds.dsType == ClickhouseType
    ensures PlanUpdate(input, input.columnName, Some(ds), true, reserved, allowedTypes) == Err(SameColumnName)
  {
  }

  /** Update of a name no column has is refused. */
  lemma UpdateMissingRefused(input: MatColumn, matColumnName: string, ds: DataSource,
                             reserved: set<string>, allowedTypes: seq<string>)
    requires SanitizeInput(input, reserved, allowedTypes).Ok?
    requires ds.dsType == ClickhouseType && matColumnName != input.columnName
    requires forall j :: 0 <= j < |OriginalColumns(ds)| ==> OriginalColumns(ds)[j].columnName != matColumnName
    ensures PlanUpdate(input, matColumnName, Some(ds), true, reserved, allowedTypes) == Err(ColumnNotFound)
  {
  }

  /** Update: the new column takes the place of the first column with the
      path's name; the list keeps its length and every other entry. */
  lemma UpdateReplacesFirstMatch(input: MatColumn, matColumnName: string, ds: DataSource, canUpdate: bool,
                                 reserved: set<string>, allowedTypes: seq<string>)
    requires PlanUpdate(input, matColumnName, Some(ds), canUpdate, reserved, allowedTypes).Ok?
    ensures var req := PlanUpdate(input, matColumnName, Some(ds), canUpdate, reserved, allowedTypes).value;
            var orig := OriginalColumns(ds);
            && input.columnName != matColumnName
            && req.originalColumns == orig
            && |req.finalColumns| == |orig|
            && exists i :: 0 <= i < |orig|
                 && orig[i].columnName == matColumnName
                 && (forall j :: 0 <= j < i ==> orig[j].columnName != matColumnName)
                 && req.finalColumns == orig[i := input]
  {
  }

  /** Update's DDL: a single rename exactly when datatype and source field
      are both unchanged, otherwise drop the old name and add the new column. */
  lemma UpdateDdlChoice(input: MatColumn, matColumnName: string, ds: DataSource, canUpdate: bool,
                        reserved: set<string>, allowedTypes: seq<string>)
    requires PlanUpdate(input, matColumnName, Some(ds), canUpdate, reserved, allowedTypes).Ok?
    ensures var req := PlanUpdate(input, matColumnName, Some(ds), canUpdate, reserved, allowedTypes).value;
            var was := OriginalColumns(ds)[FindColumn(OriginalColumns(ds), matColumnName).value];
            && was.columnName == matColumnName
            && (was.dataType == input.dataType && was.sourceField == input.sourceField ==>
                  req.columnsToRename == [Rename(matColumnName, input.columnName)]
                  && req.columnsToAdd == [] && req.columnsToDelete == [])
            && (was.dataType != input.dataType || was.sourceField != input.sourceField ==>
                  req.columnsToRename == []
                  && req.columnsToAdd == [input] && req.columnsToDelete == [matColumnName])
  {
  }

  /** Update does not look for a clash between the new name and the other
      columns: renaming onto a name another column holds goes through. */
  lemma UpdateKeepsNameClash(input: MatColumn, ds: DataSource, a: nat, b: nat,
                             reserved: set<string>, allowedTypes: seq<string>)
    requires SanitizeInput(input, reserved, allowedTypes).Ok?
    requires ds.dsType == ClickhouseType
    requires a < b < |OriginalColumns(ds)|
    requires OriginalColumns(ds)[a].columnName != input.columnName
    requires forall j :: 0 <= j < a ==> OriginalColumns(ds)[j].columnName != OriginalColumns(ds)[a].columnName
    requires OriginalColumns(ds)[b].columnName == input.columnName
    ensures var r := PlanUpdate(input, OriginalColumns(ds)[a].columnName, Some(ds), true, reserved, allowedTypes);
            && r.Ok?
            && r.value.finalColumns[a].columnName == r.value.finalColumns[b].columnName
  {
  }

  /** Delete: the first column with the name is removed, the rest keep their
      order, and the DDL request drops only that name. */
  lemma DeleteRemovesFirstMatch(matColumnName: string, ds: DataSource, canUpdate: bool)
    requires PlanDelete(matColumnName, Some(ds), canUpdate).Ok?
    ensures var req := PlanDelete(matColumnName, Some(ds), canUpdate).value;
            var orig := OriginalColumns(ds);
            && req.originalColumns == orig
            && req.columnsToDelete == [matColumnName]
            && req.columnsToAdd == [] && req.columnsToRename == []
            && |req.finalColumns| == |orig| - 1
            && exists i :: 0 <= i < |orig|
                 && orig[i].columnName == matColumnName
                 && (forall j :: 0 <= j < i ==> orig[j].columnName != matColumnName)
                 && req.finalColumns == orig[..i] + orig[i + 1..]
  {
  }

  /** Delete of a name no column has is refused. */
  lemma DeleteMissingRefused(matColumnName: string, ds: DataSource)
    requires ds.dsType == ClickhouseType
    requires forall j :: 0 <= j < |OriginalColumns(ds)| ==> OriginalColumns(ds)[j].columnName != matColumnName
    ensures PlanDelete(matColumnName, Some(ds), true) == Err(ColumnNotFound)
  {
  }
}
