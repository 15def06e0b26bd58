/** The controllers as step-by-step programs over the stored data sources.
    Storage reads become lookups in `datasources`; every write, DDL call and
    fact-table refresh is appended to `trace` in the order it happens.
    What the policy, the warehouse and the other stores answer is passed in. */
module Controllers {
  import opened Wrappers
  import opened DataSourceTypes
  import opened Sanitize
  import opened MatColumns
  import opened DataSourceRules

  /** `getDataSourceById`. */
  function Lookup(store: map<string, DataSource>, id: string): Option<DataSource> {
    if id in store then Some(store[id]) else None
  }

  function RefreshEffects(factTableIds: seq<string>): seq<Effect> {
    seq(|factTableIds|, k requires 0 <= k < |factTableIds| => RefreshFactTableColumns(factTableIds[k]))
  }

  function WithColumns(s: Settings, cols: seq<MatColumn>): Settings {
    s.(materializedColumns := Some(cols))
  }

  datatype ColumnOp = AddColumn | UpdateColumn | DeleteColumn

  /** What a column controller does once its guards pass: the DDL call; if
      it succeeds, the settings write; then, for add and update only, a
      column refresh of every fact table on the source. */
  function ColumnEffects(op: ColumnOp, dsId: string, req: ColumnUpdateRequest, updates: DataSourceUpdates,
                         factTableIds: seq<string>, ddlOk: bool): (r: seq<Effect>)
    ensures |r| > 0 && r[0] == ApplyDdl(req)
    ensures |r| == if !ddlOk then 1 else if op == DeleteColumn then 2 else 2 + |factTableIds|
    ensures ddlOk ==> r[1] == WriteDataSource(dsId, updates)
    ensures forall k :: 2 <= k < |r| ==> r[k] == RefreshFactTableColumns(factTableIds[k - 2])
  {
    [ApplyDdl(req)] +
    if !ddlOk then []
    else [WriteDataSource(dsId, updates)] + if op == DeleteColumn then [] else RefreshEffects(factTableIds)
  }

  /** The result a controller answers with, the store it leaves, and the
      effects it takes, in order. */
  datatype Outcome<T> = Outcome(result: Result<T, Error>, store: map<string, DataSource>, effects: seq<Effect>)

  function ColumnOutcome(op: ColumnOp, plan: Result<ColumnUpdateRequest, Error>, store: map<string, DataSource>,
                         dsId: string, factTableIds: seq<string>, ddlOk: bool): (o: Outcome<DataSource>)
    requires plan.Ok? ==> dsId in store
    ensures plan.Err? ==> o == Outcome(Err(plan.error), store, [])
    ensures plan.Ok? ==> (o.result.Ok? <==> ddlOk)
    ensures plan.Ok? ==>
              o.effects == ColumnEffects(op, dsId, plan.value,
                                         SettingsUpdate(WithColumns(store[dsId].settings, plan.value.finalColumns)),
                                         factTableIds, ddlOk)
    ensures o.result.Err? ==> o.store == store
    ensures o.result.Ok? ==>
              && o.store.Keys == store.Keys
              && o.store[dsId] == o.result.value
              && (forall k :: k in store && k != dsId ==> o.store[k] == store[k])
              && OriginalColumns(o.result.value) == plan.value.finalColumns
              && o.result.value == store[dsId].(settings := WithColumns(store[dsId].settings, plan.value.finalColumns))
  {
    match plan
    case Err(e) => Outcome(Err(e), store, [])
    case Ok(req) =>
      var ds := store[dsId];
      var updates := SettingsUpdate(WithColumns(ds.settings, req.finalColumns));
      var effects := ColumnEffects(op, dsId, req, updates, factTableIds, ddlOk);
      if !ddlOk then Outcome(Err(DdlFailed), store, effects)
      else Outcome(Ok(ApplyUpdates(ds, updates)), store[dsId := ApplyUpdates(ds, updates)], effects)
  }

  /** The order of a column controller's effects: the DDL call comes first
      and only once; the settings write only follows a successful DDL call
      and comes right after it; fact-table refreshes come after the write,
      and never for delete. */
  lemma ColumnEffectsOrder(op: ColumnOp, dsId: string, req: ColumnUpdateRequest, updates: DataSourceUpdates,
                            factTableIds: seq<string>, ddlOk: bool)
    ensures var e := ColumnEffects(op, dsId, req, updates, factTableIds, ddlOk);
            && e[0] == ApplyDdl(req)
            && (forall i :: 0 < i < |e| ==> !e[i].ApplyDdl?)
            && (forall i :: 0 <= i < |e| && e[i].WriteDataSource? ==> ddlOk && i == 1)
            && (forall i :: 0 <= i < |e| && e[i].RefreshFactTableColumns? ==> ddlOk && op != DeleteColumn && i > 1)
            && (ddlOk <==> |e| > 1 && e[1] == WriteDataSource(dsId, updates))
            && (ddlOk && op != DeleteColumn ==> |e| == 2 + |factTableIds|)
  {
  }

  /** A failed DDL call stops the controller before the settings write: the
      store is as it was and the only effect is the attempted DDL call. */
  lemma FailedDdlWritesNothing(op: ColumnOp, plan: Result<ColumnUpdateRequest, Error>, store: map<string, DataSource>,
                               dsId: string, factTableIds: seq<string>)
    requires plan.Ok? && dsId in store
    ensures var o := ColumnOutcome(op, plan, store, dsId, factTableIds, false);
            o.result == Err(DdlFailed) && o.store == store && o.effects == [ApplyDdl(plan.value)]
  {
  }

  /** Add, then list: the stored columns are the old ones followed by the new
      column, nothing else in the source or the store changes, and the answer
      is what was stored. */
  lemma AddThenList(store: map<string, DataSource>, dsId: string, input: MatColumn, canUpdate: bool,
                     reserved: set<string>, allowedTypes: seq<string>, factTableIds: seq<string>)
    requires PlanAdd(input, Lookup(store, dsId), canUpdate, reserved, allowedTypes).Ok?
    ensures dsId in store
    ensures var o := ColumnOutcome(AddColumn, PlanAdd(input, Lookup(store, dsId), canUpdate, reserved, allowedTypes),
                                   store, dsId, factTableIds, true);
            && o.result == Ok(o.store[dsId])
            && o.store.Keys == store.Keys
            && (forall k :: k in store && k != dsId ==> o.store[k] == store[k])
            && OriginalColumns(o.store[dsId]) == OriginalColumns(store[dsId]) + [input]
            && o.store[dsId] == store[dsId].(settings := WithColumns(store[dsId].settings, OriginalColumns(store[dsId]) + [input]))
  {
  }

  /** Number of columns with the given name. */
  function CountNamed(cols: seq<MatColumn>, name: string): nat {
    if cols == [] then 0
    else (if cols[0].columnName == name then 1 else 0) + CountNamed(cols[1..], name)
  }

  lemma {:induction false} CountNamedSplit(a: seq<MatColumn>, b: seq<MatColumn>, name: string)
    ensures CountNamed(a + b, name) == CountNamed(a, name) + CountNamed(b, name)
  {
    if a == [] {
      assert a + b == b;
    } else {
      CountNamedSplit(a[1..], b, name);
      assert (a + b)[0] == a[0];
      assert (a + b)[1..] == a[1..] + b;
    }
  }

  lemma {:induction false} CountNamedZero(cols: seq<MatColumn>, name: string)
    ensures CountNamed(cols, name) == 0 <==> forall j :: 0 <= j < |cols| ==> cols[j].columnName != name
  {
    if cols != [] {
      CountNamedZero(cols[1..], name);
      assert forall j :: 1 <= j < |cols| ==> cols[j] == cols[1..][j - 1];
    }
  }

  /** Delete, then list: exactly one column with the name leaves the stored
      list, so a name that was declared once is gone afterwards. */
  lemma DeleteThenList(store: map<string, DataSource>, dsId: string, name: string, canUpdate: bool)
    requires PlanDelete(name, Lookup(store, dsId), canUpdate).Ok?
    ensures dsId in store
    ensures var o := ColumnOutcome(DeleteColumn, PlanDelete(name, Lookup(store, dsId), canUpdate), store, dsId, [], true);
            && CountNamed(OriginalColumns(o.store[dsId]), name) == CountNamed(OriginalColumns(store[dsId]), name) - 1
            && (CountNamed(OriginalColumns(store[dsId]), name) == 1 ==>
                  forall j :: 0 <= j < |OriginalColumns(o.store[dsId])| ==> OriginalColumns(o.store[dsId])[j].columnName != name)
  {
    var orig := OriginalColumns(store[dsId]);
    var i := FindColumn(orig, name).value;
    assert orig == orig[..i] + [orig[i]] + orig[i + 1..];
    CountNamedSplit(orig[..i] + [orig[i]], orig[i + 1..], name);
    CountNamedSplit(orig[..i], [orig[i]], name);
    CountNamedSplit(orig[..i], orig[i + 1..], name);
    assert CountNamed([orig[i]], name) == 1;
    var o := ColumnOutcome(DeleteColumn, PlanDelete(name, Lookup(store, dsId), canUpdate), store, dsId, [], true);
    assert OriginalColumns(o.store[dsId]) == orig[..i] + orig[i + 1..];
    CountNamedZero(OriginalColumns(o.store[dsId]), name);
  }

  /** Update, then list: the new column is stored where the old one was, one
      column with the old name leaves the list, and a name that was declared
      once is gone afterwards. */
  lemma UpdateThenList(store: map<string, DataSource>, dsId: string, name: string, input: MatColumn, canUpdate: bool,
                       reserved: set<string>, allowedTypes: seq<string>, factTableIds: seq<string>)
    requires PlanUpdate(input, name, Lookup(store, dsId), canUpdate, reserved, allowedTypes).Ok?
    ensures dsId in store
    ensures var o := ColumnOutcome(UpdateColumn, PlanUpdate(input, name, Lookup(store, dsId), canUpdate, reserved, allowedTypes),
                                   store, dsId, factTableIds, true);
            var after := OriginalColumns(o.store[dsId]);
            && |after| == |OriginalColumns(store[dsId])|
            && input in after
            && CountNamed(after, name) == CountNamed(OriginalColumns(store[dsId]), name) - 1
            && (CountNamed(OriginalColumns(store[dsId]), name) == 1 ==>
                  forall j :: 0 <= j < |after| ==> after[j].columnName != name)
  {
    var lookup := Lookup(store, dsId);
    assert lookup == Some(store[dsId]);
    var orig := OriginalColumns(store[dsId]);
    var i := FindColumn(orig, name).value;
    var req := PlanUpdate(input, name, lookup, canUpdate, reserved, allowedTypes).value;
    assert req == UpdateRequest(orig, i, input);
    var after := orig[..i] + [input] + orig[i + 1..];
    assert req.finalColumns == after;
    assert orig == orig[..i] + [orig[i]] + orig[i + 1..];
    CountNamedSplit(orig[..i] + [orig[i]], orig[i + 1..], name);
    CountNamedSplit(orig[..i], [orig[i]], name);
    CountNamedSplit(orig[..i] + [input], orig[i + 1..], name);
    CountNamedSplit(orig[..i], [input], name);
    assert CountNamed([orig[i]], name) == 1;
    assert CountNamed([input], name) == 0;
    var o := ColumnOutcome(UpdateColumn, PlanUpdate(input, name, Lookup(store, dsId), canUpdate, reserved, allowedTypes),
                           store, dsId, factTableIds, true);
    assert OriginalColumns(o.store[dsId]) == after;
    assert after[i] == input;
    CountNamedZero(after, name);
  }

  /** Stored data sources are keyed by their own id. */
  ghost predicate KeyedById(store: map<string, DataSource>) {
    forall k :: k in store ==> store[k].id == k
  }

  class Backend {
    var datasources: map<string, DataSource>
    var trace: seq<Effect>

    ghost predicate Valid()
      reads this
    {
      KeyedById(datasources)
    }

    constructor (store: map<string, DataSource>)
      requires KeyedById(store)
      ensures Valid() && datasources == store && trace == []
    {
      datasources := store;
      trace := [];
    }

    /** The loop over `getFactTablesForDatasource`: re-read each table's
        columns from the warehouse and store them. */
    method RefreshFactTables(factTableIds: seq<string>)
      modifies this
      ensures datasources == old(datasources)
      ensures trace == old(trace) + RefreshEffects(factTableIds)
    {
      for k := 0 to |factTableIds|
        invariant datasources == old(datasources)
        invariant trace == old(trace) + RefreshEffects(factTableIds[..k])
      {
        assert RefreshEffects(factTableIds[..k + 1]) == RefreshEffects(factTableIds[..k]) + [RefreshFactTableColumns(factTableIds[k])];
        trace := trace + [RefreshFactTableColumns(factTableIds[k])];
      }
      assert factTableIds[..|factTableIds|] == factTableIds;
    }

    /** The tail the three column controllers share once the request is
        built: the DDL call; if it succeeds, the settings write; then, for
        add and update, the fact-table refresh. */
    method ReconcileColumns(op: ColumnOp, dsId: string, request: ColumnUpdateRequest,
                            factTableIds: seq<string>, ddlOk: bool)
      returns (r: Result<DataSource, Error>)
      requires Valid() && dsId in datasources
      modifies this
      ensures Valid()
      ensures var o := ColumnOutcome(op, Ok(request), old(datasources), dsId, factTableIds, ddlOk);
              r == o.result && datasources == o.store && trace == old(trace) + o.effects
    {
      var ds := datasources[dsId];
      var updates := SettingsUpdate(WithColumns(ds.settings, request.finalColumns));
      trace := trace + [ApplyDdl(request)];
      if !ddlOk {
        return Err(DdlFailed);
      }
      datasources := datasources[dsId := ApplyUpdates(ds, updates)];
      trace := trace + [WriteDataSource(dsId, updates)];
      if op != DeleteColumn {
        RefreshFactTables(factTableIds);
      }
      r := Ok(ApplyUpdates(ds, updates));
    }

    /** `postMaterializedColumn`. */
    method PostMaterializedColumn(dsId: string, input: MatColumn, canUpdate: bool, reserved: set<string>,
                                  allowedTypes: seq<string>, factTableIds: seq<string>, ddlOk: bool)
      returns (r: Result<DataSource, Error>)
      requires Valid()
      modifies this
      ensures Valid()
      ensures var plan := PlanAdd(input, Lookup(old(datasources), dsId), canUpdate, reserved, allowedTypes);
              var o := ColumnOutcome(AddColumn, plan, old(datasources), dsId, factTableIds, ddlOk);
              r == o.result && datasources == o.store && trace == old(trace) + o.effects
    {
      var sanitized := SanitizeInput(input, reserved, allowedTypes);
      if sanitized.Err? {
        return Err(sanitized.error);
      }
      var newColumn := sanitized.value;
      var managed := ManagedDataSource(Lookup(datasources, dsId), canUpdate);
      if managed.Err? {
        return Err(managed.error);
      }
      var ds := managed.value;
      var originalColumns := OriginalColumns(ds);
      var finalColumns := originalColumns + [newColumn];
      r := ReconcileColumns(AddColumn, dsId, ColumnUpdateRequest([newColumn], [], [], finalColumns, originalColumns),
                            factTableIds, ddlOk);
    }

    /** `updateMaterializedColumn`. */
    method UpdateMaterializedColumn(dsId: string, matColumnName: string, input: MatColumn, canUpdate: bool,
                                    reserved: set<string>, allowedTypes: seq<string>,
                                    factTableIds: seq<string>, ddlOk: bool)
      returns (r: Result<DataSource, Error>)
      requires Valid()
      modifies this
      ensures Valid()
      ensures var plan := PlanUpdate(input, matColumnName, Lookup(old(datasources), dsId), canUpdate, reserved, allowedTypes);
              var o := ColumnOutcome(UpdateColumn, plan, old(datasources), dsId, factTableIds, ddlOk);
              r == o.result && datasources == o.store && trace == old(trace) + o.effects
    {
      var sanitized := SanitizeInput(input, reserved, allowedTypes);
      if sanitized.Err? {
        return Err(sanitized.error);
      }
      var newColumn := sanitized.value;
      var managed := ManagedDataSource(Lookup(datasources, dsId), canUpdate);
      if managed.Err? {
        return Err(managed.error);
      }
      var ds := managed.value;
      if matColumnName == newColumn.columnName {
        return Err(SameColumnName);
      }
      var originalColumns := OriginalColumns(ds);
      var originalIdx := FindColumn(originalColumns, matColumnName);
      if originalIdx.None? {
        return Err(ColumnNotFound);
      }
      var i := originalIdx.value;
      var originalColumn := originalColumns[i];
      var finalColumns := originalColumns[..i] + [newColumn] + originalColumns[i + 1..];
      var request;
      if originalColumn.dataType == newColumn.dataType && originalColumn.sourceField == newColumn.sourceField {
        request := ColumnUpdateRequest([], [], [Rename(originalColumn.columnName, newColumn.columnName)], finalColumns, originalColumns);
      } else {
        request := ColumnUpdateRequest([newColumn], [originalColumn.columnName], [], finalColumns, originalColumns);
      }
      assert request == UpdateRequest(originalColumns, i, newColumn);
      r := ReconcileColumns(UpdateColumn, dsId, request, factTableIds, ddlOk);
    }

    /** `deleteMaterializedColumn`: no fact-table refresh follows. */
    method DeleteMaterializedColumn(dsId: string, matColumnName: string, canUpdate: bool, ddlOk: bool)
      returns (r: Result<DataSource, Error>)
      requires Valid()
      modifies this
      ensures Valid()
      ensures var plan := PlanDelete(matColumnName, Lookup(old(datasources), dsId), canUpdate);
              var o := ColumnOutcome(DeleteColumn, plan, old(datasources), dsId, [], ddlOk);
              r == o.result && datasources == o.store && trace == old(trace) + o.effects
    {
      var managed := ManagedDataSource(Lookup(datasources, dsId), canUpdate);
      if managed.Err? {
        return Err(managed.error);
      }
      var ds := managed.value;
      var originalColumns := OriginalColumns(ds);
      var originalIdx := FindColumn(originalColumns, matColumnName);
      if originalIdx.None? {
        return Err(ColumnNotFound);
      }
      var i := originalIdx.value;
      var finalColumns := originalColumns[..i] + originalColumns[i + 1..];
      r := ReconcileColumns(DeleteColumn, dsId, ColumnUpdateRequest([], [matColumnName], [], finalColumns, originalColumns),
                            [], ddlOk);
    }

    /** `updateExposureQuery`: the settings are copied, the first exposure
        query with the id is overwritten in the copy, and the copy stored. */
    method UpdateExposureQuery(dsId: string, exposureQueryId: string, updates: ExposureQueryUpdate, canUpdate: bool)
      returns (r: Result<(), Error>)
      requires Valid()
      modifies this
      ensures Valid()
      ensures match PlanExposureUpdate(Lookup(old(datasources), dsId), canUpdate, exposureQueryId, updates)
              case Err(e) => r == Err(e) && datasources == old(datasources) && trace == old(trace)
              case Ok(settings) =>
                && r == Ok(())
                && datasources == old(datasources)[dsId := ApplyUpdates(old(datasources)[dsId], SettingsUpdate(settings))]
                && trace == old(trace) + [WriteDataSource(dsId, SettingsUpdate(settings))]
    {
      var lookup := Lookup(datasources, dsId);
      if lookup.None? {
        return Err(DataSourceNotFound);
      }
      var dataSource := lookup.value;
      if !canUpdate {
        return Err(PermissionDenied);
      }
      var copy := dataSource.settings;
      var exposure := ExposureQueries(copy);
      if exposure.None? {
        return Err(ExposureQueryNotFound);
      }
      var queries := exposure.value;
      var exposureQueryIndex := FindExposure(queries, exposureQueryId);
      if exposureQueryIndex.None? {
        return Err(ExposureQueryNotFound);
      }
      var i := exposureQueryIndex.value;
      queries := queries[i := MergeExposure(queries[i], updates)];
      copy := WithExposureQueries(copy, queries);
      var dsUpdates := SettingsUpdate(copy);
      datasources := datasources[dsId := ApplyUpdates(dataSource, dsUpdates)];
      trace := trace + [WriteDataSource(dsId, dsUpdates)];
      r := Ok(());
    }

    /** `putDataSource`: the guards, then the `updates` object filled field
        by field, then the write. */
    method PutDataSource(dsId: string, userFound: bool, perms: PutPermissions, req: PutRequest,
                         connectionOk: bool, encryptedParams: string)
      returns (r: Result<DataSource, Error>)
      requires Valid()
      modifies this
      ensures Valid()
      ensures match PlanPut(userFound, Lookup(old(datasources), dsId), perms, req, connectionOk, encryptedParams)
              case Err(e) => r == Err(e) && datasources == old(datasources) && trace == old(trace)
              case Ok(u) =>
                var d := ApplyUpdates(old(datasources)[dsId], u);
                && r == Ok(d)
                && datasources == old(datasources)[dsId := d]
                && trace == old(trace) + [WriteDataSource(dsId, u)]
    {
      if !userFound {
        return Err(UserNotFound);
      }
      var lookup := Lookup(datasources, dsId);
      if lookup.None? {
        return Err(DataSourceNotFound);
      }
      var datasource := lookup.value;
      if !perms.settings {
        return Err(PermissionDenied);
      }
      if req.params.Some? && !perms.params {
        return Err(PermissionDenied);
      }
      if req.projects.Some? && !perms.projects {
        return Err(PermissionDenied);
      }
      if Truthy(req.dsType) && req.dsType.value != datasource.dsType {
        return Err(TypeChange);
      }
      var updates := DataSourceUpdates(None, None, None, None, None);
      if Truthy(req.name) {
        updates := updates.(name := req.name);
      }
      if req.description.Some? {
        updates := updates.(description := req.description);
      }
      if req.settings.Some? {
        updates := updates.(settings := req.settings);
      }
      if req.projects.Some? {
        updates := updates.(projects := req.projects);
      }
      if req.params.Some? {
        if !connectionOk {
          return Err(ConnectionFailed);
        }
        updates := updates.(params := Some(encryptedParams));
      }
      datasources := datasources[dsId := ApplyUpdates(datasource, updates)];
      trace := trace + [WriteDataSource(dsId, updates)];
      r := Ok(ApplyUpdates(datasource, updates));
    }

    /** `deleteDataSource`: the guards, the delete, then the information
        schema and its tables when the source has one. */
    method DeleteDataSource(dsId: string, canDelete: bool, defaultId: Option<string>, deps: Dependents)
      returns (r: Result<(), Error>)
      requires Valid()
      modifies this
      ensures Valid()
      ensures match PlanDeleteDataSource(Lookup(old(datasources), dsId), canDelete, defaultId, deps)
              case Err(e) => r == Err(e) && datasources == old(datasources) && trace == old(trace)
              case Ok(ds) =>
                && r == Ok(())
                && datasources == old(datasources) - {dsId}
                && trace == old(trace) + DeleteEffects(ds)
    {
      var lookup := Lookup(datasources, dsId);
      if lookup.None? {
        return Err(DataSourceNotFound);
      }
      var datasource := lookup.value;
      if !canDelete {
        return Err(PermissionDenied);
      }
      if defaultId == Some(datasource.id) {
        return Err(IsDefaultDataSource);
      }
      if deps.metrics > 0 {
        return Err(HasMetrics);
      }
      if deps.segments > 0 {
        return Err(HasSegments);
      }
      if deps.dimensions > 0 {
        return Err(HasDimensions);
      }
      datasources := datasources - {datasource.id};
      trace := trace + [RemoveDataSource(datasource.id)];
      if Truthy(datasource.settings.informationSchemaId) {
        var informationSchemaId := datasource.settings.informationSchemaId.value;
        trace := trace + [RemoveInformationSchema(informationSchemaId)];
        trace := trace + [RemoveInformationSchemaTables(informationSchemaId)];
      }
      r := Ok(());
    }
  }
}
