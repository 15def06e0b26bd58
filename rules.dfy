/** The pure rules of the data-source controllers other than materialized
    columns: merging an exposure-query update, the partial update
    `putDataSource` builds, the guard chain of `deleteDataSource`, and the
    event defaults `postDataSources` fills in. */
module DataSourceRules {
  import opened Wrappers
  import opened DataSourceTypes
  import opened Seqs

  // ---------------------------------------------------------------------
  // updateExposureQuery

  /** `{ ...current, ...value }` for one key: a key present in the update wins. */
  function Override<T>(value: Option<T>, current: T): T {
    match value
    case Some(v) => v
    case None => current
  }

  /** `{ ...exposureQuery, ...updates }`: a key present in the update wins,
      an absent key keeps the current value, and the merge changes nothing
      exactly when every present key already holds the current value. */
  function MergeExposure(q: ExposureQuery, u: ExposureQueryUpdate): (r: ExposureQuery)
    ensures u.id.Some? ==> r.id == u.id.value
    ensures u.id.None? ==> r.id == q.id
    ensures r.name == (if u.name.Some? then u.name.value else q.name)
    ensures r.description == (if u.description.Some? then u.description.value else q.description)
    ensures r.userIdType == (if u.userIdType.Some? then u.userIdType.value else q.userIdType)
    ensures u.query.Some? ==> r.query == u.query.value
    ensures u.query.None? ==> r.query == q.query
    ensures r.dimensions == (if u.dimensions.Some? then u.dimensions.value else q.dimensions)
    ensures r == q <==>
              && (u.id.None? || u.id.value == q.id)
              && (u.name.None? || u.name.value == q.name)
              && (u.description.None? || u.description.value == q.description)
              && (u.userIdType.None? || u.userIdType.value == q.userIdType)
              && (u.query.None? || u.query.value == q.query)
              && (u.dimensions.None? || u.dimensions.value == q.dimensions)
  {
    ExposureQuery(
      Override(u.id, q.id),
      Override(u.name, q.name),
      Override(u.description, q.description),
      Override(u.userIdType, q.userIdType),
      Override(u.query, q.query),
      Override(u.dimensions, q.dimensions))
  }

  /** The update that carries every field of `q`. */
  function FullUpdate(q: ExposureQuery): ExposureQueryUpdate {
    ExposureQueryUpdate(Some(q.id), Some(q.name), Some(q.description), Some(q.userIdType), Some(q.query), Some(q.dimensions))
  }

  const EmptyExposureUpdate := ExposureQueryUpdate(None, None, None, None, None, None)

  /** Merging is a partial overwrite: the empty update changes nothing,
      a full update replaces everything, and merging twice is merging once. */
  lemma MergeExposureLaws(q: ExposureQuery, u: ExposureQueryUpdate, p: ExposureQuery)
    ensures MergeExposure(q, EmptyExposureUpdate) == q
    ensures MergeExposure(q, FullUpdate(p)) == p
    ensures MergeExposure(MergeExposure(q, u), u) == MergeExposure(q, u)
  {
  }

  /** `settings.queries?.exposure`. */
  function ExposureQueries(s: Settings): Option<seq<ExposureQuery>> {
    match s.queries
    case None => None
    case Some(qs) => qs.exposure
  }

  /** `exposure.findIndex((e) => e.id === id)`. */
  function FindExposure(qs: seq<ExposureQuery>, id: string): (r: Option<nat>)
    ensures r.Some? ==> r.value < |qs| && qs[r.value].id == id
    ensures r.Some? ==> forall j :: 0 <= j < r.value ==> qs[j].id != id
    ensures r.None? <==> forall j :: 0 <= j < |qs| ==> qs[j].id != id
  {
    FindIndex(qs, (q: ExposureQuery) => q.id == id)
  }

  /** Look up the exposure query by id and merge the update onto the first
      match; 404 when the list is missing or holds no such id. */
  function UpdateExposureList(queries: Option<seq<ExposureQuery>>, id: string, u: ExposureQueryUpdate): (r: Result<seq<ExposureQuery>, Error>)
    ensures r.Err? ==> r.error == ExposureQueryNotFound
    ensures r.Err? <==> queries.None? || forall j :: 0 <= j < |queries.value| ==> queries.value[j].id != id
    ensures r.Ok? ==>
              var qs := queries.value;
              && |r.value| == |qs|
              && exists i :: 0 <= i < |qs|
                   && qs[i].id == id
                   && (forall j :: 0 <= j < i ==> qs[j].id != id)
                   && r.value[i] == MergeExposure(qs[i], u)
                   && (forall j :: 0 <= j < |qs| && j != i ==> r.value[j] == qs[j])
  {
    match queries
    case None => Err(ExposureQueryNotFound)
    case Some(qs) =>
      match FindExposure(qs, id)
      case None => Err(ExposureQueryNotFound)
      case Some(i) => Ok(qs[i := MergeExposure(qs[i], u)])
  }

  /** The settings with the exposure list replaced; everything else kept. */
  function WithExposureQueries(s: Settings, qs: seq<ExposureQuery>): (r: Settings)
    requires s.queries.Some?
    ensures ExposureQueries(r) == Some(qs)
    ensures r.events == s.events && r.materializedColumns == s.materializedColumns
    ensures r.informationSchemaId == s.informationSchemaId
  {
    s.(queries := Some(s.queries.value.(exposure := Some(qs))))
  }

  /** `updateExposureQuery` up to the write: the settings to store. */
  function PlanExposureUpdate(lookup: Option<DataSource>, canUpdate: bool, id: string, u: ExposureQueryUpdate): (r: Result<Settings, Error>)
    ensures lookup.None? ==> r == Err(DataSourceNotFound)
    ensures lookup.Some? && !canUpdate ==> r == Err(PermissionDenied)
    ensures r.Ok? <==>
              && lookup.Some? && canUpdate
              && ExposureQueries(lookup.value.settings).Some?
              && exists j :: 0 <= j < |ExposureQueries(lookup.value.settings).value|
                   && ExposureQueries(lookup.value.settings).value[j].id == id
    ensures lookup.Some? && canUpdate && r.Err? ==> r == Err(ExposureQueryNotFound)
    ensures r.Ok? ==>
              var s := lookup.value.settings;
              && ExposureQueries(r.value) == Some(UpdateExposureList(ExposureQueries(s), id, u).value)
              && r.value.events == s.events && r.value.materializedColumns == s.materializedColumns
              && r.value.informationSchemaId == s.informationSchemaId
  {
    if lookup.None? then Err(DataSourceNotFound)
    else if !canUpdate then Err(PermissionDenied)
    else
      var s := lookup.value.settings;
      var qs :- UpdateExposureList(ExposureQueries(s), id, u);
      Ok(WithExposureQueries(s, qs))
  }

  // ---------------------------------------------------------------------
  // putDataSource

  /** The body of a `PUT` on a data source; a Some field is a key present in
      the body. `description` is present-with-a-value or present-as-null. */
  datatype PutRequest = PutRequest(
    name: Option<string>,
    description: Option<Option<string>>,
    dsType: Option<string>,
    params: Option<string>,
    settings: Option<Settings>,
    projects: Option<seq<string>>)

  /** The policy's answers: update settings of the source, update its
      connection params, update settings in the requested projects. */
  datatype PutPermissions = PutPermissions(settings: bool, params: bool, projects: bool)

  /** `{ ...datasource, ...updates }`. */
  function ApplyUpdates(ds: DataSource, u: DataSourceUpdates): (r: DataSource)
    ensures r.id == ds.id && r.dsType == ds.dsType
  {
    ds.(name := Override(u.name, ds.name),
        description := Override(u.description, ds.description),
        params := Override(u.params, ds.params),
        settings := Override(u.settings, ds.settings),
        projects := if u.projects.Some? then u.projects else ds.projects)
  }

  /** The `updates` object: `name` only when truthy, `description` whenever
      its key is present, `settings` and `projects` when given, and the
      re-encrypted merged params when params were given. */
  function BuildUpdates(req: PutRequest, encryptedParams: string): (r: DataSourceUpdates)
    ensures r.name.Some? <==> Truthy(req.name)
    ensures r.name.Some? ==> r.name == req.name && r.name.value != ""
    ensures r.description == req.description
    ensures r.params.Some? <==> req.params.Some?
    ensures r.params.Some? ==> r.params.value == encryptedParams
    ensures r.settings == req.settings && r.projects == req.projects
  {
    DataSourceUpdates(
      if Truthy(req.name) then req.name else None,
      req.description,
      if req.params.Some? then Some(encryptedParams) else None,
      req.settings,
      req.projects)
  }

  /** `putDataSource` up to the write. `userFound` stands for the user
      lookup, `connectionOk` for the connection test run when params change,
      and `encryptedParams` for the merged, re-encrypted params. */
  function PlanPut(userFound: bool, lookup: Option<DataSource>, perms: PutPermissions, req: PutRequest,
                   connectionOk: bool, encryptedParams: string): (r: Result<DataSourceUpdates, Error>)
    ensures r.Ok? <==>
              && userFound && lookup.Some? && perms.settings
              && (req.params.Some? ==> perms.params && connectionOk)
              && (req.projects.Some? ==> perms.projects)
              && (Truthy(req.dsType) ==> req.dsType.value == lookup.value.dsType)
    ensures r.Ok? ==> r.value == BuildUpdates(req, encryptedParams)
    ensures !userFound ==> r == Err(UserNotFound)
    ensures userFound && lookup.None? ==> r == Err(DataSourceNotFound)
    ensures userFound && lookup.Some?
              && (!perms.settings || (req.params.Some? && !perms.params) || (req.projects.Some? && !perms.projects)) ==>
              r == Err(PermissionDenied)
    ensures && userFound && lookup.Some? && perms.settings
            && (req.params.Some? ==> perms.params) && (req.projects.Some? ==> perms.projects)
            && Truthy(req.dsType) && req.dsType.value != lookup.value.dsType ==>
              r == Err(TypeChange)
    ensures && userFound && lookup.Some? && perms.settings && req.params.Some? && perms.params
            && (req.projects.Some? ==> perms.projects)
            && (Truthy(req.dsType) ==> req.dsType.value == lookup.value.dsType) && !connectionOk ==>
              r == Err(ConnectionFailed)
    ensures r == Err(TypeChange) ==>
              && userFound && lookup.Some? && perms.settings
              && (req.params.Some? ==> perms.params) && (req.projects.Some? ==> perms.projects)
    ensures r == Err(ConnectionFailed) ==>
              && userFound && lookup.Some? && perms.settings && req.params.Some? && perms.params
              && (req.projects.Some? ==> perms.projects)
              && (Truthy(req.dsType) ==> req.dsType.value == lookup.value.dsType)
  {
    if !userFound then Err(UserNotFound)
    else if lookup.None? then Err(DataSourceNotFound)
    else if !perms.settings then Err(PermissionDenied)
    else if req.params.Some? && !perms.params then Err(PermissionDenied)
    else if req.projects.Some? && !perms.projects then Err(PermissionDenied)
    else if Truthy(req.dsType) && req.dsType.value != lookup.value.dsType then Err(TypeChange)
    else if req.params.Some? && !connectionOk then Err(ConnectionFailed)
    else Ok(BuildUpdates(req, encryptedParams))
  }

  /** The type of a data source never changes: a request naming another type
      is refused, and an accepted one leaves the type as it was. */
  lemma PutKeepsType(userFound: bool, ds: DataSource, perms: PutPermissions, req: PutRequest,
                    connectionOk: bool, encryptedParams: string)
    ensures var r := PlanPut(userFound, Some(ds), perms, req, connectionOk, encryptedParams);
            r.Ok? ==> ApplyUpdates(ds, r.value).dsType == ds.dsType
                      && (Truthy(req.dsType) ==> req.dsType.value == ds.dsType)
    ensures userFound && perms == PutPermissions(true, true, true)
              && Truthy(req.dsType) && req.dsType.value != ds.dsType ==>
              PlanPut(userFound, Some(ds), perms, req, connectionOk, encryptedParams) == Err(TypeChange)
  {
  }

  /** What an accepted `PUT` changes: an absent or empty name keeps the old
      name, an absent description, settings or projects keeps the old value,
      and every given field is stored as given. */
  lemma PutFieldRules(ds: DataSource, req: PutRequest, encryptedParams: string)
    ensures var d := ApplyUpdates(ds, BuildUpdates(req, encryptedParams));
            && d.name == (if Truthy(req.name) then req.name.value else ds.name)
            && d.description == (if req.description.Some? then req.description.value else ds.description)
            && d.settings == (if req.settings.Some? then req.settings.value else ds.settings)
            && d.projects == (if req.projects.Some? then req.projects else ds.projects)
            && d.params == (if req.params.Some? then encryptedParams else ds.params)
            && d.id == ds.id && d.dsType == ds.dsType
  {
  }

  /** Storing the same updates twice stores them once. */
  lemma ApplyUpdatesIdempotent(ds: DataSource, u: DataSourceUpdates)
    ensures ApplyUpdates(ApplyUpdates(ds, u), u) == ApplyUpdates(ds, u)
  {
  }

  // ---------------------------------------------------------------------
  // deleteDataSource

  /** The counts of metrics, segments and dimensions tied to the source. */
  datatype Dependents = Dependents(metrics: nat, segments: nat, dimensions: nat)

  /** The guard chain of `deleteDataSource`, in the source's order: found,
      permitted, not the organization's default, then no metrics, no
      segments, no dimensions. */
  function PlanDeleteDataSource(lookup: Option<DataSource>, canDelete: bool, defaultId: Option<string>, deps: Dependents): (r: Result<DataSource, Error>)
    ensures r.Ok? <==>
              && lookup.Some? && canDelete && defaultId != Some(lookup.value.id)
              && deps.metrics == 0 && deps.segments == 0 && deps.dimensions == 0
    ensures r.Ok? ==> r.value == lookup.value
    ensures lookup.None? ==> r == Err(DataSourceNotFound)
    ensures lookup.Some? && !canDelete ==> r == Err(PermissionDenied)
    ensures lookup.Some? && canDelete && defaultId == Some(lookup.value.id) ==> r == Err(IsDefaultDataSource)
    ensures lookup.Some? && canDelete && defaultId != Some(lookup.value.id) && deps.metrics > 0 ==> r == Err(HasMetrics)
    ensures lookup.Some? && canDelete && defaultId != Some(lookup.value.id) && deps.metrics == 0 && deps.segments > 0 ==>
              r == Err(HasSegments)
    ensures lookup.Some? && canDelete && defaultId != Some(lookup.value.id)
              && deps.metrics == 0 && deps.segments == 0 && deps.dimensions > 0 ==>
              r == Err(HasDimensions)
  {
    if lookup.None? then Err(DataSourceNotFound)
    else if !canDelete then Err(PermissionDenied)
    else if defaultId == Some(lookup.value.id) then Err(IsDefaultDataSource)
    else if deps.metrics > 0 then Err(HasMetrics)
    else if deps.segments > 0 then Err(HasSegments)
    else if deps.dimensions > 0 then Err(HasDimensions)
    else Ok(lookup.value)
  }

  /** Each guard speaks only once those before it have passed: the default
      source is refused for being the default whatever depends on it, and a
      dependency error implies every earlier guard passed. */
  lemma DeleteGuardOrder(lookup: Option<DataSource>, canDelete: bool, defaultId: Option<string>, deps: Dependents)
    ensures var r := PlanDeleteDataSource(lookup, canDelete, defaultId, deps);
            && (lookup.Some? && canDelete && defaultId == Some(lookup.value.id) ==> r == Err(IsDefaultDataSource))
            && (r == Err(HasMetrics) || r == Err(HasSegments) || r == Err(HasDimensions) ==>
                  lookup.Some? && canDelete && defaultId != Some(lookup.value.id))
            && (r == Err(HasSegments) ==> deps.metrics == 0)
            && (r == Err(HasDimensions) ==> deps.metrics == 0 && deps.segments == 0)
  {
  }

  /** The storage steps after the guards: delete the source, then, when it
      has an information schema, that schema and its tables. */
  function DeleteEffects(ds: DataSource): (r: seq<Effect>)
    ensures |r| > 0 && r[0] == RemoveDataSource(ds.id)
    ensures |r| == 1 <==> !Truthy(ds.settings.informationSchemaId)
    ensures Truthy(ds.settings.informationSchemaId) ==>
              var isId := ds.settings.informationSchemaId.value;
              r[1..] == [RemoveInformationSchema(isId), RemoveInformationSchemaTables(isId)]
  {
    [RemoveDataSource(ds.id)] +
    if Truthy(ds.settings.informationSchemaId) then
      var isId := ds.settings.informationSchemaId.value;
      [RemoveInformationSchema(isId), RemoveInformationSchemaTables(isId)]
    else []
  }

  // ---------------------------------------------------------------------
  // postDataSources

  const DefaultExperimentEvent := "$experiment_started"
  const DefaultExperimentIdProperty := "Experiment name"
  const DefaultVariationIdProperty := "Variant name"

  const EmptySettings := Settings(None, None, None, None)

  /** `settings.events = { <defaults>, ...settings?.events }` on
      `req.body.settings || {}`. */
  function WithDefaultEvents(settings: Option<Settings>): (r: Settings)
    ensures r.events.Some?
    ensures r.events.value.experimentEvent.Some? && r.events.value.experimentIdProperty.Some?
            && r.events.value.variationIdProperty.Some?
    ensures settings.None? ==>
              r == EmptySettings.(events := Some(EventSettings(
                Some(DefaultExperimentEvent), Some(DefaultExperimentIdProperty), Some(DefaultVariationIdProperty), None)))
  {
    var s := Override(settings, EmptySettings);
    var e := Override(s.events, EventSettings(None, None, None, None));
    s.(events := Some(EventSettings(
      Some(Override(e.experimentEvent, DefaultExperimentEvent)),
      Some(Override(e.experimentIdProperty, DefaultExperimentIdProperty)),
      Some(Override(e.variationIdProperty, DefaultVariationIdProperty)),
      e.extraUserIdProperty)))
  }

  /** `postDataSources` up to `createDataSource`: the settings to store. */
  function PlanPostDataSource(canCreate: bool, settings: Option<Settings>): (r: Result<Settings, Error>)
    ensures r.Ok? <==> canCreate
    ensures !canCreate ==> r == Err(PermissionDenied)
    ensures r.Ok? ==> r.value == WithDefaultEvents(settings)
  {
    if !canCreate then Err(PermissionDenied) else Ok(WithDefaultEvents(settings))
  }

  /** Caller-supplied event fields win over the defaults, the defaults fill
      the rest, nothing else in the settings changes, and filling twice is
      filling once. */
  lemma DefaultEventsRules(settings: Settings)
    ensures var r := WithDefaultEvents(Some(settings));
            var given := Override(settings.events, EventSettings(None, None, None, None));
            && r.events.Some?
            && r.events.value.experimentEvent == Some(Override(given.experimentEvent, DefaultExperimentEvent))
            && r.events.value.experimentIdProperty == Some(Override(given.experimentIdProperty, DefaultExperimentIdProperty))
            && r.events.value.variationIdProperty == Some(Override(given.variationIdProperty, DefaultVariationIdProperty))
            && r.events.value.extraUserIdProperty == given.extraUserIdProperty
            && r.queries == settings.queries && r.materializedColumns == settings.materializedColumns
            && r.informationSchemaId == settings.informationSchemaId
            && WithDefaultEvents(Some(r)) == r
  {
  }
}
