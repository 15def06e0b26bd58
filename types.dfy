/** The records the data-source controllers read and write. Only the fields the
    modelled rules look at are kept; every other field of a record is carried
    unchanged by the source's object spreads and is left out here. */
module DataSourceTypes {
  import opened Wrappers

  /** The data-source kind whose warehouse table supports managed columns. */
  const ClickhouseType: string := "growthbook_clickhouse"

  /** A materialized column: an event property extracted into its own column. */
  datatype MatColumn = MatColumn(dataType: string, sourceField: string, columnName: string)

  datatype Rename = Rename(from: string, to: string)

  /** The argument the controllers pass to the DDL service
      (`updateMaterializedColumns`), which is not part of this model. */
  datatype ColumnUpdateRequest = ColumnUpdateRequest(
    columnsToAdd: seq<MatColumn>,
    columnsToDelete: seq<string>,
    columnsToRename: seq<Rename>,
    finalColumns: seq<MatColumn>,
    originalColumns: seq<MatColumn>)

  /** `settings.events`; a Some field is a key the caller supplied. */
  datatype EventSettings = EventSettings(
    experimentEvent: Option<string>,
    experimentIdProperty: Option<string>,
    variationIdProperty: Option<string>,
    extraUserIdProperty: Option<string>)

  datatype ExposureQuery = ExposureQuery(
    id: string,
    name: string,
    description: Option<string>,
    userIdType: string,
    query: string,
    dimensions: seq<string>)

  /** A `Partial<ExposureQuery>`: a Some field is a key present in the update. */
  datatype ExposureQueryUpdate = ExposureQueryUpdate(
    id: Option<string>,
    name: Option<string>,
    description: Option<Option<string>>,
    userIdType: Option<string>,
    query: Option<string>,
    dimensions: Option<seq<string>>)

  /** `settings.queries`; only the exposure queries are modelled. */
  datatype QuerySettings = QuerySettings(exposure: Option<seq<ExposureQuery>>)

  datatype Settings = Settings(
    events: Option<EventSettings>,
    queries: Option<QuerySettings>,
    materializedColumns: Option<seq<MatColumn>>,
    informationSchemaId: Option<string>)

  /** A stored data source; `params` is the encrypted connection blob. */
  datatype DataSource = DataSource(
    id: string,
    name: string,
    description: Option<string>,
    dsType: string,
    params: string,
    settings: Settings,
    projects: Option<seq<string>>)

  /** A `Partial<DataSourceInterface>` handed to `updateDataSource`; a Some
      field is a key present in the update (`dateUpdated` is left out). */
  datatype DataSourceUpdates = DataSourceUpdates(
    name: Option<string>,
    description: Option<Option<string>>,
    params: Option<string>,
    settings: Option<Settings>,
    projects: Option<seq<string>>)

  /** A stored query run, as `getQueriesByIds` returns it. */
  datatype QueryDoc = QueryDoc(id: string, status: string, sql: string)

  /** Why a controller stopped; each is a thrown error or an error response. */
  datatype Error =
    | InvalidDatatype
    | SourceFieldInvalidChars
    | SourceFieldNoLetter
    | SourceFieldEdgeSpace
    | ColumnNameInvalid
    | ColumnNameReserved
    | ColumnNameKeyword
    | UserNotFound
    | DataSourceNotFound
    | PermissionDenied
    | NotClickhouse
    | SameColumnName
    | ColumnNotFound
    | TypeChange
    | ConnectionFailed
    | ExposureQueryNotFound
    | IsDefaultDataSource
    | HasMetrics
    | HasSegments
    | HasDimensions
    | DdlFailed

  /** An externally visible step, in the order the controller takes it. */
  datatype Effect =
    | ApplyDdl(request: ColumnUpdateRequest)
    | WriteDataSource(dataSourceId: string, updates: DataSourceUpdates)
    | RefreshFactTableColumns(factTableId: string)
    | RemoveDataSource(dataSourceId: string)
    | RemoveInformationSchema(informationSchemaId: string)
    | RemoveInformationSchemaTables(informationSchemaId: string)

  /** JavaScript truthiness of an optional string: present and non-empty. */
  predicate Truthy(s: Option<string>) {
    s.Some? && s.value != ""
  }

  /** The update that only replaces `settings`, as the column controllers send. */
  function SettingsUpdate(s: Settings): DataSourceUpdates {
    DataSourceUpdates(None, None, None, Some(s), None)
  }
}
