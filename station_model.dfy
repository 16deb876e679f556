/** The station entity: the fields of a charging station and the constraints the
    document schema places on them. */
module StationModel {
  import opened Values
  import opened Text

  /** An ObjectId, compared through its hex string. */
  type Id = string

  const Statuses: set<string> := {"active", "inactive"}
  const DefaultStatus: string := "active"
  const ConnectorTypes: set<string> := {"Type 1", "Type 2", "CCS", "CHAdeMO", "Tesla"}

  datatype Location = Location(latitude: real, longitude: real)

  datatype Station = Station(
    name: string,
    location: Location,
    status: string,
    powerOutput: real,
    connectorType: string,
    createdBy: Id)

  /** A persisted station together with its `_id`, as the server sends it. */
  datatype Doc = Doc(id: Id, station: Station)

  /** Neither the first nor the last character is white space. */
  predicate Trimmed(s: string) {
    s == [] || (!IsSpace(s[0]) && !IsSpace(s[|s| - 1]))
  }

  /** The entity invariant: every station the schema lets the database hold. */
  predicate Valid(s: Station) {
    && s.name != "" && Trimmed(s.name)
    && -90.0 <= s.location.latitude <= 90.0
    && -180.0 <= s.location.longitude <= 180.0
    && s.status in Statuses
    && s.powerOutput >= 0.0
    && s.connectorType in ConnectorTypes
  }

  /** A document before the schema has run its setters, defaults and validators:
      each field as assigned, `None` when it was not (or, for a number, when it is
      not a number). */
  datatype Draft = Draft(
    name: Option<string>,
    latitude: Option<real>,
    longitude: Option<real>,
    status: Option<string>,
    powerOutput: Option<real>,
    connectorType: Option<string>,
    createdBy: Option<Id>)

  /** The draft that holds exactly the fields of `s`. */
  function DraftOf(s: Station): Draft {
    Draft(Some(s.name), Some(s.location.latitude), Some(s.location.longitude),
          Some(s.status), Some(s.powerOutput), Some(s.connectorType), Some(s.createdBy))
  }

  /** The value of `status` once its default has been applied. */
  function StatusOrDefault(d: Draft): string {
    if d.status.Some? then d.status.value else DefaultStatus
  }

  predicate InRange(x: Option<real>, lo: real, hi: real) {
    x.Some? && lo <= x.value <= hi
  }

  /** The paths whose validator fails, in schema order; mongoose reports at most one
      error per path. `name` is checked after its `trim` setter has run. */
  function SchemaErrors(d: Draft): seq<string> {
    (if d.name.Some? && Trim(d.name.value) != "" then [] else ["name"])
    + (if InRange(d.latitude, -90.0, 90.0) then [] else ["location.latitude"])
    + (if InRange(d.longitude, -180.0, 180.0) then [] else ["location.longitude"])
    + (if StatusOrDefault(d) in Statuses then [] else ["status"])
    + (if d.powerOutput.Some? && d.powerOutput.value >= 0.0 then [] else ["powerOutput"])
    + (if d.connectorType.Some? && d.connectorType.value in ConnectorTypes then [] else ["connectorType"])
    + (if d.createdBy.Some? then [] else ["createdBy"])
  }

  /** Building a document from `d` and saving it: the setters and the default run,
      then every validator; the document is stored only if none fails. */
  function Materialize(d: Draft): (r: Result<Station, seq<string>>)
    ensures r.Ok? <==>
      && d.name.Some? && Trim(d.name.value) != ""
      && InRange(d.latitude, -90.0, 90.0)
      && InRange(d.longitude, -180.0, 180.0)
      && (d.status.None? || d.status.value in Statuses)
      && d.powerOutput.Some? && d.powerOutput.value >= 0.0
      && d.connectorType.Some? && d.connectorType.value in ConnectorTypes
      && d.createdBy.Some?
    ensures r.Ok? ==> Valid(r.value)
    ensures r.Ok? ==>
      && r.value.name == Trim(d.name.value)
      && r.value.location == Location(d.latitude.value, d.longitude.value)
      && r.value.status == (if d.status.None? then "active" else d.status.value)
      && r.value.powerOutput == d.powerOutput.value
      && r.value.connectorType == d.connectorType.value
      && r.value.createdBy == d.createdBy.value
    ensures r.Err? ==> r.error == SchemaErrors(d) && r.error != []
  {
    if SchemaErrors(d) == [] then
      TrimEdges(d.name.value);
      Ok(Station(Trim(d.name.value), Location(d.latitude.value, d.longitude.value), StatusOrDefault(d),
                 d.powerOutput.value, d.connectorType.value, d.createdBy.value))
    else
      Err(SchemaErrors(d))
  }

  /** Saving the fields of a valid station stores that very station: the schema
      neither rejects nor alters anything it allows. */
  lemma MaterializeRoundTrip(s: Station)
    requires Valid(s)
    ensures Materialize(DraftOf(s)) == Ok(s)
  {
    TrimFixed(s.name);
  }
}
