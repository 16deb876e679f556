/** The station routes: the request validators, the owner-or-admin access check,
    the listing filter, and the create / list / get / update / delete handlers,
    which act on the station collection. */
module StationRoutes {
  import opened Values
  import opened Text
  import opened StationModel

  /** The authenticated user the auth middleware attaches to the request. */
  datatype Actor = Actor(id: Id, role: string)

  /** The access rule: an admin may modify any station, anyone else only their own. */
  predicate CanModify(actor: Actor, s: Station) {
    actor.role == "admin" || s.createdBy == actor.id
  }

  // ---------------------------------------------------------------------------
  // Validation of a request body

  /** A request body as the validators see it: `None` is a field that is absent
      or, for a numeric field, not a number. `createdBy` is whatever the client
      put there. */
  datatype Body = Body(
    name: Option<string>,
    latitude: Option<real>,
    longitude: Option<real>,
    status: Option<string>,
    powerOutput: Option<real>,
    connectorType: Option<string>,
    createdBy: Option<Id>)

  /** One entry of the `errors` array of a 400 reply: the failing rule, which
      fixes the entry's `path` and `msg`. */
  datatype FieldError = NameError | LatitudeError | LongitudeError | StatusError | PowerError | ConnectorError {
    function Path(): string {
      match this
      case NameError => "name"
      case LatitudeError => "location.latitude"
      case LongitudeError => "location.longitude"
      case StatusError => "status"
      case PowerError => "powerOutput"
      case ConnectorError => "connectorType"
    }

    function Msg(): string {
      match this
      case NameError => "Station name is required"
      case LatitudeError => "Latitude must be between -90 and 90"
      case LongitudeError => "Longitude must be between -180 and 180"
      case StatusError => "Status must be either active or inactive"
      case PowerError => "Power output must be a positive number"
      case ConnectorError => "Invalid connector type"
    }

    /** The rule's position in the validator chain. */
    function Index(): nat {
      match this
      case NameError => 0
      case LatitudeError => 1
      case LongitudeError => 2
      case StatusError => 3
      case PowerError => 4
      case ConnectorError => 5
    }
  }

  predicate NameRule(b: Body) { b.name.Some? && Trim(b.name.value) != "" }
  predicate LatitudeRule(b: Body) { InRange(b.latitude, -90.0, 90.0) }
  predicate LongitudeRule(b: Body) { InRange(b.longitude, -180.0, 180.0) }
  predicate StatusRule(b: Body) { b.status.Some? && b.status.value in Statuses }
  predicate PowerRule(b: Body) { b.powerOutput.Some? && b.powerOutput.value >= 0.0 }
  predicate ConnectorRule(b: Body) { b.connectorType.Some? && b.connectorType.value in ConnectorTypes }

  /** The six field rules together. */
  predicate BodyValid(b: Body) {
    NameRule(b) && LatitudeRule(b) && LongitudeRule(b) && StatusRule(b) && PowerRule(b) && ConnectorRule(b)
  }

  /** The rule at position `k` of the validator chain. */
  function RuleAt(k: nat): (e: FieldError)
    requires k < 6
    ensures e.Index() == k
  {
    [NameError, LatitudeError, LongitudeError, StatusError, PowerError, ConnectorError][k]
  }

  /** Whether the rule behind error `e` holds of `b`. */
  predicate Holds(b: Body, e: FieldError) {
    match e
    case NameError => NameRule(b)
    case LatitudeError => LatitudeRule(b)
    case LongitudeError => LongitudeRule(b)
    case StatusError => StatusRule(b)
    case PowerError => PowerRule(b)
    case ConnectorError => ConnectorRule(b)
  }

  /** The errors of the failing rules from position `k` of the chain on, in chain order. */
  function FailingFrom(b: Body, k: nat): (errs: seq<FieldError>)
    requires k <= 6
    decreases 6 - k
    ensures forall e: FieldError :: e.Index() >= k ==> (e in errs <==> !Holds(b, e))
    ensures forall i :: 0 <= i < |errs| ==> errs[i].Index() >= k
    ensures forall i, j :: 0 <= i < j < |errs| ==> errs[i].Index() < errs[j].Index()
  {
    if k == 6 then []
    else
      var rest := FailingFrom(b, k + 1);
      if Holds(b, RuleAt(k)) then rest else [RuleAt(k)] + rest
  }

  /** No rule fails exactly when the body passes all six. */
  lemma NoFailureIffValid(b: Body)
    ensures FailingFrom(b, 0) == [] <==> BodyValid(b)
  {
    var errs := FailingFrom(b, 0);
    if errs != [] {
      assert errs[0] in errs;
      match errs[0]
      case NameError =>
      case LatitudeError =>
      case LongitudeError =>
      case StatusError =>
      case PowerError =>
      case ConnectorError =>
    } else {
      assert Holds(b, NameError) && Holds(b, LatitudeError) && Holds(b, LongitudeError);
      assert Holds(b, StatusError) && Holds(b, PowerError) && Holds(b, ConnectorError);
    }
  }

  /** `validationResult(req).array()`: every rule is run, and each one that fails
      contributes its error, in the order of the chain. */
  function BodyErrors(b: Body): (errs: seq<FieldError>)
    ensures errs == [] <==> BodyValid(b)
    ensures forall e: FieldError :: e in errs <==> !Holds(b, e)
    ensures forall i, j :: 0 <= i < j < |errs| ==> errs[i].Index() < errs[j].Index()
  {
    NoFailureIffValid(b);
    FailingFrom(b, 0)
  }

  /** The body after the `trim` sanitizer of `name` has run. */
  function Sanitized(b: Body): Body {
    b.(name := if b.name.Some? then Some(Trim(b.name.value)) else None)
  }

  /** `new Station({ ...req.body, createdBy: req.user._id })`: the acting user
      replaces whatever owner the body names. */
  function CreateDraft(b: Body, actor: Actor): Draft {
    var s := Sanitized(b);
    Draft(s.name, s.latitude, s.longitude, s.status, s.powerOutput, s.connectorType, Some(actor.id))
  }

  function Pick<T>(given: Option<T>, current: T): T {
    if given.Some? then given.value else current
  }

  /** `Object.assign(station, req.body)`: every field the body carries, `createdBy`
      included, overwrites the loaded station's. */
  function Assign(s: Station, b: Body): Draft {
    var b := Sanitized(b);
    Draft(Some(Pick(b.name, s.name)),
          Some(Pick(b.latitude, s.location.latitude)),
          Some(Pick(b.longitude, s.location.longitude)),
          Some(Pick(b.status, s.status)),
          Some(Pick(b.powerOutput, s.powerOutput)),
          Some(Pick(b.connectorType, s.connectorType)),
          Some(Pick(b.createdBy, s.createdBy)))
  }

  /** A body that passes the validators always yields a station the schema
      accepts, owned by the acting user and holding the body's fields. */
  lemma ValidBodyCreates(b: Body, actor: Actor)
    requires BodyValid(b)
    ensures var r := Materialize(CreateDraft(b, actor));
      && r.Ok?
      && r.value.name == Trim(b.name.value)
      && r.value.location == Location(b.latitude.value, b.longitude.value)
      && r.value.status == b.status.value
      && r.value.powerOutput == b.powerOutput.value
      && r.value.connectorType == b.connectorType.value
      && r.value.createdBy == actor.id
  {
    TrimIdempotent(b.name.value);
  }

  /** Merging a body that passes the validators into any stored station yields a
      station the schema accepts, holding the body's fields; its owner is the
      body's `createdBy` when the body has one, so an update can hand a station to
      another user. */
  lemma ValidBodyUpdates(s: Station, b: Body)
    requires BodyValid(b)
    ensures var r := Materialize(Assign(s, b));
      && r.Ok?
      && r.value.name == Trim(b.name.value)
      && r.value.location == Location(b.latitude.value, b.longitude.value)
      && r.value.status == b.status.value
      && r.value.powerOutput == b.powerOutput.value
      && r.value.connectorType == b.connectorType.value
      && r.value.createdBy == (if b.createdBy.Some? then b.createdBy.value else s.createdBy)
  {
    TrimIdempotent(b.name.value);
  }

  // ---------------------------------------------------------------------------
  // Access check

  datatype Access = Missing | Denied | Granted(station: Station)

  /** `checkStationAccess` once the station has been looked up. */
  function CheckAccess(records: map<Id, Station>, actor: Actor, id: Id): (a: Access)
    ensures a.Missing? <==> id !in records
    ensures a.Denied? <==> id in records && !CanModify(actor, records[id])
    ensures a.Granted? <==> id in records && CanModify(actor, records[id])
    ensures a.Granted? ==> a.station == records[id]
  {
    if id !in records then Missing
    else if CanModify(actor, records[id]) then Granted(records[id])
    else Denied
  }

  // ---------------------------------------------------------------------------
  // Listing

  /** The query string of a listing. `minPower` is `Number(minPower)` of a present,
      non-empty parameter, `None` otherwise. */
  datatype Params = Params(status: Option<string>, connectorType: Option<string>, minPower: Option<real>)

  /** The filter document handed to the database. */
  datatype Query = Query(status: Option<string>, connectorType: Option<string>, minPower: Option<real>)

  /** The database's reading of a filter document. */
  predicate Matches(q: Query, s: Station) {
    && (q.status.Some? ==> s.status == q.status.value)
    && (q.connectorType.Some? ==> s.connectorType == q.connectorType.value)
    && (q.minPower.Some? ==> s.powerOutput >= q.minPower.value)
  }

  /** What a listing promises: a station is listed iff it satisfies every filter
      the client supplied non-empty; an absent or empty filter constrains nothing. */
  predicate Selected(p: Params, s: Station) {
    && (Truthy(p.status) ==> s.status == p.status.value)
    && (Truthy(p.connectorType) ==> s.connectorType == p.connectorType.value)
    && (p.minPower.Some? ==> s.powerOutput >= p.minPower.value)
  }

  /** Builds the filter document one supplied parameter at a time. */
  method BuildQuery(p: Params) returns (q: Query)
    ensures forall s :: Matches(q, s) <==> Selected(p, s)
  {
    q := Query(None, None, None);
    if Truthy(p.status) {
      q := q.(status := p.status);
    }
    if Truthy(p.connectorType) {
      q := q.(connectorType := p.connectorType);
    }
    if p.minPower.Some? {
      q := q.(minPower := p.minPower);
    }
  }

  /** The stations a listing selects, in the collection's natural order. */
  function Selection(order: seq<Id>, records: map<Id, Station>, p: Params): (docs: seq<Doc>)
    ensures |docs| <= |order|
    ensures forall i :: 0 <= i < |docs| ==>
      && docs[i].id in order && docs[i].id in records
      && docs[i].station == records[docs[i].id]
      && Selected(p, docs[i].station)
  {
    if order == [] then []
    else
      var last := order[|order| - 1];
      var docs := Selection(order[..|order| - 1], records, p);
      docs + (if last in records && Selected(p, records[last]) then [Doc(last, records[last])] else [])
  }

  /** Every stored station that satisfies the filters is listed. */
  lemma {:induction false} SelectionComplete(order: seq<Id>, records: map<Id, Station>, p: Params, id: Id)
    requires id in order && id in records && Selected(p, records[id])
    ensures Doc(id, records[id]) in Selection(order, records, p)
  {
    var init := order[..|order| - 1];
    if order[|order| - 1] != id {
      assert id in init by {
        var k :| 0 <= k < |order| && order[k] == id;
        assert init[k] == id;
      }
      SelectionComplete(init, records, p, id);
    }
  }

  /** The listing follows the collection's order: the stations of an earlier stretch
      of the collection come before those of a later one. */
  lemma {:induction false} SelectionAppend(first: seq<Id>, second: seq<Id>, records: map<Id, Station>, p: Params)
    ensures Selection(first + second, records, p) == Selection(first, records, p) + Selection(second, records, p)
  {
    if second == [] {
      assert first + second == first;
    } else {
      var init := second[..|second| - 1];
      assert (first + second)[..|first + second| - 1] == first + init;
      SelectionAppend(first, init, records, p);
    }
  }

  /** Scanning one more id of the collection adds that station when it is selected. */
  lemma SelectionStep(order: seq<Id>, i: nat, records: map<Id, Station>, p: Params)
    requires i < |order|
    ensures Selection(order[..i + 1], records, p) ==
      Selection(order[..i], records, p)
      + (if order[i] in records && Selected(p, records[order[i]]) then [Doc(order[i], records[order[i]])] else [])
  {
    assert order[..i + 1][..i] == order[..i];
  }

  /** One entry of a listing: the station and whether the caller may modify it. */
  datatype Listed = Listed(doc: Doc, canModify: bool)

  /** `stations.map(station => ({ ...station, canModify: … }))`. */
  function Annotate(docs: seq<Doc>, actor: Actor): (listed: seq<Listed>)
    ensures |listed| == |docs|
    ensures forall i :: 0 <= i < |docs| ==>
      listed[i].doc == docs[i] && (listed[i].canModify <==> CanModify(actor, docs[i].station))
  {
    if docs == [] then []
    else
      var last := docs[|docs| - 1];
      Annotate(docs[..|docs| - 1], actor) + [Listed(last, CanModify(actor, last.station))]
  }

  lemma AnnotateSnoc(docs: seq<Doc>, d: Doc, actor: Actor)
    ensures Annotate(docs + [d], actor) == Annotate(docs, actor) + [Listed(d, CanModify(actor, d.station))]
  {
    assert (docs + [d])[..|docs|] == docs;
  }

  // ---------------------------------------------------------------------------
  // Handlers

  datatype Payload<+T> = Data(value: T) | Message(text: string) | Errors(errors: seq<FieldError>)

  /** An HTTP status and the JSON body sent with it. */
  datatype Reply<+T> = Reply(code: int, body: Payload<T>)

  /** Whether the database answers the handler's read and its write. */
  datatype Db = Db(loadOk: bool, writeOk: bool)

  const NotFound := "Station not found"
  const AccessDenied := "Access denied. You do not have permission to modify this station."
  const AccessCheckFailed := "Error checking station access"
  const CreateFailed := "Error creating station"
  const ListFailed := "Error fetching stations"
  const GetFailed := "Error fetching station"
  const UpdateFailed := "Error updating station"
  const DeleteFailed := "Error deleting station"
  const Deleted := "Station deleted successfully"

  predicate Distinct(ids: seq<Id>) {
    forall i, j :: 0 <= i < j < |ids| ==> ids[i] != ids[j]
  }

  /** The ids other than `id`, in their order. */
  function Without(ids: seq<Id>, id: Id): (r: seq<Id>)
    ensures forall x :: x in r <==> x in ids && x != id
    ensures Distinct(ids) ==> Distinct(r)
  {
    if ids == [] then []
    else if ids[0] == id then Without(ids[1..], id)
    else
      var rest := Without(ids[1..], id);
      assert Distinct(ids) ==> ids[0] !in rest;
      [ids[0]] + rest
  }

  /** The collection invariant: each stored id occurs once in the order, the
      order holds no other id, and every stored station satisfies the schema. */
  ghost predicate Stored(records: map<Id, Station>, order: seq<Id>) {
    && Distinct(order)
    && (forall id :: id in records <==> id in order)
    && (forall id :: id in records ==> StationModel.Valid(records[id]))
  }

  /** The station collection: its documents by id, and the order in which the
      database returns them. */
  class StationService {
    var records: map<Id, Station>
    var order: seq<Id>

    /** Each stored id occurs once in the order, and every stored station
        satisfies the schema. */
    ghost predicate Valid()
      reads this
    {
      Stored(records, order)
    }

    constructor ()
      ensures Valid() && records == map[] && order == []
    {
      records := map[];
      order := [];
    }

    /** `POST /api/stations`, with `newId` the id the database assigns. */
    method Create(actor: Actor, body: Body, newId: Id, db: Db) returns (reply: Reply<Doc>)
      requires Valid() && newId !in records
      modifies this
      ensures Valid()
      ensures BodyErrors(body) != [] ==>
        && reply == Reply(400, Errors(BodyErrors(body)))
        && records == old(records) && order == old(order)
      ensures BodyErrors(body) == [] && !(Materialize(CreateDraft(body, actor)).Ok? && db.writeOk) ==>
        && reply == Reply(500, Message(CreateFailed))
        && records == old(records) && order == old(order)
      ensures BodyErrors(body) == [] && Materialize(CreateDraft(body, actor)).Ok? && db.writeOk ==>
        && reply == Reply(201, Data(Doc(newId, Materialize(CreateDraft(body, actor)).value)))
        && records == old(records)[newId := Materialize(CreateDraft(body, actor)).value]
        && order == old(order) + [newId]
    {
      var errors := BodyErrors(body);
      if errors != [] {
        return Reply(400, Errors(errors));
      }
      var saved := Materialize(CreateDraft(body, actor));
      if saved.Err? || !db.writeOk {
        return Reply(500, Message(CreateFailed));
      }
      Insert(newId, saved.value);
      reply := Reply(201, Data(Doc(newId, saved.value)));
    }

    /** `station.save()` of a new document: it is stored under its id and appended
        to the collection's natural order. */
    method Insert(id: Id, station: Station)
      requires Valid() && id !in records && StationModel.Valid(station)
      modifies this
      ensures Valid()
      ensures records == old(records)[id := station] && order == old(order) + [id]
    {
      assert id !in order;
      records := records[id := station];
      order := order + [id];
    }

    /** `station.save()` of a loaded document: the stored station is replaced and
        the order is left alone. */
    method Replace(id: Id, station: Station)
      requires Valid() && id in records && StationModel.Valid(station)
      modifies this
      ensures Valid()
      ensures records == old(records)[id := station] && order == old(order)
    {
      records := records[id := station];
    }

    /** `station.remove()`: the document leaves the map and the order. */
    method Remove(id: Id)
      requires Valid()
      modifies this
      ensures Valid()
      ensures records == old(records) - {id} && order == Without(old(order), id)
    {
      records := records - {id};
      order := Without(order, id);
    }

    /** `GET /api/stations`: builds the filter, scans the collection, and tags each
        selected station with the access rule for the caller. */
    method List(actor: Actor, p: Params, db: Db) returns (reply: Reply<seq<Listed>>)
      ensures !db.loadOk ==> reply == Reply(500, Message(ListFailed))
      ensures db.loadOk ==> reply == Reply(200, Data(Annotate(Selection(order, records, p), actor)))
    {
      if !db.loadOk {
        return Reply(500, Message(ListFailed));
      }
      var q := BuildQuery(p);
      var listed: seq<Listed> := [];
      var i := 0;
      while i < |order|
        invariant 0 <= i <= |order|
        invariant listed == Annotate(Selection(order[..i], records, p), actor)
      {
        var id := order[i];
        ghost var before := Selection(order[..i], records, p);
        SelectionStep(order, i, records, p);
        if id in records && Matches(q, records[id]) {
          var doc := Doc(id, records[id]);
          assert Selection(order[..i + 1], records, p) == before + [doc];
          AnnotateSnoc(before, doc, actor);
          listed := listed + [Listed(doc, CanModify(actor, doc.station))];
        } else {
          assert !(id in records && Selected(p, records[id]));
          assert Selection(order[..i + 1], records, p) == before;
        }
        i := i + 1;
      }
      assert order[..i] == order;
      reply := Reply(200, Data(listed));
    }

    /** `GET /api/stations/:id`. */
    method Get(id: Id, db: Db) returns (reply: Reply<Doc>)
      ensures !db.loadOk ==> reply == Reply(500, Message(GetFailed))
      ensures db.loadOk ==> (reply.code == 200 <==> id in records)
      ensures db.loadOk && id in records ==> reply.body == Data(Doc(id, records[id]))
      ensures db.loadOk && id !in records ==> reply == Reply(404, Message(NotFound))
    {
      if !db.loadOk {
        return Reply(500, Message(GetFailed));
      }
      if id !in records {
        return Reply(404, Message(NotFound));
      }
      reply := Reply(200, Data(Doc(id, records[id])));
    }

    /** `PUT /api/stations/:id`: the access check runs before the validators, then
        the body is merged into the stored station and saved. */
    method Update(actor: Actor, id: Id, body: Body, db: Db) returns (reply: Reply<Doc>)
      requires Valid()
      modifies this
      ensures Valid() && order == old(order)
      ensures reply.code != 200 ==> records == old(records)
      ensures !db.loadOk ==> reply == Reply(500, Message(AccessCheckFailed))
      ensures db.loadOk && id !in old(records) ==> reply == Reply(404, Message(NotFound))
      ensures db.loadOk && id in old(records) && !CanModify(actor, old(records)[id]) ==>
        reply == Reply(403, Message(AccessDenied))
      ensures db.loadOk && id in old(records) && CanModify(actor, old(records)[id]) ==>
        if BodyErrors(body) != [] then
          reply == Reply(400, Errors(BodyErrors(body)))
        else
          var saved := Materialize(Assign(old(records)[id], body));
          if saved.Ok? && db.writeOk then
            && reply == Reply(200, Data(Doc(id, saved.value)))
            && records == old(records)[id := saved.value]
          else
            reply == Reply(500, Message(UpdateFailed))
    {
      if !db.loadOk {
        return Reply(500, Message(AccessCheckFailed));
      }
      var access := CheckAccess(records, actor, id);
      if access.Missing? {
        return Reply(404, Message(NotFound));
      }
      if access.Denied? {
        return Reply(403, Message(AccessDenied));
      }
      var errors := BodyErrors(body);
      if errors != [] {
        return Reply(400, Errors(errors));
      }
      var saved := Materialize(Assign(access.station, body));
      if saved.Err? || !db.writeOk {
        return Reply(500, Message(UpdateFailed));
      }
      Replace(id, saved.value);
      reply := Reply(200, Data(Doc(id, saved.value)));
    }

    /** `DELETE /api/stations/:id`. */
    method Delete(actor: Actor, id: Id, db: Db) returns (reply: Reply<string>)
      requires Valid()
      modifies this
      ensures Valid()
      ensures reply.code != 200 ==> records == old(records) && order == old(order)
      ensures !db.loadOk ==> reply == Reply(500, Message(AccessCheckFailed))
      ensures db.loadOk && id !in old(records) ==> reply == Reply(404, Message(NotFound))
      ensures db.loadOk && id in old(records) && !CanModify(actor, old(records)[id]) ==>
        reply == Reply(403, Message(AccessDenied))
      ensures db.loadOk && id in old(records) && CanModify(actor, old(records)[id]) ==>
        if db.writeOk then
          && reply == Reply(200, Data(Deleted))
          && records == old(records) - {id}
          && order == Without(old(order), id)
        else
          reply == Reply(500, Message(DeleteFailed))
    {
      if !db.loadOk {
        return Reply(500, Message(AccessCheckFailed));
      }
      var access := CheckAccess(records, actor, id);
      if access.Missing? {
        return Reply(404, Message(NotFound));
      }
      if access.Denied? {
        return Reply(403, Message(AccessDenied));
      }
      if !db.writeOk {
        return Reply(500, Message(DeleteFailed));
      }
      Remove(id);
      reply := Reply(200, Data(Deleted));
    }

    /** Creating a station and reading it back: a body that passes the validators
        comes back with its own fields, the name trimmed, owned by the creator. */
    method CreateThenGet(actor: Actor, body: Body, newId: Id) returns (created: Reply<Doc>, fetched: Reply<Doc>)
      requires Valid() && newId !in records
      modifies this
      ensures Valid()
      ensures created.code == 201 <==> BodyValid(body)
      ensures BodyValid(body) ==>
        && fetched.code == 200 && fetched.body.Data? && fetched.body.value.id == newId
        && var s := fetched.body.value.station;
        && s.name == Trim(body.name.value)
        && s.location == Location(body.latitude.value, body.longitude.value)
        && s.status == body.status.value
        && s.powerOutput == body.powerOutput.value
        && s.connectorType == body.connectorType.value
        && s.createdBy == actor.id
    {
      var healthy := Db(true, true);
      if BodyValid(body) {
        ValidBodyCreates(body, actor);
      }
      created := Create(actor, body, newId, healthy);
      fetched := Get(newId, healthy);
    }

    /** A permitted delete is final: fetching the station afterwards answers 404,
        and deleting it again answers 404 rather than a second success. */
    method DeleteThenGet(actor: Actor, id: Id) returns (deleted: Reply<string>, fetched: Reply<Doc>, again: Reply<string>)
      requires Valid()
      modifies this
      ensures Valid()
      ensures deleted.code == 200 <==> id in old(records) && CanModify(actor, old(records)[id])
      ensures deleted.code == 200 ==> fetched.code == 404 && again.code == 404
    {
      var healthy := Db(true, true);
      deleted := Delete(actor, id, healthy);
      fetched := Get(id, healthy);
      again := Delete(actor, id, healthy);
    }
  }
}
