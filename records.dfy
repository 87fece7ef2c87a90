/**
 * The request record (`Request` in invenio_requests/records/api.py): its stored
 * row, its request type's action table, expiry, action dispatch and the lookup
 * of a stored request by external or internal id.
 */
module Records {
  import opened Wrappers
  import opened Common
  import opened DateTimes

  /** A request status such as "created" or "submitted"; the request types define the set. */
  type Status = string

  /** The JSON data of a stored request. */
  datatype RequestData = RequestData(
    requestType: Option<string>,   // the "request_type" key, if present
    status: Status,
    createdBy: EntityRef,
    receiver: EntityRef,
    topic: Option<EntityRef>,
    expiresAt: Option<DateTime>)

  /** One row of the request table: internal id (primary key), external id, deletion flag, data. */
  datatype Row = Row(id: string, externalId: Option<string>, isDeleted: bool, data: RequestData)

  /** What an action sees of the request it is bound to. */
  datatype RequestView = RequestView(
    id: string,
    externalId: Option<string>,
    typeId: string,
    status: Status,
    createdBy: EntityRef,
    receiver: EntityRef,
    topic: Option<EntityRef>,
    expiresAt: Option<DateTime>)

  /** What a successful action leaves behind: the request's new status and the action's return value. */
  datatype Transition = Transition(status: Status, value: Payload)

  /**
   * An action class of a request type. Constructing it with a request and calling
   * `can_execute(identity)` or `execute(identity)` is modelled by applying these
   * functions to the request's view; the concrete actions are not part of this model.
   */
  datatype Action = Action(
    canExecute: (RequestView, Identity) -> bool,
    execute: (RequestView, Identity) -> Result<Transition, Error>)

  /** An action instance: the action constructed with (bound to) one request. */
  datatype BoundAction = BoundAction(action: Action, request: RequestView) {
    function CanExecute(identity: Identity): bool {
      action.canExecute(request, identity)
    }

    function Execute(identity: Identity): Result<Transition, Error> {
      action.execute(request, identity)
    }
  }

  /** A request type: its id and its `available_actions` table. */
  datatype RequestType = RequestType(typeId: string, availableActions: map<string, Action>)

  /** The request type registry: type id to request type. */
  type Registry = map<string, RequestType>

  /** The registry keys every request type by its own type id. */
  ghost predicate WellFormed(registry: Registry) {
    forall k :: k in registry ==> registry[k].typeId == k
  }

  /** `registry.lookup(type_id)`: raises for a missing or unknown type id. */
  function LookupType(registry: Registry, typeId: Option<string>): (r: Result<RequestType, Error>)
    ensures r.Ok? <==> typeId.Some? && typeId.value in registry
    ensures r.Ok? ==> r.value == registry[typeId.value]
    ensures r.Err? ==> r.error == UnknownRequestType(typeId)
    ensures WellFormed(registry) && r.Ok? ==> Some(r.value.typeId) == typeId
  {
    if typeId.Some? && typeId.value in registry then Ok(registry[typeId.value])
    else Err(UnknownRequestType(typeId))
  }

  /** The view of a request loaded from `model` with request type `t`. */
  function ViewOf(model: Row, t: RequestType): RequestView {
    RequestView(model.id, model.externalId, t.typeId, model.data.status, model.data.createdBy,
                model.data.receiver, model.data.topic, model.data.expiresAt)
  }

  /** The value an action execution returns to its caller. */
  function ReturnOf(t: Result<Transition, Error>): Result<Payload, Error> {
    match t
    case Ok(tr) => Ok(tr.value)
    case Err(e) => Err(e)
  }

  class Request {
    const id: string
    const externalId: Option<string>
    const requestType: RequestType
    const createdBy: EntityRef
    const receiver: EntityRef
    const topic: Option<EntityRef>
    const expiresAt: Option<DateTime>
    const isDeleted: bool
    var status: Status

    /** `cls(model.data, model=model)`, with the request type the registry gave for the model. */
    constructor (model: Row, t: RequestType)
      ensures View() == ViewOf(model, t)
      ensures requestType == t && isDeleted == model.isDeleted
    {
      id := model.id;
      externalId := model.externalId;
      requestType := t;
      createdBy := model.data.createdBy;
      receiver := model.data.receiver;
      topic := model.data.topic;
      expiresAt := model.data.expiresAt;
      isDeleted := model.isDeleted;
      status := model.data.status;
    }

    function View(): RequestView
      reads this
    {
      RequestView(id, externalId, requestType.typeId, status, createdBy, receiver, topic, expiresAt)
    }

    /**
     * `is_expired` at the moment whose UTC clock reads `utcNow`. "now" is taken
     * naive, and made aware (UTC) exactly when `expires_at` is aware, so the
     * comparison never raises and compares UTC instants.
     */
    function IsExpired(utcNow: int): (r: Result<bool, Error>)
      reads this
      ensures expiresAt.None? ==> r == Ok(false)
      ensures expiresAt.Some? ==> r == Ok(UtcInstant(expiresAt.value) < utcNow)
    {
      if expiresAt.None? then Ok(false)
      else
        var d := expiresAt.value;
        var now := if d.tzinfo.Some? && d.tzinfo.value.utcOffset.Some?
                   then WithTzInfo(UtcNow(utcNow), Utc) else UtcNow(utcNow);
        Less(d, now)
    }

    /** `get_action`: the action registered under `name`, bound to this request. */
    function GetAction(name: string): (r: Result<BoundAction, Error>)
      reads this
      ensures r.Err? <==> name !in requestType.availableActions
      ensures r.Err? ==> r.error == NoSuchAction(name)
      ensures r.Ok? ==> r.value.action == requestType.availableActions[name] && r.value.request == View()
    {
      if name in requestType.availableActions then
        Ok(BoundAction(requestType.availableActions[name], View()))
      else
        Err(NoSuchAction(name))
    }

    /** `can_execute_action`: the bound action's verdict, or NoSuchAction. */
    function CanExecuteAction(name: string, identity: Identity): (r: Result<bool, Error>)
      reads this
      ensures name !in requestType.availableActions ==> r == Err(NoSuchAction(name))
      ensures name in requestType.availableActions ==>
                r == Ok(requestType.availableActions[name].canExecute(View(), identity))
    {
      var action :- GetAction(name);
      Ok(action.CanExecute(identity))
    }

    /**
     * `execute_action`: runs the bound action; a successful action sets the
     * status it transitions to. An unknown name raises before any action runs.
     */
    method ExecuteAction(name: string, identity: Identity) returns (r: Result<Payload, Error>)
      modifies this
      ensures name !in requestType.availableActions ==>
                r == Err(NoSuchAction(name)) && status == old(status)
      ensures name in requestType.availableActions ==>
                var t := requestType.availableActions[name].execute(old(View()), identity);
                && r == ReturnOf(t)
                && status == (if t.Ok? then t.value.status else old(status))
    {
      var action :- GetAction(name);
      var t := action.Execute(identity);
      if t.Ok? {
        status := t.value.status;
      }
      r := ReturnOf(t);
    }
  }

  /** The row store's primary key: no two rows share an internal id. */
  ghost predicate DistinctIds(rows: seq<Row>) {
    forall i, j :: 0 <= i < j < |rows| ==> rows[i].id != rows[j].id
  }

  /**
   * `row`, written back over the stored row with the same internal id (`commit()`):
   * the primary keys stay where they were, so distinct ids stay distinct, every
   * other row is untouched, and `row` is in the table afterwards exactly when
   * its id was stored.
   */
  function Replace(rows: seq<Row>, row: Row): (rows': seq<Row>)
    ensures |rows'| == |rows|
    ensures forall k :: 0 <= k < |rows| ==> rows'[k].id == rows[k].id
    ensures DistinctIds(rows) ==> DistinctIds(rows')
    ensures forall k :: 0 <= k < |rows| && rows[k].id != row.id ==> rows'[k] == rows[k]
    ensures forall k :: 0 <= k < |rows| && rows[k].id == row.id ==> rows'[k] == row
    ensures row in rows' <==> exists k :: 0 <= k < |rows| && rows[k].id == row.id
  {
    seq(|rows|, k requires 0 <= k < |rows| => if rows[k].id == row.id then row else rows[k])
  }

  datatype Column = ExternalId | PrimaryKey

  /** `filter_by(<col>=key)`, and unless `withDeleted` also `filter(is_deleted != True)`. */
  predicate Matches(row: Row, col: Column, key: string, withDeleted: bool) {
    && (match col
        case ExternalId => row.externalId == Some(key)
        case PrimaryKey => row.id == key)
    && (withDeleted || !row.isDeleted)
  }

  /** The rows a filtered query yields, in table order. */
  function Select(rows: seq<Row>, col: Column, key: string, withDeleted: bool): (s: seq<Row>)
    ensures |s| <= |rows|
    ensures forall row :: row in s ==> row in rows && Matches(row, col, key, withDeleted)
    ensures s == [] <==> forall k :: 0 <= k < |rows| ==> !Matches(rows[k], col, key, withDeleted)
  {
    if rows == [] then []
    else
      var rest := Select(rows[1..], col, key, withDeleted);
      assert forall k :: 1 <= k < |rows| ==> rows[k] == rows[1..][k - 1];
      if Matches(rows[0], col, key, withDeleted) then [rows[0]] + rest else rest
  }

  /** `query.one()`: the only row, else NoResultFound or MultipleResultsFound. */
  function One(s: seq<Row>): Result<Row, Error> {
    if |s| == 1 then Ok(s[0])
    else if |s| == 0 then Err(NoResultFound)
    else Err(MultipleResultsFound)
  }

  /** Row `i` is the only row the filtered query matches. */
  ghost predicate UniqueMatch(rows: seq<Row>, col: Column, key: string, withDeleted: bool, i: int) {
    && 0 <= i < |rows|
    && Matches(rows[i], col, key, withDeleted)
    && forall j :: 0 <= j < |rows| && j != i ==> !Matches(rows[j], col, key, withDeleted)
  }

  lemma {:induction false} SelectUnique(rows: seq<Row>, col: Column, key: string, withDeleted: bool, i: int)
    requires UniqueMatch(rows, col, key, withDeleted, i)
    ensures Select(rows, col, key, withDeleted) == [rows[i]]
  {
    if i == 0 {
      var rest := rows[1..];
      assert forall k :: 0 <= k < |rest| ==> !Matches(rest[k], col, key, withDeleted) by {
        forall k | 0 <= k < |rest| ensures !Matches(rest[k], col, key, withDeleted) {
          assert rest[k] == rows[k + 1];
        }
      }
    } else {
      var rest := rows[1..];
      assert UniqueMatch(rest, col, key, withDeleted, i - 1) by {
        forall j | 0 <= j < |rest| && j != i - 1 ensures !Matches(rest[j], col, key, withDeleted) {
          assert rest[j] == rows[j + 1];
        }
      }
      SelectUnique(rest, col, key, withDeleted, i - 1);
    }
  }

  lemma {:induction false} SelectMany(rows: seq<Row>, col: Column, key: string, withDeleted: bool, i: int, j: int)
    requires 0 <= i < j < |rows|
    requires Matches(rows[i], col, key, withDeleted) && Matches(rows[j], col, key, withDeleted)
    ensures |Select(rows, col, key, withDeleted)| >= 2
  {
    var rest := rows[1..];
    assert rest[j - 1] == rows[j];
    if i == 0 {
      assert Select(rest, col, key, withDeleted) != [];
    } else {
      assert rest[i - 1] == rows[i];
      SelectMany(rest, col, key, withDeleted, i - 1, j - 1);
    }
  }

  /** When no row is the unique match, `one()` raises. */
  lemma OneFailsWithoutUniqueMatch(rows: seq<Row>, col: Column, key: string, withDeleted: bool)
    requires forall i :: 0 <= i < |rows| ==> !UniqueMatch(rows, col, key, withDeleted, i)
    ensures One(Select(rows, col, key, withDeleted)).Err?
  {
    var s := Select(rows, col, key, withDeleted);
    if |s| == 1 {
      assert s[0] in s;
      var i :| 0 <= i < |rows| && rows[i] == s[0];
      assert !UniqueMatch(rows, col, key, withDeleted, i);
      var j :| 0 <= j < |rows| && j != i && Matches(rows[j], col, key, withDeleted);
      if i < j { SelectMany(rows, col, key, withDeleted, i, j); }
      else { SelectMany(rows, col, key, withDeleted, j, i); }
    }
  }

  /**
   * `Request.get_record(id_, with_deleted)`: the unique row whose external id is
   * `id_`, otherwise the row whose internal id is `id_`; unless `withDeleted`,
   * deleted rows are filtered out of both queries. The fallback's error propagates.
   */
  function GetRecord(rows: seq<Row>, id_: string, withDeleted: bool): (r: Result<Row, Error>)
    ensures r.Ok? ==> r.value in rows
    ensures r.Ok? ==> r.value.externalId == Some(id_) || r.value.id == id_
    ensures r.Ok? && !withDeleted ==> !r.value.isDeleted
    ensures r.Err? ==> r.error == NoResultFound || r.error == MultipleResultsFound
  {
    match One(Select(rows, ExternalId, id_, withDeleted))
    case Ok(model) => Ok(model)
    case Err(_) => One(Select(rows, PrimaryKey, id_, withDeleted))
  }

  /** A unique external-id match wins. */
  lemma GetRecordByExternalId(rows: seq<Row>, id_: string, withDeleted: bool, i: int)
    requires UniqueMatch(rows, ExternalId, id_, withDeleted, i)
    ensures GetRecord(rows, id_, withDeleted) == Ok(rows[i])
  {
    SelectUnique(rows, ExternalId, id_, withDeleted, i);
  }

  /** With zero or several external-id matches, the internal id decides. */
  lemma GetRecordByInternalId(rows: seq<Row>, id_: string, withDeleted: bool)
    requires DistinctIds(rows)
    requires forall i :: 0 <= i < |rows| ==> !UniqueMatch(rows, ExternalId, id_, withDeleted, i)
    ensures forall k :: 0 <= k < |rows| && Matches(rows[k], PrimaryKey, id_, withDeleted) ==>
              GetRecord(rows, id_, withDeleted) == Ok(rows[k])
    ensures (forall k :: 0 <= k < |rows| ==> !Matches(rows[k], PrimaryKey, id_, withDeleted)) ==>
              GetRecord(rows, id_, withDeleted) == Err(NoResultFound)
  {
    OneFailsWithoutUniqueMatch(rows, ExternalId, id_, withDeleted);
    forall k | 0 <= k < |rows| && Matches(rows[k], PrimaryKey, id_, withDeleted)
      ensures GetRecord(rows, id_, withDeleted) == Ok(rows[k])
    {
      assert UniqueMatch(rows, PrimaryKey, id_, withDeleted, k);
      SelectUnique(rows, PrimaryKey, id_, withDeleted, k);
    }
  }
}
