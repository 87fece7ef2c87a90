/**
 * The requests service (invenio_requests/services/requests/service.py): loading a
 * request by id, the check-then-act gate of `execute_action`, re-indexing, and
 * the permission-first ordering of create, update and delete. The database table
 * is the `rows` field; commits and index calls are recorded in the ghost `log`.
 */
module RequestsServices {
  import opened Wrappers
  import opened Common
  import opened Records

  /** A call the service makes on the database or the indexer, or a permission check. */
  datatype Event =
    | PermissionChecked(action: string)   // require_permission(identity, action, ...)
    | Stored(id: string)                  // request.commit()
    | SoftDeleted(id: string)             // request.delete()
    | SessionCommitted                    // db.session.commit()
    | Indexed(id: string)                 // indexer.index(request)
    | Unindexed(id: string)               // indexer.delete(request, refresh=True)

  /** A stored row with the request type the registry gave for it. */
  datatype Loaded = Loaded(model: Row, requestType: RequestType)

  /**
   * The query of `_get_request`: the unique row with external id `id_`, else
   * `query.get(id_)` by primary key (None when absent). Deleted rows are not filtered.
   */
  function LookupModel(rows: seq<Row>, id_: string): (m: Option<Row>)
    ensures m.Some? ==> m.value in rows
    ensures m.Some? ==> m.value.externalId == Some(id_) || m.value.id == id_
  {
    match One(Select(rows, ExternalId, id_, true))
    case Ok(model) => Some(model)
    case Err(_) =>
      var byId := Select(rows, PrimaryKey, id_, true);
      if byId == [] then None else Some(byId[0])
  }

  /** A unique external-id match wins, whether or not that row is deleted. */
  lemma LookupModelByExternalId(rows: seq<Row>, id_: string, i: int)
    requires 0 <= i < |rows| && rows[i].externalId == Some(id_)
    requires forall j :: 0 <= j < |rows| && j != i ==> rows[j].externalId != Some(id_)
    ensures LookupModel(rows, id_) == Some(rows[i])
  {
    assert UniqueMatch(rows, ExternalId, id_, true, i);
    SelectUnique(rows, ExternalId, id_, true, i);
  }

  /** With zero or several external-id matches, the primary key decides; no match gives None. */
  lemma LookupModelByInternalId(rows: seq<Row>, id_: string)
    requires DistinctIds(rows)
    requires forall i :: 0 <= i < |rows| ==> !UniqueMatch(rows, ExternalId, id_, true, i)
    ensures forall k :: 0 <= k < |rows| && rows[k].id == id_ ==> LookupModel(rows, id_) == Some(rows[k])
    ensures (forall k :: 0 <= k < |rows| ==> rows[k].id != id_) ==> LookupModel(rows, id_) == None
  {
    OneFailsWithoutUniqueMatch(rows, ExternalId, id_, true);
    forall k | 0 <= k < |rows| && rows[k].id == id_
      ensures LookupModel(rows, id_) == Some(rows[k])
    {
      assert UniqueMatch(rows, PrimaryKey, id_, true, k);
      SelectUnique(rows, PrimaryKey, id_, true, k);
    }
  }

  /**
   * The service finds a deleted request that `Request.get_record` with its
   * default `with_deleted=False` does not return.
   */
  lemma LookupModelSeesDeleted(rows: seq<Row>, id_: string, i: int)
    requires 0 <= i < |rows| && rows[i].externalId == Some(id_) && rows[i].isDeleted
    requires forall j :: 0 <= j < |rows| && j != i ==> rows[j].externalId != Some(id_)
    ensures LookupModel(rows, id_) == Some(rows[i])
    ensures GetRecord(rows, id_, false) != Ok(rows[i])
  {
    LookupModelByExternalId(rows, id_, i);
  }

  /**
   * `_request_from_model`: the request type registered under the model's
   * "request_type"; a None model fails on `model.data`.
   */
  function RequestFromModel(registry: Registry, model: Option<Row>): (r: Result<Loaded, Error>)
    requires WellFormed(registry)
    ensures model.None? ==> r == Err(AttributeError)
    ensures model.Some? ==>
              var t := LookupType(registry, model.value.data.requestType);
              && (t.Err? ==> r == Err(t.error))
              && (t.Ok? ==> r == Ok(Loaded(model.value, t.value)))
    ensures r.Ok? ==> Some(r.value.requestType.typeId) == model.value.data.requestType
  {
    if model.None? then Err(AttributeError)
    else
      var t :- LookupType(registry, model.value.data.requestType);
      Ok(Loaded(model.value, t))
  }

  /** The calls `rebuild_index` makes for `rows` when nothing fails: one index call per non-deleted row. */
  function IndexEvents(rows: seq<Row>): seq<Event> {
    if rows == [] then []
    else
      var last := rows[|rows| - 1];
      IndexEvents(rows[..|rows| - 1]) + (if last.isDeleted then [] else [Indexed(last.id)])
  }

  /** Re-indexing indexes every non-deleted request and nothing else. */
  lemma {:induction false} IndexEventsExactly(rows: seq<Row>, id: string)
    ensures forall e :: e in IndexEvents(rows) ==> e.Indexed?
    ensures Indexed(id) in IndexEvents(rows) <==>
              exists k :: 0 <= k < |rows| && rows[k].id == id && !rows[k].isDeleted
  {
    if rows != [] {
      var init := rows[..|rows| - 1];
      IndexEventsExactly(init, id);
      assert forall k :: 0 <= k < |init| ==> init[k] == rows[k];
    }
  }

  /** After a soft delete, default lookups skip the request and `with_deleted=True` still finds it. */
  lemma DeletedHiddenByDefault(rows: seq<Row>, k: int)
    requires DistinctIds(rows) && 0 <= k < |rows|
    ensures var rows' := Replace(rows, rows[k].(isDeleted := true));
            && (forall key :: GetRecord(rows', key, false).Ok? ==> GetRecord(rows', key, false).value.id != rows[k].id)
            && ((forall j :: 0 <= j < |rows| ==> rows[j].externalId != Some(rows[k].id)) ==>
                  GetRecord(rows', rows[k].id, true) == Ok(rows[k].(isDeleted := true)))
  {
    var deleted := rows[k].(isDeleted := true);
    var rows' := Replace(rows, deleted);
    if forall j :: 0 <= j < |rows| ==> rows[j].externalId != Some(rows[k].id) {
      GetRecordByInternalId(rows', rows[k].id, true);
    }
  }

  class RequestsService {
    const registry: Registry
    /** The permission policy behind `require_permission(identity, action, record=...)`. */
    const permits: (Identity, string, Option<Row>) -> bool
    /** Whether an indexer is configured (`if self.indexer:`). */
    const hasIndexer: bool
    var rows: seq<Row>
    ghost var log: seq<Event>

    ghost predicate Valid()
      reads this
    {
      WellFormed(registry) && DistinctIds(rows)
    }

    constructor (registry: Registry, permits: (Identity, string, Option<Row>) -> bool, hasIndexer: bool, rows: seq<Row>)
      requires WellFormed(registry) && DistinctIds(rows)
      ensures Valid() && this.rows == rows && log == []
      ensures this.registry == registry && this.permits == permits && this.hasIndexer == hasIndexer
    {
      this.registry := registry;
      this.permits := permits;
      this.hasIndexer := hasIndexer;
      this.rows := rows;
      log := [];
    }

    /** `require_permission`: records the check and raises PermissionDenied when the policy refuses. */
    method RequirePermission(identity: Identity, action: string, record: Option<Row>) returns (r: Result<(), Error>)
      modifies this`log
      ensures log == old(log) + [PermissionChecked(action)]
      ensures r.Ok? <==> permits(identity, action, record)
      ensures r.Err? ==> r.error == PermissionDenied(action)
    {
      log := log + [PermissionChecked(action)];
      r := if permits(identity, action, record) then Ok(()) else Err(PermissionDenied(action));
    }

    /** `_get_request`: the request stored under `id_`, loaded with its registered type. */
    method GetRequest(id_: string) returns (r: Result<Request, Error>)
      requires Valid()
      ensures var loaded := RequestFromModel(registry, LookupModel(rows, id_));
              && (loaded.Err? ==> r == Err(loaded.error))
              && (loaded.Ok? ==>
                    && r.Ok? && fresh(r.value)
                    && r.value.View() == ViewOf(loaded.value.model, loaded.value.requestType)
                    && r.value.requestType == loaded.value.requestType
                    && r.value.isDeleted == loaded.value.model.isDeleted)
    {
      var loaded :- RequestFromModel(registry, LookupModel(rows, id_));
      var request := new Request(loaded.model, loaded.requestType);
      r := Ok(request);
    }

    /**
     * `execute_action`: loads the request and refuses (raises) unless the action
     * can be executed; otherwise returns what the request's `execute_action` returns.
     * An unknown action raises NoSuchAction from the check, before anything runs.
     */
    method ExecuteAction(action: string, id_: string, identity: Identity) returns (r: Result<Payload, Error>)
      requires Valid()
      ensures var loaded := RequestFromModel(registry, LookupModel(rows, id_));
              && (loaded.Err? ==> r == Err(loaded.error))
              && (loaded.Ok? ==>
                    var actions := loaded.value.requestType.availableActions;
                    var view := ViewOf(loaded.value.model, loaded.value.requestType);
                    && (action !in actions ==> r == Err(NoSuchAction(action)))
                    && (action in actions && !actions[action].canExecute(view, identity) ==>
                          r == Err(CannotExecute(action)))
                    && (action in actions && actions[action].canExecute(view, identity) ==>
                          r == ReturnOf(actions[action].execute(view, identity))))
    {
      var request :- GetRequest(id_);
      var can :- request.CanExecuteAction(action, identity);
      if !can {
        return Err(CannotExecute(action));
      }
      r := request.ExecuteAction(action, identity);
    }

    /**
     * `create`: the "create" permission is checked before anything is written;
     * then the record the components populated is stored, committed and indexed.
     * `newId` is the record id the database generates, distinct from every stored id.
     */
    method Create(identity: Identity, newId: string, externalId: Option<string>, data: RequestData)
      returns (r: Result<Row, Error>)
      requires Valid()
      requires forall k :: 0 <= k < |rows| ==> rows[k].id != newId
      modifies this
      ensures Valid()
      ensures !permits(identity, "create", None) ==>
                && r == Err(PermissionDenied("create"))
                && rows == old(rows)
                && log == old(log) + [PermissionChecked("create")]
      ensures permits(identity, "create", None) ==>
                var model := Row(newId, externalId, false, data);
                && r == Ok(model)
                && rows == old(rows) + [model]
                && log == old(log) + [PermissionChecked("create"), Stored(newId), SessionCommitted]
                                    + (if hasIndexer then [Indexed(newId)] else [])
    {
      var allowed := RequirePermission(identity, "create", None);
      if allowed.Err? {
        return Err(allowed.error);
      }
      var model := Row(newId, externalId, false, data);
      rows := rows + [model];
      log := log + [Stored(newId), SessionCommitted];
      if hasIndexer {
        log := log + [Indexed(newId)];
      }
      r := Ok(model);
    }

    /**
     * `update`: loads the request, checks the "update" permission, then writes
     * the data the components produced, commits and re-indexes. The status and
     * the request type are kept from the stored row: the status changes only
     * through actions, and the type is fixed at creation.
     */
    method Update(id_: string, identity: Identity, data: RequestData) returns (r: Result<Row, Error>)
      requires Valid()
      modifies this
      ensures Valid()
      ensures var loaded := RequestFromModel(registry, LookupModel(old(rows), id_));
              && (loaded.Err? ==> r == Err(loaded.error) && rows == old(rows) && log == old(log))
              && (loaded.Ok? && !permits(identity, "update", Some(loaded.value.model)) ==>
                    && r == Err(PermissionDenied("update"))
                    && rows == old(rows)
                    && log == old(log) + [PermissionChecked("update")])
              && (loaded.Ok? && permits(identity, "update", Some(loaded.value.model)) ==>
                    var stored := loaded.value.model.data;
                    var model := loaded.value.model.(data := data.(status := stored.status, requestType := stored.requestType));
                    && r == Ok(model)
                    && rows == Replace(old(rows), model)
                    && log == old(log) + [PermissionChecked("update"), Stored(model.id), SessionCommitted]
                                        + (if hasIndexer then [Indexed(model.id)] else []))
      ensures |rows| == |old(rows)|
      ensures forall k :: 0 <= k < |rows| ==>
                && rows[k].data.status == old(rows)[k].data.status
                && rows[k].data.requestType == old(rows)[k].data.requestType
    {
      var loaded :- RequestFromModel(registry, LookupModel(rows, id_));
      var allowed := RequirePermission(identity, "update", Some(loaded.model));
      if allowed.Err? {
        return Err(allowed.error);
      }
      var stored := loaded.model.data;
      var model := loaded.model.(data := data.(status := stored.status, requestType := stored.requestType));
      rows := Replace(rows, model);
      log := log + [Stored(model.id), SessionCommitted];
      if hasIndexer {
        log := log + [Indexed(model.id)];
      }
      r := Ok(model);
    }

    /**
     * `delete`: loads the request, checks the "delete" permission, marks the row
     * deleted, commits, removes it from the index and returns true.
     */
    method Delete(id_: string, identity: Identity) returns (r: Result<bool, Error>)
      requires Valid()
      modifies this
      ensures Valid()
      ensures var loaded := RequestFromModel(registry, LookupModel(old(rows), id_));
              && (loaded.Err? ==> r == Err(loaded.error) && rows == old(rows) && log == old(log))
              && (loaded.Ok? && !permits(identity, "delete", Some(loaded.value.model)) ==>
                    && r == Err(PermissionDenied("delete"))
                    && rows == old(rows)
                    && log == old(log) + [PermissionChecked("delete")])
              && (loaded.Ok? && permits(identity, "delete", Some(loaded.value.model)) ==>
                    var id := loaded.value.model.id;
                    && r == Ok(true)
                    && rows == Replace(old(rows), loaded.value.model.(isDeleted := true))
                    && log == old(log) + [PermissionChecked("delete"), SoftDeleted(id), SessionCommitted]
                                        + (if hasIndexer then [Unindexed(id)] else []))
    {
      var loaded :- RequestFromModel(registry, LookupModel(rows, id_));
      var allowed := RequirePermission(identity, "delete", Some(loaded.model));
      if allowed.Err? {
        return Err(allowed.error);
      }
      var id := loaded.model.id;
      rows := Replace(rows, loaded.model.(isDeleted := true));
      log := log + [SoftDeleted(id), SessionCommitted];
      if hasIndexer {
        log := log + [Unindexed(id)];
      }
      r := Ok(true);
    }

    /**
     * Why `rebuild_index` stops at `row`, if it does: the registry does not know
     * its type, or the row is not deleted and there is no indexer to call.
     */
    function RebuildFailure(row: Row): Option<Error>
      requires WellFormed(registry)
    {
      match RequestFromModel(registry, Some(row))
      case Err(e) => Some(e)
      case Ok(_) => if !row.isDeleted && !hasIndexer then Some(AttributeError) else None
    }

    /**
     * `rebuild_index`: walks all stored rows, in the order the query returns
     * them (here the order of `rows`), and indexes each one that is not
     * deleted; the first failing row ends the walk with its error.
     */
    method RebuildIndex(identity: Identity) returns (r: Result<(), Error>)
      requires Valid()
      modifies this`log
      ensures r.Ok? ==>
                && (forall k :: 0 <= k < |rows| ==> RebuildFailure(rows[k]).None?)
                && log == old(log) + IndexEvents(rows)
      ensures r.Err? ==>
                exists n :: && 0 <= n < |rows|
                            && RebuildFailure(rows[n]) == Some(r.error)
                            && (forall k :: 0 <= k < n ==> RebuildFailure(rows[k]).None?)
                            && log == old(log) + IndexEvents(rows[..n])
    {
      var i := 0;
      while i < |rows|
        invariant 0 <= i <= |rows|
        invariant forall k :: 0 <= k < i ==> RebuildFailure(rows[k]).None?
        invariant log == old(log) + IndexEvents(rows[..i])
      {
        var loaded := RequestFromModel(registry, Some(rows[i]));
        if loaded.Err? {
          return Err(loaded.error);
        }
        var request := new Request(loaded.value.model, loaded.value.requestType);
        if !request.isDeleted {
          if !hasIndexer {
            return Err(AttributeError);
          }
          log := log + [Indexed(request.id)];
        }
        assert rows[..i + 1][..i] == rows[..i];
        i := i + 1;
      }
      assert rows[..i] == rows;
      r := Ok(());
    }
  }
}
