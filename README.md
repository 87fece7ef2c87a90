# Invenio-Requests: request action dispatch, in Dafny

This project models the core of Invenio-Requests:

- the action-dispatch engine of the `Request` record;
- the requests service that loads requests and gates action execution;
- the user-moderation service that drives the engine.

A request record has a status and a request type. The type's `available_actions` table maps an
action name to an action class. The record dispatches `can_execute_action` and `execute_action` to
the action bound to it. The status changes only when an action's execution succeeds.

Stored requests live in a table of rows. A row holds:
- an internal id (the primary key);
- an optional external id;
- a logical-deletion flag;
- the request data.

There are two lookups by id:
- `Request.get_record` filters out deleted rows by default;
- the service's `_get_request` does not filter them.

The service refuses to execute an action whose `can_execute` is false. In `create`, `update` and
`delete` it checks permissions before writing anything. The user-moderation service adds four
operations on top of this:
- `request_moderation` accepts only the system as creator, creates a request and submits it at once;
- `moderate` re-issues the action call as the system identity;
- `read` re-issues the read as the system identity;
- `search_moderation_requests` searches only the user-moderation type, as the system identity.

Modules (one file each):

- `Wrappers` (wrappers.dfy): `Option` for Python's `None`, and `Result` for a value or a raised exception.
- `Common` (common.dfy): identities, `system_user_id` and `system_identity`, entity references `{kind: id}`, and the error kinds.
- `DateTimes` (datetimes.dfy): Python datetimes that are naive or aware, and Python's `<` on them. Mixing a naive and an aware datetime raises `TypeError`.
- `Records` (records.dfy): `invenio_requests/records/api.py`. It holds the `Request` class (status field, action table, expiry, dispatch) and the row queries of `get_record`.
- `RequestsServices` (requests_service.dfy): `invenio_requests/services/requests/service.py`. The class `RequestsService` owns the row table (`rows`). A ghost `log` records permission checks, stores, commits and index calls, in order.
- `UserModeration` (user_moderation.dfy): `invenio_requests/services/user_moderation/service.py`. Each operation returns its result and the list of calls it made on its collaborators, in order. The collaborators are the permission policy, the entity resolver and the requests service.

Collaborators whose code is not part of this model are parameters:
- Action classes: two functions of the bound request's view and the identity, `canExecute` and `execute`. `execute` yields the new status and a return value, or an error.
- The permission policy: a predicate.
- The entity resolver: a function.
- The requests service, as the moderation service calls it: functions from call arguments to outcomes.
- The clock: the current UTC instant as an integer.
- The database's fresh record id: a parameter of `Create`.

## Model

| member | source | states |
|---|---|---|
| `Records.Request.IsExpired` | invenio_requests/records/api.py:88-101 | With no expiry the result is false. Otherwise the comparison never raises, whether `expires_at` is naive or aware. The result is exactly "the expiry's UTC instant is strictly before now", so an expiry equal to now is not expired. |
| `Records.Request.GetAction` | invenio_requests/records/api.py:103-112 | Fails with `NoSuchAction(name)` exactly when the name is absent from the type's `available_actions`. Otherwise returns that action bound to this request's current view. |
| `Records.Request.CanExecuteAction` | invenio_requests/records/api.py:114-121 | Returns exactly the registered action's `can_execute` for this request and identity. An unknown name gives `NoSuchAction`. |
| `Records.Request.ExecuteAction` | invenio_requests/records/api.py:123-130 | An unknown name raises `NoSuchAction` and leaves the status unchanged. Otherwise it returns what the bound action's `execute` returns. The status becomes the action's target on success and stays unchanged when the action raises (actions are all-or-nothing, see Left out). All other fields are immutable. |
| `Records.Request.constructor` | invenio_requests/records/api.py:162 | A request built from a stored row shows that row's id, external id, status, parties and expiry, under the given request type. |
| `Records.LookupType` | invenio_requests/services/requests/service.py:47-49 | A registry lookup succeeds exactly for a present, registered type id. Otherwise it raises `UnknownRequestType`. In a registry that keys every type by its own type id, the type found has the requested id. |
| `Records.Select` | invenio_requests/records/api.py:142-144 | The filtered query yields only stored rows that match the column and, unless deleted rows are included, are not deleted. It is empty exactly when no row matches. |
| `Records.GetRecord` | invenio_requests/records/api.py:132-162 | A row it returns is stored and has `id_` as its external or internal id. With `with_deleted=False` it is never a deleted row. Failures are `NoResultFound` or `MultipleResultsFound` only. |
| `Records.GetRecordByExternalId` | invenio_requests/records/api.py:141-146 | A unique external-id match is returned. |
| `Records.GetRecordByInternalId` | invenio_requests/records/api.py:148-156 | With zero or several external-id matches, the row with internal id `id_` is returned. If no row has that internal id, `NoResultFound` propagates. |
| `RequestsServices.LookupModel` | invenio_requests/services/requests/service.py:52-64 | The model `_get_request` finds is a stored row whose external or internal id is `id_`. |
| `RequestsServices.LookupModelByExternalId` | invenio_requests/services/requests/service.py:55-58 | A unique external-id match is found, whether or not it is deleted. |
| `RequestsServices.LookupModelByInternalId` | invenio_requests/services/requests/service.py:60-64 | With zero or several external-id matches, the primary key decides. If no row has that primary key the result is None. |
| `RequestsServices.LookupModelSeesDeleted` | invenio_requests/services/requests/service.py:55-64 | `_get_request` finds a deleted request that `get_record` with its default arguments does not return. |
| `RequestsServices.RequestFromModel` | invenio_requests/services/requests/service.py:43-50 | The request type is the registry's entry for the model's "request_type", so a loaded request's type id is the one stored in its row. An unknown type raises. A None model raises `AttributeError`. |
| `RequestsServices.IndexEventsExactly` | invenio_requests/services/requests/service.py:213-219 | A full re-index makes only index calls. It indexes a request id exactly when some stored row with that id is not deleted. |
| `RequestsServices.DeletedHiddenByDefault` | invenio_requests/services/requests/service.py:185-206 | Consider the table after `delete` marks a row deleted. Default `get_record` never returns that request. `with_deleted=True` still returns it, flagged deleted, by its internal id. |
| `RequestsServices.RequestsService.RequirePermission` | invenio_requests/services/requests/service.py:72 | The check is logged. It fails with `PermissionDenied(action)` exactly when the policy refuses. |
| `RequestsServices.RequestsService.GetRequest` | invenio_requests/services/requests/service.py:52-68 | A lookup or type failure propagates. Otherwise it returns a new request object showing the found row under its registered type. |
| `RequestsServices.RequestsService.ExecuteAction` | invenio_requests/services/requests/service.py:221-237 | A load failure propagates. An unknown action raises `NoSuchAction` from the check. A refused action raises `CannotExecute` and no result of `execute` is returned. An allowed action returns exactly the action's `execute` outcome. |
| `RequestsServices.RequestsService.Create` | invenio_requests/services/requests/service.py:70-106 | The "create" permission is checked first. On refusal the table is unchanged and only the check is logged. Otherwise the new row is appended, then stored, committed and indexed (when an indexer is configured), in that order. |
| `RequestsServices.RequestsService.Update` | invenio_requests/services/requests/service.py:147-183 | The request is loaded, then the "update" permission is checked on it. On refusal nothing is written. Otherwise the row's data is replaced, then stored, committed and re-indexed, in that order. The stored status and request type are kept, whatever the new data says: the status changes only through actions, and the type is fixed at creation. |
| `RequestsServices.RequestsService.Delete` | invenio_requests/services/requests/service.py:185-206 | The request is loaded, then the "delete" permission is checked on it. On refusal nothing is written. Otherwise the row is marked deleted (nothing is removed), committed, and removed from the index. The result is true. |
| `RequestsServices.RequestsService.RebuildIndex` | invenio_requests/services/requests/service.py:213-219 | Rows are walked in the order the query returns them (the order of `rows`; the source sets no ordering). Each non-deleted row is indexed. On success the log gains exactly the index calls for the non-deleted rows. A row with an unknown type ends the walk with that error after the preceding rows were indexed. |
| `UserModeration.UserModerationService.RequestTypeCls` | invenio_requests/services/user_moderation/service.py:30-33 | The user-moderation type is the registry's entry for its type id, and carries that id. The lookup fails when that type is not registered. |
| `UserModeration.UserModerationService.Read` | invenio_requests/services/user_moderation/service.py:35-41 | The "read" permission is checked first. A refusal makes no further call. Otherwise exactly one read is made, as `system_identity`, with the caller's extra keyword arguments passed on, and its result is returned. |
| `UserModeration.UserModerationService.Moderate` | invenio_requests/services/user_moderation/service.py:43-52 | The "moderate" permission is checked first. Otherwise exactly one `execute_action` is made, as `system_identity` and not as the caller, with the given action and data. Its result is returned. |
| `UserModeration.UserModerationService.RequestModeration` | invenio_requests/services/user_moderation/service.py:54-86 | The "request_moderation" permission is checked before anything else. A creator other than `system_user_id` raises `InvalidCreator` and no request is created. The topic is resolved from `{"user": topic}`. The receiver is `{"user_moderation": system_user_id}` and the creator is `{"user_moderation": creator}`. The request is created with the user-moderation type id. After creation, "submit" is executed on the new request's id under the caller's identity, and that result is returned. Each failure stops the sequence with its error. |
| `UserModeration.UserModerationService.SearchModerationRequests` | invenio_requests/services/user_moderation/service.py:88-112 | The "search_requests" permission is checked first. The search is made once, as `system_identity`, with `permission_action` None. It is filtered to `type` equal to `"user-moderation"`, the user-moderation type id, so only user-moderation requests are searched. The params default to `{}`. |

Notes on the source's behaviour:
- When the check fails, `execute_action` raises a bare `Exception` (service.py:233-235), marked `# TODO proper exception` at service.py:234. The model calls this error `CannotExecute`.
- `_get_request` does not filter out deleted requests, unlike `get_record`. An id that matches nothing makes `query.get` return None. `_request_from_model(None)` then fails on `model.data`, which the model represents as `AttributeError`.
- In `get_record`, the `if model is None: return None` branch (api.py:158-160) cannot be reached, because `query.one()` never returns None. The model has no such branch.
- `create`, `update` and `delete` guard the indexer with `if self.indexer:`. `rebuild_index` does not. The model reproduces this: without an indexer, re-indexing a non-deleted row fails with `AttributeError`.
- The moderation service calls the requests service with arguments that the requests service shown here does not accept. `create` gets six arguments (user_moderation/service.py:72-79) against three parameters (requests/service.py:70). `execute_action` gets `data=` (user_moderation/service.py:47-52, 81-86), which requests/service.py:221 does not take. `read` gets `**kwargs` (user_moderation/service.py:41), which requests/service.py:108 does not take. `search` gets `params` (user_moderation/service.py:106-112), which requests/service.py:145 does not pass on to the base search, so the params of `search_moderation_requests` would not reach it. The type filter travels as `extra_filter` among the `**kwargs` and is passed on. The moderation service's view of the requests service is therefore a separate, abstract interface (`RequestsApi`).

## Left out

- Database sessions, SQL queries, commits and the search indexer are I/O. The table is a sequence of rows. Commits and index calls appear only as entries of a ghost log.
- Marshmallow schema loading and validation, and the bodies of the service components are not modelled. `Create` and `Update` take the data that the components would have produced as a parameter.
- Result items, links, dumpers, `ConstantField`/`IndexField` metadata and `is_open` are not modelled.
- `read` of the requests service (service.py:108-125) is not modelled: it loads the request with `_get_request`, checks the "read" permission on it and runs the components. The moderation service reaches its own view of `read` through `RequestsApi`.
- `read_all`, `read_many`, `scan`, `search` and `reindex` of the requests service delegate to a base class that is not part of this model. They do not pass all their arguments on: `scan` and `reindex` call the base class with `params=None` and `es_preference=None` (service.py:140, 211), and `search` drops `params` altogether (service.py:145).
- The concrete actions (submit, accept, approve, block, ...), the request type registry's internals and `ResolverRegistry` are not part of this model. Actions are pairs of functions, the registry is a map, and the resolver is a function.
- The contents of the permission policy are not modelled. `require_permission` is a predicate over identity, action name and (for the requests service) the record.
- `RequestEvent` and its enums, and the events-service test, are not part of this model.
- RequestsServices.RequestsService.RebuildIndex: `query.all()` sets no ordering. `rows` stands for whatever order the database returns, which matters only for which rows were indexed before a failure.
- Collaborator state is not modelled. In `RequestModeration` the outcome of `execute_action` is a function of its arguments, so it does not see the request that `create` just stored.
- Records.GetRecord: `id_` is a string, so `str(id_)` is `id_`. Integer and None ids are not modelled.
- Records.GetRecord: the returned row is not wrapped in a new `Request` object. `Records.Request.constructor` does that separately.
- Records.Request.IsExpired: aware datetimes are compared by UTC instant. Python instead compares wall clocks when both operands share one tzinfo object. The two agree here because the shared tzinfo can only be UTC. A tzinfo's offset is fixed per datetime value.
- Records.Request.ExecuteAction: actions are modelled as all-or-nothing. An action that raises never changes the status, although a real action could set the status and then raise. An action changes only the status. Other side effects of concrete actions, such as updating the topic user, are not modelled. Neither is a commit made by the action itself.
- RequestsServices.RequestsService.ExecuteAction: the status change happens on the freshly loaded request object. This code does not persist it. Whether an action commits is up to that action, which is not part of this model.
- RequestsServices.RequestsService.Create: the record id the database generates is a parameter, assumed distinct from the stored ids. The model drops the `request_class` parameter, which selects the schema and builds the record (`request_class.create({})`). The request type is taken from the "request_type" entry of `data` instead.
- RequestsServices.RequestsService.Delete: `request.delete()` is library code that is not part of this model. It is assumed to set the deletion flag and keep the row's data, so a deleted request still loads and `rebuild_index` skips it. The source's own comment at service.py:45-46 warns that `_request_from_model` may fail "when reading a deleted request"; if the library cleared the data, `GetRequest`, `ExecuteAction` and `RebuildIndex` would fail on such a row (the last one stopping there) instead of loading it.
- Concurrent action execution and transactions are not modelled. Every operation runs sequentially.
- `gettext` message translation is not modelled. Neither are the `uow` and `**kwargs` parameters of `request_moderation`, which it never uses.
- The request type registry is assumed to key every type by its own type id (`Records.WellFormed`). The services require this.
