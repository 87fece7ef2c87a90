/**
 * The user-moderation service (invenio_requests/services/user_moderation/service.py):
 * a thin orchestration over the requests service. Each operation returns what it
 * returns in the source together with the calls it made on its collaborators, in order.
 */
module UserModeration {
  import opened Wrappers
  import opened Common
  import opened Records

  /** `UserModeration.type_id`, the id of the user-moderation request type. */
  const UserModerationTypeId: string := "user-moderation"

  /** `{"user_moderation": id}` */
  function ModerationRef(id: string): EntityRef {
    EntityRef("user_moderation", id)
  }

  /** An entity a reference resolved to (a user record, for the topic). */
  datatype Entity = Entity(ref: EntityRef, fields: Payload)

  /** The arguments of `requests_service.create(identity, data, type, receiver, creator, topic=...)`. */
  datatype CreateArgs = CreateArgs(
    identity: Identity, data: Payload, requestType: string,
    receiver: EntityRef, creator: EntityRef, topic: Entity)

  /** The arguments of `requests_service.execute_action(identity=, id_=, action=, data=)`. */
  datatype ExecuteArgs = ExecuteArgs(identity: Identity, id: string, action: string, data: Option<Payload>)

  /** The arguments of `requests_service.read(identity=, id_=, **kwargs)`. */
  datatype ReadArgs = ReadArgs(identity: Identity, id: string, kwargs: Payload)

  /** A search term filter `field == value`. */
  datatype TermFilter = TermFilter(field: string, value: string)

  /** The arguments of `requests_service.search(identity, extra_filter=, params=, expand=, permission_action=)`. */
  datatype SearchArgs = SearchArgs(
    identity: Identity, extraFilter: TermFilter, params: Payload, expand: bool,
    permissionAction: Option<string>)

  /** A call on a collaborator: the permission policy, the entity resolver or the requests service. */
  datatype Call =
    | CheckPermission(identity: Identity, action: string)
    | ResolveEntity(ref: EntityRef)
    | CreateRequest(create: CreateArgs)
    | ExecuteRequestAction(execute: ExecuteArgs)
    | ReadRequest(read: ReadArgs)
    | SearchRequests(search: SearchArgs)

  /** The item `create` returns; only its id is used. */
  datatype CreatedItem = CreatedItem(id: string)

  /** The requests service as this service calls it: each call's outcome as a function of its arguments. */
  datatype RequestsApi = RequestsApi(
    create: CreateArgs -> Result<CreatedItem, Error>,
    executeAction: ExecuteArgs -> Result<Payload, Error>,
    read: ReadArgs -> Result<Payload, Error>,
    search: SearchArgs -> Result<Payload, Error>)

  class UserModerationService {
    const requestsService: RequestsApi
    /** The permission policy behind `require_permission(identity, action)`. */
    const permits: (Identity, string) -> bool
    /** `ResolverRegistry.resolve_entity_proxy(ref).resolve()` */
    const resolveEntity: EntityRef -> Result<Entity, Error>
    /** The request type registry. */
    const registry: Registry

    constructor (requestsService: RequestsApi, permits: (Identity, string) -> bool,
                 resolveEntity: EntityRef -> Result<Entity, Error>, registry: Registry)
      ensures this.requestsService == requestsService && this.permits == permits
      ensures this.resolveEntity == resolveEntity && this.registry == registry
    {
      this.requestsService := requestsService;
      this.permits := permits;
      this.resolveEntity := resolveEntity;
      this.registry := registry;
    }

    /** `request_type_cls`: the user-moderation request type from the registry. */
    function RequestTypeCls(): (r: Result<RequestType, Error>)
      ensures r.Ok? <==> UserModerationTypeId in registry
      ensures r.Ok? ==> r.value == registry[UserModerationTypeId]
      ensures WellFormed(registry) && r.Ok? ==> r.value.typeId == UserModerationTypeId
    {
      LookupType(registry, Some(UserModerationTypeId))
    }

    /**
     * `read`: requires the "read" permission, then reads as the system identity,
     * passing the caller's extra keyword arguments on.
     */
    method Read(identity: Identity, requestId: string, kwargs: Payload) returns (r: Result<Payload, Error>, calls: seq<Call>)
      ensures |calls| >= 1 && calls[0] == CheckPermission(identity, "read")
      ensures !permits(identity, "read") ==> calls == [calls[0]] && r == Err(PermissionDenied("read"))
      ensures permits(identity, "read") ==>
                var args := ReadArgs(SystemIdentity, requestId, kwargs);
                calls == [calls[0], ReadRequest(args)] && r == requestsService.read(args)
    {
      calls := [CheckPermission(identity, "read")];
      if !permits(identity, "read") {
        return Err(PermissionDenied("read")), calls;
      }
      var args := ReadArgs(SystemIdentity, requestId, kwargs);
      calls := calls + [ReadRequest(args)];
      r := requestsService.read(args);
    }

    /**
     * `moderate`: requires the "moderate" permission, then executes the action as
     * the system identity, not as the caller.
     */
    method Moderate(identity: Identity, requestId: string, action: string, data: Option<Payload>)
      returns (r: Result<Payload, Error>, calls: seq<Call>)
      ensures |calls| >= 1 && calls[0] == CheckPermission(identity, "moderate")
      ensures !permits(identity, "moderate") ==> calls == [calls[0]] && r == Err(PermissionDenied("moderate"))
      ensures permits(identity, "moderate") ==>
                var args := ExecuteArgs(SystemIdentity, requestId, action, data);
                calls == [calls[0], ExecuteRequestAction(args)] && r == requestsService.executeAction(args)
    {
      calls := [CheckPermission(identity, "moderate")];
      if !permits(identity, "moderate") {
        return Err(PermissionDenied("moderate")), calls;
      }
      var args := ExecuteArgs(SystemIdentity, requestId, action, data);
      calls := calls + [ExecuteRequestAction(args)];
      r := requestsService.executeAction(args);
    }

    /**
     * `request_moderation`: checks the "request_moderation" permission, accepts
     * only the system as creator, resolves the topic user, creates a
     * user-moderation request from the moderation system to itself and submits
     * it at once under the caller's identity, returning the submit's result.
     */
    method RequestModeration(identity: Identity, creator: string, topic: string, data: Option<Payload>)
      returns (r: Result<Payload, Error>, calls: seq<Call>)
      requires WellFormed(registry)
      ensures |calls| >= 1 && calls[0] == CheckPermission(identity, "request_moderation")
      ensures !permits(identity, "request_moderation") ==>
                calls == [calls[0]] && r == Err(PermissionDenied("request_moderation"))
      ensures permits(identity, "request_moderation") && creator != SystemUserId ==>
                calls == [calls[0]] && r == Err(InvalidCreator)
      ensures forall c :: c in calls && c.CreateRequest? ==>
                && creator == SystemUserId
                && c.create.receiver == ModerationRef(SystemUserId)
                && c.create.creator == ModerationRef(creator)
                && c.create.requestType == UserModerationTypeId
      ensures permits(identity, "request_moderation") && creator == SystemUserId ==>
                var topicRef := EntityRef("user", topic);
                var payload := data.GetOr(map[]);
                && |calls| >= 2 && calls[1] == ResolveEntity(topicRef)
                && (resolveEntity(topicRef).Err? ==>
                      |calls| == 2 && r == Err(resolveEntity(topicRef).error))
                && (resolveEntity(topicRef).Ok? && RequestTypeCls().Err? ==>
                      |calls| == 2 && r == Err(RequestTypeCls().error))
                && (resolveEntity(topicRef).Ok? && RequestTypeCls().Ok? ==>
                      var args := CreateArgs(identity, payload, UserModerationTypeId,
                                             ModerationRef(SystemUserId), ModerationRef(creator),
                                             resolveEntity(topicRef).value);
                      var item := requestsService.create(args);
                      && |calls| >= 3 && calls[2] == CreateRequest(args)
                      && (item.Err? ==> |calls| == 3 && r == Err(item.error))
                      && (item.Ok? ==>
                            var submit := ExecuteArgs(identity, item.value.id, "submit", Some(payload));
                            && calls == calls[..3] + [ExecuteRequestAction(submit)]
                            && r == requestsService.executeAction(submit)))
    {
      calls := [CheckPermission(identity, "request_moderation")];
      if !permits(identity, "request_moderation") {
        return Err(PermissionDenied("request_moderation")), calls;
      }
      if creator != SystemUserId {
        return Err(InvalidCreator), calls;
      }
      var payload := data.GetOr(map[]);
      var topicRef := EntityRef("user", topic);
      calls := calls + [ResolveEntity(topicRef)];
      var topicEntity := resolveEntity(topicRef);
      if topicEntity.Err? {
        return Err(topicEntity.error), calls;
      }
      var receiver := ModerationRef(SystemUserId);
      var creatorRef := ModerationRef(creator);
      var requestType := RequestTypeCls();
      if requestType.Err? {
        return Err(requestType.error), calls;
      }
      var args := CreateArgs(identity, payload, requestType.value.typeId, receiver, creatorRef, topicEntity.value);
      calls := calls + [CreateRequest(args)];
      var item := requestsService.create(args);
      if item.Err? {
        return Err(item.error), calls;
      }
      var submit := ExecuteArgs(identity, item.value.id, "submit", Some(payload));
      calls := calls + [ExecuteRequestAction(submit)];
      r := requestsService.executeAction(submit);
    }

    /**
     * `search_moderation_requests`: checks the "search_requests" permission, then
     * searches as the system identity, without a permission action, for requests
     * of the user-moderation type only.
     */
    method SearchModerationRequests(identity: Identity, params: Option<Payload>, expand: bool)
      returns (r: Result<Payload, Error>, calls: seq<Call>)
      requires WellFormed(registry)
      ensures |calls| >= 1 && calls[0] == CheckPermission(identity, "search_requests")
      ensures !permits(identity, "search_requests") ==>
                calls == [calls[0]] && r == Err(PermissionDenied("search_requests"))
      ensures permits(identity, "search_requests") && RequestTypeCls().Err? ==>
                calls == [calls[0]] && r == Err(RequestTypeCls().error)
      ensures permits(identity, "search_requests") && RequestTypeCls().Ok? ==>
                var args := SearchArgs(SystemIdentity, TermFilter("type", UserModerationTypeId),
                                       params.GetOr(map[]), expand, None);
                calls == [calls[0], SearchRequests(args)] && r == requestsService.search(args)
    {
      calls := [CheckPermission(identity, "search_requests")];
      if !permits(identity, "search_requests") {
        return Err(PermissionDenied("search_requests")), calls;
      }
      var query := params.GetOr(map[]);
      var requestType := RequestTypeCls();
      if requestType.Err? {
        return Err(requestType.error), calls;
      }
      var args := SearchArgs(SystemIdentity, TermFilter("type", requestType.value.typeId), query, expand, None);
      calls := calls + [SearchRequests(args)];
      r := requestsService.search(args);
    }
  }
}
