/** Values shared by the records and the services: identities, entity references, errors. */
module Common {
  import opened Wrappers

  /** The id under which the system itself acts (`system_user_id`). */
  const SystemUserId: string := "system"

  /** Who performs a call. */
  datatype Identity = Identity(userId: string)

  /** The privileged identity of the system (`system_identity`). */
  const SystemIdentity: Identity := Identity(SystemUserId)

  /** A reference `{kind: identifier}` to a user, a group, the moderation system, ... */
  datatype EntityRef = EntityRef(kind: string, identifier: string)

  /** A JSON-like dictionary: request data, action results, search parameters. */
  type Payload = map<string, string>

  /** The exceptions that the modelled code raises or lets through. */
  datatype Error =
    | NoSuchAction(action: string)          // NoSuchActionError
    | NoResultFound                         // query.one() with no row
    | MultipleResultsFound                  // query.one() with several rows
    | AttributeError                        // an attribute read on None
    | UnknownRequestType(typeId: Option<string>)  // the type registry has no such type
    | TypeError                             // `<` between a naive and an aware datetime
    | CannotExecute(action: string)         // the service's bare `raise Exception`
    | PermissionDenied(action: string)      // require_permission refused
    | InvalidCreator                        // moderation request by a non-system creator
    | Raised(reason: string)                // raised by a collaborator or by an action
}
