/**
  The experimental `SenderRoles` permission object of NoneBot: a read-only
  snapshot of who sent an event and from where, the member-info lookup that
  feeds it, and the evaluation of a role-check policy against it.
 */
module Permission {
  import opened Wrappers

  /** The minimal event record NoneBot extracts from a CQHTTP event. */
  datatype MinEvent = MinEvent(
    messageType: string,    // "group", "private" or "discuss"
    subType: string,        // e.g. "friend", "group", "anonymous", "normal"
    groupId: Option<int>,   // absent when the event is not group-scoped
    userId: int,
    senderId: int,
    selfId: int)

  /** The member-info dictionary returned by the platform; only its "role" key is read. */
  type MemberInfo = map<string, string>

  /** Python's `dict.get(key)`: the value under `key`, or `None`. */
  function DictGet(info: MemberInfo, key: string): Option<string>
  {
    if key in info then Some(info[key]) else None
  }

  /** Errors that can be raised while evaluating a permission. */
  datatype PyError =
    | CQHttpError(reason: string)  // any failure of a CQHTTP API call
    | OtherError(name: string)     // any other exception

  /** The arguments of the `get_group_member_info` API call. */
  datatype MemberInfoRequest = MemberInfoRequest(
    selfId: int, groupId: Option<int>, userId: int, noCache: bool)

  /** What the platform does with one `get_group_member_info` call. */
  datatype RemoteOutcome = Returned(info: MemberInfo) | Raised(error: PyError)

  /** The bot, reduced to the one API call this module makes. */
  datatype Bot = Bot(getGroupMemberInfo: MemberInfoRequest -> RemoteOutcome)

  /** The request `_get_member_info` sends for an event: its ids, bypassing the remote cache. */
  function RequestFor(e: MinEvent): MemberInfoRequest
  {
    MemberInfoRequest(e.selfId, e.groupId, e.userId, true)
  }

  /**
    `_get_member_info`: ask the platform for the sender's member info.
    A `CQHttpError` becomes `None`; any other error propagates to the caller.
   */
  function GetMemberInfo(bot: Bot, e: MinEvent): (r: Result<Option<MemberInfo>, PyError>)
    ensures bot.getGroupMemberInfo(RequestFor(e)).Returned? ==>
              r == Ok(Some(bot.getGroupMemberInfo(RequestFor(e)).info))
    ensures r == Ok(None) <==> bot.getGroupMemberInfo(RequestFor(e)).Raised?
                                && bot.getGroupMemberInfo(RequestFor(e)).error.CQHttpError?
    ensures r.Err? <==> bot.getGroupMemberInfo(RequestFor(e)).Raised?
                        && bot.getGroupMemberInfo(RequestFor(e)).error.OtherError?
    ensures r.Err? ==> bot.getGroupMemberInfo(RequestFor(e)) == Raised(r.error)
  {
    match bot.getGroupMemberInfo(RequestFor(e))
    case Returned(info) => Ok(Some(info))
    case Raised(CQHttpError(_)) => Ok(None)
    case Raised(err) => Err(err)
  }

  /** The snapshot a policy is evaluated against; never changed after `Create`. */
  datatype SenderRoles = SenderRoles(bot: Bot, minEvent: MinEvent, sender: Option<MemberInfo>)
  {
    /** `is_privatechat` */
    function IsPrivatechat(): (r: bool)
      ensures r ==> minEvent.messageType != "group" && minEvent.messageType != "discuss"
    {
      minEvent.messageType == "private"
    }

    /** `is_discusschat` */
    function IsDiscusschat(): (r: bool)
      ensures r ==> !IsPrivatechat() && minEvent.messageType != "group"
    {
      minEvent.messageType == "discuss"
    }

    /** `is_groupchat` */
    function IsGroupchat(): (r: bool)
      ensures r ==> !IsPrivatechat() && !IsDiscusschat()
    {
      minEvent.messageType == "group"
    }

    /** `is_private_group`: a temporary private chat started from a group. */
    function IsPrivateGroup(): (r: bool)
      ensures r ==> IsPrivatechat()
    {
      IsPrivatechat() && minEvent.subType == "group"
    }

    /** `is_private_friend` */
    function IsPrivateFriend(): (r: bool)
      ensures r ==> IsPrivatechat() && !IsPrivateGroup()
    {
      IsPrivatechat() && minEvent.subType == "friend"
    }

    /** `is_anonymous`, whatever the message type. */
    function IsAnonymous(): (r: bool)
      ensures r ==> !IsPrivateFriend() && !IsPrivateGroup()
    {
      minEvent.subType == "anonymous"
    }

    /** `is_owner`: the member info says exactly "owner". */
    function IsOwner(): (r: bool)
      ensures r ==> sender.Some? && "role" in sender.value
    {
      sender.Some? && DictGet(sender.value, "role") == Some("owner")
    }

    /** `is_admin`: the member info says exactly "admin"; an owner is not an admin. */
    function IsAdmin(): (r: bool)
      ensures r ==> sender.Some? && "role" in sender.value
      ensures r ==> !IsOwner()
    {
      sender.Some? && DictGet(sender.value, "role") == Some("admin")
    }

    /** `from_group(group_id)`: Python's `==` between an optional id and an int. */
    function FromGroup(groupId: int): (r: bool)
      ensures r ==> minEvent.groupId.Some?
      ensures r <==> minEvent.groupId == Some(groupId)
    {
      match minEvent.groupId
      case None => false
      case Some(id) => id == groupId
    }

    /** `sent_by(sender_id)` */
    predicate SentBy(senderId: int)
    {
      minEvent.senderId == senderId
    }
  }

  /** `SenderRoles.create`: look the sender up and wrap event and answer in a snapshot. */
  function Create(bot: Bot, e: MinEvent): (r: Result<SenderRoles, PyError>)
    ensures r.Ok? <==> GetMemberInfo(bot, e).Ok?
    ensures r.Ok? ==> r.value.bot == bot && r.value.minEvent == e
                      && r.value.sender == GetMemberInfo(bot, e).value
    ensures r.Err? ==> r.error == GetMemberInfo(bot, e).error
  {
    match GetMemberInfo(bot, e)
    case Ok(senderInfo) => Ok(SenderRoles(bot, e, senderInfo))
    case Err(err) => Err(err)
  }

  /**
    What a policy hands back: a boolean at once, or an awaitable whose
    awaited outcome (a boolean or a raised error) is `awaited`.
   */
  datatype PolicyResult = Immediate(verdict: bool) | Pending(awaited: Result<bool, PyError>)

  /** `RoleCheckPolicy`; a policy may also raise before returning. */
  type RoleCheckPolicy = SenderRoles -> Result<PolicyResult, PyError>

  /**
    `SenderRoles.test`: build the snapshot, apply the policy, await its result
    if it is awaitable. Every boolean it returns is the policy's own.
   */
  function Test(bot: Bot, policy: RoleCheckPolicy, e: MinEvent): (r: Result<bool, PyError>)
    ensures Create(bot, e).Err? ==> r == Err(Create(bot, e).error)
    ensures Create(bot, e).Ok? ==>
              match policy(Create(bot, e).value)
              case Err(err) => r == Err(err)
              case Ok(Immediate(b)) => r == Ok(b)
              case Ok(Pending(awaited)) => r == awaited
    ensures r.Ok? ==> Create(bot, e).Ok?
                      && (policy(Create(bot, e).value) == Ok(Immediate(r.value))
                          || policy(Create(bot, e).value) == Ok(Pending(Ok(r.value))))
  {
    match Create(bot, e)
    case Err(err) => Err(err)
    case Ok(senderRoles) =>
      match policy(senderRoles)
      case Err(err) => Err(err)
      case Ok(Immediate(b)) => Ok(b)
      case Ok(Pending(awaited)) => awaited
  }
}
