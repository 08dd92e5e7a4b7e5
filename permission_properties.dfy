/**
  Properties of the experimental permission model that relate several of its
  operations, and worked scenarios of its use.
 */
module PermissionProperties {
  import opened Wrappers
  import opened Permission

  /** A bot whose member-info call always answers with `info`. */
  function AnsweringBot(info: MemberInfo): Bot
  {
    Bot(q => Returned(info))
  }

  /** A bot whose member-info call always fails with a CQHTTP error. */
  function FailingBot(): Bot
  {
    Bot(q => Raised(CQHttpError("network")))
  }

  /**
    `sent_by` compares the event's `sender_id` and nothing else: the answer is
    exact for every integer, and `user_id` can agree or disagree with it.
   */
  lemma SentByComparesSenderId(s: SenderRoles, x: int)
    ensures s.SentBy(x) <==> x == s.minEvent.senderId
    ensures exists t: SenderRoles :: t.minEvent.userId == x && !t.SentBy(x)
    ensures exists t: SenderRoles :: t.minEvent.userId != x && t.SentBy(x)
  {
    var other := MinEvent("group", "anonymous", Some(1), x, x + 1, 0);
    var same := MinEvent("group", "anonymous", Some(1), x + 1, x, 0);
    assert !SenderRoles(FailingBot(), other, None).SentBy(x);
    assert SenderRoles(FailingBot(), same, None).SentBy(x);
  }

  /**
    `create` consults the platform for every event, not only group events:
    a private event can end up with an admin role when the platform answers.
   */
  lemma LookupIsUnconditional()
    ensures exists bot: Bot, e: MinEvent ::
              e.messageType == "private" && e.groupId.None?
              && Create(bot, e).Ok? && Create(bot, e).value.IsAdmin()
  {
    var bot := AnsweringBot(map["role" := "admin"]);
    var e := MinEvent("private", "friend", None, 7, 7, 1);
    assert Create(bot, e) == Ok(SenderRoles(bot, e, Some(map["role" := "admin"])));
  }

  /**
    The member-info request carries only the bot's id, the group id and the user
    id, so two events that agree on these send the same request; with a platform
    whose answer to a request is fixed, they also get the same answer.
   */
  lemma LookupDependsOnlyOnIds(bot: Bot, e1: MinEvent, e2: MinEvent)
    requires e1.selfId == e2.selfId && e1.groupId == e2.groupId && e1.userId == e2.userId
    ensures RequestFor(e1) == RequestFor(e2)
    ensures GetMemberInfo(bot, e1) == GetMemberInfo(bot, e2)
    ensures bot.getGroupMemberInfo(RequestFor(e1)).Returned? ==>
              Create(bot, e1).value.IsAdmin() == Create(bot, e2).value.IsAdmin()
              && Create(bot, e1).value.IsOwner() == Create(bot, e2).value.IsOwner()
  {
  }

  /**
    The group a snapshot's member info is asked for is the group `from_group`
    tests: one group number throughout.
   */
  lemma GroupConsistent(bot: Bot, e: MinEvent, g: int)
    requires Create(bot, e).Ok?
    ensures Create(bot, e).value.FromGroup(g) <==> RequestFor(e).groupId == Some(g)
  {
  }

  /**
    When the platform call fails with a CQHTTP error the snapshot still exists,
    it holds no member info, and no role predicate holds; a policy that answers
    at once is then passed through by `test`.
   */
  lemma CQHttpErrorMeansNoRole(bot: Bot, policy: RoleCheckPolicy, e: MinEvent, reason: string, b: bool)
    requires bot.getGroupMemberInfo(RequestFor(e)) == Raised(CQHttpError(reason))
    requires policy(SenderRoles(bot, e, None)) == Ok(Immediate(b))
    ensures Create(bot, e) == Ok(SenderRoles(bot, e, None))
    ensures !Create(bot, e).value.IsAdmin() && !Create(bot, e).value.IsOwner()
    ensures Test(bot, policy, e) == Ok(b)
  {
  }

  /** The role string decides the tier: "owner" only owner, "admin" only admin, anything else neither. */
  lemma RoleTiers(s: SenderRoles)
    requires s.sender.Some?
    ensures DictGet(s.sender.value, "role") == Some("owner") ==> s.IsOwner() && !s.IsAdmin()
    ensures DictGet(s.sender.value, "role") == Some("admin") ==> s.IsAdmin() && !s.IsOwner()
    ensures DictGet(s.sender.value, "role") !in {Some("owner"), Some("admin")} ==>
              !s.IsOwner() && !s.IsAdmin()
  {
  }

  // The scenarios below share one group event: group 100, user 7, bot 1.

  function GroupEvent(): MinEvent
  {
    MinEvent("group", "", Some(100), 7, 7, 1)
  }

  /** A group admin passes the policy `is_groupchat and is_admin`. */
  lemma ScenarioGroupAdmin()
    ensures Test(AnsweringBot(map["role" := "admin"]),
                 (roles: SenderRoles) => Ok(Immediate(roles.IsGroupchat() && roles.IsAdmin())),
                 GroupEvent()) == Ok(true)
  {
  }

  /** The same policy fails for the same event once the lookup has failed. */
  lemma ScenarioLookupFailed()
    ensures Test(FailingBot(),
                 (roles: SenderRoles) => Ok(Immediate(roles.IsGroupchat() && roles.IsAdmin())),
                 GroupEvent()) == Ok(false)
  {
  }

  /** A private message from a friend is a private-friend chat and nothing else. */
  lemma ScenarioPrivateFriend(bot: Bot, userId: int, selfId: int)
    requires Create(bot, MinEvent("private", "friend", None, userId, userId, selfId)).Ok?
    ensures var roles := Create(bot, MinEvent("private", "friend", None, userId, userId, selfId)).value;
            roles.IsPrivateFriend() && !roles.IsPrivateGroup() && !roles.IsGroupchat()
  {
  }

  /** An awaitable policy `is_owner or from_group(100)` passes on the group alone, without member info. */
  lemma ScenarioPendingGroupMatch()
    ensures Test(FailingBot(),
                 (roles: SenderRoles) => Ok(Pending(Ok(roles.IsOwner() || roles.FromGroup(100)))),
                 GroupEvent()) == Ok(true)
  {
  }
}
