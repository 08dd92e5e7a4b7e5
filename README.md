# NoneBot experimental permission: `SenderRoles`

This project models NoneBot's experimental permission module. `SenderRoles` is a read-only
snapshot of one chat event. It holds the bot, the minimal event record (message type,
sub-type, optional group id, user id, sender id, bot id) and the sender's member info
fetched from the CQHTTP platform, or nothing. Policies are caller-supplied functions from a
snapshot to a boolean, which may also be awaitable. They read the snapshot through its
predicates: `is_groupchat`, `is_privatechat`, `is_discusschat`, `is_anonymous`,
`is_private_friend`, `is_private_group`, `is_admin`, `is_owner`, `from_group` and `sent_by`.

- `wrappers.dfy`: `Option` and `Result`.
- `permission.dfy` (module `Permission`): the event and member-info records, the bot as one
  API call, `_get_member_info` (`GetMemberInfo`), the snapshot and its predicates,
  `create` (`Create`) and `test` (`Test`).
- `permission_properties.dfy` (module `PermissionProperties`): lemmas relating these
  operations, and worked scenarios.

Modelling choices:
- The bot's `get_group_member_info` call is a total function from the request to an outcome.
  The outcome is either the returned dictionary or a raised error.
- Only `CQHttpError` is turned into `None`. Any other error propagates out of `create` and
  `test`, as the `except CQHttpError` clause implies.
- A policy returns `Immediate(b)`, `Pending(outcome)` or raises. `outcome` is what awaiting
  the awaitable yields: a boolean or a raised error. This replaces the runtime
  `isinstance(res, Awaitable)` test.
- The member lookup is made for every event, whatever its message type, because `create`
  calls `_get_member_info` unconditionally. The model does not assume that private and
  discuss events skip the platform; `LookupIsUnconditional` exhibits a private event whose
  snapshot has an admin role.
- `message_type` and `sub_type` stay strings, as the code compares them with string literals.
  A message type other than the three known ones makes all three chat predicates false.

## Model

| member | source | states |
|---|---|---|
| `Permission.GetMemberInfo` | nonebot/experimental/permission.py:91-101 | a returned dictionary is passed on unchanged; the answer is `None` exactly when the call raised a `CQHttpError`; any other error propagates unchanged |
| `Permission.SenderRoles.IsGroupchat` | nonebot/experimental/permission.py:52-54 | a group chat is neither a private nor a discuss chat |
| `Permission.SenderRoles.IsAnonymous` | nonebot/experimental/permission.py:56-58 | an anonymous sender is never a private friend or private group sender |
| `Permission.SenderRoles.IsAdmin` | nonebot/experimental/permission.py:60-62 | false when the member info is absent or has no `role` key; an admin is never an owner |
| `Permission.SenderRoles.IsOwner` | nonebot/experimental/permission.py:64-66 | false when the member info is absent or has no `role` key |
| `Permission.SenderRoles.IsPrivatechat` | nonebot/experimental/permission.py:68-70 | a private chat has neither the group nor the discuss message type |
| `Permission.SenderRoles.IsPrivateFriend` | nonebot/experimental/permission.py:72-74 | implies a private chat, and excludes a private group chat |
| `Permission.SenderRoles.IsPrivateGroup` | nonebot/experimental/permission.py:76-78 | implies a private chat |
| `Permission.SenderRoles.IsDiscusschat` | nonebot/experimental/permission.py:80-82 | a discuss chat is neither a private nor a group chat |
| `Permission.SenderRoles.FromGroup` | nonebot/experimental/permission.py:84-85 | true iff the event has a group id and it equals the argument; false without a group |
| `PermissionProperties.SentByComparesSenderId` | nonebot/experimental/permission.py:87-88 | `sent_by(x)` holds iff `x` is the event's sender id, for every integer; the user id can agree with `x` while `sent_by(x)` fails, and the reverse |
| `Permission.Create` | nonebot/experimental/permission.py:30-35 | succeeds iff the lookup does; the snapshot holds the bot, the event and exactly the lookup's answer; a propagated error is the lookup's |
| `Permission.Test` | nonebot/experimental/permission.py:37-48 | a creation error or a policy error is returned unchanged; otherwise the result is the policy's immediate boolean or its awaited outcome; every boolean returned is the policy's own, with no default |
| `PermissionProperties.LookupIsUnconditional` | nonebot/experimental/permission.py:33-35 | a private event without a group still goes through the lookup, and can carry an admin role |
| `PermissionProperties.LookupDependsOnlyOnIds` | nonebot/experimental/permission.py:94-99 | two events with the same bot id, group id and user id send the same member-info request; for a given platform answer function they get the same lookup answer and the same role predicates |
| `PermissionProperties.GroupConsistent` | nonebot/experimental/permission.py:19-24 | the group the member info is requested for is exactly the group `from_group` matches, so one group number is used throughout |
| `PermissionProperties.CQHttpErrorMeansNoRole` | nonebot/experimental/permission.py:100-101 | after a `CQHttpError` the snapshot is built with no member info, neither role holds, and `test` passes an immediate policy verdict through |
| `PermissionProperties.RoleTiers` | nonebot/experimental/permission.py:60-66 | role "owner" gives owner only, "admin" gives admin only, any other or missing role gives neither |
| `PermissionProperties.ScenarioGroupAdmin` | nonebot/experimental/permission.py:44-48 | a group admin passes the policy `is_groupchat and is_admin` |
| `PermissionProperties.ScenarioLookupFailed` | nonebot/experimental/permission.py:94-101 | the same policy gives `False` when the lookup raised a `CQHttpError` |
| `PermissionProperties.ScenarioPrivateFriend` | nonebot/experimental/permission.py:72-78 | a private message from a friend is a private-friend chat, not a private-group chat and not a group chat |
| `PermissionProperties.ScenarioPendingGroupMatch` | nonebot/experimental/permission.py:46-47 | an awaitable policy `is_owner or from_group(100)` passes on the group match alone when the member info is absent |

## Left out

- The `@cached(ttl=2 * 60)` decorator (line 91): its expiry and keying live in the `aiocache` library, which is not part of this model. Every lookup is modelled as a fresh call to the platform.
- The network call `get_group_member_info`: it is a given function from request to outcome. Its transport, timing and any remote caching are not modelled.
- `_get_minevent_from_event` and `_MinEvent` come from `nonebot/permission.py`, which is not part of this model. `MinEvent` is taken as an input record, so `create` and `test` take it in place of the CQHTTP event.
- Async scheduling: awaiting a coroutine is modelled by its outcome only. There is no concurrency to verify.
- Member-info values are modelled as strings. A non-string `role` value compares unequal to both role names in the code, which the model treats as any other unrecognised role.
- PermissionProperties.LookupDependsOnlyOnIds: equal answers for equal requests rest on the model's platform being a fixed function. The real platform is live and the real cache is keyed on the whole `(bot, min_event)` pair, so only the equal request is guaranteed by the code.
- Dictionary contents other than `role` are carried but never read.
- `test` returns whatever a non-awaitable policy result is. The model types policy verdicts as booleans, as `RoleCheckPolicy` declares.
- `SenderRoles.SentBy` carries no contract of its own; its property is stated in `SentByComparesSenderId`.
