/** The chat service: the handshake registry `connectingUsers`, the online
    cache of group members `connectionsByGroupId`, the provisioning routes,
    and the group router steps `GroupLeave`, `AddUserToGroup` and the
    `Notify*` helpers. The persisted `user`, `userGroup`,
    `userGroupInvitation` and `group` tables are sequences of rows held by
    the same object; each handler is one atomic step and returns the
    messages it sends, in sending order. */
module ChatService {
  import opened Common
  import Dict

  /** What `POST /chat/add-user` registers and answers with. */
  datatype ClientData = ClientData(userId: string, name: string, connectionKey: string)

  /** A live connection together with its `userData`. */
  datatype Client = Client(sessionId: ConnId, userId: string, name: string)

  /** A row of the `user` table (`userId` is its unique key). */
  datatype UserRow = UserRow(userId: string, name: string, iconUrl: string)

  /** A row of the `userGroup` table or of the `userGroupInvitation` table,
      which have the same two columns. */
  datatype UserGroupRow = UserGroupRow(userId: string, groupId: string)

  /** A row of the `group` table. */
  datatype GroupRow = GroupRow(groupId: string, title: string, iconUrl: string)

  datatype Payload =
    | ListOfGroups(groups: seq<GroupRow>)             // "group-list"
    | ListOfInvitations(groups: seq<GroupRow>)        // "group-invitation-list"
    | ListOfUsers(groupId: string, users: seq<UserRow>) // "group-user-list"
    | Joined(groupId: string, userId: string, name: string) // "group-join"
    | Left(groupId: string)                           // "group-leave"

  /** One message put on a connection: recipient, topic, payload. */
  datatype Send = Send(to: ConnId, topic: string, payload: Payload)

  function UserRowIds(users: seq<UserRow>): seq<string> {
    seq(|users|, i requires 0 <= i < |users| => users[i].userId)
  }

  /** The `user` row write of add-user: `update` the row with this `userId`
      if there is one, `create` it otherwise. */
  function Upsert(users: seq<UserRow>, row: UserRow): seq<UserRow> {
    var i := IndexOf(UserRowIds(users), row.userId);
    if i >= 0 then users[i := row] else users + [row]
  }

  /** After the write exactly one row carries the `userId`, and it holds the
      new name and icon; every other row is untouched. */
  lemma UpsertSpec(users: seq<UserRow>, row: UserRow)
    requires NoDup(UserRowIds(users))
    ensures var r := Upsert(users, row);
      && NoDup(UserRowIds(r))
      && row in r
      && (forall u :: u in r && u.userId == row.userId ==> u == row)
      && (forall u: UserRow :: u.userId != row.userId ==> (u in r <==> u in users))
  {
    var r := Upsert(users, row);
    var i := IndexOf(UserRowIds(users), row.userId);
    if i >= 0 {
      assert UserRowIds(r) == UserRowIds(users)[i := row.userId];
      assert r[i] == row;
      forall u | u in r && u.userId == row.userId
        ensures u == row
      {
        var k :| 0 <= k < |r| && r[k] == u;
        assert UserRowIds(users)[k] == users[k].userId;
        IndexOfUnique(UserRowIds(users), k);
        assert UserRowIds(users)[k] == row.userId;
      }
      forall u: UserRow | u.userId != row.userId
        ensures u in r <==> u in users
      {
        if u in users {
          var k :| 0 <= k < |users| && users[k] == u;
          assert k != i && r[k] == u;
        }
        if u in r {
          var k :| 0 <= k < |r| && r[k] == u;
          assert k != i && users[k] == u;
        }
      }
    } else {
      assert UserRowIds(r) == UserRowIds(users) + [row.userId];
      forall u | u in users
        ensures u.userId != row.userId
      {
        var k :| 0 <= k < |users| && users[k] == u;
        assert UserRowIds(users)[k] == u.userId;
      }
    }
  }

  /** `deleteMany where { userId, groupId }`: every copy of `row` goes,
      every other row stays, order kept. */
  function RowsWithout(rows: seq<UserGroupRow>, row: UserGroupRow): (r: seq<UserGroupRow>)
    ensures forall x :: multiset(r)[x] == if x == row then 0 else multiset(rows)[x]
  {
    if rows == [] then []
    else
      assert rows == [rows[0]] + rows[1..];
      (if rows[0] == row then [] else [rows[0]]) + RowsWithout(rows[1..], row)
  }

  /** Delete-then-create leaves exactly one copy of the row and every other
      row as it was. */
  lemma ReplaceRowSpec(rows: seq<UserGroupRow>, row: UserGroupRow)
    ensures var r := RowsWithout(rows, row) + [row];
      && multiset(r)[row] == 1
      && forall x :: x != row ==> multiset(r)[x] == multiset(rows)[x]
  {
    var w := RowsWithout(rows, row);
    assert multiset(w + [row]) == multiset(w) + multiset{row};
  }

  /** `findMany where { userId }`. */
  function RowsOfUser(rows: seq<UserGroupRow>, userId: string): (r: seq<UserGroupRow>)
    ensures forall x :: x in r <==> x in rows && x.userId == userId
  {
    if rows == [] then []
    else
      assert rows == [rows[0]] + rows[1..];
      (if rows[0].userId == userId then [rows[0]] else []) + RowsOfUser(rows[1..], userId)
  }

  /** `findMany where { groupId }`. */
  function RowsOfGroup(rows: seq<UserGroupRow>, groupId: string): (r: seq<UserGroupRow>)
    ensures forall x :: x in r <==> x in rows && x.groupId == groupId
  {
    if rows == [] then []
    else
      assert rows == [rows[0]] + rows[1..];
      (if rows[0].groupId == groupId then [rows[0]] else []) + RowsOfGroup(rows[1..], groupId)
  }

  function GroupIdsOf(rows: seq<UserGroupRow>): seq<string> {
    seq(|rows|, i requires 0 <= i < |rows| => rows[i].groupId)
  }

  function UserIdsOf(rows: seq<UserGroupRow>): seq<string> {
    seq(|rows|, i requires 0 <= i < |rows| => rows[i].userId)
  }

  /** `group.findMany where { groupId: { in: ids } }`, in store order. */
  function GroupsIn(groups: seq<GroupRow>, ids: seq<string>): (r: seq<GroupRow>)
    ensures forall g :: g in r <==> g in groups && g.groupId in ids
  {
    if groups == [] then []
    else
      assert groups == [groups[0]] + groups[1..];
      (if groups[0].groupId in ids then [groups[0]] else []) + GroupsIn(groups[1..], ids)
  }

  /** `user.findMany where { userId: { in: ids } }`, in store order. */
  function UsersIn(users: seq<UserRow>, ids: seq<string>): (r: seq<UserRow>)
    ensures forall u :: u in r <==> u in users && u.userId in ids
  {
    if users == [] then []
    else
      assert users == [users[0]] + users[1..];
      (if users[0].userId in ids then [users[0]] else []) + UsersIn(users[1..], ids)
  }

  /** The groups a user is listed with in `rows` (memberships or invitations). */
  function GroupsOfUser(groups: seq<GroupRow>, rows: seq<UserGroupRow>, userId: string): seq<GroupRow> {
    GroupsIn(groups, GroupIdsOf(RowsOfUser(rows, userId)))
  }

  /** The users `rows` lists as members of a group. */
  function UsersOfGroup(users: seq<UserRow>, rows: seq<UserGroupRow>, groupId: string): seq<UserRow> {
    UsersIn(users, UserIdsOf(RowsOfGroup(rows, groupId)))
  }

  /** A group is in a user's list exactly when a row pairs the two. */
  lemma GroupsOfUserSpec(groups: seq<GroupRow>, rows: seq<UserGroupRow>, userId: string)
    ensures forall g :: g in GroupsOfUser(groups, rows, userId) <==>
      g in groups && UserGroupRow(userId, g.groupId) in rows
  {
    var mine := RowsOfUser(rows, userId);
    forall g | g in groups && UserGroupRow(userId, g.groupId) in rows
      ensures g.groupId in GroupIdsOf(mine)
    {
      var i := IndexOf(mine, UserGroupRow(userId, g.groupId));
      assert GroupIdsOf(mine)[i] == g.groupId;
    }
    forall g: GroupRow | g.groupId in GroupIdsOf(mine)
      ensures UserGroupRow(userId, g.groupId) in rows
    {
      var i :| 0 <= i < |mine| && GroupIdsOf(mine)[i] == g.groupId;
      assert mine[i] in mine;
    }
  }

  /** A user is in a group's member list exactly when a row pairs the two. */
  lemma UsersOfGroupSpec(users: seq<UserRow>, rows: seq<UserGroupRow>, groupId: string)
    ensures forall u :: u in UsersOfGroup(users, rows, groupId) <==>
      u in users && UserGroupRow(u.userId, groupId) in rows
  {
    var members := RowsOfGroup(rows, groupId);
    forall u | u in users && UserGroupRow(u.userId, groupId) in rows
      ensures u.userId in UserIdsOf(members)
    {
      var i := IndexOf(members, UserGroupRow(u.userId, groupId));
      assert UserIdsOf(members)[i] == u.userId;
    }
    forall u: UserRow | u.userId in UserIdsOf(members)
      ensures UserGroupRow(u.userId, groupId) in rows
    {
      var i :| 0 <= i < |members| && UserIdsOf(members)[i] == u.userId;
      assert members[i] in members;
    }
  }

  /** `group-leave` to each client, in enumeration order. */
  function LeaveFanOut(clients: seq<Client>, groupId: string): seq<Send> {
    seq(|clients|, i requires 0 <= i < |clients| => Send(clients[i].sessionId, "group-leave", Left(groupId)))
  }

  /** `group-join` to each client, carrying that client's own `userData`. */
  function JoinFanOut(clients: seq<Client>, groupId: string): seq<Send> {
    seq(|clients|, i requires 0 <= i < |clients| =>
      Send(clients[i].sessionId, "group-join", Joined(groupId, clients[i].userId, clients[i].name)))
  }

  /** The `for ... in` loop of GroupLeave over the remaining cached members. */
  method SendLeave(targets: Dict.Dict<string, Client>, groupId: string) returns (sent: seq<Send>)
    ensures sent == LeaveFanOut(Dict.Values(targets), groupId)
  {
    sent := [];
    for i := 0 to |targets|
      invariant sent == LeaveFanOut(Dict.Values(targets[..i]), groupId)
    {
      sent := sent + [Send(targets[i].1.sessionId, "group-leave", Left(groupId))];
    }
    assert targets[..|targets|] == targets;
  }

  /** The `for ... in` loop of AddUserToGroup over the cached members. */
  method SendJoin(targets: Dict.Dict<string, Client>, groupId: string) returns (sent: seq<Send>)
    ensures sent == JoinFanOut(Dict.Values(targets), groupId)
  {
    sent := [];
    for i := 0 to |targets|
      invariant sent == JoinFanOut(Dict.Values(targets[..i]), groupId)
    {
      var target := targets[i].1;
      sent := sent + [Send(target.sessionId, "group-join", Joined(groupId, target.userId, target.name))];
    }
    assert targets[..|targets|] == targets;
  }

  /** The `forEach(element => groupIds.push(element.groupId))` loop. */
  method CollectGroupIds(list: seq<UserGroupRow>) returns (groupIds: seq<string>)
    ensures groupIds == GroupIdsOf(list)
  {
    groupIds := [];
    for i := 0 to |list|
      invariant groupIds == GroupIdsOf(list[..i])
    {
      groupIds := groupIds + [list[i].groupId];
    }
    assert list[..|list|] == list;
  }

  /** The `forEach(element => userIds.push(element.userId))` loop. */
  method CollectUserIds(list: seq<UserGroupRow>) returns (userIds: seq<string>)
    ensures userIds == UserIdsOf(list)
  {
    userIds := [];
    for i := 0 to |list|
      invariant userIds == UserIdsOf(list[..i])
    {
      userIds := userIds + [list[i].userId];
    }
    assert list[..|list|] == list;
  }

  class ChatService {
    /** `JSON.parse(process.env.SECRET_KEYS || "[]")`. */
    const secretKeys: seq<string>
    var connectingUsers: map<string, ClientData>
    /** Live connections by user id; no step modelled here writes it. */
    var connections: map<string, Client>
    var connectionsByGroupId: map<string, Dict.Dict<string, Client>>
    var users: seq<UserRow>
    var userGroups: seq<UserGroupRow>
    var invitations: seq<UserGroupRow>
    var groups: seq<GroupRow>

    ghost predicate Valid()
      reads this
    {
      && NoDup(UserRowIds(users))
      && forall g :: g in connectionsByGroupId ==> Dict.Wf(connectionsByGroupId[g])
    }

    constructor (secretKeys: seq<string>, connections: map<string, Client>, users: seq<UserRow>,
                 userGroups: seq<UserGroupRow>, invitations: seq<UserGroupRow>, groups: seq<GroupRow>)
      requires NoDup(UserRowIds(users))
      ensures Valid()
      ensures this.secretKeys == secretKeys && this.connections == connections
      ensures this.users == users && this.userGroups == userGroups
      ensures this.invitations == invitations && this.groups == groups
      ensures connectingUsers == map[] && connectionsByGroupId == map[]
    {
      this.secretKeys, this.connections := secretKeys, connections;
      this.users, this.userGroups, this.invitations, this.groups := users, userGroups, invitations, groups;
      connectingUsers, connectionsByGroupId := map[], map[];
    }

    /** `validateSystem`: the header's token must be one of the secret keys. */
    function ValidateSystem(authorization: Option<string>): (g: Gate)
      reads this
      ensures g == Next <==> Present(authorization) && BearerToken(authorization.value) in secretKeys
      ensures g != Next ==> g == Reject(400)
    {
      BearerGate(authorization, secretKeys)
    }

    /** `user` is in the online cache of the group. */
    predicate InCache(groupId: string, userId: string)
      reads this
    {
      groupId in connectionsByGroupId && Dict.HasKey(connectionsByGroupId[groupId], userId)
    }

    /** The `group-list` message NotifyGroup sends. */
    function GroupListMessage(userId: string): seq<Send>
      reads this
    {
      if userId in connections
      then [Send(connections[userId].sessionId, "group-list", ListOfGroups(GroupsOfUser(groups, userGroups, userId)))]
      else []
    }

    /** The `group-invitation-list` message NotifyGroupInvitation sends. */
    function InvitationListMessage(userId: string): seq<Send>
      reads this
    {
      if userId in connections
      then [Send(connections[userId].sessionId, "group-invitation-list",
                 ListOfInvitations(GroupsOfUser(groups, invitations, userId)))]
      else []
    }

    /** The `group-user-list` message NotifyGroupUser sends. */
    function GroupUserListMessage(userId: string, groupId: string): seq<Send>
      reads this
    {
      if userId in connections
      then [Send(connections[userId].sessionId, "group-user-list",
                 ListOfUsers(groupId, UsersOfGroup(users, userGroups, groupId)))]
      else []
    }

    /** `POST /chat/add-user`: overwrites the user's handshake record with a
        fresh `connectionKey` (the `nanoid(6)` value), writes the `user` row,
        and answers with the record. */
    method AddUserRoute(authorization: Option<string>, userId: string, name: string, iconUrl: string,
                        connectionKey: string)
      returns (status: int, body: Option<ClientData>)
      requires Valid()
      modifies this`connectingUsers, this`users
      ensures Valid()
      ensures old(ValidateSystem(authorization)) != Next ==>
        status == 400 && body == None
        && connectingUsers == old(connectingUsers) && users == old(users)
      ensures old(ValidateSystem(authorization)) == Next ==>
        && status == 200
        && body == Some(ClientData(userId, name, connectionKey))
        && connectingUsers == old(connectingUsers)[userId := body.value]
        && users == Upsert(old(users), UserRow(userId, name, iconUrl))
        && (forall u :: u in users && u.userId == userId <==> u == UserRow(userId, name, iconUrl))
        && (forall u: UserRow :: u.userId != userId ==> (u in users <==> u in old(users)))
    {
      var gate := ValidateSystem(authorization);
      if gate != Next {
        return gate.status, None;
      }
      var connectingUser := ClientData(userId, name, connectionKey);
      connectingUsers := connectingUsers[userId := connectingUser];
      UpsertSpec(users, UserRow(userId, name, iconUrl));
      users := Upsert(users, UserRow(userId, name, iconUrl));
      status, body := 200, Some(connectingUser);
    }

    /** `POST /chat/remove-user`: forgets the user's handshake record. */
    method RemoveUserRoute(authorization: Option<string>, userId: string) returns (status: int)
      requires Valid()
      modifies this`connectingUsers
      ensures Valid()
      ensures old(ValidateSystem(authorization)) != Next ==>
        status == 400 && connectingUsers == old(connectingUsers)
      ensures old(ValidateSystem(authorization)) == Next ==>
        status == 200 && connectingUsers == old(connectingUsers) - {userId}
    {
      var gate := ValidateSystem(authorization);
      if gate != Next {
        return gate.status;
      }
      connectingUsers := connectingUsers - {userId};
      status := 200;
    }

    /** `NotifyGroup` (run bound): sends the user the groups it belongs to. */
    method NotifyGroup(userId: string) returns (sent: seq<Send>)
      ensures sent == GroupListMessage(userId)
    {
      var list := RowsOfUser(userGroups, userId);
      var groupIds := CollectGroupIds(list);
      var groupList := GroupsIn(groups, groupIds);
      sent := [];
      if userId in connections {
        sent := [Send(connections[userId].sessionId, "group-list", ListOfGroups(groupList))];
      }
    }

    /** `NotifyGroupInvitation` (run bound): sends the user the groups that
        invited it. */
    method NotifyGroupInvitation(userId: string) returns (sent: seq<Send>)
      ensures sent == InvitationListMessage(userId)
    {
      var list := RowsOfUser(invitations, userId);
      var groupIds := CollectGroupIds(list);
      var groupList := GroupsIn(groups, groupIds);
      sent := [];
      if userId in connections {
        sent := [Send(connections[userId].sessionId, "group-invitation-list", ListOfInvitations(groupList))];
      }
    }

    /** `NotifyGroupUser`: sends the user the member list of a group. */
    method NotifyGroupUser(userId: string, groupId: string) returns (sent: seq<Send>)
      ensures sent == GroupUserListMessage(userId, groupId)
    {
      var list := RowsOfGroup(userGroups, groupId);
      var userIds := CollectUserIds(list);
      var userList := UsersIn(users, userIds);
      sent := [];
      if userId in connections {
        sent := [Send(connections[userId].sessionId, "group-user-list", ListOfUsers(groupId, userList))];
      }
    }

    /** `GroupLeave` as written: `NotifyGroup` is called without its
        receiver, so once the user is found in the group's cache the call
        throws and the handler's promise rejects before the user is taken
        out of the cache or anyone is told. */
    method GroupLeaveAsWritten(groupId: Option<string>, userId: Option<string>)
      returns (sent: seq<Send>, done: Completion)
      requires Valid()
      modifies this`userGroups
      ensures Valid()
      ensures sent == []
      ensures !Present(groupId) || !Present(userId) ==> done == Resolved && userGroups == old(userGroups)
      ensures Present(groupId) && Present(userId) ==>
        && userGroups == RowsWithout(old(userGroups), UserGroupRow(userId.value, groupId.value))
        && (done == Rejected <==> InCache(groupId.value, userId.value))
    {
      sent := [];
      if !Present(groupId) || !Present(userId) {
        return sent, Resolved;
      }
      userGroups := RowsWithout(userGroups, UserGroupRow(userId.value, groupId.value));
      if !InCache(groupId.value, userId.value) {
        return sent, Resolved;
      }
      // `await NotifyGroup(userId)`: `this` is undefined inside it
      done := Rejected;
    }

    /** `GroupLeave` with `NotifyGroup` run bound: drops the persisted
        membership, and if the user is in the group's cache, sends it its
        group list, takes it out of the cache and tells every remaining
        cached member. */
    method GroupLeave(groupId: Option<string>, userId: Option<string>)
      returns (sent: seq<Send>, done: Completion)
      requires Valid()
      modifies this`userGroups, this`connectionsByGroupId
      ensures Valid()
      ensures done == Resolved
      ensures !Present(groupId) || !Present(userId) ==>
        sent == [] && userGroups == old(userGroups) && connectionsByGroupId == old(connectionsByGroupId)
      ensures Present(groupId) && Present(userId) ==>
        userGroups == RowsWithout(old(userGroups), UserGroupRow(userId.value, groupId.value))
      ensures Present(groupId) && Present(userId) && !old(InCache(groupId.value, userId.value)) ==>
        sent == [] && connectionsByGroupId == old(connectionsByGroupId)
      ensures Present(groupId) && Present(userId) && old(InCache(groupId.value, userId.value)) ==>
        var g, u := groupId.value, userId.value;
        && connectionsByGroupId == old(connectionsByGroupId)[g := Dict.Remove(old(connectionsByGroupId)[g], u)]
        && !Dict.HasKey(connectionsByGroupId[g], u)
        && sent == GroupListMessage(u) + LeaveFanOut(Dict.Values(connectionsByGroupId[g]), g)
    {
      sent := [];
      done := Resolved;
      if !Present(groupId) || !Present(userId) {
        return;
      }
      var g, u := groupId.value, userId.value;
      userGroups := RowsWithout(userGroups, UserGroupRow(u, g));
      if !(g in connectionsByGroupId) || !Dict.HasKey(connectionsByGroupId[g], u) {
        return;
      }
      var notified := NotifyGroup(u);
      Dict.RemoveSpec(connectionsByGroupId[g], u);
      connectionsByGroupId := connectionsByGroupId[g := Dict.Remove(connectionsByGroupId[g], u)];
      var left := SendLeave(connectionsByGroupId[g], g);
      sent := notified + left;
    }

    /** The part of `AddUserToGroup` before its two notifications: replace
        the persisted membership, cache the user if connected, and send
        `group-join` to every cached member of the group. */
    method JoinGroup(userId: string, groupId: string) returns (sent: seq<Send>)
      requires Valid()
      modifies this`userGroups, this`connectionsByGroupId
      ensures Valid()
      ensures userGroups == RowsWithout(old(userGroups), UserGroupRow(userId, groupId)) + [UserGroupRow(userId, groupId)]
      ensures multiset(userGroups)[UserGroupRow(userId, groupId)] == 1
      ensures forall r :: r != UserGroupRow(userId, groupId) ==> multiset(userGroups)[r] == multiset(old(userGroups))[r]
      ensures var cache := if groupId in old(connectionsByGroupId) then old(connectionsByGroupId)[groupId] else [];
        connectionsByGroupId == old(connectionsByGroupId)[groupId :=
          if userId in connections then Dict.Put(cache, userId, connections[userId]) else cache]
      ensures userId in connections ==> InCache(groupId, userId)
      ensures sent == JoinFanOut(Dict.Values(connectionsByGroupId[groupId]), groupId)
    {
      ReplaceMembership(userId, groupId);
      CacheMember(userId, groupId);
      sent := SendJoin(connectionsByGroupId[groupId], groupId);
    }

    /** `deleteMany` then `create` of the membership row. */
    method ReplaceMembership(userId: string, groupId: string)
      requires Valid()
      modifies this`userGroups
      ensures Valid()
      ensures userGroups == RowsWithout(old(userGroups), UserGroupRow(userId, groupId)) + [UserGroupRow(userId, groupId)]
      ensures multiset(userGroups)[UserGroupRow(userId, groupId)] == 1
      ensures forall r :: r != UserGroupRow(userId, groupId) ==> multiset(userGroups)[r] == multiset(old(userGroups))[r]
    {
      var row := UserGroupRow(userId, groupId);
      ReplaceRowSpec(userGroups, row);
      userGroups := RowsWithout(userGroups, row) + [row];
    }

    /** Creates the group's cache entry if missing and, if the user is
        connected, caches its connection there. */
    method CacheMember(userId: string, groupId: string)
      requires Valid()
      modifies this`connectionsByGroupId
      ensures Valid()
      ensures var cache := if groupId in old(connectionsByGroupId) then old(connectionsByGroupId)[groupId] else [];
        connectionsByGroupId == old(connectionsByGroupId)[groupId :=
          if userId in connections then Dict.Put(cache, userId, connections[userId]) else cache]
      ensures userId in connections ==> InCache(groupId, userId)
    {
      var cache := if groupId in connectionsByGroupId then connectionsByGroupId[groupId] else [];
      if userId in connections {
        Dict.PutSpec(cache, userId, connections[userId]);
        cache := Dict.Put(cache, userId, connections[userId]);
      }
      connectionsByGroupId := connectionsByGroupId[groupId := cache];
    }

    /** `AddUserToGroup` as written: `NotifyGroupInvitation` is called
        without its receiver, so after the fan-out the handler's promise
        rejects and neither the invitation list nor the group list is sent. */
    method AddUserToGroupAsWritten(userId: string, groupId: string) returns (sent: seq<Send>, done: Completion)
      requires Valid()
      modifies this`userGroups, this`connectionsByGroupId
      ensures Valid()
      ensures done == Rejected
      ensures userGroups == RowsWithout(old(userGroups), UserGroupRow(userId, groupId)) + [UserGroupRow(userId, groupId)]
      ensures var cache := if groupId in old(connectionsByGroupId) then old(connectionsByGroupId)[groupId] else [];
        connectionsByGroupId == old(connectionsByGroupId)[groupId :=
          if userId in connections then Dict.Put(cache, userId, connections[userId]) else cache]
      ensures sent == JoinFanOut(Dict.Values(connectionsByGroupId[groupId]), groupId)
    {
      sent := JoinGroup(userId, groupId);
      // `await NotifyGroupInvitation(userId)`: `this` is undefined inside it
      done := Rejected;
    }

    /** `AddUserToGroup` with its notifications run bound: after the
        fan-out, the user is sent its invitation list and its group list. */
    method AddUserToGroup(userId: string, groupId: string) returns (sent: seq<Send>, done: Completion)
      requires Valid()
      modifies this`userGroups, this`connectionsByGroupId
      ensures Valid()
      ensures done == Resolved
      ensures userGroups == RowsWithout(old(userGroups), UserGroupRow(userId, groupId)) + [UserGroupRow(userId, groupId)]
      ensures multiset(userGroups)[UserGroupRow(userId, groupId)] == 1
      ensures var cache := if groupId in old(connectionsByGroupId) then old(connectionsByGroupId)[groupId] else [];
        connectionsByGroupId == old(connectionsByGroupId)[groupId :=
          if userId in connections then Dict.Put(cache, userId, connections[userId]) else cache]
      ensures sent == JoinFanOut(Dict.Values(connectionsByGroupId[groupId]), groupId)
                      + InvitationListMessage(userId) + GroupListMessage(userId)
    {
      var joined := JoinGroup(userId, groupId);
      var invitationList := NotifyGroupInvitation(userId);
      var groupList := NotifyGroup(userId);
      sent := joined + invitationList + groupList;
      done := Resolved;
    }
  }
}
