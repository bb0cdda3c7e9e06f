/**
 * The group DAO (daos/group-dao.ts) over the `groups` collection
 * (mongoose/messages/group-schema.ts: `groupName` required, `createdOn`
 * defaulting to the creation time).
 *
 * `createGroup` stores the member list as the bare user ids it is given,
 * while `isUserInGroup` asks for an element of the form `{user: uid}`. The
 * two shapes of a member entry are kept apart so that the mismatch shows.
 */
module Groups {
  import opened Store

  /** One element of a group's `users` array: a bare user id, or an object `{user: id}`. */
  datatype MemberEntry = MemberId(id: string) | MemberRef(user: string)

  datatype Group = Group(
    groupName: Option<string>,
    users: Option<seq<MemberEntry>>,
    createdOn: Option<int>)

  /** The schema's validator: `groupName` is required. */
  predicate IsValidGroup(g: Group)
  {
    Present(g.groupName)
  }

  /** `{...group, users: uids}`: the group's own paths, with `users` replaced by the ids as given. */
  function GroupWithUsers(uids: seq<string>, group: Group): (g: Group)
    ensures g.users.Some? && |g.users.value| == |uids|
    ensures forall i | 0 <= i < |uids| :: g.users.value[i] == MemberId(uids[i])
    ensures g.groupName == group.groupName && g.createdOn == group.createdOn
  {
    group.(users := Some(seq(|uids|, i requires 0 <= i < |uids| => MemberId(uids[i]))))
  }

  /** `$elemMatch: {user: uid}` on `users`: some element is an object whose `user` is uid. */
  predicate HasMemberRef(g: Group, uid: string)
  {
    g.users.Some? && MemberRef(uid) in g.users.value
  }

  /** The filter `{_id: gid, users: {$elemMatch: {user: uid}}}`. */
  function MemberOf(uid: string, gid: string): Doc<Group> -> bool
  {
    (g: Doc<Group>) => g.id == gid && HasMemberRef(g.fields, uid)
  }

  /** `isUserInGroup`: the `count()` of that filter. With unique ids it is 0 or 1,
      and 1 exactly when group gid exists and lists `{user: uid}`; an unknown gid
      gives 0, not an error. */
  function IsUserInGroup(groups: seq<Doc<Group>>, uid: string, gid: string): (n: nat)
    ensures UniqueIds(groups) ==> n <= 1
    ensures n > 0 <==> exists g :: g in groups && g.id == gid && HasMemberRef(g.fields, uid)
    ensures gid !in Ids(groups) ==> n == 0
  {
    var r := Where(groups, MemberOf(uid, gid));
    assert UniqueIds(groups) ==> |r| <= 1 by {
      if UniqueIds(groups) {
        AtMostOneWithId(groups, MemberOf(uid, gid), gid);
      }
    }
    assert |r| > 0 ==> r[0] in r;
    assert gid !in Ids(groups) ==> forall g | g in groups :: g.id != gid by {
      forall g | g in groups ensures g.id in Ids(groups) {
        var i :| 0 <= i < |groups| && groups[i] == g;
      }
    }
    |r|
  }

  /** What an `async` arrow function returns: a Promise of the value it will settle to. */
  datatype Promise<T> = Promise(settlesTo: T)

  /** JavaScript truthiness of a Promise: it is an object, and every object is truthy. */
  predicate Truthy<T>(p: Promise<T>)
  {
    match p
    case Promise(_) => true
  }

  /** The predicate `async group => await this.isUserInGroup(uid, group._id) === 1`
      handed to `Array.filter`: it returns a Promise, not a boolean. */
  function AsyncMembershipTest(groups: seq<Doc<Group>>, uid: string): Doc<Group> -> Promise<bool>
  {
    (g: Doc<Group>) => Promise(IsUserInGroup(groups, uid, g.id) == 1)
  }

  /** `findAllUserGroups(uid)`: every group `find()` returns, whatever uid is,
      since `filter` keeps each element whose test result is truthy. */
  function FindAllUserGroups(groups: seq<Doc<Group>>, uid: string): (r: seq<Doc<Group>>)
    ensures r == groups
  {
    var test := AsyncMembershipTest(groups, uid);
    Where(groups, (g: Doc<Group>) => Truthy(test(g)))
  }

  /** In particular it returns groups the user is not a member of. */
  lemma FindAllUserGroupsKeepsNonMembers(groups: seq<Doc<Group>>, uid: string, g: Doc<Group>)
    requires g in groups && IsUserInGroup(groups, uid, g.id) == 0
    ensures g in FindAllUserGroups(groups, uid)
  {
  }

  /** `findGroupById`: the group with that `_id`, or none. */
  function FindGroupById(groups: seq<Doc<Group>>, gid: string): (r: Option<Doc<Group>>)
    requires UniqueIds(groups)
    ensures r.Some? <==> gid in Ids(groups)
    ensures r.Some? ==> r.value in groups && r.value.id == gid
    ensures forall g :: g in groups && g.id == gid ==> r == Some(g)
  {
    FindById(groups, gid)
  }

  /** A group stored by `createGroup` never counts anyone as a member: its
      `users` holds bare ids, and `$elemMatch: {user: uid}` matches none of them. */
  lemma {:induction false} CreatedGroupHasNoMembers(groups: seq<Doc<Group>>, uids: seq<string>, group: Group, oid: string, uid: string)
    requires UniqueIds(groups) && oid !in Ids(groups)
    ensures IsUserInGroup(groups + [Doc(oid, GroupWithUsers(uids, group))], uid, oid) == 0
  {
    var g := GroupWithUsers(uids, group);
    var t := groups + [Doc(oid, g)];
    assert !HasMemberRef(g, uid) by {
      forall i | 0 <= i < |g.users.value| ensures g.users.value[i] != MemberRef(uid) {
        assert g.users.value[i] == MemberId(uids[i]);
      }
    }
    forall i | 0 <= i < |groups| ensures groups[i].id != oid {
      assert groups[i].id in Ids(groups);
    }
    forall d | d in t && d.id == oid ensures !HasMemberRef(d.fields, uid) {
      var i :| 0 <= i < |t| && t[i] == d;
      assert i == |groups|;
    }
  }

  class GroupDao {
    const groups: Collection<Group>

    constructor (groups: Collection<Group>)
      ensures this.groups == groups
    {
      this.groups := groups;
    }

    /** `createGroup(uids, group)`: `create({...group, users: uids})`. The schema
        rejects a missing or empty `groupName`; otherwise one group is appended, with
        `createdOn` defaulting to `now`, under the group's own `_id` when it carries
        one (the spread keeps it) and otherwise the driver's ObjectId `oid`. */
    method CreateGroup(uids: seq<string>, groupId: Option<string>, group: Group, now: int, oid: string) returns (r: Result<Doc<Group>>)
      requires groups.Valid()
      modifies groups
      ensures groups.Valid()
      ensures !IsValidGroup(group) ==> r == Err(ValidationError) && groups.docs == old(groups.docs)
      ensures IsValidGroup(group) && NewId(groupId, oid) in Ids(old(groups.docs)) ==>
        r == Err(DuplicateKey) && groups.docs == old(groups.docs)
      ensures IsValidGroup(group) && NewId(groupId, oid) !in Ids(old(groups.docs)) ==>
        && r.Ok? && groups.docs == old(groups.docs) + [r.value]
        && r.value.id == NewId(groupId, oid)
        && r.value.fields == GroupWithUsers(uids, group).(createdOn := WithDefault(group.createdOn, now))
      ensures r.Ok? ==> forall uid :: IsUserInGroup(groups.docs, uid, r.value.id) == 0
    {
      var doc := GroupWithUsers(uids, group).(createdOn := WithDefault(group.createdOn, now));
      if IsValidGroup(doc) {
        ghost var before := groups.docs;
        var id := NewId(groupId, oid);
        r := groups.Insert(id, doc);
        if r.Ok? {
          forall uid ensures IsUserInGroup(groups.docs, uid, id) == 0 {
            CreatedGroupHasNoMembers(before, uids, group.(createdOn := doc.createdOn), id, uid);
          }
        }
      } else {
        r := Err(ValidationError);
      }
    }

    /** `deleteGroup(gid)`: the `deleteOne({_id: gid})` query is built but never
        returned, awaited or executed, and a Mongoose query runs only then; the
        groups stay as they were and the method returns nothing. */
    method DeleteGroup(gid: string)
      requires groups.Valid()
      ensures groups.Valid()
      ensures groups.docs == old(groups.docs)
    {
    }
  }
}
