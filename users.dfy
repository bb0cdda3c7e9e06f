/**
 * The user DAO (daos/UserDao.ts) over the `users` collection
 * (mongoose/users/UserSchema.ts: `username`, `password` and `email` required,
 * `joined` defaulting to the creation time).
 */
module Users {
  import opened Store

  datatype User = User(
    username: Option<string>,
    password: Option<string>,
    firstName: Option<string>,
    lastName: Option<string>,
    email: Option<string>,
    profilePhoto: Option<string>,
    headerImage: Option<string>,
    biography: Option<string>,
    joined: Option<int>)

  /** The schema's validators: `username`, `password` and `email` are required. */
  predicate IsValidUser(u: User)
  {
    Present(u.username) && Present(u.password) && Present(u.email)
  }

  /** `findAllUsers`: `find()` with the empty filter returns every user. */
  function FindAllUsers(users: seq<Doc<User>>): (r: seq<Doc<User>>)
    ensures r == users
  {
    FindAll(users)
  }

  /** `findUserById`: the user with that `_id`, or none. */
  function FindUserById(users: seq<Doc<User>>, uid: string): (r: Option<Doc<User>>)
    requires UniqueIds(users)
    ensures r.Some? <==> uid in Ids(users)
    ensures r.Some? ==> r.value in users && r.value.id == uid
    ensures forall u :: u in users && u.id == uid ==> r == Some(u)
  {
    FindById(users, uid)
  }

  /** The `$set` of a User object: the paths it carries are overwritten, the others kept. */
  function SetUser(patch: User): User -> User
  {
    (u: User) => User(
      SetPath(patch.username, u.username),
      SetPath(patch.password, u.password),
      SetPath(patch.firstName, u.firstName),
      SetPath(patch.lastName, u.lastName),
      SetPath(patch.email, u.email),
      SetPath(patch.profilePhoto, u.profilePhoto),
      SetPath(patch.headerImage, u.headerImage),
      SetPath(patch.biography, u.biography),
      SetPath(patch.joined, u.joined))
  }

  /** A `$set` writes the patch's paths and keeps the others; an empty patch changes nothing,
      and running it twice is running it once. */
  lemma SetUserOverwritesPatchedPaths(u: User, patch: User)
    ensures var v := SetUser(patch)(u);
      && (patch.username.Some? ==> v.username == patch.username) && (patch.username.None? ==> v.username == u.username)
      && (patch.password.Some? ==> v.password == patch.password) && (patch.password.None? ==> v.password == u.password)
      && (patch.firstName.Some? ==> v.firstName == patch.firstName) && (patch.firstName.None? ==> v.firstName == u.firstName)
      && (patch.lastName.Some? ==> v.lastName == patch.lastName) && (patch.lastName.None? ==> v.lastName == u.lastName)
      && (patch.email.Some? ==> v.email == patch.email) && (patch.email.None? ==> v.email == u.email)
      && (patch.profilePhoto.Some? ==> v.profilePhoto == patch.profilePhoto) && (patch.profilePhoto.None? ==> v.profilePhoto == u.profilePhoto)
      && (patch.headerImage.Some? ==> v.headerImage == patch.headerImage) && (patch.headerImage.None? ==> v.headerImage == u.headerImage)
      && (patch.biography.Some? ==> v.biography == patch.biography) && (patch.biography.None? ==> v.biography == u.biography)
      && (patch.joined.Some? ==> v.joined == patch.joined) && (patch.joined.None? ==> v.joined == u.joined)
    ensures patch == User(None, None, None, None, None, None, None, None, None) ==> SetUser(patch)(u) == u
    ensures SetUser(patch)(SetUser(patch)(u)) == SetUser(patch)(u)
  {
  }

  class UserDao {
    const users: Collection<User>

    constructor (users: Collection<User>)
      ensures this.users == users
    {
      this.users := users;
    }

    /** `createUser(user)`: `create(user)`, under the user's own `_id` when it carries
        one and otherwise the driver's ObjectId `oid`. A user without a non-empty
        username, password or email is refused; otherwise exactly one user is appended
        and `findAllUsers` grows by one. */
    method CreateUser(userId: Option<string>, user: User, now: int, oid: string) returns (r: Result<Doc<User>>)
      requires users.Valid()
      modifies users
      ensures users.Valid()
      ensures !IsValidUser(user) ==> r == Err(ValidationError) && users.docs == old(users.docs)
      ensures IsValidUser(user) && NewId(userId, oid) in Ids(old(users.docs)) ==>
        r == Err(DuplicateKey) && users.docs == old(users.docs)
      ensures IsValidUser(user) && NewId(userId, oid) !in Ids(old(users.docs)) ==>
        && r == Ok(Doc(NewId(userId, oid), user.(joined := WithDefault(user.joined, now))))
        && users.docs == old(users.docs) + [r.value]
      ensures r.Ok? ==> |FindAllUsers(users.docs)| == |FindAllUsers(old(users.docs))| + 1
      ensures r.Ok? ==> FindUserById(users.docs, r.value.id) == Some(r.value)
    {
      if IsValidUser(user) {
        r := users.Insert(NewId(userId, oid), user.(joined := WithDefault(user.joined, now)));
      } else {
        r := Err(ValidationError);
      }
    }

    /** `deleteUser(uid)`: `deleteOne({_id: uid})` removes that user and no other;
        an absent uid changes nothing. */
    method DeleteUser(uid: string) returns (deletedCount: nat)
      requires users.Valid()
      modifies users
      ensures users.Valid()
      ensures users.docs == RemoveAll(old(users.docs), HasId(uid))
      ensures forall u :: u in users.docs <==> u in old(users.docs) && u.id != uid
      ensures uid !in Ids(old(users.docs)) ==> users.docs == old(users.docs)
    {
      RemoveFirstById(users.docs, uid);
      ghost var before := users.docs;
      forall u | u in before ensures u.id in Ids(before) {
        var i :| 0 <= i < |before| && before[i] == u;
      }
      deletedCount := users.DeleteOne(HasId(uid));
    }

    /** `updateUser(uid, user)`: `updateOne({_id: uid}, {$set: user})` rewrites the
        patched paths of that user; every other user is unchanged. */
    method UpdateUser(uid: string, user: User) returns (matchedCount: nat)
      requires users.Valid()
      modifies users
      ensures users.Valid()
      ensures users.docs == UpdateFirst(old(users.docs), HasId(uid), SetUser(user))
      ensures |users.docs| == |old(users.docs)|
      ensures forall i | 0 <= i < |users.docs| ::
        users.docs[i] == if old(users.docs)[i].id == uid
                         then Doc(uid, SetUser(user)(old(users.docs)[i].fields))
                         else old(users.docs)[i]
    {
      UpdateFirstById(users.docs, uid, SetUser(user));
      matchedCount := users.UpdateOne(HasId(uid), SetUser(user));
    }
  }
}
