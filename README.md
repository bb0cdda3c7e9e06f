# Tuiter data-access layer in Dafny

This project models the data-access objects (DAOs) of the Tuiter back end. These are
the classes under `daos/` that read and write the MongoDB collections `messages`,
`groups`, `stories`, `likes`, `tuits` and `users` through Mongoose. Each DAO method
issues one collection operation. The model builds those operations once, over an
in-memory collection, in `store.dfy`:

- `find` is an order-preserving filter (`Where`);
- `findOne` and `findById` return the first match (`FindOne`);
- `deleteOne` removes the first match (`RemoveFirst`);
- `deleteMany` removes every match (`RemoveAll`);
- `updateOne` with `$set` rewrites the first match (`UpdateFirst`);
- `count` is the length of a `find`;
- `sort('-key')` is a descending sort (`SortDesc`).

`Collection` is a class holding the stored documents (`docs`, a sequence of
`Doc(id, fields)` with unique ids). Its `Insert`, `DeleteOne`, `DeleteMany` and
`UpdateOne` methods change `docs` in place, and each states its new contents through
the functions above.

Each DAO file becomes one module holding:

- a datatype for the document, with an `Option` per path, since any path may be
  absent from a stored document;
- the schema's `required`, `default` and `enum` rules as a validation step of
  `create`;
- the DAO's queries, as functions over the collection's contents;
- a DAO class whose methods perform the DAO's writes on its `Collection`.

Modules and files:

- `store.dfy`: module `Store`;
- `messages.dfy`: module `Messages`, for daos/message-dao.ts;
- `groups.dfy`: module `Groups`, for daos/group-dao.ts;
- `stories.dfy`: module `Stories`, for daos/story-dao.ts;
- `likes.dfy`: module `Likes`, for daos/LikeDao.ts;
- `tuits.dfy`: module `Tuits`, for daos/TuitDao.ts;
- `users.dfy`: module `Users`, for daos/UserDao.ts.

Three values come from outside the DAOs, so each is a parameter:

- the ObjectId the driver generates (`oid`);
- the time `Date.now` reads (`now`);
- for `createStory`, `createGroup`, `createTuitByUser` and `createUser`, an `_id` the
  given object already carries (`storyId`, `groupId`, `tuitId`, `userId`). The
  spread or the object handed to `create` keeps it; without one the new document
  gets `oid` (`Store.NewId`).

An insert whose id is already stored fails with `DuplicateKey`, as MongoDB's unique
`_id` index does.

The model follows the code, including where it does not do what its names suggest:

- `findAllMessagesBetweenSpecificUsers` gives both `sender` and `recipient` the value
  `uidSender || uidRecipient`. It therefore finds only messages a user sent to
  themself, and is not symmetric in its two users. The method's JSDoc
  (daos/message-dao.ts:111) speaks of messages "sent between specified users"; the
  code is followed here.
- `findAllUserGroups` passes an `async` test to `Array.filter`. That test returns a
  Promise, and a Promise is truthy, so every group is returned.
- `deleteGroup` builds a `deleteOne` query but never runs it, so nothing is deleted.
- `userSendsMessage` creates a document with only `message` and `sentOn`. The schema
  requires `to` and `from`, so validation always rejects it.
- The message schema names the parties `to` and `from`, while every message query
  filters on `sender` and `recipient`.
- `createGroup` stores the member ids bare. `isUserInGroup` looks for elements of the
  form `{user: uid}`, so a group made by `createGroup` never counts anyone as a
  member.

## Model

| member | source | states |
|---|---|---|
| Store.FindAll | daos/message-dao.ts:34-38 | `find()` with the empty filter: every stored document, in natural order |
| Store.FindById | daos/story-dao.ts:63-65 | `findById(id)` / `findOne({_id: id})`: the document with that `_id` when one is stored, none otherwise |
| Store.Where | daos/message-dao.ts:46-51 | `find(filter)`: exactly the stored documents matching the filter, never more than are stored; an always-true filter returns the whole collection |
| Store.WhereIsSubsequence | daos/message-dao.ts:46-51 | the documents `find` returns keep the collection's natural order (a subsequence of it) |
| Store.WhereCommutes | daos/message-dao.ts:130-142 | applying two equality filters in either order gives the same documents in the same order |
| Store.WhereAppend | daos/LikeDao.ts:54-56 | filtering a collection extended by an insert is filtering the old one, followed by the new document when it matches |
| Store.WhereNone | daos/message-dao.ts:46-51 | a filter no stored document matches finds nothing |
| Store.FindOne | daos/message-dao.ts:85-89 | `findOne(filter)`: a result is stored and matches; none exactly when no stored document matches |
| Store.FindByIdUnique | daos/message-dao.ts:85-89 | with unique ids, `findOne({_id})` returns the one document carrying that id |
| Store.InsertedIsFound | daos/LikeDao.ts:54-56 | inserting a document under a fresh id keeps ids unique and makes that document the one found by its id |
| Store.RemoveFirst | daos/message-dao.ts:96-97 | `deleteOne(filter)`: no match leaves the collection as it was; a match removes exactly one document; nothing new appears |
| Store.RemoveFirstIsSubsequence | daos/LikeDao.ts:64-66 | `deleteOne` keeps the remaining documents in their order |
| Store.RemoveFirstMultiset | daos/LikeDao.ts:64-66 | `deleteOne` takes out the first match's fields once and keeps every other document, counted with multiplicity |
| Store.RemoveFirstAfterAppend | daos/LikeDao.ts:54-66 | deleting the first match after appending a matching document removes an older match when there is one, and otherwise the appended document |
| Store.RemoveFirstById | daos/story-dao.ts:45-47 | with unique ids, `deleteOne({_id: id})` removes the same documents as `deleteMany({_id: id})` |
| Store.AtMostOneWithId | daos/group-dao.ts:78-83 | with unique ids, a filter that fixes `_id` matches at most one document |
| Store.RemoveAll | daos/message-dao.ts:130-132 | `deleteMany(filter)`: what remains is exactly the stored documents not matching the filter |
| Store.RemoveAllClears | daos/story-dao.ts:54-56 | after `deleteMany(filter)` the same `find(filter)` is empty, and a second `deleteMany` changes nothing |
| Store.UpdateFirst | daos/message-dao.ts:105-108 | `updateOne(filter, update)`: position by position, the first matching document gets `update` applied to its fields under the same id, and every other document is kept; no match leaves the collection unchanged |
| Store.FirstMatchAtTail | daos/message-dao.ts:105-108 | past a first document that does not match, the first match of the rest is the first match of the whole, one place along |
| Store.UpdateFirstById | daos/TuitDao.ts:42-44 | with unique ids, `updateOne({_id: id}, update)` rewrites exactly the document with that id and leaves every other unchanged |
| Store.InsertDesc | daos/message-dao.ts:119 | inserting into a list sorted latest-first keeps it sorted and adds exactly that document |
| Store.SortDesc | daos/message-dao.ts:119 | `sort('-sentOn')`: the result is sorted latest first (a missing date last) and is a permutation of its input |
| Store.SubsequenceMembers | daos/message-dao.ts:46-51 | every document of an order-preserving selection is a stored document |
| Store.SubsequenceKeepsUniqueIds | daos/message-dao.ts:46-51 | an order-preserving selection of documents with unique ids has unique ids |
| Store.ContentsAppend | daos/LikeDao.ts:54-56 | appending a document appends its fields to the collection's contents |
| Store.Collection.Insert | daos/LikeDao.ts:54-56 | `create` under a given id: a stored id gives `DuplicateKey` and no change; otherwise exactly that document is appended and found by its id |
| Store.Collection.DeleteOne | daos/LikeDao.ts:64-66 | the new contents are `RemoveFirst` of the old; the deleted count is 1 when something matched, else 0 |
| Store.Collection.DeleteMany | daos/message-dao.ts:130-132 | the new contents are `RemoveAll` of the old; the deleted count is the number removed |
| Store.Collection.UpdateOne | daos/message-dao.ts:105-108 | the new contents are `UpdateFirst` of the old; the matched count is 1 when something matched, else 0 |
| Messages.FindAllMessages | daos/message-dao.ts:34-38 | every stored message, in natural order |
| Messages.FindAllMessagesSentByUser | daos/message-dao.ts:46-51 | exactly the stored messages whose `sender` is uid, in natural order |
| Messages.FindAllMessagesReceivedByUser | daos/message-dao.ts:59-64 | exactly the stored messages whose `recipient` is uid, in natural order |
| Messages.FindMessageById | daos/message-dao.ts:85-89 | the message with `_id` mid when one is stored, none otherwise |
| Messages.FindAllMessagesBetweenSpecificUsers | daos/message-dao.ts:117-119 | exactly the messages whose `sender` and `recipient` both equal `uidSender \|\| uidRecipient`, as a permutation of that `find`, sorted by `sentOn` latest first |
| Messages.BetweenIsNotAConversation | daos/message-dao.ts:118 | a message from one user to a different one is not found for that pair, whichever user is passed first |
| Messages.BetweenIgnoresSecondUser | daos/message-dao.ts:118 | with a non-empty first user, the second user does not affect the result |
| Messages.DeleteSentKeepsOtherReceived | daos/message-dao.ts:130-132 | after deleting what uid sent, the messages uid received are the previously received ones uid did not send, in order |
| Messages.SetMessageOverwritesPatchedPaths | daos/message-dao.ts:105-108 | `$set` overwrites exactly the paths the patch carries, never `sender`/`recipient`, and is idempotent |
| Messages.SendDocumentIsInvalid | mongoose/messages/message-schema.ts:8-9 | the document `userSendsMessage` builds lacks `to` and `from`, so it fails the schema |
| Messages.StoredMessage | mongoose/messages/message-schema.ts:7-12 | the strict schema keeps `to`, `from` and `message`, drops the undeclared `sender` and `recipient`, and gives an unset `sentOn` the creation time; validity is unaffected |
| Messages.CreatedMessageIsNotFoundByParty | mongoose/messages/message-schema.ts:7-12 | a message stored by `create` is found by neither the sent-by nor the received-by query, for any user |
| Messages.MessageDao.Create | mongoose/messages/message-schema.ts:7-12 | `MessageModel.create`: a missing or empty `to`, `from` or `message` is a validation error with no change; otherwise the message as the strict schema keeps it, `sentOn` defaulted to `now`, is appended under the new id, with no `sender` or `recipient` |
| Messages.MessageDao.UserSendsMessage | daos/message-dao.ts:74-75 | always a validation error, and the messages are unchanged |
| Messages.MessageDao.UserDeletesMessage | daos/message-dao.ts:96-97 | removes the message with `_id` mid and no other; the count is 1 exactly when it was stored; afterwards no message has that id, so a second call deletes nothing |
| Messages.MessageDao.UserUpdatesMessage | daos/message-dao.ts:105-108 | the message with `_id` mid gets the patch's paths; every other message is unchanged; no match, no change |
| Messages.MessageDao.DeleteAllMessagesSentByUser | daos/message-dao.ts:130-132 | removes exactly the messages `sender` uid, keeping the rest in order; afterwards the sent-by query is empty and repeating changes nothing |
| Messages.MessageDao.DeleteAllMessagesReceivedByUser | daos/message-dao.ts:140-142 | removes exactly the messages `recipient` uid, keeping the rest in order; afterwards the received-by query is empty and repeating changes nothing |
| Groups.GroupWithUsers | daos/group-dao.ts:48 | `{...group, users: uids}`: `users` is exactly uids, in order and with repeats, as bare ids; name and creation date kept |
| Groups.IsUserInGroup | daos/group-dao.ts:78-83 | the count is at most 1 when ids are unique, positive exactly when group gid exists and lists `{user: uid}`, and 0 (not an error) for an unknown gid |
| Groups.FindAllUserGroups | daos/group-dao.ts:34-39 | every stored group, whatever uid is |
| Groups.FindAllUserGroupsKeepsNonMembers | daos/group-dao.ts:37 | a group uid is not a member of is still returned |
| Groups.FindGroupById | daos/group-dao.ts:56-59 | the group with `_id` gid when one is stored, none otherwise |
| Groups.CreatedGroupHasNoMembers | daos/group-dao.ts:47-48 | a group stored by `createGroup` counts 0 for every user in `isUserInGroup` |
| Groups.GroupDao.CreateGroup | daos/group-dao.ts:47-48 | a missing or empty `groupName` is a validation error with no change; otherwise exactly one group is appended, under its own `_id` or else the new id, with `users` replaced by uids and `createdOn` defaulted, and no user counts as its member |
| Groups.GroupDao.DeleteGroup | daos/group-dao.ts:66-68 | the groups are unchanged and nothing is returned |
| Stories.ValidateStory | mongoose/stories/story-schema.ts:10-14 | accepted exactly when `image` and `postedBy` are present and `visibility` is absent or one of the enum values; an accepted story keeps a given visibility and gets PUBLIC when none was given, keeps a given `postedOn` and gets `now` otherwise; its other paths are kept |
| Stories.FindStories | daos/story-dao.ts:81-83 | every stored story, in natural order |
| Stories.FindStoriesByUser | daos/story-dao.ts:72-74 | exactly the stored stories whose `postedBy` is uid, in natural order |
| Stories.FindStoryById | daos/story-dao.ts:63-65 | the story with `_id` sid when one is stored, none otherwise |
| Stories.FindStoriesByVisibility | daos/story-dao.ts:90-92 | exactly the stories of `findStories()` whose visibility, read with the schema default PUBLIC for a missing one, is v, in its order and never more; a PUBLIC query includes every story stored without a visibility; a value outside the enum finds nothing when all stored visibilities are valid |
| Stories.StoryDao.CreateStory | daos/story-dao.ts:36-38 | the story is validated with `postedBy` overwritten by uid; a valid one is appended under its own `_id` or else the new id, so the count grows by one; an empty uid is a validation error |
| Stories.StoryDao.DeleteStoryByID | daos/story-dao.ts:45-47 | removes the story with `_id` sid and no other; an absent sid changes nothing |
| Stories.StoryDao.DeleteAllStories | daos/story-dao.ts:54-56 | removes exactly the stories posted by uid, keeping the rest in order; afterwards the by-user query is empty and repeating changes nothing |
| Likes.FindAllUsersThatLikedTuit | daos/LikeDao.ts:35-37 | exactly the stored likes whose `tuit` is tid, in natural order |
| Likes.FindAllTuitsLikedByUser | daos/LikeDao.ts:44-46 | exactly the stored likes whose `likedBy` is uid, in natural order |
| Likes.LikeThenUnlike | daos/LikeDao.ts:54-66 | a like followed by an unlike of the same pair restores the likes as a multiset; when the pair had no earlier like it restores them exactly, ids and order included |
| Likes.LikeDao.UserLikesTuit | daos/LikeDao.ts:54-56 | appends one like `{tuit: tid, likedBy: uid}` under the new id, with no duplicate check |
| Likes.LikeDao.UserUnlikesTuit | daos/LikeDao.ts:64-66 | removes at most one like, the first matching both tid and uid; every other like stays |
| Tuits.ValidateTuit | mongoose/tuits/TuitSchema.ts:4-5 | accepted exactly when the `tuit` text is present; an accepted tuit keeps its paths, and a missing `postedOn` becomes `now` |
| Tuits.FindAllTuits | daos/TuitDao.ts:26-28 | every stored tuit, in natural order |
| Tuits.FindAllTuitsByUser | daos/TuitDao.ts:30-32 | exactly the stored tuits whose `postedBy` is uid, in natural order |
| Tuits.FindTuitById | daos/TuitDao.ts:34-36 | the tuit with `_id` tid when one is stored, none otherwise |
| Tuits.SetTuitOverwritesPatchedPaths | daos/TuitDao.ts:42-44 | `$set` overwrites exactly the paths the patch carries, and is idempotent |
| Tuits.TuitDao.CreateTuitByUser | daos/TuitDao.ts:38-40 | a missing or empty `tuit` text is a validation error with no change; otherwise the tuit is appended, under its own `_id` or else the new id, with `postedBy` overwritten by uid and `postedOn` defaulted to `now`, and is found by its id |
| Tuits.TuitDao.UpdateTuit | daos/TuitDao.ts:42-44 | the tuit with `_id` tid gets the patch's paths; every other tuit is unchanged |
| Tuits.TuitDao.DeleteTuit | daos/TuitDao.ts:46-48 | removes the tuit with `_id` tid and no other; a second call changes nothing |
| Users.FindAllUsers | daos/UserDao.ts:6-8 | every stored user, in natural order |
| Users.FindUserById | daos/UserDao.ts:9-11 | the user with `_id` uid when one is stored, none otherwise |
| Users.SetUserOverwritesPatchedPaths | daos/UserDao.ts:18-20 | `$set` overwrites each of the user's paths the patch carries and keeps each it does not; an empty patch changes nothing; it is idempotent |
| Users.UserDao.CreateUser | daos/UserDao.ts:12-14 | a missing or empty `username`, `password` or `email` is a validation error with no change; otherwise exactly one user is appended, under its own `_id` or else the new id, with `joined` defaulted to `now`; `findAllUsers` grows by one and the user is found by id |
| Users.UserDao.DeleteUser | daos/UserDao.ts:15-17 | removes the user with `_id` uid and no other; an absent uid changes nothing |
| Users.UserDao.UpdateUser | daos/UserDao.ts:18-20 | the user with `_id` uid gets the patch's paths; every other user is unchanged |

## Left out

- Mongoose `populate` joins are not modelled. Referenced users, tuits and members stay bare ids.
- The callback passed to `.find` after the sort in `findAllMessagesBetweenSpecificUsers` is not modelled. The query is taken to run once, through `exec`.
- Promises and `async` sequencing are not modelled. Each DAO call is one synchronous step, and the collections are never accessed concurrently.
- The singleton `getInstance` is not modelled. Each DAO class here takes its collection as a constructor argument.
- The clock and ObjectId generation are not modelled. Both are parameters (`now`, `oid`).
- Casting of ids is not modelled. A malformed id raises a `CastError` in Mongoose; here every id is a plain string compared for equality.
- An `_id` inside a `$set` patch is not modelled.
- Mongoose's `strictQuery` handling of filter paths absent from the schema is not modelled. Filters compare the paths the DAO names.
- The natural order of a collection is taken to be insertion order.
- The order of messages with equal `sentOn` after the sort is left unspecified; only sortedness and the permutation are stated.
- Store.SortDesc: a missing `sentOn` is taken to sort after every date. MongoDB's exact BSON type ordering is not modelled.
- Update validators are not modelled. `updateOne` with `$set` does not run the schema's validators, so an update may store values `create` would refuse.
- The likes schema is not part of this model, so `userLikesTuit` applies no validation.
- Groups.GroupDao.CreateGroup: the group schema declares `users` as a nested path `users.user`, which is required. How Mongoose casts an array of ids onto that path is not modelled; the ids are stored as given, in order.
- Users.UserDao.CreateUser: `accountType`, `maritalStatus`, `dateOfBirth` and `location` are not modelled. The enums behind the first two are not part of this model, and `location` holds floating-point coordinates.
- Defaults applied on load are not modelled for the documents the queries return: they are the stored documents. Only the visibility test of `findStoriesByVisibility` reads a missing visibility as its default.
- The group-message DAO is not part of this model. The controllers, services and server set-up are HTTP glue and are not modelled either.
- The legacy schema files are not modelled: mongoose/UserSchema.ts, mongoose/TuitSchema.ts and mongoose/messages/MessageSchema.ts. The DAOs' models do not use them.
