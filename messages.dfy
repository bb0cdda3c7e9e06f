/**
 * The direct-message DAO (daos/message-dao.ts) over the `messages` collection.
 *
 * The collection's schema (mongoose/messages/message-schema.ts) names the two
 * parties `to` and `from` and requires both, while every filter of the DAO
 * names them `sender` and `recipient`. A stored document therefore carries
 * both pairs of paths, each possibly absent, and the queries look only at
 * `sender` and `recipient`.
 */
module Messages {
  import opened Store

  datatype Message = Message(
    to: Option<string>,
    from: Option<string>,
    sender: Option<string>,
    recipient: Option<string>,
    message: Option<string>,
    sentOn: Option<int>)

  /** The `Message` object a caller hands to the DAO (models/messages/message.ts);
      as a `$set` patch, the paths it carries are written. */
  datatype MessageObject = MessageObject(
    to: Option<string>,
    from: Option<string>,
    message: Option<string>,
    sentOn: Option<int>)

  /** The schema's validators: `to`, `from` and `message` are required. */
  predicate IsValidMessage(m: Message)
  {
    Present(m.to) && Present(m.from) && Present(m.message)
  }

  /** The filter `{sender: uid}`. */
  function SentBy(uid: string): Doc<Message> -> bool
  {
    (m: Doc<Message>) => m.fields.sender == Some(uid)
  }

  /** The filter `{recipient: uid}`. */
  function ReceivedBy(uid: string): Doc<Message> -> bool
  {
    (m: Doc<Message>) => m.fields.recipient == Some(uid)
  }

  /** The filter `{sender: s, recipient: s}`. */
  function SentToSelf(s: string): Doc<Message> -> bool
  {
    (m: Doc<Message>) => m.fields.sender == Some(s) && m.fields.recipient == Some(s)
  }

  /** JavaScript's `a || b` on two strings: `a` unless it is the (falsy) empty string. */
  function JsOr(a: string, b: string): string
  {
    if a != "" then a else b
  }

  function SentOnKey(m: Doc<Message>): Option<int>
  {
    m.fields.sentOn
  }

  /** `findAllMessages`: `find()` with the empty filter returns every message. */
  function FindAllMessages(messages: seq<Doc<Message>>): (r: seq<Doc<Message>>)
    ensures r == messages
  {
    FindAll(messages)
  }

  /** `findAllMessagesSentByUser`: exactly the messages whose `sender` is uid, in natural order. */
  function FindAllMessagesSentByUser(messages: seq<Doc<Message>>, uid: string): (r: seq<Doc<Message>>)
    ensures forall m :: m in r <==> m in messages && m.fields.sender == Some(uid)
    ensures IsSubsequence(r, messages)
  {
    WhereIsSubsequence(messages, SentBy(uid));
    Where(messages, SentBy(uid))
  }

  /** `findAllMessagesReceivedByUser`: exactly the messages whose `recipient` is uid, in natural order. */
  function FindAllMessagesReceivedByUser(messages: seq<Doc<Message>>, uid: string): (r: seq<Doc<Message>>)
    ensures forall m :: m in r <==> m in messages && m.fields.recipient == Some(uid)
    ensures IsSubsequence(r, messages)
  {
    WhereIsSubsequence(messages, ReceivedBy(uid));
    Where(messages, ReceivedBy(uid))
  }

  /** `findMessageById`: the message with that `_id`, or none. */
  function FindMessageById(messages: seq<Doc<Message>>, mid: string): (r: Option<Doc<Message>>)
    requires UniqueIds(messages)
    ensures r.Some? <==> mid in Ids(messages)
    ensures r.Some? ==> r.value in messages && r.value.id == mid
    ensures forall m :: m in messages && m.id == mid ==> r == Some(m)
  {
    FindById(messages, mid)
  }

  /** `findAllMessagesBetweenSpecificUsers(uidSender, uidRecipient)`. Both paths of
      the filter get the same value `uidSender || uidRecipient`, so only messages a
      user sent to themself are found; the result is sorted by `sentOn`, latest first. */
  function FindAllMessagesBetweenSpecificUsers(messages: seq<Doc<Message>>, uidSender: string, uidRecipient: string)
    : (r: seq<Doc<Message>>)
    ensures var s := JsOr(uidSender, uidRecipient);
      forall m :: m in r <==> m in messages && m.fields.sender == Some(s) && m.fields.recipient == Some(s)
    ensures multiset(r) == multiset(Where(messages, SentToSelf(JsOr(uidSender, uidRecipient))))
    ensures SortedDesc(r, SentOnKey)
  {
    var found := Where(messages, SentToSelf(JsOr(uidSender, uidRecipient)));
    var r := SortDesc(found, SentOnKey);
    assert forall m :: m in r <==> m in found by {
      forall m ensures m in r <==> m in found {
        assert m in r <==> m in multiset(r);
        assert m in found <==> m in multiset(found);
      }
    }
    r
  }

  /** A conversation in which each party wrote to the other is never found,
      whichever way round the two users are passed. */
  lemma BetweenIsNotAConversation(messages: seq<Doc<Message>>, a: string, b: string, m: Doc<Message>)
    requires a != "" && b != "" && a != b
    requires m in messages
    requires (m.fields.sender, m.fields.recipient) in {(Some(a), Some(b)), (Some(b), Some(a))}
    ensures m !in FindAllMessagesBetweenSpecificUsers(messages, a, b)
    ensures m !in FindAllMessagesBetweenSpecificUsers(messages, b, a)
  {
  }

  /** When the first user is given, the second one plays no part in the query. */
  lemma BetweenIgnoresSecondUser(messages: seq<Doc<Message>>, a: string, b: string, c: string)
    requires a != ""
    ensures FindAllMessagesBetweenSpecificUsers(messages, a, b) == FindAllMessagesBetweenSpecificUsers(messages, a, c)
  {
  }

  /** Deleting everything sent by uid leaves, among the messages uid received,
      exactly those uid did not send, in the same order. */
  lemma DeleteSentKeepsOtherReceived(messages: seq<Doc<Message>>, uid: string)
    ensures FindAllMessagesReceivedByUser(RemoveAll(messages, SentBy(uid)), uid)
         == RemoveAll(FindAllMessagesReceivedByUser(messages, uid), SentBy(uid))
  {
    WhereCommutes(messages, Not(SentBy(uid)), ReceivedBy(uid));
  }

  /** The `$set` of a Message object: the paths it carries are overwritten,
      `sender` and `recipient` (absent from the schema) are never written. */
  function SetMessage(patch: MessageObject): Message -> Message
  {
    (m: Message) => m.(
      to := SetPath(patch.to, m.to),
      from := SetPath(patch.from, m.from),
      message := SetPath(patch.message, m.message),
      sentOn := SetPath(patch.sentOn, m.sentOn))
  }

  /** A `$set` writes the patch's paths and keeps the others; running it twice is running it once. */
  lemma SetMessageOverwritesPatchedPaths(m: Message, patch: MessageObject)
    ensures var u := SetMessage(patch)(m);
      && (patch.to.Some? ==> u.to == patch.to) && (patch.to.None? ==> u.to == m.to)
      && (patch.from.Some? ==> u.from == patch.from) && (patch.from.None? ==> u.from == m.from)
      && (patch.message.Some? ==> u.message == patch.message) && (patch.message.None? ==> u.message == m.message)
      && (patch.sentOn.Some? ==> u.sentOn == patch.sentOn) && (patch.sentOn.None? ==> u.sentOn == m.sentOn)
      && u.sender == m.sender && u.recipient == m.recipient
    ensures SetMessage(patch)(SetMessage(patch)(m)) == SetMessage(patch)(m)
  {
  }

  /** The document `userSendsMessage` hands to `create`: only `message` and `sentOn`.
      `message` holds the caller's argument, which casts to a string only when it is
      one (`castMessage`); `sentOn` holds the function `Date.now` itself, which does
      not cast to a date. That cast failure is a validation error of its own; the
      path is recorded as unset here, since the missing `to` and `from` already
      make `create` fail. */
  function SendDocument(castMessage: Option<string>): Message
  {
    Message(None, None, None, None, castMessage, None)
  }

  /** The document `userSendsMessage` builds can never pass the schema: `to` and `from` are missing. */
  lemma SendDocumentIsInvalid(castMessage: Option<string>)
    ensures !IsValidMessage(SendDocument(castMessage))
  {
  }

  /** The document `MessageModel.create` stores for `doc`: the schema is strict, so
      `sender` and `recipient`, which it does not declare, are dropped, and an unset
      `sentOn` takes its default, the creation time `now`. */
  function StoredMessage(doc: Message, now: int): (m: Message)
    ensures m.sender.None? && m.recipient.None?
    ensures m.to == doc.to && m.from == doc.from && m.message == doc.message
    ensures m.sentOn == WithDefault(doc.sentOn, now)
    ensures IsValidMessage(m) <==> IsValidMessage(doc)
  {
    doc.(sender := None, recipient := None, sentOn := WithDefault(doc.sentOn, now))
  }

  /** A message created through the model is found by neither the sent-by nor the
      received-by query, since those filter on paths the schema drops. */
  lemma {:induction false} CreatedMessageIsNotFoundByParty(messages: seq<Doc<Message>>, doc: Message, now: int, oid: string, uid: string)
    ensures var d := Doc(oid, StoredMessage(doc, now));
      && d !in FindAllMessagesSentByUser(messages + [d], uid)
      && d !in FindAllMessagesReceivedByUser(messages + [d], uid)
  {
  }

  class MessageDao {
    const messages: Collection<Message>

    constructor (messages: Collection<Message>)
      ensures this.messages == messages
    {
      this.messages := messages;
    }

    /** `MessageModel.create(doc)`: the schema's validators run on the document the
        strict schema keeps; a valid one is stored under the ObjectId `oid` the
        driver generates. */
    method Create(doc: Message, now: int, oid: string) returns (r: Result<Doc<Message>>)
      requires messages.Valid()
      modifies messages
      ensures messages.Valid()
      ensures !IsValidMessage(doc) ==> r == Err(ValidationError) && messages.docs == old(messages.docs)
      ensures IsValidMessage(doc) && oid in Ids(old(messages.docs)) ==>
        r == Err(DuplicateKey) && messages.docs == old(messages.docs)
      ensures IsValidMessage(doc) && oid !in Ids(old(messages.docs)) ==>
        && r == Ok(Doc(oid, StoredMessage(doc, now)))
        && messages.docs == old(messages.docs) + [r.value]
      ensures r.Ok? ==> r.value.fields.sender.None? && r.value.fields.recipient.None?
    {
      var m := StoredMessage(doc, now);
      if IsValidMessage(m) {
        r := messages.Insert(oid, m);
      } else {
        r := Err(ValidationError);
      }
    }

    /** `userSendsMessage`: `create({message, sentOn: Date.now})` is rejected by
        validation, and the collection is left as it was. */
    method UserSendsMessage(castMessage: Option<string>, now: int, oid: string) returns (r: Result<Doc<Message>>)
      requires messages.Valid()
      modifies messages
      ensures messages.Valid()
      ensures r == Err(ValidationError)
      ensures messages.docs == old(messages.docs)
    {
      SendDocumentIsInvalid(castMessage);
      r := Create(SendDocument(castMessage), now, oid);
    }

    /** `userDeletesMessage`: `deleteOne({_id: mid})` removes the message with that id
        and nothing else; a second call finds nothing to delete. */
    method UserDeletesMessage(mid: string) returns (deletedCount: nat)
      requires messages.Valid()
      modifies messages
      ensures messages.Valid()
      ensures messages.docs == RemoveFirst(old(messages.docs), HasId(mid))
      ensures forall m :: m in messages.docs <==> m in old(messages.docs) && m.id != mid
      ensures deletedCount == if mid in Ids(old(messages.docs)) then 1 else 0
      ensures mid !in Ids(messages.docs)
    {
      ghost var before := messages.docs;
      RemoveFirstById(before, mid);
      deletedCount := messages.DeleteOne(HasId(mid));
      assert FindOne(before, HasId(mid)).Some? <==> mid in Ids(before) by {
        if mid in Ids(before) {
          var i :| 0 <= i < |before| && before[i].id == mid;
          assert before[i] in before;
        }
        var f := FindOne(before, HasId(mid));
        if f.Some? {
          var i :| 0 <= i < |before| && before[i] == f.value;
        }
      }
      forall i | 0 <= i < |messages.docs| ensures messages.docs[i].id != mid {
        assert messages.docs[i] in messages.docs;
      }
    }

    /** `userUpdatesMessage`: `updateOne({_id: mid}, {$set: message})` rewrites the
        patched paths of the message with that id; every other message is unchanged. */
    method UserUpdatesMessage(mid: string, message: MessageObject) returns (matchedCount: nat)
      requires messages.Valid()
      modifies messages
      ensures messages.Valid()
      ensures messages.docs == UpdateFirst(old(messages.docs), HasId(mid), SetMessage(message))
      ensures |messages.docs| == |old(messages.docs)|
      ensures forall i | 0 <= i < |messages.docs| ::
        messages.docs[i] == if old(messages.docs)[i].id == mid
                            then Doc(mid, SetMessage(message)(old(messages.docs)[i].fields))
                            else old(messages.docs)[i]
    {
      UpdateFirstById(messages.docs, mid, SetMessage(message));
      matchedCount := messages.UpdateOne(HasId(mid), SetMessage(message));
    }

    /** `deleteAllMessagesSentByUser`: `deleteMany({sender: uid})`. */
    method DeleteAllMessagesSentByUser(uid: string) returns (deletedCount: nat)
      requires messages.Valid()
      modifies messages
      ensures messages.Valid()
      ensures messages.docs == RemoveAll(old(messages.docs), SentBy(uid))
      ensures FindAllMessagesSentByUser(messages.docs, uid) == []
      ensures RemoveAll(messages.docs, SentBy(uid)) == messages.docs
    {
      RemoveAllClears(messages.docs, SentBy(uid));
      deletedCount := messages.DeleteMany(SentBy(uid));
    }

    /** `deleteAllMessagesReceivedByUser`: `deleteMany({recipient: uid})`. */
    method DeleteAllMessagesReceivedByUser(uid: string) returns (deletedCount: nat)
      requires messages.Valid()
      modifies messages
      ensures messages.Valid()
      ensures messages.docs == RemoveAll(old(messages.docs), ReceivedBy(uid))
      ensures FindAllMessagesReceivedByUser(messages.docs, uid) == []
      ensures RemoveAll(messages.docs, ReceivedBy(uid)) == messages.docs
    {
      RemoveAllClears(messages.docs, ReceivedBy(uid));
      deletedCount := messages.DeleteMany(ReceivedBy(uid));
    }
  }
}
