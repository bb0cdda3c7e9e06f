/**
 * The like DAO (daos/LikeDao.ts) over the `likes` collection: one document per
 * like, pairing a tuit with the user who liked it.
 */
module Likes {
  import opened Store

  datatype Like = Like(tuit: Option<string>, likedBy: Option<string>)

  /** The filter `{tuit: tid}`. */
  function LikesOf(tid: string): Doc<Like> -> bool
  {
    (l: Doc<Like>) => l.fields.tuit == Some(tid)
  }

  /** The filter `{likedBy: uid}`. */
  function LikesBy(uid: string): Doc<Like> -> bool
  {
    (l: Doc<Like>) => l.fields.likedBy == Some(uid)
  }

  /** The filter `{tuit: tid, likedBy: uid}`. */
  function LikeOf(uid: string, tid: string): Doc<Like> -> bool
  {
    (l: Doc<Like>) => l.fields == Like(Some(tid), Some(uid))
  }

  /** `findAllUsersThatLikedTuit`: exactly the likes of tuit tid, in natural order. */
  function FindAllUsersThatLikedTuit(likes: seq<Doc<Like>>, tid: string): (r: seq<Doc<Like>>)
    ensures forall l :: l in r <==> l in likes && l.fields.tuit == Some(tid)
    ensures IsSubsequence(r, likes)
  {
    WhereIsSubsequence(likes, LikesOf(tid));
    Where(likes, LikesOf(tid))
  }

  /** `findAllTuitsLikedByUser`: exactly the likes made by uid, in natural order. */
  function FindAllTuitsLikedByUser(likes: seq<Doc<Like>>, uid: string): (r: seq<Doc<Like>>)
    ensures forall l :: l in r <==> l in likes && l.fields.likedBy == Some(uid)
    ensures IsSubsequence(r, likes)
  {
    WhereIsSubsequence(likes, LikesBy(uid));
    Where(likes, LikesBy(uid))
  }

  /** Liking and then unliking the same tuit leaves the likes as they were, counted
      with multiplicity; when the user had not liked it before, down to the ids and order.
      (With an earlier like of the same pair, it is that older document that goes.) */
  lemma {:induction false} LikeThenUnlike(likes: seq<Doc<Like>>, uid: string, tid: string, oid: string)
    ensures var after := RemoveFirst(likes + [Doc(oid, Like(Some(tid), Some(uid)))], LikeOf(uid, tid));
      && multiset(Contents(after)) == multiset(Contents(likes))
      && (FindOne(likes, LikeOf(uid, tid)).None? ==> after == likes)
  {
    var d := Doc(oid, Like(Some(tid), Some(uid)));
    var p := LikeOf(uid, tid);
    RemoveFirstAfterAppend(likes, d, p);
    var f := FindOne(likes, p);
    if f.Some? {
      RemoveFirstMultiset(likes, p);
      ContentsAppend(RemoveFirst(likes, p), d);
    }
  }

  class LikeDao {
    const likes: Collection<Like>

    constructor (likes: Collection<Like>)
      ensures this.likes == likes
    {
      this.likes := likes;
    }

    /** `userLikesTuit`: `create({tuit: tid, likedBy: uid})` appends one like under the
        ObjectId `oid`, whether or not uid already likes tid. */
    method UserLikesTuit(uid: string, tid: string, oid: string) returns (r: Result<Doc<Like>>)
      requires likes.Valid()
      modifies likes
      ensures likes.Valid()
      ensures oid !in Ids(old(likes.docs)) ==>
        r == Ok(Doc(oid, Like(Some(tid), Some(uid)))) && likes.docs == old(likes.docs) + [r.value]
      ensures oid in Ids(old(likes.docs)) ==> r == Err(DuplicateKey) && likes.docs == old(likes.docs)
    {
      r := likes.Insert(oid, Like(Some(tid), Some(uid)));
    }

    /** `userUnlikesTuit`: `deleteOne({tuit: tid, likedBy: uid})` removes the first
        such like, if any; every other like stays. */
    method UserUnlikesTuit(uid: string, tid: string) returns (deletedCount: nat)
      requires likes.Valid()
      modifies likes
      ensures likes.Valid()
      ensures likes.docs == RemoveFirst(old(likes.docs), LikeOf(uid, tid))
      ensures deletedCount <= 1
      ensures deletedCount == 0 ==> likes.docs == old(likes.docs)
      ensures deletedCount == 1 ==>
        multiset(Contents(likes.docs)) + multiset{Like(Some(tid), Some(uid))} == multiset(Contents(old(likes.docs)))
    {
      ghost var before := likes.docs;
      deletedCount := likes.DeleteOne(LikeOf(uid, tid));
      if deletedCount == 1 {
        RemoveFirstMultiset(before, LikeOf(uid, tid));
      }
    }
  }
}
