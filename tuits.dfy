/**
 * The tuit DAO (daos/TuitDao.ts) over the `tuits` collection
 * (mongoose/tuits/TuitSchema.ts: `tuit` required, `postedOn` defaulting to
 * the creation time, `postedBy` optional).
 */
module Tuits {
  import opened Store

  datatype Tuit = Tuit(tuit: Option<string>, postedBy: Option<string>, postedOn: Option<int>)

  /** The schema's validator: the `tuit` text is required. */
  predicate IsValidTuit(t: Tuit)
  {
    Present(t.tuit)
  }

  /** The document `TuitModel.create` would store for `t`, or why it refuses it. */
  function ValidateTuit(t: Tuit, now: int): (r: Result<Tuit>)
    ensures r.Ok? <==> Present(t.tuit)
    ensures r.Err? ==> r.error == ValidationError
    ensures r.Ok? ==> r.value.tuit == t.tuit && r.value.postedBy == t.postedBy
    ensures r.Ok? ==> r.value.postedOn == WithDefault(t.postedOn, now)
  {
    if IsValidTuit(t) then Ok(t.(postedOn := WithDefault(t.postedOn, now))) else Err(ValidationError)
  }

  /** The filter `{postedBy: uid}`. */
  function PostedBy(uid: string): Doc<Tuit> -> bool
  {
    (t: Doc<Tuit>) => t.fields.postedBy == Some(uid)
  }

  /** `findAllTuits`: `find()` with the empty filter returns every tuit. */
  function FindAllTuits(tuits: seq<Doc<Tuit>>): (r: seq<Doc<Tuit>>)
    ensures r == tuits
  {
    FindAll(tuits)
  }

  /** `findAllTuitsByUser`: exactly the tuits whose `postedBy` is uid, in natural order. */
  function FindAllTuitsByUser(tuits: seq<Doc<Tuit>>, uid: string): (r: seq<Doc<Tuit>>)
    ensures forall t :: t in r <==> t in tuits && t.fields.postedBy == Some(uid)
    ensures IsSubsequence(r, tuits)
  {
    WhereIsSubsequence(tuits, PostedBy(uid));
    Where(tuits, PostedBy(uid))
  }

  /** `findTuitById`: the tuit with that `_id`, or none. */
  function FindTuitById(tuits: seq<Doc<Tuit>>, tid: string): (r: Option<Doc<Tuit>>)
    requires UniqueIds(tuits)
    ensures r.Some? <==> tid in Ids(tuits)
    ensures r.Some? ==> r.value in tuits && r.value.id == tid
    ensures forall t :: t in tuits && t.id == tid ==> r == Some(t)
  {
    FindById(tuits, tid)
  }

  /** The `$set` of a Tuit object: the paths it carries are overwritten, the others kept. */
  function SetTuit(patch: Tuit): Tuit -> Tuit
  {
    (t: Tuit) => Tuit(SetPath(patch.tuit, t.tuit), SetPath(patch.postedBy, t.postedBy), SetPath(patch.postedOn, t.postedOn))
  }

  /** A `$set` writes the patch's paths and keeps the others; running it twice is running it once. */
  lemma SetTuitOverwritesPatchedPaths(t: Tuit, patch: Tuit)
    ensures var u := SetTuit(patch)(t);
      && (patch.tuit.Some? ==> u.tuit == patch.tuit) && (patch.tuit.None? ==> u.tuit == t.tuit)
      && (patch.postedBy.Some? ==> u.postedBy == patch.postedBy) && (patch.postedBy.None? ==> u.postedBy == t.postedBy)
      && (patch.postedOn.Some? ==> u.postedOn == patch.postedOn) && (patch.postedOn.None? ==> u.postedOn == t.postedOn)
    ensures SetTuit(patch)(SetTuit(patch)(t)) == SetTuit(patch)(t)
  {
  }

  class TuitDao {
    const tuits: Collection<Tuit>

    constructor (tuits: Collection<Tuit>)
      ensures this.tuits == tuits
    {
      this.tuits := tuits;
    }

    /** `createTuitByUser(uid, tuit)`: `create({...tuit, postedBy: uid})`. The tuit's own
        `_id`, when it carries one, is kept by the spread; otherwise the driver's
        ObjectId `oid` is used. */
    method CreateTuitByUser(uid: string, tuitId: Option<string>, tuit: Tuit, now: int, oid: string) returns (r: Result<Doc<Tuit>>)
      requires tuits.Valid()
      modifies tuits
      ensures tuits.Valid()
      ensures !Present(tuit.tuit) ==> r == Err(ValidationError) && tuits.docs == old(tuits.docs)
      ensures Present(tuit.tuit) && NewId(tuitId, oid) in Ids(old(tuits.docs)) ==>
        r == Err(DuplicateKey) && tuits.docs == old(tuits.docs)
      ensures Present(tuit.tuit) && NewId(tuitId, oid) !in Ids(old(tuits.docs)) ==>
        && r.Ok? && tuits.docs == old(tuits.docs) + [r.value]
        && r.value == Doc(NewId(tuitId, oid), Tuit(tuit.tuit, Some(uid), WithDefault(tuit.postedOn, now)))
      ensures r.Ok? ==> FindTuitById(tuits.docs, r.value.id) == Some(r.value)
    {
      var v := ValidateTuit(tuit.(postedBy := Some(uid)), now);
      match v {
        case Err(e) =>
          r := Err(e);
        case Ok(d) =>
          r := tuits.Insert(NewId(tuitId, oid), d);
      }
    }

    /** `updateTuit(tid, tuit)`: `updateOne({_id: tid}, {$set: tuit})` rewrites the patched
        paths of that tuit and touches no other; the schema's validators do not run. */
    method UpdateTuit(tid: string, tuit: Tuit) returns (matchedCount: nat)
      requires tuits.Valid()
      modifies tuits
      ensures tuits.Valid()
      ensures tuits.docs == UpdateFirst(old(tuits.docs), HasId(tid), SetTuit(tuit))
      ensures |tuits.docs| == |old(tuits.docs)|
      ensures forall i | 0 <= i < |tuits.docs| ::
        tuits.docs[i] == if old(tuits.docs)[i].id == tid
                         then Doc(tid, SetTuit(tuit)(old(tuits.docs)[i].fields))
                         else old(tuits.docs)[i]
    {
      UpdateFirstById(tuits.docs, tid, SetTuit(tuit));
      matchedCount := tuits.UpdateOne(HasId(tid), SetTuit(tuit));
    }

    /** `deleteTuit(tid)`: `deleteOne({_id: tid})` removes that tuit and no other;
        a second call changes nothing. */
    method DeleteTuit(tid: string) returns (deletedCount: nat)
      requires tuits.Valid()
      modifies tuits
      ensures tuits.Valid()
      ensures tuits.docs == RemoveAll(old(tuits.docs), HasId(tid))
      ensures forall t :: t in tuits.docs <==> t in old(tuits.docs) && t.id != tid
      ensures RemoveFirst(tuits.docs, HasId(tid)) == tuits.docs
    {
      RemoveFirstById(tuits.docs, tid);
      deletedCount := tuits.DeleteOne(HasId(tid));
      RemoveFirstById(tuits.docs, tid);
      RemoveAllClears(old(tuits.docs), HasId(tid));
    }
  }
}
