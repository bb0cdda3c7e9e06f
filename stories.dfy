/**
 * The story DAO (daos/story-dao.ts) over the `stories` collection
 * (mongoose/stories/story-schema.ts).
 */
module Stories {
  import opened Store

  datatype Story = Story(
    image: Option<string>,
    visibility: Option<string>,
    description: Option<string>,
    postedOn: Option<int>,
    postedBy: Option<string>)

  /** The values of the `Visibility` enum (models/stories/visibility.ts). */
  const PUBLIC: string := "PUBLIC"
  const FRIENDS: string := "FRIENDS"
  const CLOSE_FRIENDS: string := "CLOSE_FRIENDS"

  predicate IsVisibility(v: string)
  {
    v == PUBLIC || v == FRIENDS || v == CLOSE_FRIENDS
  }

  /** The schema's defaults: `visibility` is PUBLIC and `postedOn` the creation time when not set. */
  function WithStoryDefaults(s: Story, now: int): Story
  {
    s.(visibility := WithDefault(s.visibility, PUBLIC), postedOn := WithDefault(s.postedOn, now))
  }

  /** The schema's validators: `image` and `postedBy` are required, `visibility` must be an enum value. */
  predicate IsValidStory(s: Story)
  {
    Present(s.image) && Present(s.postedBy) && (s.visibility.None? || IsVisibility(s.visibility.value))
  }

  /** The document `StoryModel.create` would store for `story`, or why it refuses it. */
  function ValidateStory(s: Story, now: int): (r: Result<Story>)
    ensures r.Ok? <==> Present(s.image) && Present(s.postedBy) && (s.visibility.None? || IsVisibility(s.visibility.value))
    ensures r.Err? ==> r.error == ValidationError
    ensures r.Ok? ==> r.value.visibility.Some? && IsVisibility(r.value.visibility.value)
    ensures r.Ok? && s.visibility.None? ==> r.value.visibility == Some(PUBLIC)
    ensures r.Ok? ==> r.value.postedOn.Some? && (s.postedOn.Some? ==> r.value.postedOn == s.postedOn)
    ensures r.Ok? ==> r.value.image == s.image && r.value.description == s.description && r.value.postedBy == s.postedBy
    ensures r.Ok? ==> r.value.visibility == WithDefault(s.visibility, PUBLIC) && r.value.postedOn == WithDefault(s.postedOn, now)
  {
    var d := WithStoryDefaults(s, now);
    if IsValidStory(d) then Ok(d) else Err(ValidationError)
  }

  /** The filter `{postedBy: uid}`. */
  function PostedBy(uid: string): Doc<Story> -> bool
  {
    (s: Doc<Story>) => s.fields.postedBy == Some(uid)
  }

  /** `findStories`: `find()` with the empty filter returns every story. */
  function FindStories(stories: seq<Doc<Story>>): (r: seq<Doc<Story>>)
    ensures r == stories
  {
    FindAll(stories)
  }

  /** `findStoriesByUser`: exactly the stories whose `postedBy` is uid, in natural order. */
  function FindStoriesByUser(stories: seq<Doc<Story>>, uid: string): (r: seq<Doc<Story>>)
    ensures forall s :: s in r <==> s in stories && s.fields.postedBy == Some(uid)
    ensures IsSubsequence(r, stories)
  {
    WhereIsSubsequence(stories, PostedBy(uid));
    Where(stories, PostedBy(uid))
  }

  /** `findStoryById`: the story with that `_id`, or none. */
  function FindStoryById(stories: seq<Doc<Story>>, sid: string): (r: Option<Doc<Story>>)
    requires UniqueIds(stories)
    ensures r.Some? <==> sid in Ids(stories)
    ensures r.Some? ==> r.value in stories && r.value.id == sid
    ensures forall s :: s in stories && s.id == sid ==> r == Some(s)
  {
    FindById(stories, sid)
  }

  /** The `visibility` of a story as `find` loads it: Mongoose fills a path the stored
      document lacks with the schema's default, PUBLIC. */
  function LoadedVisibility(s: Doc<Story>): Option<string>
  {
    WithDefault(s.fields.visibility, PUBLIC)
  }

  /** The test `story => story.visibility === visibility` given to `Array.filter`,
      applied to the loaded documents. */
  function HasVisibility(v: string): Doc<Story> -> bool
  {
    (s: Doc<Story>) => LoadedVisibility(s) == Some(v)
  }

  /** `findStoriesByVisibility`: `findStories()` filtered in the DAO's own code; the
      stories with that visibility, in the order `findStories` gives them. A story
      stored without a visibility reads as PUBLIC. */
  function FindStoriesByVisibility(stories: seq<Doc<Story>>, v: string): (r: seq<Doc<Story>>)
    ensures forall s :: s in r <==> s in FindStories(stories) && WithDefault(s.fields.visibility, PUBLIC) == Some(v)
    ensures v == PUBLIC ==> forall s :: s in stories && s.fields.visibility.None? ==> s in r
    ensures IsSubsequence(r, FindStories(stories))
    ensures |r| <= |FindStories(stories)|
    ensures !IsVisibility(v) && (forall s :: s in stories ==> s.fields.visibility.None? || IsVisibility(s.fields.visibility.value))
            ==> r == []
  {
    var all := FindStories(stories);
    WhereIsSubsequence(all, HasVisibility(v));
    var r := Where(all, HasVisibility(v));
    assert |r| > 0 ==> r[0] in r;
    r
  }

  class StoryDao {
    const stories: Collection<Story>

    constructor (stories: Collection<Story>)
      ensures this.stories == stories
    {
      this.stories := stories;
    }

    /** `createStory(uid, story)`: `create({...story, postedBy: uid})`. The story's own
        `_id`, when it carries one, is kept by the spread; otherwise the driver's
        ObjectId `oid` is used. */
    method CreateStory(uid: string, storyId: Option<string>, story: Story, now: int, oid: string)
      returns (r: Result<Doc<Story>>)
      requires stories.Valid()
      modifies stories
      ensures stories.Valid()
      ensures var id := NewId(storyId, oid);
        match ValidateStory(story.(postedBy := Some(uid)), now)
        case Err(e) => r == Err(e) && stories.docs == old(stories.docs)
        case Ok(d) =>
          if id in Ids(old(stories.docs)) then r == Err(DuplicateKey) && stories.docs == old(stories.docs)
          else r == Ok(Doc(id, d)) && stories.docs == old(stories.docs) + [Doc(id, d)]
      ensures r.Ok? ==> r.value.fields.postedBy == Some(uid) && r.value.fields.image == story.image
      ensures r.Ok? ==> |stories.docs| == |old(stories.docs)| + 1
      ensures uid == "" ==> r == Err(ValidationError)
    {
      var id := NewId(storyId, oid);
      var v := ValidateStory(story.(postedBy := Some(uid)), now);
      match v {
        case Err(e) =>
          r := Err(e);
        case Ok(d) =>
          r := stories.Insert(id, d);
      }
    }

    /** `deleteStoryByID`: `deleteOne({_id: sid})` removes that story and no other. */
    method DeleteStoryByID(sid: string) returns (deletedCount: nat)
      requires stories.Valid()
      modifies stories
      ensures stories.Valid()
      ensures stories.docs == RemoveAll(old(stories.docs), HasId(sid))
      ensures forall s :: s in stories.docs <==> s in old(stories.docs) && s.id != sid
      ensures sid !in Ids(old(stories.docs)) ==> stories.docs == old(stories.docs)
    {
      RemoveFirstById(stories.docs, sid);
      ghost var before := stories.docs;
      forall s | s in before ensures s.id in Ids(before) {
        var i :| 0 <= i < |before| && before[i] == s;
      }
      deletedCount := stories.DeleteOne(HasId(sid));
    }

    /** `deleteAllStories(uid)`: `deleteMany({postedBy: uid})`; the stories of other
        users stay in order, and a second call changes nothing. */
    method DeleteAllStories(uid: string) returns (deletedCount: nat)
      requires stories.Valid()
      modifies stories
      ensures stories.Valid()
      ensures stories.docs == RemoveAll(old(stories.docs), PostedBy(uid))
      ensures FindStoriesByUser(stories.docs, uid) == []
      ensures RemoveAll(stories.docs, PostedBy(uid)) == stories.docs
      ensures IsSubsequence(stories.docs, old(stories.docs))
    {
      RemoveAllClears(stories.docs, PostedBy(uid));
      WhereIsSubsequence(stories.docs, Not(PostedBy(uid)));
      deletedCount := stories.DeleteMany(PostedBy(uid));
    }
  }
}
