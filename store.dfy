/**
 * A model of one MongoDB collection as the data-access objects use it through
 * Mongoose: a sequence of documents in natural (insertion) order, each with a
 * store-assigned `_id` that no other document of the collection shares.
 *
 * Every DAO method issues one of the operations below: `find(filter)`,
 * `findOne(filter)` / `findById`, `create`, `deleteOne`, `deleteMany`,
 * `updateOne(filter, {$set: patch})`, `count()` and `sort`. A filter is a
 * predicate on documents; a `$set` patch is a function on a document's fields.
 */
module Store {

  datatype Option<T> = None | Some(value: T)

  /** A stored document: its `_id` and the entity's own fields. */
  datatype Doc<F> = Doc(id: string, fields: F)

  /** Why `Model.create` rejects a document: a schema validator failed, or
      the `_id` is already taken (MongoDB's duplicate-key error). */
  datatype StoreError = ValidationError | DuplicateKey

  datatype Result<T> = Ok(value: T) | Err(error: StoreError)

  /** Mongoose's `required` validator on a String or ObjectId path: a missing
      value and the empty string are both rejected. */
  predicate Present(f: Option<string>)
  {
    f.Some? && f.value != ""
  }

  /** A schema `default`: applied only when the path was not set. */
  function WithDefault<T>(f: Option<T>, d: T): Option<T>
  {
    if f.Some? then f else Some(d)
  }

  /** One path of a `$set` update: a path the patch carries is overwritten,
      every other path keeps its value. */
  function SetPath<T>(patch: Option<T>, current: Option<T>): Option<T>
  {
    if patch.Some? then patch else current
  }

  function Ids<F(!new)>(s: seq<Doc<F>>): set<string>
  {
    set i | 0 <= i < |s| :: s[i].id
  }

  /** The unique index on `_id`. */
  ghost predicate UniqueIds<F(!new)>(s: seq<Doc<F>>)
  {
    forall i, j | 0 <= i < j < |s| :: s[i].id != s[j].id
  }

  /** The fields of the documents, in order, without their ids. */
  function Contents<F(!new)>(s: seq<Doc<F>>): (r: seq<F>)
    ensures |r| == |s|
  {
    if |s| == 0 then [] else [s[0].fields] + Contents(s[1..])
  }

  /** Appending a document appends its fields. */
  lemma {:induction false} ContentsAppend<F(!new)>(s: seq<Doc<F>>, d: Doc<F>)
    ensures Contents(s + [d]) == Contents(s) + [d.fields]
  {
    if |s| == 0 {
      assert s + [d] == [d];
    } else {
      assert (s + [d])[1..] == s[1..] + [d];
      ContentsAppend(s[1..], d);
    }
  }

  /** The filter `{_id: id}`. */
  function HasId<F(!new)>(id: string): Doc<F> -> bool
  {
    (d: Doc<F>) => d.id == id
  }

  /** The empty filter `{}`. */
  function AnyDoc<F(!new)>(): Doc<F> -> bool
  {
    (d: Doc<F>) => true
  }

  function Not<F(!new)>(p: Doc<F> -> bool): Doc<F> -> bool
  {
    (d: Doc<F>) => !p(d)
  }

  /** `find()` with the empty filter: every stored document, in natural order. */
  function FindAll<F(!new)>(s: seq<Doc<F>>): (r: seq<Doc<F>>)
    ensures r == s
  {
    Where(s, AnyDoc())
  }

  /** `find(p)`: the documents that match, in natural order. */
  function Where<F(!new)>(s: seq<Doc<F>>, p: Doc<F> -> bool): (r: seq<Doc<F>>)
    ensures |r| <= |s|
    ensures forall d :: d in r <==> d in s && p(d)
    ensures (forall d :: d in s ==> p(d)) ==> r == s
  {
    if |s| == 0 then [] else (if p(s[0]) then [s[0]] else []) + Where(s[1..], p)
  }

  /** `findOne(p)`: the first matching document in natural order, if any. */
  function FindOne<F(!new)>(s: seq<Doc<F>>, p: Doc<F> -> bool): (r: Option<Doc<F>>)
    ensures r.Some? ==> r.value in s && p(r.value)
    ensures r.None? <==> forall d :: d in s ==> !p(d)
  {
    if |s| == 0 then None else if p(s[0]) then Some(s[0]) else FindOne(s[1..], p)
  }

  /** `deleteOne(p)`: the first matching document, if any, is removed. */
  function RemoveFirst<F(!new)>(s: seq<Doc<F>>, p: Doc<F> -> bool): (r: seq<Doc<F>>)
    ensures FindOne(s, p).None? ==> r == s
    ensures FindOne(s, p).Some? ==> |r| == |s| - 1
    ensures forall d :: d in r ==> d in s
  {
    if |s| == 0 then [] else if p(s[0]) then s[1..] else [s[0]] + RemoveFirst(s[1..], p)
  }

  /** `deleteMany(p)`: every matching document is removed. */
  function RemoveAll<F(!new)>(s: seq<Doc<F>>, p: Doc<F> -> bool): (r: seq<Doc<F>>)
    ensures forall d :: d in r <==> d in s && !p(d)
  {
    Where(s, Not(p))
  }

  /** `updateOne(p, {$set: ...})`: the first matching document gets its fields
      rewritten by `update`; its `_id` and every other document stay as they were. */
  function UpdateFirst<F(!new)>(s: seq<Doc<F>>, p: Doc<F> -> bool, update: F -> F): (r: seq<Doc<F>>)
    ensures |r| == |s|
    ensures forall i | 0 <= i < |s| :: r[i].id == s[i].id
    ensures forall i | 0 <= i < |s| ::
      r[i] == if FirstMatchAt(s, p, i) then Doc(s[i].id, update(s[i].fields)) else s[i]
    ensures FindOne(s, p).None? ==> r == s
  {
    if |s| == 0 then []
    else if p(s[0]) then
      assert forall i | 0 < i < |s| :: !FirstMatchAt(s, p, i);
      [Doc(s[0].id, update(s[0].fields))] + s[1..]
    else
      FirstMatchAtTail(s, p);
      [s[0]] + UpdateFirst(s[1..], p, update)
  }

  /** Position k holds the first document that matches `p`. */
  ghost predicate FirstMatchAt<F(!new)>(s: seq<Doc<F>>, p: Doc<F> -> bool, k: int)
  {
    0 <= k < |s| && p(s[k]) && forall j | 0 <= j < k :: !p(s[j])
  }

  /** Past a first document that does not match, the first match moves one place along. */
  lemma FirstMatchAtTail<F(!new)>(s: seq<Doc<F>>, p: Doc<F> -> bool)
    requires |s| > 0 && !p(s[0])
    ensures !FirstMatchAt(s, p, 0)
    ensures forall i | 0 < i < |s| :: FirstMatchAt(s, p, i) <==> FirstMatchAt(s[1..], p, i - 1)
  {
    forall i | 0 < i < |s| ensures FirstMatchAt(s, p, i) <==> FirstMatchAt(s[1..], p, i - 1) {
      if FirstMatchAt(s[1..], p, i - 1) {
        forall j | 0 <= j < i ensures !p(s[j]) {
          if j > 0 {
            assert s[j] == s[1..][j - 1];
          }
        }
      }
      if FirstMatchAt(s, p, i) {
        forall j | 0 <= j < i - 1 ensures !p(s[1..][j]) {
          assert s[1..][j] == s[j + 1];
        }
      }
    }
  }

  /** MongoDB's order on a date path: a document without the path sorts
      before every document that has it. */
  predicate NoLater(a: Option<int>, b: Option<int>)
  {
    a.None? || (b.Some? && a.value <= b.value)
  }

  ghost predicate SortedDesc<F(!new)>(s: seq<Doc<F>>, key: Doc<F> -> Option<int>)
  {
    forall i, j | 0 <= i < j < |s| :: NoLater(key(s[j]), key(s[i]))
  }

  /** Places `d` before the first element whose key is not later than its own. */
  function InsertDesc<F(!new)>(d: Doc<F>, s: seq<Doc<F>>, key: Doc<F> -> Option<int>): (r: seq<Doc<F>>)
    requires SortedDesc(s, key)
    ensures SortedDesc(r, key)
    ensures multiset(r) == multiset(s) + multiset{d}
    ensures r[0] == d || (|s| > 0 && r[0] == s[0])
  {
    if |s| == 0 || NoLater(key(s[0]), key(d)) then
      SortedCons(d, s, key);
      [d] + s
    else
      var rest := InsertDesc(d, s[1..], key);
      assert s == [s[0]] + s[1..];
      forall x | x in rest ensures NoLater(key(x), key(s[0])) {
        assert x in multiset(rest);
        if x != d {
          var j :| 0 <= j < |s[1..]| && s[1..][j] == x;
          assert s[j + 1] == x;
        }
      }
      SortedCons(s[0], rest, key);
      [s[0]] + rest
  }

  /** A document no earlier than every element of a latest-first list may go in front of it. */
  lemma SortedCons<F(!new)>(x: Doc<F>, s: seq<Doc<F>>, key: Doc<F> -> Option<int>)
    requires SortedDesc(s, key)
    requires forall y | y in s :: NoLater(key(y), key(x))
    ensures SortedDesc([x] + s, key)
  {
    var t := [x] + s;
    forall i, j | 0 <= i < j < |t| ensures NoLater(key(t[j]), key(t[i])) {
      assert t[j] == s[j - 1];
      if i > 0 {
        assert t[i] == s[i - 1];
      }
    }
  }

  /** `.sort('-key')`: descending by `key`; documents with equal keys keep
      their natural order here (MongoDB leaves that order unspecified). */
  function SortDesc<F(!new)>(s: seq<Doc<F>>, key: Doc<F> -> Option<int>): (r: seq<Doc<F>>)
    ensures SortedDesc(r, key)
    ensures multiset(r) == multiset(s)
  {
    if |s| == 0 then []
    else
      assert s == [s[0]] + s[1..];
      InsertDesc(s[0], SortDesc(s[1..], key), key)
  }

  /** `r` is `s` with some documents left out, the rest in their order. */
  ghost predicate IsSubsequence<F(!new)>(r: seq<Doc<F>>, s: seq<Doc<F>>)
    decreases |s|
  {
    |r| == 0 || (|s| > 0 && if r[0] == s[0] then IsSubsequence(r[1..], s[1..]) else IsSubsequence(r, s[1..]))
  }

  lemma {:induction false} SubsequenceMembers<F(!new)>(r: seq<Doc<F>>, s: seq<Doc<F>>)
    requires IsSubsequence(r, s)
    ensures forall d :: d in r ==> d in s
    decreases |s|
  {
    if |r| > 0 {
      if r[0] == s[0] {
        SubsequenceMembers(r[1..], s[1..]);
        assert forall d :: d in r ==> d == r[0] || d in r[1..];
      } else {
        SubsequenceMembers(r, s[1..]);
      }
    }
  }

  /** Leaving documents out never makes two `_id`s equal. */
  lemma {:induction false} SubsequenceKeepsUniqueIds<F(!new)>(r: seq<Doc<F>>, s: seq<Doc<F>>)
    requires IsSubsequence(r, s) && UniqueIds(s)
    ensures UniqueIds(r)
    decreases |s|
  {
    if |r| > 0 {
      assert UniqueIds(s[1..]) by {
        forall i, j | 0 <= i < j < |s[1..]| ensures s[1..][i].id != s[1..][j].id {
          assert s[1..][i] == s[i + 1] && s[1..][j] == s[j + 1];
        }
      }
      if r[0] == s[0] {
        SubsequenceKeepsUniqueIds(r[1..], s[1..]);
        SubsequenceMembers(r[1..], s[1..]);
        forall i, j | 0 <= i < j < |r| ensures r[i].id != r[j].id {
          if i == 0 {
            assert r[j] == r[1..][j - 1];
            assert r[j] in r[1..];
            assert r[j] in s[1..];
            var k :| 0 <= k < |s[1..]| && s[1..][k] == r[j];
            assert s[k + 1] == r[j];
          } else {
            assert r[i] == r[1..][i - 1] && r[j] == r[1..][j - 1];
          }
        }
      } else {
        SubsequenceKeepsUniqueIds(r, s[1..]);
      }
    }
  }

  /** `find` keeps the matching documents in their natural order. */
  lemma {:induction false} WhereIsSubsequence<F(!new)>(s: seq<Doc<F>>, p: Doc<F> -> bool)
    ensures IsSubsequence(Where(s, p), s)
  {
    if |s| > 0 {
      WhereIsSubsequence(s[1..], p);
      var r := Where(s, p);
      if p(s[0]) {
        assert r == [s[0]] + Where(s[1..], p);
        assert r[1..] == Where(s[1..], p);
      } else {
        assert r == Where(s[1..], p);
      }
    }
  }

  /** `deleteOne` keeps every other document in its natural order. */
  lemma {:induction false} RemoveFirstIsSubsequence<F(!new)>(s: seq<Doc<F>>, p: Doc<F> -> bool)
    ensures IsSubsequence(RemoveFirst(s, p), s)
  {
    if |s| > 0 {
      var r := RemoveFirst(s, p);
      if p(s[0]) {
        SubsequenceOfTail(s[1..], s);
      } else {
        RemoveFirstIsSubsequence(s[1..], p);
        assert r[1..] == RemoveFirst(s[1..], p);
      }
    }
  }

  lemma {:induction false} SubsequenceOfTail<F(!new)>(t: seq<Doc<F>>, s: seq<Doc<F>>)
    requires |s| > 0 && t == s[1..]
    ensures IsSubsequence(t, s)
    decreases |s|
  {
    if |t| > 0 {
      if t[0] == s[0] {
        SubsequenceOfTail(t[1..], s[1..]);
      } else {
        SubsequenceReflexive(t);
      }
    }
  }

  lemma {:induction false} SubsequenceReflexive<F(!new)>(s: seq<Doc<F>>)
    ensures IsSubsequence(s, s)
  {
    if |s| > 0 {
      SubsequenceReflexive(s[1..]);
    }
  }

  /** Two equality filters select the same documents in either order. */
  lemma {:induction false} WhereCommutes<F(!new)>(s: seq<Doc<F>>, p: Doc<F> -> bool, q: Doc<F> -> bool)
    ensures Where(Where(s, p), q) == Where(Where(s, q), p)
  {
    if |s| > 0 {
      WhereCommutes(s[1..], p, q);
      assert Where(s, p) == (if p(s[0]) then [s[0]] else []) + Where(s[1..], p);
      assert Where(s, q) == (if q(s[0]) then [s[0]] else []) + Where(s[1..], q);
      WhereAppend((if p(s[0]) then [s[0]] else []), Where(s[1..], p), q);
      WhereAppend((if q(s[0]) then [s[0]] else []), Where(s[1..], q), p);
    }
  }

  /** `find` distributes over concatenation, which is what keeping the natural order means. */
  lemma {:induction false} WhereAppend<F(!new)>(a: seq<Doc<F>>, b: seq<Doc<F>>, p: Doc<F> -> bool)
    ensures Where(a + b, p) == Where(a, p) + Where(b, p)
  {
    if |a| == 0 {
      assert a + b == b;
    } else {
      var ab := a + b;
      assert ab[0] == a[0];
      assert ab[1..] == a[1..] + b;
      WhereAppend(a[1..], b, p);
      calc {
        Where(ab, p);
        (if p(a[0]) then [a[0]] else []) + Where(a[1..] + b, p);
        (if p(a[0]) then [a[0]] else []) + (Where(a[1..], p) + Where(b, p));
        ((if p(a[0]) then [a[0]] else []) + Where(a[1..], p)) + Where(b, p);
      }
    }
  }

  lemma {:induction false} WhereNone<F(!new)>(s: seq<Doc<F>>, p: Doc<F> -> bool)
    requires forall d :: d in s ==> !p(d)
    ensures Where(s, p) == []
  {
    if |s| > 0 {
      assert s[0] in s;
      WhereNone(s[1..], p);
    }
  }

  /** After `deleteMany(p)` nothing matches `p`, and a second `deleteMany(p)` changes nothing. */
  lemma RemoveAllClears<F(!new)>(s: seq<Doc<F>>, p: Doc<F> -> bool)
    ensures Where(RemoveAll(s, p), p) == []
    ensures RemoveAll(RemoveAll(s, p), p) == RemoveAll(s, p)
  {
    WhereNone(RemoveAll(s, p), p);
  }

  /** With unique ids, the document with a given `_id` is the one `findOne({_id})` returns. */
  lemma FindByIdUnique<F(!new)>(s: seq<Doc<F>>, d: Doc<F>)
    requires UniqueIds(s) && d in s
    ensures FindOne(s, HasId(d.id)) == Some(d)
  {
    var r := FindOne(s, HasId(d.id));
    var i :| 0 <= i < |s| && s[i] == r.value;
    var j :| 0 <= j < |s| && s[j] == d;
    assert i == j;
  }

  /** With unique ids, at most one document matches a filter that pins `_id`. */
  lemma {:induction false} AtMostOneWithId<F(!new)>(s: seq<Doc<F>>, p: Doc<F> -> bool, id: string)
    requires UniqueIds(s)
    requires forall d :: d in s && p(d) ==> d.id == id
    ensures |Where(s, p)| <= 1
  {
    if |s| > 0 {
      assert UniqueIds(s[1..]) by {
        forall i, j | 0 <= i < j < |s[1..]| ensures s[1..][i].id != s[1..][j].id {
          assert s[1..][i] == s[i + 1] && s[1..][j] == s[j + 1];
        }
      }
      AtMostOneWithId(s[1..], p, id);
      if p(s[0]) {
        forall d | d in s[1..] ensures !p(d) {
          var k :| 0 <= k < |s[1..]| && s[1..][k] == d;
          assert s[k + 1] == d;
        }
        WhereNone(s[1..], p);
      }
    }
  }

  /** `deleteOne({_id})` removes exactly what `deleteMany({_id})` would: the
      one document with that id, if there is one, and nothing else. */
  lemma {:induction false} RemoveFirstById<F(!new)>(s: seq<Doc<F>>, id: string)
    requires UniqueIds(s)
    ensures RemoveFirst(s, HasId(id)) == RemoveAll(s, HasId(id))
  {
    if |s| > 0 {
      assert UniqueIds(s[1..]) by {
        forall i, j | 0 <= i < j < |s[1..]| ensures s[1..][i].id != s[1..][j].id {
          assert s[1..][i] == s[i + 1] && s[1..][j] == s[j + 1];
        }
      }
      assert Where(s, Not(HasId(id))) == (if Not(HasId(id))(s[0]) then [s[0]] else []) + Where(s[1..], Not(HasId(id)));
      if s[0].id == id {
        forall d | d in s[1..] ensures Not(HasId(id))(d) {
          var k :| 0 <= k < |s[1..]| && s[1..][k] == d;
          assert s[k + 1] == d;
        }
      } else {
        RemoveFirstById(s[1..], id);
      }
    }
  }

  /** `deleteOne` takes out exactly one copy of the first match. */
  lemma {:induction false} RemoveFirstMultiset<F(!new)>(s: seq<Doc<F>>, p: Doc<F> -> bool)
    requires FindOne(s, p).Some?
    ensures multiset(Contents(RemoveFirst(s, p))) + multiset{FindOne(s, p).value.fields} == multiset(Contents(s))
  {
    assert s == [s[0]] + s[1..];
    if !p(s[0]) {
      RemoveFirstMultiset(s[1..], p);
    }
  }

  /** Appending a matching document and then running `deleteOne` removes the
      earlier match when there is one, and the appended document otherwise. */
  lemma {:induction false} RemoveFirstAfterAppend<F(!new)>(s: seq<Doc<F>>, d: Doc<F>, p: Doc<F> -> bool)
    requires p(d)
    ensures RemoveFirst(s + [d], p) == if FindOne(s, p).Some? then RemoveFirst(s, p) + [d] else s
  {
    if |s| == 0 {
      assert s + [d] == [d];
    } else {
      assert (s + [d])[1..] == s[1..] + [d];
      if !p(s[0]) {
        RemoveFirstAfterAppend(s[1..], d, p);
      }
    }
  }

  /** `updateOne({_id}, ...)` rewrites the document with that id and no other. */
  lemma {:induction false} UpdateFirstById<F(!new)>(s: seq<Doc<F>>, id: string, update: F -> F)
    requires UniqueIds(s)
    ensures forall i | 0 <= i < |s| ::
      UpdateFirst(s, HasId(id), update)[i] == if s[i].id == id then Doc(id, update(s[i].fields)) else s[i]
  {
    if |s| > 0 {
      assert UniqueIds(s[1..]) by {
        forall i, j | 0 <= i < j < |s[1..]| ensures s[1..][i].id != s[1..][j].id {
          assert s[1..][i] == s[i + 1] && s[1..][j] == s[j + 1];
        }
      }
      UpdateFirstById(s[1..], id, update);
    }
  }

  /** `findById(id)`, or `findOne({_id: id})`: the document with that `_id` when one
      is stored, none otherwise. */
  function FindById<F(!new)>(s: seq<Doc<F>>, id: string): (r: Option<Doc<F>>)
    requires UniqueIds(s)
    ensures r.Some? <==> id in Ids(s)
    ensures r.Some? ==> r.value in s && r.value.id == id
    ensures forall d :: d in s && d.id == id ==> r == Some(d)
  {
    var r := FindOne(s, HasId(id));
    assert r.Some? ==> id in Ids(s) by {
      if r.Some? {
        var i :| 0 <= i < |s| && s[i] == r.value;
      }
    }
    assert id in Ids(s) ==> r.Some? by {
      if id in Ids(s) {
        var i :| 0 <= i < |s| && s[i].id == id;
        assert s[i] in s;
      }
    }
    forall d | d in s && d.id == id ensures r == Some(d) {
      FindByIdUnique(s, d);
    }
    r
  }

  /** The `_id` a created document gets: the one the given object carries (a spread
      keeps it), or else the ObjectId `oid` the driver generates. */
  function NewId(given: Option<string>, oid: string): string
  {
    if given.Some? then given.value else oid
  }

  /** A document stored under a fresh `_id` is what `findById` then returns. */
  lemma InsertedIsFound<F(!new)>(s: seq<Doc<F>>, d: Doc<F>)
    requires UniqueIds(s) && d.id !in Ids(s)
    ensures UniqueIds(s + [d])
    ensures FindOne(s + [d], HasId(d.id)) == Some(d)
  {
    var t := s + [d];
    forall i, j | 0 <= i < j < |t| ensures t[i].id != t[j].id {
      if j == |s| {
        assert t[i] == s[i];
        assert s[i].id in Ids(s);
      }
    }
    assert d == t[|s|];
    FindByIdUnique(t, d);
  }

  /** A mutable collection: the `Model` behind one DAO. */
  class Collection<F(!new)> {
    var docs: seq<Doc<F>>

    ghost predicate Valid()
      reads this
    {
      UniqueIds(docs)
    }

    constructor (initial: seq<Doc<F>>)
      requires UniqueIds(initial)
      ensures Valid() && docs == initial
    {
      docs := initial;
    }

    /** The insert behind `Model.create`, once the schema has accepted the document. */
    method Insert(id: string, fields: F) returns (r: Result<Doc<F>>)
      requires Valid()
      modifies this
      ensures Valid()
      ensures id in Ids(old(docs)) ==> r == Err(DuplicateKey) && docs == old(docs)
      ensures id !in Ids(old(docs)) ==> r == Ok(Doc(id, fields)) && docs == old(docs) + [Doc(id, fields)]
      ensures r.Ok? ==> FindOne(docs, HasId(id)) == Some(r.value)
    {
      if id in Ids(docs) {
        r := Err(DuplicateKey);
      } else {
        InsertedIsFound(docs, Doc(id, fields));
        r := Ok(Doc(id, fields));
        docs := docs + [Doc(id, fields)];
      }
    }

    /** `deleteOne(p)`; the result is the reply's `deletedCount`. */
    method DeleteOne(p: Doc<F> -> bool) returns (deletedCount: nat)
      requires Valid()
      modifies this
      ensures Valid()
      ensures docs == RemoveFirst(old(docs), p)
      ensures deletedCount == if FindOne(old(docs), p).Some? then 1 else 0
    {
      RemoveFirstIsSubsequence(docs, p);
      SubsequenceKeepsUniqueIds(RemoveFirst(docs, p), docs);
      deletedCount := if FindOne(docs, p).Some? then 1 else 0;
      docs := RemoveFirst(docs, p);
    }

    /** `deleteMany(p)`; the result is the reply's `deletedCount`. */
    method DeleteMany(p: Doc<F> -> bool) returns (deletedCount: nat)
      requires Valid()
      modifies this
      ensures Valid()
      ensures docs == RemoveAll(old(docs), p)
      ensures deletedCount == |old(docs)| - |docs|
    {
      WhereIsSubsequence(docs, Not(p));
      SubsequenceKeepsUniqueIds(RemoveAll(docs, p), docs);
      var kept := RemoveAll(docs, p);
      deletedCount := |docs| - |kept|;
      docs := kept;
    }

    /** `updateOne(p, {$set: ...})`; the result is the reply's `matchedCount`. */
    method UpdateOne(p: Doc<F> -> bool, update: F -> F) returns (matchedCount: nat)
      requires Valid()
      modifies this
      ensures Valid()
      ensures docs == UpdateFirst(old(docs), p, update)
      ensures matchedCount == if FindOne(old(docs), p).Some? then 1 else 0
    {
      matchedCount := if FindOne(docs, p).Some? then 1 else 0;
      docs := UpdateFirst(docs, p, update);
    }
  }
}
