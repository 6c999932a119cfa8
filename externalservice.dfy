/**
 * The in-memory post store (package externalservice): a table from integer id
 * to post record with a fetch-by-id operation (GET) and a create-if-absent
 * operation (POST). Over calls made one after another, an id that holds a
 * post is never overwritten; the model is single-threaded.
 */
module ExternalService {
  import opened Wrappers

  /** A post record; `id` is the primary key and is supplied by the caller. */
  datatype Post = Post(id: int, title: string, description: string)

  /** What GET and POST return: the post, or an error carrying its message text. */
  datatype Result = Ok(post: Post) | Err(error: string)

  const PostNotFound := "Post not found"
  const PostIdAlreadyExists := "Post id already exists"

  /**
   * The store's table as the Go map holds it: an entry may be a nil pointer
   * (None), and a nil entry reads exactly like a missing key.
   */
  type Table = map<int, Option<Post>>

  /** Go's `t[id]`: the entry under `id`, or nil when the key is missing. */
  function At(t: Table, id: int): Option<Post>
  {
    if id in t then t[id] else None
  }

  /** The store's presence test `t[id] != nil`. */
  predicate Present(t: Table, id: int)
  {
    At(t, id).Some?
  }

  /** The posts the table holds, nil entries dropped: what a caller can observe. */
  ghost function Stored(t: Table): map<int, Post>
  {
    map k | k in t && t[k].Some? :: t[k].value
  }

  /** Specification of GET: fetch the post under `id`, or "Post not found". */
  function Fetch(t: Table, id: int): Result
  {
    if Present(t, id) then Ok(t[id].value) else Err(PostNotFound)
  }

  /**
   * Specification of POST: the new table and the result. An id that holds a
   * post is refused and the table is kept; otherwise `post` goes in under `id`
   * (replacing a nil entry, if any) and comes back unchanged.
   */
  function Create(t: Table, id: int, post: Post): (Table, Result)
  {
    if Present(t, id) then (t, Err(PostIdAlreadyExists)) else (t[id := Some(post)], Ok(post))
  }

  /** GET answers from the observable posts: the stored post, or "Post not found". */
  lemma FetchObserves(t: Table, id: int)
    ensures Fetch(t, id).Ok? <==> id in Stored(t)
    ensures Fetch(t, id).Ok? ==> Fetch(t, id).post == Stored(t)[id]
    ensures Fetch(t, id).Err? ==> Fetch(t, id).error == PostNotFound
  {
  }

  /** POST on a present id fails with "Post id already exists" and keeps the table, whatever the post. */
  lemma CreateOnPresentFails(t: Table, id: int, post: Post)
    requires Present(t, id)
    ensures Create(t, id, post) == (t, Err(PostIdAlreadyExists))
  {
  }

  /**
   * POST on an absent id succeeds, returns the post unchanged, and adds
   * exactly that post to the observable posts.
   */
  lemma CreateOnAbsentStores(t: Table, id: int, post: Post)
    requires !Present(t, id)
    ensures Create(t, id, post).1 == Ok(post)
    ensures Stored(Create(t, id, post).0) == Stored(t)[id := post]
  {
  }

  /** A successful POST changes only the entry for `id`: every other key keeps its presence and value. */
  lemma CreateFrame(t: Table, id: int, post: Post, k: int)
    requires k != id
    ensures k in Create(t, id, post).0 <==> k in t
    ensures k in t ==> Create(t, id, post).0[k] == t[k]
  {
  }

  /** Round trip: after a successful POST of `post` under `id`, GET of `id` returns `post`. */
  lemma CreateThenFetch(t: Table, id: int, post: Post)
    requires Create(t, id, post).1.Ok?
    ensures Fetch(Create(t, id, post).0, id) == Ok(post)
  {
  }

  /** One call made to the store. */
  datatype Call = GetCall(id: int) | PostCall(id: int, post: Post)

  /** The effect of one call: the new table and the call's result. */
  function Step(t: Table, c: Call): (Table, Result)
  {
    match c
    case GetCall(id) => (t, Fetch(t, id))
    case PostCall(id, post) => Create(t, id, post)
  }

  /** The calls made one after the other: the final table and one result per call, in order. */
  function Replay(t: Table, calls: seq<Call>): (r: (Table, seq<Result>))
    ensures |r.1| == |calls|
    decreases |calls|
  {
    if calls == [] then (t, [])
    else
      var s := Step(t, calls[0]);
      var rest := Replay(s.0, calls[1..]);
      (rest.0, [s.1] + rest.1)
  }

  /**
   * Stored entries are stable: once `id` holds a post, any sequence of calls
   * leaves that entry as it is, every later GET of `id` returns it, and every
   * later POST to `id` fails with "Post id already exists".
   */
  lemma {:induction false} EntryStable(t: Table, calls: seq<Call>, id: int)
    requires Present(t, id)
    ensures Present(Replay(t, calls).0, id) && Replay(t, calls).0[id] == t[id]
    ensures forall i :: 0 <= i < |calls| && calls[i].id == id ==>
      Replay(t, calls).1[i] == (if calls[i].GetCall? then Ok(t[id].value) else Err(PostIdAlreadyExists))
    decreases |calls|
  {
    if calls != [] {
      var s := Step(t, calls[0]);
      assert Present(s.0, id) && s.0[id] == t[id];
      EntryStable(s.0, calls[1..], id);
      var rs := Replay(t, calls).1;
      assert rs == [s.1] + Replay(s.0, calls[1..]).1;
      forall i | 0 <= i < |calls| && calls[i].id == id
        ensures rs[i] == (if calls[i].GetCall? then Ok(t[id].value) else Err(PostIdAlreadyExists))
      {
        if i > 0 {
          assert calls[1..][i - 1] == calls[i];
        }
      }
    }
  }

  /**
   * Ids never posted stay absent: if `id` holds no post and no call in the
   * sequence is a POST to `id`, it still holds none afterwards and every GET
   * of `id` along the way fails with "Post not found".
   */
  lemma {:induction false} NeverPostedStaysAbsent(t: Table, calls: seq<Call>, id: int)
    requires !Present(t, id)
    requires forall i :: 0 <= i < |calls| ==> !(calls[i].PostCall? && calls[i].id == id)
    ensures !Present(Replay(t, calls).0, id)
    ensures forall i :: 0 <= i < |calls| && calls[i].id == id ==> Replay(t, calls).1[i] == Err(PostNotFound)
    decreases |calls|
  {
    if calls != [] {
      var s := Step(t, calls[0]);
      assert !Present(s.0, id);
      assert forall i :: 0 <= i < |calls[1..]| ==> calls[1..][i] == calls[i + 1];
      NeverPostedStaysAbsent(s.0, calls[1..], id);
      var rs := Replay(t, calls).1;
      assert rs == [s.1] + Replay(s.0, calls[1..]).1;
      forall i | 0 <= i < |calls| && calls[i].id == id
        ensures rs[i] == Err(PostNotFound)
      {
        if i > 0 {
          assert calls[1..][i - 1] == calls[i];
        }
      }
    }
  }

  /**
   * The first POST to an id succeeds whatever came before it, as long as the
   * id held no post to begin with and no earlier call posted to it.
   */
  lemma FirstPostSucceeds(t: Table, calls: seq<Call>, id: int, post: Post)
    requires !Present(t, id)
    requires forall i :: 0 <= i < |calls| ==> !(calls[i].PostCall? && calls[i].id == id)
    ensures Create(Replay(t, calls).0, id, post).1 == Ok(post)
    ensures Fetch(Create(Replay(t, calls).0, id, post).0, id) == Ok(post)
  {
    NeverPostedStaysAbsent(t, calls, id);
  }

  /** The observable posts only grow: whatever calls follow, every stored post is still stored, unchanged. */
  lemma StoredGrows(t: Table, calls: seq<Call>)
    ensures forall k :: k in Stored(t) ==>
      k in Stored(Replay(t, calls).0) && Stored(Replay(t, calls).0)[k] == Stored(t)[k]
  {
    forall k | k in Stored(t)
      ensures k in Stored(Replay(t, calls).0) && Stored(Replay(t, calls).0)[k] == Stored(t)[k]
    {
      EntryStable(t, calls, k);
    }
  }

  /**
   * The store's client (`ClientImpl`). Its `posts` table is updated in place
   * by POST and only read by GET.
   */
  class ClientImpl {
    var posts: Table

    /** The struct literal `&ClientImpl{Posts: posts}`. */
    constructor (posts: Table)
      ensures this.posts == posts
    {
      this.posts := posts;
    }

    /** Fetch the post under `id`; the table is only read. */
    method GET(id: int) returns (r: Result)
      ensures r == Fetch(posts, id)
      ensures Present(posts, id) ==> r == Ok(posts[id].value)
      ensures !Present(posts, id) ==> r == Err(PostNotFound)
    {
      var entry := At(posts, id);
      if entry.None? {
        return Err(PostNotFound);
      }
      return Ok(entry.value);
    }

    /** Store `post` under `id` unless `id` already holds a post; `post.id` is not compared with `id`. */
    method POST(id: int, post: Post) returns (r: Result)
      modifies this
      ensures (posts, r) == Create(old(posts), id, post)
      ensures old(Present(posts, id)) ==> r == Err(PostIdAlreadyExists) && posts == old(posts)
      ensures !old(Present(posts, id)) ==> r == Ok(post) && posts == old(posts)[id := Some(post)]
    {
      if At(posts, id).Some? {
        return Err(PostIdAlreadyExists);
      }
      posts := posts[id := Some(post)];
      return Ok(post);
    }
  }
}
