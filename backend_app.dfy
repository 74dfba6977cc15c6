/**
  The post store behind the blog API: the in-memory collection of posts, the
  listing query and the create rule (validate the two required fields, assign
  the next id, append).
 */
module BackendApp {
  import opened Wrappers

  /** A post as stored and returned: server-assigned id, title and content. */
  datatype Post = Post(id: int, title: string, content: string)

  /** A JSON object from a request body; only string-valued members are modelled. */
  type Body = map<string, string>

  const TitleField: string := "title"
  const ContentField: string := "content"
  const MissingFieldsError: string := "Missing required field(s)"

  /** What a create request answers: the new post, or the list of missing fields. */
  datatype CreateResult =
    | Created(post: Post)
    | Rejected(error: string, missingFields: seq<string>)

  /** A create result together with the collection it leaves behind. */
  datatype Outcome = Outcome(result: CreateResult, posts: seq<Post>)

  /** The HTTP status a create result is sent with. */
  function Status(r: CreateResult): (code: int)
    ensures code == 201 <==> r.Created?
    ensures code == 400 <==> r.Rejected?
  {
    match r
    case Created(_) => 201
    case Rejected(_, _) => 400
  }

  /** The two posts the process starts with. */
  function Seed(): seq<Post>
  {
    [ Post(1, "First post", "This is the first post.")
    , Post(2, "Second post", "This is the second post.") ]
  }

  ghost predicate UniqueIds(posts: seq<Post>)
  {
    forall i, j :: 0 <= i < j < |posts| ==> posts[i].id != posts[j].id
  }

  /** Ids grow strictly in insertion order. */
  ghost predicate IdsIncreasing(posts: seq<Post>)
  {
    forall i, j :: 0 <= i < j < |posts| ==> posts[i].id < posts[j].id
  }

  /** No stored post has an empty title or an empty content. */
  ghost predicate AllFilled(posts: seq<Post>)
  {
    forall i :: 0 <= i < |posts| ==> posts[i].title != "" && posts[i].content != ""
  }

  /** The body a create request is validated against: an absent or unparseable body counts as `{}`. */
  function RequestData(raw: Option<Body>): Body
  {
    raw.GetOr(map[])
  }

  /** `data.get(key)` is truthy: the member exists and is not the empty string. */
  predicate Supplied(data: Body, key: string)
  {
    key in data && data[key] != ""
  }

  /** The fields a create request lacks, title before content. */
  function Missing(data: Body): (m: seq<string>)
    ensures TitleField in m <==> !Supplied(data, TitleField)
    ensures ContentField in m <==> !Supplied(data, ContentField)
    ensures forall i :: 0 <= i < |m| ==> m[i] == TitleField || m[i] == ContentField
    ensures forall i, j :: 0 <= i < j < |m| ==> m[i] != m[j]
    ensures TitleField in m ==> m[0] == TitleField
  {
    (if Supplied(data, TitleField) then [] else [TitleField]) +
    (if Supplied(data, ContentField) then [] else [ContentField])
  }

  /** Collects the missing fields one check at a time. */
  method CollectMissing(data: Body) returns (missing: seq<string>)
    ensures missing == Missing(data)
  {
    missing := [];
    if !Supplied(data, TitleField) {
      missing := missing + [TitleField];
    }
    if !Supplied(data, ContentField) {
      missing := missing + [ContentField];
    }
  }

  function Max(a: int, b: int): int
  {
    if a < b then b else a
  }

  /** `max` over the ids with `default=0`: 0 for no posts, otherwise the largest id. */
  function MaxId(posts: seq<Post>): (m: int)
    ensures posts == [] ==> m == 0
    ensures forall i :: 0 <= i < |posts| ==> posts[i].id <= m
    ensures posts != [] ==> exists i :: 0 <= i < |posts| && posts[i].id == m
    decreases |posts|
  {
    if |posts| == 0 then 0
    else if |posts| == 1 then posts[0].id
    else
      var rest := MaxId(posts[1..]);
      assert posts[1..][0].id == posts[1].id;
      Max(posts[0].id, rest)
  }

  /** The id a new post receives. */
  function NextId(posts: seq<Post>): (id: int)
    ensures forall i :: 0 <= i < |posts| ==> posts[i].id < id
    ensures posts == [] ==> id == 1
    ensures posts != [] ==> exists i :: 0 <= i < |posts| && posts[i].id + 1 == id
  {
    MaxId(posts) + 1
  }

  /**
    The create rule on values: what one create request on `posts` answers
    and which collection it leaves.
   */
  function Create(posts: seq<Post>, raw: Option<Body>): (o: Outcome)
    ensures o.result.Rejected? <==> Missing(RequestData(raw)) != []
    ensures o.result.Rejected? ==>
      o.result.error == MissingFieldsError &&
      o.result.missingFields == Missing(RequestData(raw)) &&
      o.posts == posts
    ensures o.result.Created? ==>
      var data := RequestData(raw);
      TitleField in data && ContentField in data &&
      o.result.post == Post(NextId(posts), data[TitleField], data[ContentField]) &&
      o.posts == posts + [o.result.post]
    ensures UniqueIds(posts) ==> UniqueIds(o.posts)
    ensures IdsIncreasing(posts) ==> IdsIncreasing(o.posts)
    ensures AllFilled(posts) ==> AllFilled(o.posts)
  {
    var data := RequestData(raw);
    var missing := Missing(data);
    if missing != [] then
      Outcome(Rejected(MissingFieldsError, missing), posts)
    else
      var post := Post(NextId(posts), data[TitleField], data[ContentField]);
      Outcome(Created(post), posts + [post])
  }

  /** The process-wide post collection. */
  class PostStore {
    var posts: seq<Post>

    ghost predicate Valid()
      reads this
    {
      UniqueIds(posts) && IdsIncreasing(posts) && AllFilled(posts)
    }

    /** The collection as the process starts with it. */
    constructor ()
      ensures Valid()
      ensures posts == Seed()
    {
      posts := Seed();
    }

    /** Lists the posts as stored, in insertion order. */
    function GetPosts(): (r: seq<Post>)
      reads this
      ensures r == posts
      ensures Valid() ==> UniqueIds(r) && AllFilled(r)
    {
      posts
    }

    /** Handles one create request, appending the new post on success. */
    method AddPost(raw: Option<Body>) returns (r: CreateResult)
      requires Valid()
      modifies this
      ensures Valid()
      ensures Outcome(r, posts) == Create(old(posts), raw)
    {
      var data := RequestData(raw);
      var missing := CollectMissing(data);
      if missing != [] {
        return Rejected(MissingFieldsError, missing);
      }
      var newId := MaxId(posts) + 1;
      var newPost := Post(newId, data[TitleField], data[ContentField]);
      posts := posts + [newPost];
      r := Created(newPost);
    }
  }

  /** Appending a post raises the maximum id to that post's id if it is larger. */
  lemma {:induction false} MaxIdAppend(posts: seq<Post>, p: Post)
    ensures MaxId(posts + [p]) == if posts == [] then p.id else Max(MaxId(posts), p.id)
    decreases |posts|
  {
    if |posts| > 1 {
      assert (posts + [p])[1..] == posts[1..] + [p];
      MaxIdAppend(posts[1..], p);
    } else if |posts| == 1 {
      assert (posts + [p])[1..] == [p];
    }
  }

  /** In a collection whose ids increase, the next id follows the last post's id. */
  lemma NextIdFollowsLast(posts: seq<Post>)
    requires IdsIncreasing(posts)
    requires posts != []
    ensures NextId(posts) == posts[|posts| - 1].id + 1
  {
  }

  /** Two creates that both succeed receive consecutive ids. */
  lemma SuccessiveCreatesNumberConsecutively(posts: seq<Post>, first: Option<Body>, second: Option<Body>)
    requires Create(posts, first).result.Created?
    requires Create(Create(posts, first).posts, second).result.Created?
    ensures Create(Create(posts, first).posts, second).result.post.id ==
            Create(posts, first).result.post.id + 1
  {
    var p := Create(posts, first).result.post;
    MaxIdAppend(posts, p);
  }

  /** An absent or unparseable body is rejected for lacking both fields, and nothing is stored. */
  lemma AbsentBodyRejected(posts: seq<Post>)
    ensures Create(posts, None) == Outcome(Rejected(MissingFieldsError, [TitleField, ContentField]), posts)
    ensures Create(posts, Some(map[])) == Create(posts, None)
  {
  }

  /** The seed collection satisfies the store's invariants. */
  lemma SeedWellFormed()
    ensures |Seed()| == 2 && Seed()[0].id == 1 && Seed()[1].id == 2
    ensures UniqueIds(Seed()) && IdsIncreasing(Seed()) && AllFilled(Seed())
  {
  }

  /** Creating `{title: "T", content: "C"}` on the seed collection yields post 3 at the end. */
  lemma CreateOnSeed()
    ensures Create(Seed(), Some(map[TitleField := "T", ContentField := "C"])) ==
            Outcome(Created(Post(3, "T", "C")), Seed() + [Post(3, "T", "C")])
  {
  }
}
