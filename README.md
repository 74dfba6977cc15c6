# Blog post store: create rule and collection

A Dafny model of the post store in the blog API's backend. The service keeps one
process-wide, in-memory list of posts (`id`, `title`, `content`) that starts out
holding two seed posts. `GET /api/posts` returns that list as it is stored.
`POST /api/posts` creates a post:

- it reads the JSON body, and an absent or unparseable body counts as `{}`;
- it lists every required field (`title`, then `content`) whose value is
  absent or empty;
- if any field is missing, it rejects the request with that list and stores nothing;
- otherwise it gives the new post the largest existing id plus one (1 for an
  empty list) and appends the post.

The model has two modules:

- `Wrappers` (`wrappers.dfy`): the `Option` type, used for the request body.
- `BackendApp` (`backend_app.dfy`): the post record, the validation, the id
  rule, and `Create`, the create rule written as a function on values. It also
  has the `PostStore` class. Its `posts` field is the global list. Its
  `AddPost` method updates that field in place and is proved to agree with
  `Create`.

The store's invariant `Valid()` says three things about the stored posts:

- no two posts share an id;
- ids increase strictly in insertion order;
- no post has an empty title or an empty content.

The seed list establishes the invariant, and every create keeps it.

Some parts of the service are not modelled. A request body is modelled as
`Option<map<string, string>>`, and `None` stands for a body that is absent or
does not parse. HTTP transport is reduced to a result datatype plus the status
number that goes with it.

## Model

| member | source | states |
|---|---|---|
| `BackendApp.Missing` | backend/backend_app.py:23-27 | "title" is reported exactly when the title is absent or empty, and "content" exactly when the content is absent or empty. Nothing else is reported, no field appears twice, and "title" always comes first. |
| `BackendApp.CollectMissing` | backend/backend_app.py:23-27 | Building the list by two successive conditional appends gives exactly `Missing(data)`. |
| `BackendApp.MaxId` | backend/backend_app.py:34 | `max` over the ids with `default=0`: 0 for an empty collection. Otherwise the result is one of the stored ids and at least every stored id. |
| `BackendApp.NextId` | backend/backend_app.py:34 | The new id is strictly greater than every existing id. It is 1 for an empty collection, and otherwise some existing id plus 1. |
| `BackendApp.Create` | backend/backend_app.py:19-38 | A request is rejected exactly when a field is missing. A rejection carries the error message and the full missing list, and leaves the collection unchanged. A success appends exactly one post at the end: it has the next id and the submitted title and content. Earlier posts stay unchanged and in order. Unique ids, increasing ids and non-empty fields are all preserved. |
| `BackendApp.Status` | backend/backend_app.py:30-32 | A success is answered with 201 and a rejection with 400, and each status means only that outcome. |
| `BackendApp.PostStore.constructor` | backend/backend_app.py:7-10 | The store starts with the two seed posts and satisfies its invariant. |
| `BackendApp.PostStore.GetPosts` | backend/backend_app.py:14-15 | Listing returns the stored collection unchanged and in insertion order. Under the invariant, the listed ids are pairwise distinct and no field is empty. |
| `BackendApp.PostStore.AddPost` | backend/backend_app.py:19-38 | The in-place handler keeps the store invariant. Its answer and the new collection are exactly what `Create` gives for the old collection. |
| `BackendApp.MaxIdAppend` | backend/backend_app.py:34 | Appending a post makes the maximum id the larger of the old maximum and the new post's id. |
| `BackendApp.NextIdFollowsLast` | backend/backend_app.py:34-36 | When ids increase in insertion order, the next id is the last post's id plus 1. |
| `BackendApp.SuccessiveCreatesNumberConsecutively` | backend/backend_app.py:34-36 | When two creates in a row both succeed, the second post's id is the first post's id plus 1. |
| `BackendApp.AbsentBodyRejected` | backend/backend_app.py:21-32 | An absent, unparseable or empty body is rejected with missing fields `["title", "content"]`, and the collection is unchanged. |
| `BackendApp.SeedWellFormed` | backend/backend_app.py:7-10 | The seed posts have ids 1 and 2. The seed ids are distinct and increasing, and no seed field is empty. |
| `BackendApp.CreateOnSeed` | backend/backend_app.py:7-10 | Creating `{title: "T", content: "C"}` on the seed collection returns post 3 and appends it after the two seed posts. |

## Left out

- The Flask application, its route decorators, `jsonify` and the response encoding: these are transport. Results are the `CreateResult` datatype, and `Status` gives the status code.
- The CORS setup: a foreign library adds headers and changes no data.
- The JSON parsing done by `request.get_json(force=True, silent=True)`: the body is an `Option` of a string-valued map, and `None` is a body that is absent or does not parse.
- Non-string JSON values are not modelled. A non-empty list or a non-zero number is truthy in Python, so the source accepts it and stores it as a title or content. The model only has strings, where "missing" means absent or the empty string.
- A JSON body that parses to something other than an object is not modelled. A non-empty list is an example: `data.get` then raises, and the server answers with its own error.
- Starting the server with `app.run` (host, port and debug flag) is not modelled.
- Concurrent requests are not modelled. The source has no locking, and the model runs one handler at a time.
- Updating, deleting, searching and sorting posts are described for this service, but the handler file has no code for them, so they are not modelled.
