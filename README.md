# Post store and its HTTP handlers, in Dafny

This project models a small HTTP service that keeps "post" records in memory. It has two parts.

- **The store** (`externalservice.ClientImpl`). It is a table from integer id to a post `{id, title, description}`. `GET(id)` returns the stored post or the error "Post not found". `POST(id, post)` stores the post if the id holds none. Otherwise it fails with "Post id already exists" and leaves the table as it was. Over any sequence of calls made one after another, an entry that holds a post is never overwritten. The table is a Go map of pointers, so an entry can be nil. A nil entry counts as absent, both in the presence test and for the insert.
- **The handlers** (`get` and `post` on `Server`). Each calls the store once and writes a response. The response has a status, the content type `application/json; charset=UTF-8` and the envelope `{code, message, path}`. `code` always equals the status. `path` is `/api/posts/` followed by the decimal form of the parsed id.
  - GET answers 200 with the post, or 400 with the generic text "Bad Request". The store's own error text is not passed on.
  - POST builds the post from the path id and the form values `title` and `description`. It answers 201 with the saved post, or 400 with the store's error text.

Files:
- `wrappers.dfy`: `Option`.
- `externalservice.dfy`: the data model (`Post`, `Result`, `Table`) and the specification functions `Fetch` and `Create`. It also has `Replay`, which runs a sequence of store calls, the lemmas about all three, and the class `ClientImpl`. `ClientImpl` has a `posts` map field that `POST` updates in place.
- `format.dfy`: the `%d` rendering of a non-negative id, reading a digit string back, and the last `/`-separated segment of a path.
- `server.dfy`: the response records, `successResponse`/`errorResponse`, the path, and the class `Server` with its two handlers. The handlers are methods over the store object.
- `scenarios.dfy`: request scenarios with the exact responses they produce. Two follow the server's tests, and two more follow from the handlers.

Paths are `/api/posts/{id}`, as the code registers them at server.go:29-30.

## Model

| member | source | states |
|---|---|---|
| ExternalService.ClientImpl.constructor | server.go:34-38 | A client built from a table holds exactly that table. |
| ExternalService.ClientImpl.GET | externalservice/client.go:29-34 | Without a non-nil entry for `id` the result is `Err("Post not found")`; with one it is `Ok` of exactly the stored post; the table is not changed (the method has no modifies clause); the result equals `Fetch(posts, id)`. |
| ExternalService.ClientImpl.POST | externalservice/client.go:36-44 | On a present id the result is `Err("Post id already exists")` and the table is unchanged whatever the post; otherwise the post is stored under `id`, overwriting a nil entry if one is there, and returned unchanged; `post.id` is not checked against `id`; the new table and result equal `Create(old table, id, post)`. |
| ExternalService.FetchObserves | externalservice/client.go:29-34 | GET succeeds exactly when `id` is among the observable posts (nil entries dropped), returns that post, and otherwise fails with "Post not found". |
| ExternalService.CreateOnPresentFails | externalservice/client.go:37-38 | POST to an id that holds a post returns "Post id already exists" and keeps the whole table, for any payload. |
| ExternalService.CreateOnAbsentStores | externalservice/client.go:40-43 | POST to an absent id returns the post unchanged, and the observable posts become the old ones plus exactly that post under `id`. |
| ExternalService.CreateFrame | externalservice/client.go:41 | POST changes no key other than `id`: each other key keeps its presence and its value. |
| ExternalService.CreateThenFetch | externalservice/client.go:29-43 | Round trip: after a successful POST of `post` under `id`, GET of `id` returns `post`. |
| ExternalService.EntryStable | externalservice/client.go:36-43 | Once `id` holds a post, any later sequence of GET/POST calls leaves that entry unchanged. Every later GET of `id` returns the entry, and every later POST to `id` fails with "Post id already exists". |
| ExternalService.NeverPostedStaysAbsent | externalservice/client.go:29-43 | If `id` holds no post and no call in a sequence posts to it, it still holds none afterwards, and every GET of `id` along the way fails with "Post not found". |
| ExternalService.FirstPostSucceeds | externalservice/client.go:36-43 | The first POST to an id that started absent succeeds after any earlier calls that did not post to it, and a GET of it then returns the post. |
| ExternalService.StoredGrows | externalservice/client.go:36-43 | Whatever calls follow, every observable post stays present with the same value: the stored posts only grow. |
| Format.Decimal | server.go:48 | The `%d` rendering of a non-negative id is a non-empty string of digits with no leading zero, and it starts with '0' exactly when the id is 0. |
| Format.ParseDigits | server_test.go:153 | `strconv.Atoi` restricted to strings of digits (its optional leading sign is not modelled): it succeeds exactly on non-empty digit strings, and on a canonical string it is the inverse of the `%d` rendering. |
| Format.LastSegment | server_test.go:151-153 | Splitting at '/' and taking the last part gives a suffix of the path with no '/'. When that suffix is shorter than the path, the character before it is '/'. |
| Format.ValueOfDecimal | server_test.go:153-154 | The number that the decimal rendering of `n` denotes is `n`. |
| Format.DecimalRoundTrip | server_test.go:151-156 | Parsing the decimal rendering of `n` gives `Some(n)`. |
| Format.DecimalOfValue | server.go:48 | Conversely, rendering the value of any canonical digit string gives that string back, so the rendering is the unique canonical form. |
| Format.LastSegmentAfterSlash | server_test.go:151-153 | Splitting `prefix + seg` at '/' and taking the last part gives `seg`, when the prefix ends in '/' and `seg` has no '/'. |
| Server.PostPath | server.go:48 | `fmt.Sprintf("/api/posts/%d", id)`, as used at server.go:48, 51, 67 and 70: the path starts with `/api/posts/`, and the rest is a canonical digit string that parses back to the id. |
| Server.SuccessResponse | server.go:74-82 | The written status equals the envelope code and the given `code`. The content type is JSON/UTF-8, the message is the post and the path is the given one. Both handlers' `WellFormed` ensures rest on this. |
| Server.ErrorResponse | server.go:84-92 | The written status equals the envelope code and the given `code`. The content type is JSON/UTF-8, the message is the given text and the path is the given one. Both handlers' `WellFormed` ensures rest on this. |
| Server.PostPathNamesId | server_test.go:151-156 | The last '/'-separated segment of `/api/posts/<id>` parses back to the id. |
| Server.Server.constructor | server.go:34-38 | A server built over a client calls that client. |
| Server.Server.HandleGet | server.go:43-53 | The status is 200 exactly when the store holds a post for `id`, and then the message is that post. Otherwise the status is 400 and the message is "Bad Request", not the store's text. In both cases the envelope code equals the status, the content type is JSON/UTF-8, and the path is `/api/posts/<id>`. |
| Server.Server.HandlePost | server.go:55-72 | The store receives `Post(id, title, description)`. The status is 201 exactly when the id was absent: then the message is that post and the table gains exactly that entry. Otherwise the status is 400, the message is "Post id already exists" and the table is unchanged. In both cases the envelope code equals the status, the content type is JSON/UTF-8, and the path is `/api/posts/<id>`. |
| Scenarios.PostThenStorePost | server_test.go:51-87 | On an empty store, POST 87 with "Hello World!"/"Lorem Ipsum Dolor Sit Amen." answers 201 with that post at `/api/posts/87`. A later store POST of 87 fails with "Post id already exists". |
| Scenarios.RepeatedPost | server.go:65-68 | Repeating that POST, with any form values, answers 400 with the store's text "Post id already exists" at `/api/posts/87`. |
| Scenarios.GetOnEmptyStore | server_test.go:131-161 | On an empty store, GET 87 answers 400 with "Bad Request" at `/api/posts/87`. The path's last segment reads back as 87, and the store's GET reports "Post not found". |
| Scenarios.PostThenGet | server.go:43-72 | After POST 87, GET 87 answers 200 with the stored post at `/api/posts/87`. |

## Left out

- `Run`, `main`, `http.ListenAndServe` and the `utils.Logger` wrapper: process startup, network I/O and logging. `utils` is not part of this model.
- Routing with gorilla/mux (path pattern `[0-9]+`, `StrictSlash`, method dispatch): library behaviour. The model keeps only its consequence: the handlers receive a non-negative id.
- `strconv.Atoi`: its error is ignored, and it clamps values above `math.MaxInt` (2^63-1 on 64-bit platforms, 2^31-1 on 32-bit ones) to `math.MaxInt`. Ids are unbounded integers here, so that clamping is not modelled.
- Format.ParseDigits: reads digit strings only. `strconv.Atoi` also accepts a leading '+' or '-' ("+87" gives 87, "-5" gives -5), which this function refuses. Only `%d` output of a non-negative id is read back here, and that output has no sign.
- `r.FormValue` form decoding: `title` and `description` are given strings.
- JSON encoding with `json.NewEncoder`, including `omitempty` on `description`: the envelope is an abstract record, not bytes.
- `sync.RWMutex` locking and concurrency: the store is modelled single-threaded. In the source, the read in `GET` is unguarded, and so is POST's own presence test at externalservice/client.go:37, which sits outside the lock taken at lines 40-42. Two concurrent POSTs to the same absent id can both pass that test and both succeed, and the later write replaces the earlier post. `EntryStable`, `StoredGrows` and the other lemmas over `Replay` therefore hold for sequential calls only.
- The `Client` interface and the mocks it allows: the server holds the one implementation, `ClientImpl`.
- ExternalService.ClientImpl.POST: takes a non-nil post. The handler never passes nil, so the Go behaviour of storing a nil pointer (which stays absent) is not modelled.
- Post records are values. Go shares the stored pointer with the caller, but no code mutates a post, so the aliasing is not modelled.
