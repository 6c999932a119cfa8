/**
 * Request scenarios run against a fresh server over an empty store, with the
 * exact responses they lead to. `PostThenStorePost` and `GetOnEmptyStore`
 * follow the server's tests; `RepeatedPost` and `PostThenGet` are further
 * consequences of the handlers.
 */
module Scenarios {
  import opened Wrappers
  import opened ExternalService
  import opened Server
  import Format

  const HelloTitle := "Hello World!"
  const HelloDescription := "Lorem Ipsum Dolor Sit Amen."

  /**
   * `POST /api/posts/87` with the form title "Hello World!" and description
   * "Lorem Ipsum Dolor Sit Amen." answers 201 with the post; a direct store
   * POST of the same id afterwards fails with "Post id already exists".
   */
  method PostThenStorePost() returns (created: Response, storeAgain: Result)
    ensures created == Response(201, "application/json; charset=UTF-8",
      Envelope(201, Body(Post(87, HelloTitle, HelloDescription)), "/api/posts/87"))
    ensures storeAgain == Err("Post id already exists")
  {
    var client := new ClientImpl(map[]);
    var server := new Server(client);
    assert Format.Decimal(87) == "87";
    created := server.HandlePost(87, HelloTitle, HelloDescription);
    storeAgain := client.POST(87, Post(87, HelloTitle, HelloDescription));
  }

  /**
   * Repeating that request answers 400 with the store's text "Post id already
   * exists" as the message, whatever the second form holds.
   */
  method RepeatedPost(title: string, description: string) returns (repeated: Response)
    ensures repeated == Response(400, "application/json; charset=UTF-8",
      Envelope(400, Text("Post id already exists"), "/api/posts/87"))
  {
    var client := new ClientImpl(map[]);
    var server := new Server(client);
    assert Format.Decimal(87) == "87";
    var _ := server.HandlePost(87, HelloTitle, HelloDescription);
    repeated := server.HandlePost(87, title, description);
  }

  /**
   * `GET /api/posts/87` on an empty store answers 400 with "Bad Request"; the
   * last segment of the response path reads back as 87, and the store's own
   * GET reports "Post not found".
   */
  method GetOnEmptyStore() returns (resp: Response, pathId: Option<nat>, storeResult: Result)
    ensures resp == Response(400, "application/json; charset=UTF-8",
      Envelope(400, Text("Bad Request"), "/api/posts/87"))
    ensures pathId == Some(87)
    ensures storeResult == Err("Post not found")
  {
    var client := new ClientImpl(map[]);
    var server := new Server(client);
    assert Format.Decimal(87) == "87";
    resp := server.HandleGet(87);
    PostPathNamesId(87);
    pathId := Format.ParseDigits(Format.LastSegment(resp.body.path));
    storeResult := client.GET(87);
  }

  /** `GET /api/posts/87` after the POST above answers 200 with the stored post. */
  method PostThenGet() returns (resp: Response)
    ensures resp == Response(200, "application/json; charset=UTF-8",
      Envelope(200, Body(Post(87, HelloTitle, HelloDescription)), "/api/posts/87"))
  {
    var client := new ClientImpl(map[]);
    var server := new Server(client);
    assert Format.Decimal(87) == "87";
    var _ := server.HandlePost(87, HelloTitle, HelloDescription);
    resp := server.HandleGet(87);
  }
}
