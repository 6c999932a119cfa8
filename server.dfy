/**
 * The HTTP handlers for `/api/posts/{id}`: each turns a store call into a
 * response whose JSON envelope is `{code, message, path}`. The id reaches a
 * handler already parsed; the route admits only digits, so it is a nat.
 */
module Server {
  import opened Wrappers
  import opened ExternalService
  import Format

  const StatusOK := 200
  const StatusCreated := 201
  const StatusBadRequest := 400

  const JsonContentType := "application/json; charset=UTF-8"
  const BadRequest := "Bad Request"
  const PostsPrefix := "/api/posts/"

  /** The envelope's `message`: a text, or a post encoded as an object. */
  datatype Message = Text(text: string) | Body(post: Post)

  /** The JSON object a handler writes. */
  datatype Envelope = Envelope(code: int, message: Message, path: string)

  /** What a handler writes: the status, the Content-Type header and the envelope. */
  datatype Response = Response(status: int, contentType: string, body: Envelope)

  /**
   * `fmt.Sprintf("/api/posts/%d", id)`: the prefix followed by the canonical
   * digits of `id`, which read back as `id`.
   */
  function PostPath(id: nat): (p: string)
    ensures |p| > |PostsPrefix| && p[..|PostsPrefix|] == PostsPrefix
    ensures Format.Canonical(p[|PostsPrefix|..])
    ensures Format.ParseDigits(p[|PostsPrefix|..]) == Some(id)
  {
    Format.DecimalRoundTrip(id);
    var p := PostsPrefix + Format.Decimal(id);
    assert p[|PostsPrefix|..] == Format.Decimal(id);
    p
  }

  /** Splitting the path at '/' and reading its last part gives back the id. */
  lemma PostPathNamesId(id: nat)
    ensures Format.ParseDigits(Format.LastSegment(PostPath(id))) == Some(id)
  {
    var digits := Format.Decimal(id);
    assert forall i :: 0 <= i < |digits| ==> digits[i] != '/' by {
      forall i | 0 <= i < |digits| ensures digits[i] != '/' {
        assert Format.IsDigit(digits[i]);
      }
    }
    Format.LastSegmentAfterSlash(PostsPrefix, digits);
    Format.DecimalRoundTrip(id);
  }

  /**
   * The part every response shares: the status written is the envelope's
   * code, and the content type is JSON in UTF-8.
   */
  predicate Consistent(resp: Response)
  {
    resp.status == resp.body.code && resp.contentType == JsonContentType
  }

  /** `successResponse`: the header, the status `code`, and the envelope around a post. */
  function SuccessResponse(message: Post, path: string, code: int): (r: Response)
    ensures Consistent(r) && r.status == code
    ensures r.body.message == Body(message) && r.body.path == path
  {
    Response(code, JsonContentType, Envelope(code, Body(message), path))
  }

  /** `errorResponse`: the header, the status `code`, and the envelope around a text. */
  function ErrorResponse(message: string, path: string, code: int): (r: Response)
    ensures Consistent(r) && r.status == code
    ensures r.body.message == Text(message) && r.body.path == path
  {
    Response(code, JsonContentType, Envelope(code, Text(message), path))
  }

  /**
   * What every response of a handler for `id` has in common: the written
   * status equals the envelope's code, the content type is JSON in UTF-8, and
   * the path is the canonical path of the parsed id.
   */
  predicate WellFormed(resp: Response, id: nat)
  {
    Consistent(resp) && resp.body.path == PostPath(id)
  }

  /** The server: its router is not modelled, only the store client its handlers call. */
  class Server {
    const client: ClientImpl

    constructor (client: ClientImpl)
      ensures this.client == client
    {
      this.client := client;
    }

    /**
     * `GET /api/posts/{id}`: 200 with the stored post, or 400 with the generic
     * "Bad Request" (the store's own error text is not passed on). The store is
     * only read.
     */
    method HandleGet(id: nat) returns (resp: Response)
      ensures WellFormed(resp, id)
      ensures resp.status == StatusOK <==> Present(client.posts, id)
      ensures Present(client.posts, id) ==> resp.body.message == Body(client.posts[id].value)
      ensures !Present(client.posts, id) ==>
        resp.status == StatusBadRequest && resp.body.message == Text(BadRequest)
    {
      var got := client.GET(id);
      if got.Err? {
        return ErrorResponse(BadRequest, PostPath(id), StatusBadRequest);
      }
      return SuccessResponse(got.post, PostPath(id), StatusOK);
    }

    /**
     * `POST /api/posts/{id}` with form values `title` and `description`: the
     * post handed to the store carries the path id and the form values; 201
     * with the saved post, or 400 with the store's error text.
     */
    method HandlePost(id: nat, title: string, description: string) returns (resp: Response)
      modifies client
      ensures WellFormed(resp, id)
      ensures resp.status == StatusCreated <==> !old(Present(client.posts, id))
      ensures old(Present(client.posts, id)) ==>
        && resp.status == StatusBadRequest
        && resp.body.message == Text(PostIdAlreadyExists)
        && client.posts == old(client.posts)
      ensures !old(Present(client.posts, id)) ==>
        && resp.body.message == Body(Post(id, title, description))
        && client.posts == old(client.posts)[id := Some(Post(id, title, description))]
    {
      var payload := Post(id, title, description);
      var saved := client.POST(id, payload);
      if saved.Err? {
        return ErrorResponse(saved.error, PostPath(id), StatusBadRequest);
      }
      return SuccessResponse(saved.post, PostPath(id), StatusCreated);
    }
  }
}
