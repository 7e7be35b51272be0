/** The API client: creation from an authentication strategy, the query of a
    method call, and the reading of the reply envelope
    `{"response": ...}` or `{"error": {...}}`. */
module Vk {
  import opened Wire
  import Auth

  const VERSION := "5.68"
  const METHOD_ADDRESS := "https://api.vk.com/method/"
  const NO_RESPONSE := "no response returned"

  /** A client is the access token it was created with. */
  datatype Client = Client(accessToken: string)

  /** A client exists exactly when its strategy yields a token, and then holds
      that token; otherwise the strategy's error is passed on. */
  function NewClient(auth: Auth.Authentication, reply: Reply<Auth.AuthResponse>): (r: Result<Client>)
    ensures r.Ok? <==> Auth.RetrieveAccessToken(auth, reply).Ok?
    ensures r.Ok? ==> r.value.accessToken == Auth.RetrieveAccessToken(auth, reply).value
    ensures r.Ok? ==> r.value.accessToken != ""
    ensures r.Err? ==> r.error == Auth.RetrieveAccessToken(auth, reply).error
  {
    match Auth.RetrieveAccessToken(auth, reply)
    case Err(e) => Err(e)
    case Ok(token) => Ok(Client(token))
  }

  function DefaultQuery(token: string): map<string, string> {
    map["access_token" := token, "v" := VERSION]
  }

  /** The query of a method call: every parameter once, with its own value;
      the token and the version only where no parameter of that name exists. */
  function QueryFor(token: string, params: map<string, string>): (q: map<string, string>)
    ensures q.Keys == params.Keys + {"access_token", "v"}
    ensures forall k :: k in params ==> q[k] == params[k]
    ensures "access_token" !in params ==> q["access_token"] == token
    ensures "v" !in params ==> q["v"] == VERSION
  {
    DefaultQuery(token) + params
  }

  /** Sets the parameters one at a time over the defaults, in whatever order
      the map yields them; every order gives the same query. */
  method BuildQuery(token: string, params: map<string, string>) returns (query: map<string, string>)
    ensures query == QueryFor(token, params)
  {
    query := DefaultQuery(token);
    var pending := params.Keys;
    while pending != {}
      invariant pending <= params.Keys
      invariant query == DefaultQuery(token) + (map k | k in params.Keys - pending :: params[k])
      decreases pending
    {
      var key :| key in pending;
      query := query[key := params[key]];
      pending := pending - {key};
    }
    assert (map k | k in params.Keys :: params[k]) == params;
  }

  /** The code and message of an error object; a member that is absent or of
      the wrong kind leaves its zero value, since the decoding error is dropped. */
  function ErrorCode(v: JValue): int {
    if v.JObj? && "error_code" in v.fields && v.fields["error_code"].JNum? then v.fields["error_code"].n else 0
  }

  function ErrorMessage(v: JValue): string {
    if v.JObj? && "error_msg" in v.fields && v.fields["error_msg"].JStr? then v.fields["error_msg"].s else ""
  }

  /** The members of the envelope: a JSON null decodes to no members at all,
      anything else that is not an object cannot be decoded. */
  function Members(body: JValue): Result<map<string, JValue>> {
    match body
    case JObj(fields) => Ok(fields)
    case JNull => Ok(map[])
    case _ => Err(UnmarshalType("map[string]*json.RawMessage"))
  }

  /** Reading the reply envelope of a method call. A member whose value is JSON
      null is a nil pointer, and reading it panics. */
  function Envelope(reply: Reply<JValue>): (r: Result<JValue>)
    ensures reply.Failed? ==> r == Err(reply.error)
    // an error member wins, even over a response
    ensures reply.Received? && Members(reply.value).Ok? && "error" in Members(reply.value).value ==>
      r.Err? &&
      var e := Members(reply.value).value["error"];
      r.error == if e == JNull then Panic("nil pointer dereference") else Api(ErrorCode(e), ErrorMessage(e))
    // a response is handed back exactly as it arrived
    ensures r.Ok? ==>
      reply.Received? && Members(reply.value).Ok? &&
      "error" !in Members(reply.value).value && "response" in Members(reply.value).value &&
      r.value == Members(reply.value).value["response"] && r.value != JNull
    // without an error member, a present response is handed back, or panics when it is JSON null
    ensures reply.Received? && Members(reply.value).Ok? && "error" !in Members(reply.value).value &&
            "response" in Members(reply.value).value ==>
      var response := Members(reply.value).value["response"];
      r == if response == JNull then Err(Panic("nil pointer dereference")) else Ok(response)
    // neither member is an error of its own
    ensures (reply.Received? && Members(reply.value).Ok? &&
             "error" !in Members(reply.value).value && "response" !in Members(reply.value).value) ==>
      r == Err(Failure(NO_RESPONSE))
    ensures reply.Received? && Members(reply.value).Err? ==> r == Err(Members(reply.value).error)
  {
    match reply
    case Failed(e) => Err(e)
    case Received(body) =>
      match Members(body)
      case Err(e) => Err(e)
      case Ok(members) =>
        if "error" in members then
          var e := members["error"];
          if e == JNull then Err(Panic("nil pointer dereference")) else Err(Api(ErrorCode(e), ErrorMessage(e)))
        else if "response" in members then
          var response := members["response"];
          if response == JNull then Err(Panic("nil pointer dereference")) else Ok(response)
        else
          Err(Failure(NO_RESPONSE))
  }

  /** One call of API method `name`: the request it sends, and what the reply
      to it (an input) becomes. */
  method Request(client: Client, name: string, params: map<string, string>, reply: Reply<JValue>)
    returns (call: Get, r: Result<JValue>)
    ensures call == Get(METHOD_ADDRESS + name, QueryFor(client.accessToken, params))
    ensures r == Envelope(reply)
  {
    var query := BuildQuery(client.accessToken, params);
    call := Get(METHOD_ADDRESS + name, query);
    r := Envelope(reply);
  }
}
