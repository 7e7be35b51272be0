/** The three ways of obtaining an access token: a token the caller already
    has, the password grant for a registered device, and the client
    credentials grant. Each strategy first validates its credentials; the two
    grants then ask the OAuth server, whose reply is an input here. */
module Auth {
  import opened Wire

  /** A registered application that may use the password grant. */
  datatype Device = Device(id: string, secret: string)

  const ANDROID := Device("2274003", "hHbZxrka2uZ6jB1inYsH")
  const WINDOWS := Device("3697615", "AlVXZFMUqyrnABp8ncuU")
  const IOS := Device("3140623", "VeWdmVclDCtn6ihuP1nt")

  /** The strategy a client is created with; `device` is None for a nil device. */
  datatype Authentication =
    | NoAuthentication(accessToken: string)
    | DirectAuthentication(username: string, password: string, device: Option<Device>)
    | ClientCredentialsFlow(clientId: string, clientSecret: string)

  const OAUTH_ADDRESS := "https://oauth.vk.com/"
  const INVALID_ACCESS_TOKEN := "invalid access token"
  const NIL_DEVICE := "device can't be nil, use one of the prepared client types"
  const INVALID_LOGIN := "invalid login or password credentials"
  const INVALID_CLIENT := "invalid client credentials"

  /** The decoded body of an OAuth reply; a member that is absent decodes to "". */
  datatype AuthResponse = AuthResponse(accessToken: string, error: string, errorDescription: string)

  /** What a strategy does once its credentials are accepted: hand back the
      token it already holds, or send a request to the OAuth server. */
  datatype Grant = Held(token: string) | Exchange(request: Get)

  function PasswordGrant(username: string, password: string, device: Device): Get {
    Get(OAUTH_ADDRESS + "token", map[
      "grant_type" := "password",
      "client_id" := device.id,
      "client_secret" := device.secret,
      "username" := username,
      "password" := password])
  }

  function ClientCredentialsGrant(clientId: string, clientSecret: string): Get {
    Get(OAUTH_ADDRESS + "access_token", map[
      "grant_type" := "client_credentials",
      "client_id" := clientId,
      "client_secret" := clientSecret])
  }

  /** The validation each strategy performs before any request is made. */
  function Validate(auth: Authentication): (r: Result<Grant>)
    // a held token is accepted exactly when it is non-empty
    ensures auth.NoAuthentication? ==>
      (r.Ok? <==> auth.accessToken != "") &&
      (r.Ok? ==> r.value == Held(auth.accessToken)) &&
      (r.Err? ==> r.error == Failure(INVALID_ACCESS_TOKEN))
    // a nil device is reported before the login and password are looked at
    ensures auth.DirectAuthentication? && auth.device.None? ==> r == Err(Failure(NIL_DEVICE))
    ensures auth.DirectAuthentication? && auth.device.Some? ==>
      (r.Ok? <==> auth.username != "" && auth.password != "") &&
      (r.Ok? ==> r.value == Exchange(PasswordGrant(auth.username, auth.password, auth.device.value))) &&
      (r.Err? ==> r.error == Failure(INVALID_LOGIN))
    ensures auth.ClientCredentialsFlow? ==>
      (r.Ok? <==> auth.clientId != "" && auth.clientSecret != "") &&
      (r.Ok? ==> r.value == Exchange(ClientCredentialsGrant(auth.clientId, auth.clientSecret))) &&
      (r.Err? ==> r.error == Failure(INVALID_CLIENT))
    // whatever is handed back or sent is never built from an empty credential
    ensures r.Ok? && r.value.Held? ==> r.value.token != ""
    ensures r.Ok? && r.value.Exchange? ==>
      r.value.request.query.Keys >= {"grant_type", "client_id", "client_secret"}
  {
    match auth
    case NoAuthentication(token) =>
      if token != "" then Ok(Held(token)) else Err(Failure(INVALID_ACCESS_TOKEN))
    case DirectAuthentication(username, password, device) =>
      if device.None? then Err(Failure(NIL_DEVICE))
      else if username == "" || password == "" then Err(Failure(INVALID_LOGIN))
      else Ok(Exchange(PasswordGrant(username, password, device.value)))
    case ClientCredentialsFlow(clientId, clientSecret) =>
      if clientId == "" || clientSecret == "" then Err(Failure(INVALID_CLIENT))
      else Ok(Exchange(ClientCredentialsGrant(clientId, clientSecret)))
  }

  /** Reading the OAuth server's reply: a reported error wins over a token,
      and an empty token is refused. */
  function ExchangeToken(reply: Reply<AuthResponse>): (r: Result<string>)
    ensures reply.Failed? ==> r == Err(reply.error)
    ensures reply.Received? ==> (r.Ok? <==> reply.value.error == "" && reply.value.accessToken != "")
    ensures reply.Received? && reply.value.error != "" ==> r == Err(Failure(reply.value.errorDescription))
    ensures reply.Received? && reply.value.error == "" && reply.value.accessToken == "" ==>
      r == Err(Failure(INVALID_ACCESS_TOKEN))
    ensures r.Ok? ==> r.value == reply.value.accessToken && r.value != ""
  {
    match reply
    case Failed(e) => Err(e)
    case Received(response) =>
      if response.error != "" then Err(Failure(response.errorDescription))
      else if response.accessToken == "" then Err(Failure(INVALID_ACCESS_TOKEN))
      else Ok(response.accessToken)
  }

  /** The token a strategy yields; `reply` is what the OAuth server answers,
      and it is read only when a request is sent. */
  function RetrieveAccessToken(auth: Authentication, reply: Reply<AuthResponse>): (r: Result<string>)
    ensures Validate(auth).Err? ==> r == Err(Validate(auth).error)
    ensures Validate(auth).Ok? && Validate(auth).value.Held? ==> r == Ok(auth.accessToken)
    ensures Validate(auth).Ok? && Validate(auth).value.Exchange? ==> r == ExchangeToken(reply)
    // every strategy, on success, yields a non-empty token
    ensures r.Ok? ==> r.value != ""
  {
    match Validate(auth)
    case Err(e) => Err(e)
    case Ok(Held(token)) => Ok(token)
    case Ok(Exchange(_)) => ExchangeToken(reply)
  }

  /** A strategy that refuses its credentials, or that holds its token, never
      depends on what the OAuth server would have answered. */
  lemma NoRequestUnlessExchange(auth: Authentication, reply1: Reply<AuthResponse>, reply2: Reply<AuthResponse>)
    requires !(Validate(auth).Ok? && Validate(auth).value.Exchange?)
    ensures RetrieveAccessToken(auth, reply1) == RetrieveAccessToken(auth, reply2)
  {
  }
}
