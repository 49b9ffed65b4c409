/** The request guards: the bearer-token middleware that identifies the caller, and
    the admin gate behind it. Token verification (JWT signature and expiry) is an
    input function from token to the user id it carries, or None when it raises. */
module AuthMiddleware {
  import opened Common
  import opened Store

  /** The text up to (not including) the first space, `s.split(" ")[0]`. */
  function UpToSpace(s: string): (r: string)
    ensures StartsWith(s, r)
    ensures forall k :: 0 <= k < |r| ==> r[k] != ' '
    ensures |r| == |s| || s[|r|] == ' '
  {
    if s == [] || s[0] == ' ' then [] else [s[0]] + UpToSpace(s[1..])
  }

  const BearerPrefix: string := "Bearer "

  /** The token of a request: with an Authorization header starting "Bearer ", the
      second space-separated field of the header (`split(" ")[1]`); otherwise the
      `token` query parameter. "" stands for no token. */
  function ExtractToken(authorization: string, queryToken: string): (token: string)
    ensures StartsWith(authorization, BearerPrefix) ==>
      && StartsWith(authorization[|BearerPrefix|..], token)
      && (forall k :: 0 <= k < |token| ==> token[k] != ' ')
      && (|BearerPrefix| + |token| == |authorization| || authorization[|BearerPrefix| + |token|] == ' ')
    ensures !StartsWith(authorization, BearerPrefix) ==> token == queryToken
  {
    if StartsWith(authorization, BearerPrefix) then UpToSpace(authorization[|BearerPrefix|..]) else queryToken
  }

  /** A "Bearer " header decides the token alone: the query parameter is never
      consulted, even when the header carries an empty token. */
  lemma HeaderTakesPrecedence(authorization: string, query1: string, query2: string)
    requires StartsWith(authorization, BearerPrefix)
    ensures ExtractToken(authorization, query1) == ExtractToken(authorization, query2)
  {
  }

  /** "Bearer " followed by nothing, or by a second space, yields no token. */
  lemma EmptyBearerHasNoToken(rest: string, queryToken: string)
    requires rest == "" || rest[0] == ' '
    ensures ExtractToken(BearerPrefix + rest, queryToken) == ""
  {
    var h := BearerPrefix + rest;
    assert h[..|BearerPrefix|] == BearerPrefix;
    assert h[|BearerPrefix|..] == rest;
  }

  /** `authMiddleware`: find the token, verify it, and load the user it names;
      every failure is a 401 and the request goes no further. */
  function Authenticate(authorization: string, queryToken: string, verify: string -> Option<UserId>,
                        users: seq<User>): (r: Result<User, Failure>)
    ensures ExtractToken(authorization, queryToken) == "" ==> r == Err(Failure(401, "No token provided"))
    ensures var token := ExtractToken(authorization, queryToken);
      token != "" && verify(token).None? ==> r == Err(Failure(401, "Invalid token"))
    ensures var token := ExtractToken(authorization, queryToken);
      token != "" && verify(token).Some? && (forall j :: 0 <= j < |users| ==> users[j].id != verify(token).value) ==>
        r == Err(Failure(401, "User not found"))
    ensures r.Ok? ==>
      var token := ExtractToken(authorization, queryToken);
      token != "" && verify(token).Some? && r.value.id == verify(token).value && r.value in users
    ensures var token := ExtractToken(authorization, queryToken);
      r.Ok? <==> token != "" && verify(token).Some? && exists j :: 0 <= j < |users| && users[j].id == verify(token).value
  {
    var token := ExtractToken(authorization, queryToken);
    if token == "" then Err(Failure(401, "No token provided"))
    else match verify(token)
      case None => Err(Failure(401, "Invalid token"))
      case Some(id) =>
        match FindById(users, id)
        case None => Err(Failure(401, "User not found"))
        case Some(k) => Ok(users[k])
  }

  /** `adminMiddleware`: only the role "admin" passes; anything else is a 403. */
  function AdminGate(role: string): (refusal: Option<Failure>)
    ensures refusal.None? <==> role == "admin"
    ensures refusal.Some? ==> refusal.value == Failure(403, "Admin access required")
  {
    if role != "admin" then Some(Failure(403, "Admin access required")) else None
  }

  /** The two guards in sequence, as an admin route mounts them. */
  function AuthenticateAdmin(authorization: string, queryToken: string, verify: string -> Option<UserId>,
                             users: seq<User>): (r: Result<User, Failure>)
    ensures r.Ok? <==> Authenticate(authorization, queryToken, verify, users).Ok? &&
                        Authenticate(authorization, queryToken, verify, users).value.role == "admin"
    ensures r.Ok? ==> r == Authenticate(authorization, queryToken, verify, users)
  {
    match Authenticate(authorization, queryToken, verify, users)
    case Err(f) => Err(f)
    case Ok(user) =>
      match AdminGate(user.role)
      case Some(f) => Err(f)
      case None => Ok(user)
  }
}
