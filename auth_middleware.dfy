/** `veriJwt`: picks the access token from the cookie or the
    `Authorization` header, verifies it, and attaches the user it names to
    the request. Token verification is passed in as a function. */
module AuthMiddleware {
  import opened Common
  import opened UserModel

  // ---------------------------------------------------------------------
  // Splitting a header on spaces.
  // ---------------------------------------------------------------------

  /** The position of the first space in `s`. */
  function FirstSpace(s: string): (i: nat)
    requires ' ' in s
    ensures i < |s| && s[i] == ' ' && ' ' !in s[..i]
  {
    if s[0] == ' ' then 0
    else
      var j := FirstSpace(s[1..]);
      assert s[..j + 1] == [s[0]] + s[1..][..j];
      1 + j
  }

  /** `s.split(' ')`: the pieces between single spaces, in order; two
      spaces in a row give an empty piece. */
  function Split(s: string): (fields: seq<string>)
    ensures |fields| >= 1
    ensures forall i :: 0 <= i < |fields| ==> ' ' !in fields[i]
    decreases |s|
  {
    if ' ' !in s then [s]
    else
      var i := FirstSpace(s);
      [s[..i]] + Split(s[i + 1..])
  }

  /** `fields.join(' ')`. */
  function Join(fields: seq<string>): string
    requires |fields| >= 1
  {
    if |fields| == 1 then fields[0] else fields[0] + " " + Join(fields[1..])
  }

  /** Splitting loses nothing: joining the pieces back gives the header. */
  lemma {:induction false} SplitJoin(s: string)
    ensures Join(Split(s)) == s
    decreases |s|
  {
    if ' ' in s {
      var i := FirstSpace(s);
      var rest := s[i + 1..];
      var fields := Split(s);
      assert fields == [s[..i]] + Split(rest);
      assert fields[0] == s[..i] && fields[1..] == Split(rest);
      SplitJoin(rest);
      assert Join(fields) == s[..i] + " " + rest;
      assert s == s[..i] + " " + rest;
    }
  }

  /** Pieces without spaces are what splitting their join gives back. */
  lemma {:induction false} JoinSplit(fields: seq<string>)
    requires |fields| >= 1
    requires forall i :: 0 <= i < |fields| ==> ' ' !in fields[i]
    ensures Split(Join(fields)) == fields
  {
    if |fields| > 1 {
      var tail := fields[1..];
      var rest := Join(tail);
      assert Join(fields) == fields[0] + " " + rest;
      assert ' ' !in fields[0];
      JoinSplit(tail);
      SplitCons(fields[0], rest);
      assert fields == [fields[0]] + tail;
    } else {
      assert ' ' !in fields[0];
    }
  }

  /** Splitting a piece without spaces, a space and the rest. */
  lemma SplitCons(head: string, rest: string)
    requires ' ' !in head
    ensures Split(head + " " + rest) == [head] + Split(rest)
  {
    var s := head + " " + rest;
    assert s[|head|] == ' ';
    var i := FirstSpace(s);
    assert i == |head|;
    assert s[..i] == head;
    assert s[i + 1..] == rest;
  }

  // ---------------------------------------------------------------------
  // Choosing the token.
  // ---------------------------------------------------------------------

  /** The `accessToken` cookie and the `Authorization` header, when sent. */
  datatype Credentials = Credentials(cookie: Option<string>, authorization: Option<string>)

  /** `authorization.split(' ')[1]`, `None` when there is no second piece. */
  function BearerToken(header: string): (t: Option<string>)
    ensures t.Some? ==> ' ' !in t.value
  {
    var fields := Split(header);
    if |fields| > 1 then Some(fields[1]) else None
  }

  /** A non-empty cookie wins; otherwise a header that begins with
      `Bearer` gives its second space-separated piece. */
  function SelectToken(c: Credentials): (t: Option<string>)
    ensures c.cookie.Some? && c.cookie.value != [] ==> t == c.cookie
    ensures (c.cookie.None? || c.cookie.value == []) ==>
      t == (if c.authorization.Some? && StartsWith(c.authorization.value, "Bearer")
            then BearerToken(c.authorization.value) else None)
  {
    if c.cookie.Some? && c.cookie.value != [] then c.cookie
    else if c.authorization.Some? && c.authorization.value != [] && StartsWith(c.authorization.value, "Bearer") then
      BearerToken(c.authorization.value)
    else None
  }

  /** The token of `Bearer <token>` is the token; and the check on the
      scheme is only a prefix test, so `Bearerx <token>` is accepted too. */
  lemma BearerTokenOf(scheme: string, token: string)
    requires StartsWith(scheme, "Bearer") && ' ' !in scheme && ' ' !in token
    ensures SelectToken(Credentials(None, Some(scheme + " " + token))) == Some(token)
  {
    var a := scheme + " " + token;
    SplitCons(scheme, token);
    assert BearerToken(a) == Some(token);
    assert StartsWith(a, "Bearer") by {
      assert a[..6] == scheme[..6];
    }
  }

  /** Whatever follows the token after a further space is ignored. */
  lemma BearerTokenIgnoresRest(scheme: string, token: string, rest: string)
    requires StartsWith(scheme, "Bearer") && ' ' !in scheme && ' ' !in token
    ensures SelectToken(Credentials(None, Some(scheme + " " + token + " " + rest))) == Some(token)
  {
    var b := scheme + " " + (token + " " + rest);
    assert scheme + " " + token + " " + rest == b;
    SecondField(scheme, token, rest);
    assert StartsWith(b, "Bearer") by {
      assert b[..6] == scheme[..6];
    }
  }

  /** The second piece of `scheme token rest` is the token. */
  lemma SecondField(scheme: string, token: string, rest: string)
    requires ' ' !in scheme && ' ' !in token
    ensures BearerToken(scheme + " " + (token + " " + rest)) == Some(token)
  {
    SplitCons(token, rest);
    SplitCons(scheme, token + " " + rest);
  }

  // ---------------------------------------------------------------------
  // Verification and the user lookup.
  // ---------------------------------------------------------------------

  /** The claims of a verified token: the user id, when present. */
  datatype Claims = Claims(id: Option<UserId>)

  datatype AuthError =
    | NoToken
    | InvalidToken
    | ExpiredToken
    | VerificationFailed
    | UnknownUser

  function StatusCode(e: AuthError): (code: int)
    ensures code == 500 <==> e.VerificationFailed?
    ensures code != 500 ==> code == 401
  {
    if e.VerificationFailed? then 500 else 401
  }

  /** A verification error by its `name`: the two token errors of the JWT
      library are the client's fault, anything else is the server's. */
  function Classify(name: string): (e: AuthError)
    ensures StatusCode(e) == 401 <==> name == "JsonWebTokenError" || name == "TokenExpiredError"
    ensures e.InvalidToken? || e.ExpiredToken? || e.VerificationFailed?
  {
    if name == "JsonWebTokenError" then InvalidToken
    else if name == "TokenExpiredError" then ExpiredToken
    else VerificationFailed
  }

  /** What `veriJwt` decides: `verify` is the JWT check under the server's
      secret, giving the claims or the error's name. */
  function Authenticate(c: Credentials, verify: string -> Result<Claims, string>,
                        users: map<UserId, UserDocument>): (r: Result<UserDocument, AuthError>)
    reads users.Values
    ensures r == Err(NoToken) <==> SelectToken(c).None? || SelectToken(c).value == []
    ensures r.Ok? <==>
      && SelectToken(c).Some? && SelectToken(c).value != []
      && verify(SelectToken(c).value).Ok?
      && var id := verify(SelectToken(c).value).value.id;
         id.Some? && id.value in users && users[id.value].active
    ensures r.Ok? ==> r.value == users[verify(SelectToken(c).value).value.id.value]
    ensures r.Err? && r.error != NoToken && r.error != UnknownUser ==>
      verify(SelectToken(c).value).Err? && r.error == Classify(verify(SelectToken(c).value).error)
    // a failed verification is classified by the error's name
    ensures SelectToken(c).Some? && SelectToken(c).value != [] && verify(SelectToken(c).value).Err? ==>
      r == Err(Classify(verify(SelectToken(c).value).error))
    // a verified token that names no stored active user is an unknown user
    ensures SelectToken(c).Some? && SelectToken(c).value != [] && verify(SelectToken(c).value).Ok? && !r.Ok? ==>
      r == Err(UnknownUser)
  {
    var token := SelectToken(c);
    if token.None? || token.value == [] then Err(NoToken)
    else match verify(token.value)
      case Err(name) => Err(Classify(name))
      case Ok(claims) =>
        if claims.id.None? then Err(UnknownUser)
        else match FindActive(users, claims.id.value)
          case None => Err(UnknownUser)
          case Some(user) => Ok(user)
  }

  /** The request as the middleware sees it. */
  class Request {
    const credentials: Credentials
    var user: Option<UserDocument>
    /** How many times the next handler has been called. */
    var nextCalls: nat

    constructor (credentials: Credentials)
      ensures this.credentials == credentials && user.None? && nextCalls == 0
    {
      this.credentials := credentials;
      user := None;
      nextCalls := 0;
    }
  }

  /** `veriJwt`: on success the user is attached and `next` is called
      exactly once; on failure the request is left as it was and the error
      is what `Authenticate` says. */
  method VeriJwt(req: Request, verify: string -> Result<Claims, string>, users: map<UserId, UserDocument>)
    returns (err: Option<AuthError>)
    modifies req`user, req`nextCalls
    ensures var a := Authenticate(req.credentials, verify, users);
      && (a.Ok? ==> err.None? && req.user == Some(a.value) && req.nextCalls == old(req.nextCalls) + 1)
      && (a.Err? ==> err == Some(a.error) && req.user == old(req.user) && req.nextCalls == old(req.nextCalls))
  {
    var token := SelectToken(req.credentials);
    if token.None? || token.value == [] {
      return Some(NoToken);
    }
    var decoded := verify(token.value);
    if decoded.Err? {
      return Some(Classify(decoded.error));
    }
    var found := if decoded.value.id.Some? then FindActive(users, decoded.value.id.value) else None;
    if found.None? {
      return Some(UnknownUser);
    }
    req.user := found;
    req.nextCalls := req.nextCalls + 1;
    err := None;
  }
}
