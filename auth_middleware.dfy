/** The bearer-token authentication gate. The token verifier (a JWT library)
    is an oracle handed in as a function of token and secret; the secret,
    read from the environment in the source, is a parameter. */
module AuthMiddleware {
  import opened Wrappers

  /** The decoded token payload, e.g. `{ userId: X }`. */
  datatype Payload = Payload(userId: int)

  const BearerPrefix := "Bearer "
  const Unauthorized := 401
  const NoTokenMessage := "Access denied. No token."
  const InvalidTokenMessage := "Invalid token"

  // ---------------------------------------------------------------------
  // String helpers: JavaScript's `startsWith` and `split(" ")`
  // ---------------------------------------------------------------------

  /** `header.startsWith("Bearer ")`, compared character by character. */
  predicate HasBearerPrefix(header: string) {
    BearerPrefix <= header
  }

  /** `s.split(" ")`: the maximal space-free runs between single spaces, so
      two adjacent spaces give an empty field. */
  function Split(s: string): (fields: seq<string>)
    ensures |fields| >= 1
    ensures forall i :: 0 <= i < |fields| ==> ' ' !in fields[i]
  {
    if s == [] then [""]
    else
      var rest := Split(s[1..]);
      if s[0] == ' ' then [""] + rest
      else [[s[0]] + rest[0]] + rest[1..]
  }

  /** Rejoins fields with single spaces: the inverse of Split. */
  function Join(fields: seq<string>): string
    requires |fields| >= 1
  {
    if |fields| == 1 then fields[0] else fields[0] + " " + Join(fields[1..])
  }

  /** The text before the first space (all of `s` when it has none). */
  function FirstField(s: string): (r: string)
    ensures r <= s && ' ' !in r
    ensures |r| < |s| ==> s[|r|] == ' '
  {
    if s == [] || s[0] == ' ' then "" else [s[0]] + FirstField(s[1..])
  }

  /** Splitting loses nothing: joining the fields back gives the input. */
  lemma {:induction false} JoinSplit(s: string)
    ensures Join(Split(s)) == s
  {
    if s != [] {
      JoinSplit(s[1..]);
      var rest := Split(s[1..]);
      if s[0] == ' ' {
        assert Split(s)[1..] == rest;
      } else {
        var fields := Split(s);
        assert fields[1..] == rest[1..];
        if |rest| > 1 {
          assert Join(rest) == rest[0] + " " + Join(rest[1..]);
        }
      }
    }
  }

  /** The first field of Split is FirstField, and the remaining fields are
      the split of what follows the first space. */
  lemma {:induction false} SplitFirstField(s: string)
    ensures Split(s)[0] == FirstField(s)
    ensures |FirstField(s)| < |s| ==> Split(s)[1..] == Split(s[|FirstField(s)| + 1..])
  {
    if s != [] && s[0] != ' ' {
      SplitFirstField(s[1..]);
      if |FirstField(s)| < |s| {
        assert s[1..][|FirstField(s[1..])| + 1..] == s[|FirstField(s)| + 1..];
      }
    }
  }

  /** A header starting with "Bearer " has "Bearer" as its first field. */
  lemma BearerFirstField(header: string)
    requires HasBearerPrefix(header)
    ensures FirstField(header) == "Bearer"
  {
    var r := FirstField(header);
    assert header[..7] == BearerPrefix;
    assert forall i :: 0 <= i < 6 ==> header[i] != ' ';
    assert |r| == 6 by {
      assert header[6] == ' ' && ' ' !in r;
    }
    assert r == header[..6];
  }

  /** `header.split(" ")[1]` for a header that passed the prefix check:
      the text between the first and second space. */
  function TokenOf(header: string): (token: string)
    requires HasBearerPrefix(header)
    ensures token == FirstField(header[|BearerPrefix|..])
    ensures token <= header[|BearerPrefix|..] && ' ' !in token
    ensures |BearerPrefix| + |token| < |header| ==> header[|BearerPrefix| + |token|] == ' '
  {
    BearerFirstField(header);
    SplitFirstField(header);
    SplitFirstField(header[|BearerPrefix|..]);
    Split(header)[1]
  }

  // ---------------------------------------------------------------------
  // The decision
  // ---------------------------------------------------------------------

  /** What the gate does with a request: answer it with an error, or hand it
      to the next stage with the decoded user. */
  datatype Decision = Reject(status: int, message: string) | Proceed(user: Payload)

  /** The gate's decision on the `authorization` header. */
  function Decide(header: Option<string>, secret: string, verify: (string, string) -> Option<Payload>): (d: Decision)
    ensures (header.None? || !HasBearerPrefix(header.value)) <==> d == Reject(Unauthorized, NoTokenMessage)
    ensures header.Some? && HasBearerPrefix(header.value) ==>
      match verify(TokenOf(header.value), secret)
      case Some(p) => d == Proceed(p)
      case None => d == Reject(Unauthorized, InvalidTokenMessage)
  {
    if header.None? || !HasBearerPrefix(header.value) then
      Reject(Unauthorized, NoTokenMessage)
    else
      match verify(TokenOf(header.value), secret)
      case Some(p) => Proceed(p)
      case None => Reject(Unauthorized, InvalidTokenMessage)
  }

  /** A missing or malformed header is rejected without consulting the
      verifier: any two verifiers give the same decision. */
  lemma RejectionIgnoresVerifier(header: Option<string>, secret: string,
                                 v1: (string, string) -> Option<Payload>,
                                 v2: (string, string) -> Option<Payload>)
    requires header.None? || !HasBearerPrefix(header.value)
    ensures Decide(header, secret, v1) == Decide(header, secret, v2)
  {
  }

  /** Both rejections carry status 401, with different messages. */
  lemma RejectionsShareStatus(h1: Option<string>, h2: Option<string>, secret: string,
                              verify: (string, string) -> Option<Payload>)
    requires Decide(h1, secret, verify).Reject? && Decide(h2, secret, verify).Reject?
    requires h1.None? || !HasBearerPrefix(h1.value)
    requires h2.Some? && HasBearerPrefix(h2.value)
    ensures Decide(h1, secret, verify).status == Decide(h2, secret, verify).status == Unauthorized
    ensures Decide(h1, secret, verify).message != Decide(h2, secret, verify).message
  {
  }

  /** The scheme check is case-sensitive: a lower-case "bearer" is treated as
      no token at all. */
  lemma SchemeIsCaseSensitive(token: string, secret: string, verify: (string, string) -> Option<Payload>)
    ensures Decide(Some("bearer " + token), secret, verify) == Reject(Unauthorized, NoTokenMessage)
  {
  }

  /** Tokens extracted from three sample headers. */
  lemma TokenExamples()
    ensures TokenOf("Bearer abc") == "abc"
    ensures TokenOf("Bearer a b") == "a"
    ensures TokenOf("Bearer ") == ""
  {
  }

  // ---------------------------------------------------------------------
  // The middleware on mutable request/response objects
  // ---------------------------------------------------------------------

  /** The incoming request: its header is read, its `user` is set. */
  class Request {
    const authorization: Option<string>
    var user: Option<Payload>

    constructor (authorization: Option<string>)
      ensures this.authorization == authorization && user == None
    {
      this.authorization := authorization;
      user := None;
    }
  }

  /** The outgoing response: a status code and, once `json` is called, an
      error body. */
  class Response {
    var statusCode: int
    var body: Option<string>

    constructor ()
      ensures statusCode == 200 && body == None
    {
      statusCode := 200;
      body := None;
    }

    /** `res.status(code)`. */
    method Status(code: int)
      modifies this
      ensures statusCode == code && body == old(body)
    {
      statusCode := code;
    }

    /** `res.json({ error })`: writes the error body. */
    method Json(error: string)
      modifies this
      ensures body == Some(error) && statusCode == old(statusCode)
    {
      body := Some(error);
    }
  }

  /** The `next` callback. It records, for each invocation, the `req.user`
      that the downstream handler sees, so the number of calls is `|seen|`. */
  class NextCallback {
    var seen: seq<Option<Payload>>

    constructor ()
      ensures seen == []
    {
      seen := [];
    }

    /** `next()`: hands the request, as it stands, to the next handler. */
    method Call(req: Request)
      modifies this
      ensures seen == old(seen) + [req.user]
    {
      seen := seen + [req.user];
    }
  }

  /** The middleware. Exactly one of two things happens: an error response
      is written and `next` is not called, or `req.user` is set and then
      `next` is called once, seeing that user, with the response untouched. */
  method Authenticate(req: Request, res: Response, next: NextCallback,
                      secret: string, verify: (string, string) -> Option<Payload>)
    modifies req, res, next
    ensures match Decide(req.authorization, secret, verify)
      case Reject(status, message) =>
        res.statusCode == status && res.body == Some(message) &&
        req.user == old(req.user) && next.seen == old(next.seen)
      case Proceed(p) =>
        req.user == Some(p) && next.seen == old(next.seen) + [Some(p)] &&
        res.statusCode == old(res.statusCode) && res.body == old(res.body)
  {
    var authHeader := req.authorization;
    if authHeader.None? || !HasBearerPrefix(authHeader.value) {
      res.Status(Unauthorized);
      res.Json(NoTokenMessage);
      return;
    }
    var token := TokenOf(authHeader.value);
    var decoded := verify(token, secret);
    match decoded
    case Some(p) =>
      req.user := Some(p);
      next.Call(req);
    case None =>
      res.Status(Unauthorized);
      res.Json(InvalidTokenMessage);
  }
}
