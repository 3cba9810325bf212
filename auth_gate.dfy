/** The `authUser` middleware: a request passes only with a token that
    verifies, and then carries the token's user id. */
module AuthGate {
  import opened Wrappers
  import opened Tokens

  const TokenHeader := "token"
  const TokenMissing := "Not authorized: Token missing"
  const InvalidToken := "Not authorized: Invalid token"

  /** The identity attached to a request: `req.user = { id }`. */
  datatype Identity = Identity(id: UserId)

  /** The gate's three outcomes. */
  datatype Decision = Missing | Invalid | Pass(identity: Identity)

  /** A request header JavaScript treats as given: present and not empty. */
  predicate HasToken(headers: map<string, string>)
  {
    TokenHeader in headers && headers[TokenHeader] != ""
  }

  /** The decision for a request's headers; `verify` is `jwt.verify` with the
      server's secret and the current time, giving the claims or failing. */
  function Decide(headers: map<string, string>, verify: string -> Option<Token>): (d: Decision)
    ensures d == Missing <==> !HasToken(headers)
    ensures d == Invalid <==> HasToken(headers) && verify(headers[TokenHeader]).None?
    ensures d.Pass? <==> HasToken(headers) && verify(headers[TokenHeader]).Some?
    ensures d.Pass? ==> d.identity.id == verify(headers[TokenHeader]).value.id
  {
    if !HasToken(headers) then Missing
    else match verify(headers[TokenHeader])
      case None => Invalid
      case Some(claims) => Pass(Identity(claims.id))
  }

  /** A token the server signed and that still verifies lets its holder in as
      the user it names, whatever else the request carries. */
  lemma SignedTokenPasses(headers: map<string, string>, t: Token, sign: Token -> string, verify: string -> Option<Token>)
    requires sign(t) != "" && verify(sign(t)) == Some(t)
    ensures Decide(headers[TokenHeader := sign(t)], verify) == Pass(Identity(t.id))
  {
  }

  /** An incoming request: headers, body, and the identity slot the gate fills. */
  class Request {
    const headers: map<string, string>
    var body: map<string, string>
    var user: Option<Identity>

    constructor (headers: map<string, string>, body: map<string, string>)
      ensures this.headers == headers && this.body == body && user == None
    {
      this.headers := headers;
      this.body := body;
      this.user := None;
    }
  }

  /** The response under construction: status code and JSON message, once set. */
  class Response {
    var status: Option<nat>
    var message: Option<string>

    constructor ()
      ensures status == None && message == None
    {
      status := None;
      message := None;
    }
  }

  /** `authUser(req, res, next)`. Returns how many times `next` was called. */
  method AuthUser(req: Request, res: Response, verify: string -> Option<Token>) returns (nextCalls: nat)
    modifies req`user, res
    ensures req.body == old(req.body)
    ensures match Decide(req.headers, verify)
      case Missing =>
        res.status == Some(401) && res.message == Some(TokenMissing) && nextCalls == 0 && req.user == old(req.user)
      case Invalid =>
        res.status == Some(401) && res.message == Some(InvalidToken) && nextCalls == 0 && req.user == old(req.user)
      case Pass(identity) =>
        req.user == Some(identity) && nextCalls == 1
        && res.status == old(res.status) && res.message == old(res.message)
  {
    if TokenHeader !in req.headers || req.headers[TokenHeader] == "" {
      res.status, res.message := Some(401), Some(TokenMissing);
      return 0;
    }
    var decoded := verify(req.headers[TokenHeader]);
    if decoded.None? {
      res.status, res.message := Some(401), Some(InvalidToken);
      return 0;
    }
    req.user := Some(Identity(decoded.value.id));
    nextCalls := 1;
  }
}
