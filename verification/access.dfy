/** The request gates: `verifyToken`, `verifyTokenandAuthorization` and
    `checkPremium`. Token verification is a parameter; each gate either
    passes the request on with the token's claims or answers it. */
module Access {

  import opened Wrappers
  import opened JsValues
  import opened Text
  import opened Records
  import opened Auth

  /** What a gate decides: call `next` with `req.user` set to `user`, or
      answer with `status` and `message` without calling `next`. */
  datatype Decision = Next(user: JsVal) | Deny(status: nat, message: string)

  const NotAuthenticated: string := "you're not authenticated"
  const InvalidToken: string := "Token is not valid"
  const NotAllowed: string := "You're not allowed to do that"
  const PremiumRequired: string := "You need to upgrade to the premium version."

  /** `authHeader.split(" ")[1]`: the second space-separated piece of the
      header, `undefined` when the header has no space. */
  function TokenOf(header: string): (t: JsVal)
    ensures t.Undefined? <==> ' ' !in header
    ensures ' ' in header ==> t == Str(SplitSpace(header)[1])
  {
    var parts := SplitSpace(header);
    if |parts| > 1 then Str(parts[1]) else Undefined
  }

  /** The usual `<scheme> <token>` header yields exactly the token. */
  lemma BearerToken(scheme: string, token: string)
    requires ' ' !in scheme && ' ' !in token
    ensures TokenOf(scheme + " " + token) == Str(token)
  {
    var h := scheme + " " + token;
    assert h[|scheme|] == ' ';
    assert ' ' in h;
    var k := FirstSpace(h);
    assert k == |scheme| by {
      assert h[..|scheme|] == scheme;
    }
    assert h[..k] == scheme;
    assert h[k + 1..] == token;
    assert SplitSpace(token) == [token];
    assert SplitSpace(h) == [scheme] + [token];
  }

  /** `verifyToken`. `header` is the `token` request header; `verify` is
      `jwt.verify` with the server's secret (`None`: it reports an error).
      The parameter is left free on `Undefined`; SpacelessHeaderRefused
      states what follows when it refuses a missing token. */
  function VerifyToken(header: Option<string>, verify: JsVal -> Option<JsVal>): (d: Decision)
    ensures header.None? || header.value == "" ==> d == Deny(401, NotAuthenticated)
    ensures header.Some? && header.value != "" && verify(TokenOf(header.value)).None?
            ==> d == Deny(403, InvalidToken)
    ensures d.Next? <==> header.Some? && header.value != "" && verify(TokenOf(header.value)).Some?
    ensures d.Next? ==> Some(d.user) == verify(TokenOf(header.value))
  {
    if header.None? || header.value == "" then Deny(401, NotAuthenticated)
    else
      match verify(TokenOf(header.value))
      case None => Deny(403, InvalidToken)
      case Some(claims) => Next(claims)
  }

  /** A verifier that refuses a missing token, as `jwt.verify` does, refuses
      every non-empty header without a space: such a header gives 403. */
  lemma SpacelessHeaderRefused(header: string, verify: JsVal -> Option<JsVal>)
    requires verify(Undefined).None?
    requires header != "" && ' ' !in header
    ensures VerifyToken(Some(header), verify) == Deny(403, InvalidToken)
  {
    assert TokenOf(header) == Undefined;
  }

  /** `req.params.id`: the route's `:id` parameter, `undefined` on a route
      that names it otherwise. */
  function Param(params: map<string, string>, name: string): (v: JsVal)
    ensures name in params ==> v == Str(params[name])
    ensures name !in params ==> v == Undefined
  {
    if name in params then Str(params[name]) else Undefined
  }

  /** `req.user.id === req.params.id || req.user.isAdmin`, with the
      parameter the middleware reads given by `ownerParam`. */
  predicate Allowed(claims: JsVal, params: map<string, string>, ownerParam: string)
    ensures Truthy(Get(claims, "isAdmin")) ==> Allowed(claims, params, ownerParam)
    ensures ownerParam !in params ==>
      (Allowed(claims, params, ownerParam) <==> Get(claims, "id") == Undefined || Truthy(Get(claims, "isAdmin")))
  {
    Get(claims, "id") == Param(params, ownerParam) || Truthy(Get(claims, "isAdmin"))
  }

  /** `verifyTokenandAuthorization` as written: the token check, then the
      owner-or-admin check against `req.params.id`. */
  function Authorize(header: Option<string>, verify: JsVal -> Option<JsVal>,
                     params: map<string, string>): (d: Decision)
    ensures VerifyToken(header, verify).Deny? ==> d == VerifyToken(header, verify)
    ensures VerifyToken(header, verify).Next? ==>
      var claims := VerifyToken(header, verify).user;
      && (d.Next? <==> Get(claims, "id") == Param(params, "id") || Truthy(Get(claims, "isAdmin")))
      && (d.Next? ==> d.user == claims)
      && (d.Deny? ==> d == Deny(403, NotAllowed))
  {
    AuthorizeOwner(header, verify, params, "id")
  }

  /** `verifyTokenandAuthorization` comparing the token's id with the
      route's owner parameter `ownerParam` (`id` on most user routes,
      `userId` on the two exercise routes that name it so). */
  function AuthorizeOwner(header: Option<string>, verify: JsVal -> Option<JsVal>,
                          params: map<string, string>, ownerParam: string): (d: Decision)
    ensures VerifyToken(header, verify).Deny? ==> d == VerifyToken(header, verify)
    ensures VerifyToken(header, verify).Next? ==>
      var claims := VerifyToken(header, verify).user;
      && (d.Next? <==> Allowed(claims, params, ownerParam))
      && (d.Next? ==> d.user == claims)
      && (d.Deny? ==> d == Deny(403, NotAllowed))
  {
    match VerifyToken(header, verify)
    case Deny(status, message) => Deny(status, message)
    case Next(claims) => if Allowed(claims, params, ownerParam) then Next(claims) else Deny(403, NotAllowed)
  }

  /** The parameters of a user route whose owner parameter is `ownerParam`
      (`/exercise/:userId/:exerciseId` has `ownerParam == "userId"`). */
  function OwnerRoute(ownerParam: string, owner: Id, exerciseId: Id): (params: map<string, string>)
    requires ownerParam != "exerciseId"
    ensures params.Keys == {ownerParam, "exerciseId"}
    ensures params[ownerParam] == owner && params["exerciseId"] == exerciseId
  {
    map[ownerParam := owner, "exerciseId" := exerciseId]
  }

  /** A verified payload of a token issued to `u` at login: the signed
      `id` and `isAdmin` claims, and no `isPremium`; whatever else it holds
      (`iat`, `exp`, added by the signer) is left open. */
  predicate IssuedFor(claims: JsVal, u: User) {
    && claims.Obj?
    && "id" in claims.props && claims.props["id"] == Str(u.id)
    && "isAdmin" in claims.props && claims.props["isAdmin"] == Bool(u.isAdmin)
    && "isPremium" !in claims.props
  }

  /** The request carries a token that `verify` accepts as issued to `u`. */
  predicate LoggedInAs(header: Option<string>, verify: JsVal -> Option<JsVal>, u: User) {
    && header.Some? && header.value != ""
    && verify(TokenOf(header.value)).Some?
    && IssuedFor(verify(TokenOf(header.value)).value, u)
  }

  /** The signed login claims with the issue and expiry times the signer
      adds are a payload issued to `u`. */
  lemma SignedLoginPayloadIssued(u: User, iat: real, exp: real)
    ensures IssuedFor(Obj(LoginPayload(u)["iat" := Num(iat)]["exp" := Num(exp)]), u)
  {
  }

  /** As written, the owner of the account is refused on the update and
      delete exercise routes, whose owner parameter is `userId`: the
      middleware compares the token's id with the absent `params.id`. */
  lemma OwnerDeniedOnUserIdRoutes(header: Option<string>, verify: JsVal -> Option<JsVal>, u: User,
                                  exerciseId: Id)
    requires LoggedInAs(header, verify, u) && !u.isAdmin
    ensures Authorize(header, verify, OwnerRoute("userId", u.id, exerciseId)) == Deny(403, NotAllowed)
  {
    var claims := verify(TokenOf(header.value)).value;
    assert Get(claims, "id") == Str(u.id);
    assert Param(OwnerRoute("userId", u.id, exerciseId), "id") == Undefined;
  }

  /** Compared with the route's own owner parameter, the owner passes on
      every user route and anybody else who is not an admin is refused. */
  lemma OwnerAllowedByOwnParam(header: Option<string>, verify: JsVal -> Option<JsVal>, u: User,
                               ownerParam: string, owner: Id, exerciseId: Id)
    requires LoggedInAs(header, verify, u) && ownerParam != "exerciseId"
    ensures AuthorizeOwner(header, verify, OwnerRoute(ownerParam, owner, exerciseId), ownerParam).Next?
            <==> owner == u.id || u.isAdmin
  {
    var claims := verify(TokenOf(header.value)).value;
    assert Get(claims, "id") == Str(u.id);
    assert Get(claims, "isAdmin") == Bool(u.isAdmin);
  }

  /** On routes whose owner parameter is `id` the corrected gate is the
      gate as written. */
  lemma IdRoutesUnchanged(header: Option<string>, verify: JsVal -> Option<JsVal>, params: map<string, string>)
    ensures AuthorizeOwner(header, verify, params, "id") == Authorize(header, verify, params)
  {
  }

  /** `checkPremium`: passes iff `req.user` is set and its `isPremium` is
      truthy; otherwise 403 with the upgrade message (sent as the
      `message` field of a JSON object). */
  function CheckPremium(user: JsVal): (d: Decision)
    ensures d.Next? <==> Truthy(user) && Truthy(Get(user, "isPremium"))
    ensures d.Next? ==> d.user == user
    ensures d.Deny? ==> d == Deny(403, PremiumRequired)
  {
    if Truthy(user) && Truthy(Get(user, "isPremium")) then Next(user) else Deny(403, PremiumRequired)
  }

  /** A token check followed by the premium gate. */
  function PremiumRoute(header: Option<string>, verify: JsVal -> Option<JsVal>): (d: Decision)
    ensures VerifyToken(header, verify).Deny? ==> d == VerifyToken(header, verify)
    ensures VerifyToken(header, verify).Next? ==> d == CheckPremium(VerifyToken(header, verify).user)
  {
    match VerifyToken(header, verify)
    case Deny(status, message) => Deny(status, message)
    case Next(claims) => CheckPremium(claims)
  }

  /** Login tokens carry no `isPremium` claim, so the premium gate refuses
      every one of them, premium subscribers included. */
  lemma LoginTokensNeverPremium(header: Option<string>, verify: JsVal -> Option<JsVal>, u: User)
    requires LoggedInAs(header, verify, u)
    ensures PremiumRoute(header, verify) == Deny(403, PremiumRequired)
  {
    assert Get(verify(TokenOf(header.value)).value, "isPremium") == Undefined;
  }
}
