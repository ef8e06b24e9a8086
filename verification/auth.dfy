/** `register` and `login`: the request checks and the shaping of what
    they store and return. Password hashing, password comparison, token
    signing, the user query and the store's save are parameters. */
module Auth {

  import opened Wrappers
  import opened JsValues
  import opened Records

  /** The document `register` builds before saving it. */
  datatype NewUser = NewUser(name: JsVal, email: JsVal, phoneNumber: JsVal, hashedPassword: string)

  /** What `register` did: its status, the value it asked bcrypt to hash
      (`None`: no hashing) and the document it saved (`None`: no save). */
  datatype Registration = Registration(status: nat, hashed: Option<JsVal>, saved: Option<NewUser>)

  /** `email || phoneNumber` is truthy: at least one contact was given. */
  predicate HasContact(email: JsVal, phoneNumber: JsVal) {
    Truthy(email) || Truthy(phoneNumber)
  }

  /** `register`. `hash` is `bcrypt.hash(·, 10)` (`None`: it throws, for
      instance on a missing password); `save` is the store's insert, which
      may reject the document (`false`: 500). */
  function Register(name: JsVal, email: JsVal, phoneNumber: JsVal, password: JsVal,
                    hash: JsVal -> Option<string>, save: NewUser -> bool): (r: Registration)
    ensures !HasContact(email, phoneNumber) ==> r == Registration(400, None, None)
    ensures HasContact(email, phoneNumber) ==> r.hashed == Some(password)
    ensures r.saved.Some? <==> HasContact(email, phoneNumber) && hash(password).Some?
    ensures r.saved.Some? ==> r.saved.value == NewUser(name, email, phoneNumber, hash(password).value)
    ensures r.status == 201 <==> r.saved.Some? && save(r.saved.value)
    ensures r.status in {201, 400, 500}
  {
    if !HasContact(email, phoneNumber) then Registration(400, None, None)
    else
      match hash(password)
      case None => Registration(500, Some(password), None)
      case Some(h) =>
        var doc := NewUser(name, email, phoneNumber, h);
        Registration(if save(doc) then 201 else 500, Some(password), Some(doc))
  }

  /** The claims of a login token: the user's id and admin flag. */
  function LoginPayload(u: User): (p: map<string, JsVal>)
    ensures p.Keys == {"id", "isAdmin"}
    ensures p["id"] == Str(u.id) && p["isAdmin"] == Bool(u.isAdmin)
  {
    map["id" := Str(u.id), "isAdmin" := Bool(u.isAdmin)]
  }

  /** `const { password: pass, ...userData } = user._doc`: the stored
      document without its password. */
  function UserData(u: User): (d: map<string, JsVal>)
    ensures d.Keys == ToDoc(u).Keys - {"password"}
    ensures forall k :: k in d ==> d[k] == ToDoc(u)[k]
  {
    ToDoc(u) - {"password"}
  }

  /** What `login` did: its status, whether it queried the store, the
      claims it signed, the token and the user data it sent. */
  datatype LoginReply = LoginReply(
    status: nat,
    queried: bool,
    signed: Option<map<string, JsVal>>,
    token: Option<string>,
    user: Option<map<string, JsVal>>)

  /** `login`. `findOne` is the `$or` query on the two contacts, `compare`
      is `bcrypt.compare` (`None`: it throws), `sign` is `jwt.sign` with the
      server's secret and a seven-day expiry (`None`: it throws). */
  function Login(email: JsVal, phoneNumber: JsVal, password: JsVal,
                 findOne: (JsVal, JsVal) -> Fetch<User>,
                 compare: (JsVal, string) -> Option<bool>,
                 sign: map<string, JsVal> -> Option<string>): (r: LoginReply)
    ensures !HasContact(email, phoneNumber) ==> r == LoginReply(400, false, None, None, None)
    ensures r.queried <==> HasContact(email, phoneNumber)
    ensures r.queried && findOne(email, phoneNumber).NotFound? ==> r == LoginReply(401, true, None, None, None)
    ensures r.queried && findOne(email, phoneNumber).Found?
            && compare(password, findOne(email, phoneNumber).doc.password) == Some(false)
            ==> r == LoginReply(401, true, None, None, None)
    ensures r.signed.Some? <==>
      && r.queried && findOne(email, phoneNumber).Found?
      && compare(password, findOne(email, phoneNumber).doc.password) == Some(true)
    ensures r.signed.Some? ==> r.signed.value == LoginPayload(findOne(email, phoneNumber).doc)
    ensures r.status == 200 <==> r.token.Some?
    ensures r.token.Some? ==> r.signed.Some? && sign(r.signed.value) == r.token
    ensures r.user.Some? <==> r.token.Some?
    ensures r.user.Some? ==> r.user.value == UserData(findOne(email, phoneNumber).doc)
    ensures r.status in {200, 400, 401, 500}
  {
    if !HasContact(email, phoneNumber) then LoginReply(400, false, None, None, None)
    else
      match findOne(email, phoneNumber)
      case Failed => LoginReply(500, true, None, None, None)
      case NotFound => LoginReply(401, true, None, None, None)
      case Found(u) =>
        match compare(password, u.password)
        case None => LoginReply(500, true, None, None, None)
        case Some(false) => LoginReply(401, true, None, None, None)
        case Some(true) =>
          var claims := LoginPayload(u);
          match sign(claims)
          case None => LoginReply(500, true, Some(claims), None, None)
          case Some(t) => LoginReply(200, true, Some(claims), Some(t), Some(UserData(u)))
  }

  /** A successful login sends every stored field of the user except the
      password, and signs nothing but the id and the admin flag. */
  lemma LoginHidesPassword(email: JsVal, phoneNumber: JsVal, password: JsVal,
                           findOne: (JsVal, JsVal) -> Fetch<User>,
                           compare: (JsVal, string) -> Option<bool>,
                           sign: map<string, JsVal> -> Option<string>)
    requires Login(email, phoneNumber, password, findOne, compare, sign).status == 200
    ensures var r := Login(email, phoneNumber, password, findOne, compare, sign);
      var u := findOne(email, phoneNumber).doc;
      && "password" !in r.user.value
      && (forall k :: k in ToDoc(u) && k != "password" ==> k in r.user.value && r.user.value[k] == ToDoc(u)[k])
      && "_id" in r.user.value && r.user.value["_id"] == Str(u.id)
      && r.signed.value.Keys == {"id", "isAdmin"}
      && "isPremium" !in r.signed.value
  {
  }
}
