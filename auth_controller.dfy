/** The parts of backend/controllers/authController.js that decide
    something without a library call: the allow-list projection `filterObj`
    and its use by `updateMe`, the choice of token shared by `protect` and
    `isLoggedIn`, the cookie value `logout` leaves behind, and the
    credential check that opens `login`. */
module AuthController {
  import opened Wrappers
  import opened Strings

  /** `filterObj(obj, ...allowedFields)`: copy, key by key, the entries
      whose key is allowed. The result holds exactly the allowed keys of the
      input, each with its value; the input map is a value and stays as it
      was. */
  method FilterObj<V>(obj: map<string, V>, allowedFields: seq<string>) returns (newObj: map<string, V>)
    ensures newObj.Keys == set k | k in obj && k in allowedFields
    ensures forall k :: k in newObj ==> newObj[k] == obj[k]
  {
    newObj := map[];
    var keys := obj.Keys;
    while keys != {}
      invariant keys <= obj.Keys
      invariant newObj.Keys == set k | k in obj && k !in keys && k in allowedFields
      invariant forall k :: k in newObj ==> newObj[k] == obj[k]
      decreases keys
    {
      var el :| el in keys;
      if el in allowedFields {
        newObj := newObj[el := obj[el]];
      }
      keys := keys - {el};
    }
  }

  const UpdatableFields: seq<string> := ["name", "email", "phoneNumber", "avatar"]

  /** The body `updateMe` passes on: only name, email, phone number and
      avatar survive; a password, a role or any other key is dropped. */
  method UpdateMeBody<V>(body: map<string, V>) returns (filtered: map<string, V>)
    ensures filtered.Keys == body.Keys * {"name", "email", "phoneNumber", "avatar"}
    ensures forall k :: k in filtered ==> filtered[k] == body[k]
    ensures "password" !in filtered && "passwordConfirm" !in filtered
  {
    filtered := FilterObj(body, UpdatableFields);
  }

  /** The cookie value `logout` sets. */
  const LoggedOut: string := "loggedout"

  /** The parts of a request that carry a token: the Authorization header
      and the `jwt` cookie, each missing or as sent. */
  datatype Credentials = Credentials(authorization: Option<string>, jwt: Option<string>)

  predicate Truthy(s: Option<string>) { s.Some? && s.value != "" }

  predicate StartsWith(s: string, prefix: string) {
    |prefix| <= |s| && s[..|prefix|] == prefix
  }

  /** A non-empty Authorization header starting with "Bearer". */
  predicate HasBearer(c: Credentials) {
    Truthy(c.authorization) && StartsWith(c.authorization.value, "Bearer")
  }

  /** `split(' ')[1]`: the second space-separated field, `undefined` when
      there is none. */
  function SecondField(s: string): (r: Option<string>)
    ensures r.Some? ==> ' ' !in r.value
  {
    var parts := Split(s, ' ');
    if |parts| > 1 then Some(parts[1]) else None
  }

  /** The token selection of `protect` and `isLoggedIn`. A Bearer header
      wins and gives its second field; otherwise the `jwt` cookie, unless it
      is empty or the logged-out marker; otherwise no token. */
  method SelectToken(c: Credentials) returns (token: Option<string>)
    ensures HasBearer(c) ==> token == SecondField(c.authorization.value)
    ensures !HasBearer(c) && Truthy(c.jwt) && c.jwt.value != LoggedOut ==> token == c.jwt
    ensures !HasBearer(c) && (!Truthy(c.jwt) || c.jwt.value == LoggedOut) ==> token.None?
    ensures token.Some? && !HasBearer(c) ==> token.value != LoggedOut
  {
    token := None;
    if c.authorization.Some? && c.authorization.value != "" && StartsWith(c.authorization.value, "Bearer") {
      token := SecondField(c.authorization.value);
    } else if c.jwt.Some? && c.jwt.value != "" && c.jwt.value != "loggedout" {
      token := c.jwt;
    }
  }

  /** A header "Bearer <t>" yields the token `t`. */
  lemma BearerToken(t: string)
    requires ' ' !in t
    ensures SecondField("Bearer " + t) == Some(t)
  {
    assert "Bearer " + t == "Bearer" + [' '] + t;
    SplitFirstPiece("Bearer", t, ' ');
    SplitNoSeparator(t, ' ');
  }

  /** After `logout`, unless the Authorization header is a Bearer one,
      no token is selected. */
  method LoggedOutIgnored(auth: Option<string>) returns (token: Option<string>)
    requires !HasBearer(Credentials(auth, Some(LoggedOut)))
    ensures token.None?
  {
    token := SelectToken(Credentials(auth, Some(LoggedOut)));
  }

  const NotLoggedInMessage: string := "You are not logged in! Please log in to get access"

  /** The outcome of the token step: stop with an error, let the request
      through as anonymous, or go on to verify the token. */
  datatype Gate = Reject(message: string) | Anonymous | Verify(token: string)

  /** `protect` up to the token check: without a token (none or empty) the
      request fails with the not-logged-in error. */
  method Protect(c: Credentials) returns (g: Gate)
    ensures g == Reject(NotLoggedInMessage) || g.Verify?
    ensures g.Verify? ==> g.token != ""
    ensures !HasBearer(c) && (!Truthy(c.jwt) || c.jwt.value == LoggedOut) ==> g == Reject(NotLoggedInMessage)
    ensures HasBearer(c) ==>
      g == (if Truthy(SecondField(c.authorization.value)) then Verify(SecondField(c.authorization.value).value)
            else Reject(NotLoggedInMessage))
    ensures !HasBearer(c) && Truthy(c.jwt) && c.jwt.value != LoggedOut ==> g == Verify(c.jwt.value)
  {
    var token := SelectToken(c);
    if token.None? || token.value == "" {
      return Reject(NotLoggedInMessage);
    }
    g := Verify(token.value);
  }

  /** `isLoggedIn` up to the token check: without a token the request goes
      on with no user. */
  method IsLoggedIn(c: Credentials) returns (g: Gate)
    ensures g == Anonymous || g.Verify?
    ensures g.Verify? ==> g.token != ""
    ensures !HasBearer(c) && (!Truthy(c.jwt) || c.jwt.value == LoggedOut) ==> g == Anonymous
    ensures HasBearer(c) ==>
      g == (if Truthy(SecondField(c.authorization.value)) then Verify(SecondField(c.authorization.value).value)
            else Anonymous)
    ensures !HasBearer(c) && Truthy(c.jwt) && c.jwt.value != LoggedOut ==> g == Verify(c.jwt.value)
  {
    var token := SelectToken(c);
    if token.None? || token.value == "" {
      return Anonymous;
    }
    g := Verify(token.value);
  }

  const MissingCredentialsMessage: string := "Please provide email and password"

  /** The check that opens `login`: a missing or empty email or password
      fails before any lookup; otherwise the pair goes on to the lookup. */
  function CheckCredentials(email: Option<string>, password: Option<string>): (r: Result<(string, string), string>)
    ensures r.Failure? <==> !Truthy(email) || !Truthy(password)
    ensures r.Failure? ==> r.error == MissingCredentialsMessage
    ensures r.Success? ==> r.value == (email.value, password.value)
  {
    if email.None? || email.value == "" || password.None? || password.value == "" then
      Failure("Please provide email and password")
    else Success((email.value, password.value))
  }
}
