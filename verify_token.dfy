/** The access guard (server/middlewares/verifyToken.js): a bearer token in the
    `Authorization` header (section 2.1 of RFC 6750), verified as a JSON Web
    Token. */
module VerifyToken {
  import opened Wrappers
  import opened Json
  import opened Jwt
  import opened Http
  import AuthController

  // ---------------------------------------------------------------------------
  // `String.prototype.split` on a one-character separator

  /** `s.split(sep)`: the maximal runs between separators, empty runs included. */
  function Split(s: string, sep: char): (parts: seq<string>)
    ensures |parts| >= 1
    ensures forall i :: 0 <= i < |parts| ==> sep !in parts[i]
    ensures Join(parts, sep) == s
    decreases |s|
  {
    if s == [] then [""]
    else
      var rest := Split(s[1..], sep);
      if s[0] == sep then
        assert [sep] + s[1..] == s;
        [""] + rest
      else
        assert [s[0]] + s[1..] == s;
        [[s[0]] + rest[0]] + rest[1..]
  }

  /** `parts.join(sep)`. */
  function Join(parts: seq<string>, sep: char): string
  {
    if parts == [] then ""
    else if |parts| == 1 then parts[0]
    else parts[0] + [sep] + Join(parts[1..], sep)
  }

  /** Splitting a string that does not contain the separator yields the string itself. */
  lemma {:induction false} SplitWithoutSeparator(s: string, sep: char)
    requires sep !in s
    ensures Split(s, sep) == [s]
    decreases |s|
  {
    if s != [] {
      SplitWithoutSeparator(s[1..], sep);
      assert [s[0]] + s[1..] == s;
    }
  }

  /** Splitting `head + sep + tail`, where `head` has no separator, yields
      `head` followed by the fields of `tail`. */
  lemma {:induction false} SplitAfterField(head: string, sep: char, tail: string)
    requires sep !in head
    ensures Split(head + [sep] + tail, sep) == [head] + Split(tail, sep)
    decreases |head|
  {
    var s := head + [sep] + tail;
    if head == [] {
      assert s == [sep] + tail;
      assert s[1..] == tail;
    } else {
      assert s[1..] == head[1..] + [sep] + tail;
      SplitAfterField(head[1..], sep, tail);
      assert [head[0]] + head[1..] == head;
    }
  }

  // ---------------------------------------------------------------------------
  // The guard

  const BearerPrefix: string := "Bearer "

  predicate StartsWith(s: string, prefix: string)
  {
    |prefix| <= |s| && s[..|prefix|] == prefix
  }

  /** The header is present and starts with "Bearer " (case-sensitive, with the space). */
  predicate HasBearerScheme(authorization: Option<string>)
  {
    authorization.Some? && StartsWith(authorization.value, BearerPrefix)
  }

  /** The credential RFC 6750 places after the scheme, cut at the next space. */
  function Credential(header: string): string
    requires StartsWith(header, BearerPrefix)
  {
    Split(header[|BearerPrefix|..], ' ')[0]
  }

  /** `authHeader.split(" ")[1]`, or `None` (`undefined`) without a second field. */
  function SecondField(header: string): (r: Option<string>)
    ensures StartsWith(header, BearerPrefix) ==> r == Some(Credential(header))
  {
    var parts := Split(header, ' ');
    assert StartsWith(header, BearerPrefix) ==> |parts| >= 2 && parts[1] == Credential(header) by {
      if StartsWith(header, BearerPrefix) {
        assert header == "Bearer" + [' '] + header[|BearerPrefix|..];
        SplitAfterField("Bearer", ' ', header[|BearerPrefix|..]);
      }
    }
    if |parts| >= 2 then Some(parts[1]) else None
  }

  /** What the middleware does: `Admit(user)` sets `req.user` to `user` and
      calls `next()` once, writing nothing; `Reject(response)` writes the
      response and does not call `next()`. */
  datatype Verdict = Admit(user: Claims) | Reject(response: Response)

  const MissingToken: Response := Response(Unauthorized, Message("Access denied. No token provided."))
  const InvalidToken: Response := Response(Forbidden, Message("Invalid or expired token."))

  function Guard(authorization: Option<string>, verify: Verifier, now: int): (v: Verdict)
    ensures !HasBearerScheme(authorization) ==> v == Reject(MissingToken)
    ensures HasBearerScheme(authorization) ==>
              v == match verify(Credential(authorization.value), now)
                   case Some(user) => Admit(user)
                   case None => Reject(InvalidToken)
  {
    if authorization.None? || authorization.value == "" || !StartsWith(authorization.value, BearerPrefix) then
      Reject(MissingToken)
    else
      match SecondField(authorization.value)
      case None => Reject(InvalidToken)
      case Some(token) =>
        match verify(token, now)
        case Some(user) => Admit(user)
        case None => Reject(InvalidToken)
  }

  /** The token is the text after "Bearer " up to the next space: "Bearer a b"
      carries "a", and "Bearer " carries the empty token. */
  lemma CredentialExamples()
    ensures Credential("Bearer a b") == "a"
    ensures Credential("Bearer ") == ""
    ensures forall t :: ' ' !in t ==> Credential(BearerPrefix + t) == t
  {
    assert "Bearer a b"[|BearerPrefix|..] == "a" + [' '] + "b";
    SplitAfterField("a", ' ', "b");
    assert "Bearer "[|BearerPrefix|..] == "";
    forall t | ' ' !in t ensures Credential(BearerPrefix + t) == t {
      assert (BearerPrefix + t)[|BearerPrefix|..] == t;
      SplitWithoutSeparator(t, ' ');
    }
  }

  /** The scheme name is case-sensitive and needs its trailing space. */
  lemma SchemeIsExact(verify: Verifier, now: int)
    ensures Guard(Some("bearer abc"), verify, now) == Reject(MissingToken)
    ensures Guard(Some("Bearer"), verify, now) == Reject(MissingToken)
    ensures Guard(Some("Basic abc"), verify, now) == Reject(MissingToken)
  {
    assert !StartsWith("bearer abc", BearerPrefix) by { assert "bearer abc"[0] != BearerPrefix[0]; }
    assert !StartsWith("Basic abc", BearerPrefix) by { assert "Basic abc"[1] != BearerPrefix[1]; }
  }

  /** A token obtained from a successful login is admitted by the guard until
      its hour is over and refused from then on, with the signed username as
      the request's user. */
  lemma {:induction false} IssuedTokenAdmittedForOneHour(
    body: Object, config: AuthController.Config, sign: Signer, verify: Verifier, issued: int, now: int)
    requires Sound(sign, verify)
    requires AuthController.Login(body, config, sign, issued).status == OK
    ensures var token := AuthController.Login(body, config, sign, issued).body.token;
            var claims := Claims(Get(body, "username"), issued, issued + TokenLifetime);
            Guard(Some(BearerPrefix + token), verify, now)
              == if now < issued + TokenLifetime then Admit(claims) else Reject(InvalidToken)
  {
    var claims := Claims(Get(body, "username"), issued, issued + TokenLifetime);
    var token := sign(claims);
    var header := BearerPrefix + token;
    assert header[..|BearerPrefix|] == BearerPrefix;
    assert header[|BearerPrefix|..] == token;
    SplitWithoutSeparator(token, ' ');
    assert Credential(header) == token;
  }
}
