/** The credential check (server/controller/authController.js): one configured
    administrator, compared field by field, and a one-hour token on success. */
module AuthController {
  import opened Wrappers
  import opened Json
  import opened Jwt
  import opened Http

  /** `process.env.ADMIN_USERNAME` and `process.env.ADMIN_PASSWORD`; either may be unset. */
  datatype Config = Config(adminUsername: Option<string>, adminPassword: Option<string>)

  /** An environment variable as a JavaScript value: unset reads as `undefined`. */
  function EnvValue(v: Option<string>): JsValue
  {
    if v.Some? then Str(v.value) else Undefined
  }

  /** Both submitted fields are strictly equal to the configured ones. */
  predicate CredentialsMatch(body: Object, config: Config)
  {
    StrictEquals(Get(body, "username"), EnvValue(config.adminUsername))
    && StrictEquals(Get(body, "password"), EnvValue(config.adminPassword))
  }

  /** `login`: reads the request body and the configuration, changes nothing,
      and answers either 401 or 200 with a token over `{username}` that expires
      one hour after `now`. */
  function Login(body: Object, config: Config, sign: Signer, now: int): (res: Response)
    ensures res.status == OK <==> CredentialsMatch(body, config)
    ensures res.status != OK ==> res == Response(Unauthorized, Message("Invalid credentials"))
    ensures res.status == OK ==>
              res.body == Token(sign(Claims(Get(body, "username"), now, now + TokenLifetime)))
  {
    var username := Get(body, "username");
    var password := Get(body, "password");
    if !StrictEquals(username, EnvValue(config.adminUsername))
       || !StrictEquals(password, EnvValue(config.adminPassword)) then
      Response(Unauthorized, Message("Invalid credentials"))
    else
      Response(OK, Token(sign(Claims(username, now, now + TokenLifetime))))
  }

  /** A wrong username and a wrong password are answered identically, so a
      caller cannot tell which of the two was wrong. */
  lemma FailuresIndistinguishable(wrongUser: Object, wrongPassword: Object, config: Config,
                                  sign: Signer, now: int, now': int)
    requires !StrictEquals(Get(wrongUser, "username"), EnvValue(config.adminUsername))
    requires StrictEquals(Get(wrongPassword, "username"), EnvValue(config.adminUsername))
    requires !StrictEquals(Get(wrongPassword, "password"), EnvValue(config.adminPassword))
    ensures Login(wrongUser, config, sign, now) == Login(wrongPassword, config, sign, now')
  {
  }

  /** Matching is exact: no trimming and no case folding. */
  lemma NoNormalisation(config: Config, sign: Signer, now: int)
    requires config == Config(Some("admin"), Some("secret"))
    ensures Login(map["username" := Str(" admin"), "password" := Str("secret")], config, sign, now).status == Unauthorized
    ensures Login(map["username" := Str("Admin"), "password" := Str("secret")], config, sign, now).status == Unauthorized
    ensures Login(map["username" := Str("admin"), "password" := Str("secret")], config, sign, now).status == OK
  {
  }

  /** With neither variable set, a body that omits both fields logs in: an
      absent field is `undefined`, and so is an unset variable. */
  lemma UnsetConfigurationAdmitsEmptyBody(sign: Signer, now: int)
    ensures Login(map[], Config(None, None), sign, now).status == OK
  {
  }

  /** A non-string submission (a number, an array) never matches. */
  lemma OnlyStringsMatch(body: Object, config: Config)
    requires config.adminUsername.Some?
    requires !Get(body, "username").Str?
    ensures !CredentialsMatch(body, config)
  {
  }
}
