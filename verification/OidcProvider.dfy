/** The provider object itself: the two dictionaries and the handlers that work on them,
    each request served on its own. */
module OidcProvider {
  import opened Text
  import opened Oidc

  /** A thread that nobody interrupts, for a number of steps. */
  function Alone(cfg: Config, sh: Shared, th: Thread, secret: string, steps: nat): (Shared, Thread)
    decreases steps
  {
    if steps == 0 then (sh, th) else
      var o := Advance(cfg, sh, th, secret);
      Alone(cfg, o.shared, o.thread, secret, steps - 1)
  }

  // ---- what an uninterrupted request comes to

  datatype After = After(codes: map<string, CodeGrant>, tokens: map<string, TokenGrant>, answer: Response)

  /** The code still stands for this client and this redirect address. */
  predicate Redeemable(codes: map<string, CodeGrant>, form: TokenForm, now: real) {
    && form.code in codes && codes[form.code].expires >= now
    && form.redirectUri == Some(codes[form.code].redirectUri)
    && form.clientId == Some(codes[form.code].clientId)
  }

  function ServeAuthorize(cfg: Config, sh: Shared, q: AuthorizeQuery, code: string): After {
    match CheckAuthorize(cfg, q)
    case Failure(answer) => After(sh.codes, sh.tokens, answer)
    case Success(email) =>
      var uri := q.redirectUri.GetOr("");
      After(sh.codes[code := CodeGrant(email, uri, cfg.clientId, sh.now + CODE_TTL)], sh.tokens, Redirect(uri, code, q.state))
  }

  /** The code is out of the table whatever else is wrong. */
  function ServeToken(cfg: Config, sh: Shared, form: TokenForm, token: string): After {
    match CheckClient(cfg, form)
    case Some(answer) => After(sh.codes, sh.tokens, answer)
    case None =>
      if Redeemable(sh.codes, form, sh.now) then
        After(sh.codes - {form.code}, sh.tokens[token := TokenGrant(sh.codes[form.code].email, sh.now + TOKEN_TTL)], Bearer(token))
      else After(sh.codes - {form.code}, sh.tokens, Refused(400, "invalid_grant"))
  }

  function ServeUserInfo(sh: Shared, token: string): After {
    After(sh.codes, sh.tokens,
           if token in sh.tokens && sh.tokens[token].expires >= sh.now then Person(sh.tokens[token].email)
           else Refused(401, "invalid_token"))
  }

  function Serve(cfg: Config, sh: Shared, request: Request, secret: string): After {
    match request
    case Authorize(q) => ServeAuthorize(cfg, sh, q, secret)
    case Token(form) => ServeToken(cfg, sh, form, secret)
    case UserInfo(token) => ServeUserInfo(sh, token)
  }

  // ---- the threads, uninterrupted, come to the same

  lemma AloneDone(cfg: Config, sh: Shared, answer: Response, secret: string, steps: nat)
    ensures Alone(cfg, sh, Done(answer), secret, steps) == (sh, Done(answer))
  {
  }

  lemma AloneNext(cfg: Config, sh: Shared, th: Thread, secret: string, steps: nat, o: Oidc.Outcome)
    requires steps > 0 && o == Advance(cfg, sh, th, secret)
    ensures Alone(cfg, sh, th, secret, steps) == Alone(cfg, o.shared, o.thread, secret, steps - 1)
  {
  }

  ghost predicate Comes(end: (Shared, Thread), s: After) {
    end.1 == Done(s.answer) && end.0.codes == s.codes && end.0.tokens == s.tokens
  }

  lemma AuthorizeAlone(cfg: Config, sh: Shared, q: AuthorizeQuery, code: string)
    requires Fresh(sh, code)
    ensures Comes(Alone(cfg, sh, AuthStart(q), code, 5), ServeAuthorize(cfg, sh, q, code))
  {
    var a := Advance(cfg, sh, AuthStart(q), code);
    AloneNext(cfg, sh, AuthStart(q), code, 5, a);
    match CheckAuthorize(cfg, q)
    case Failure(answer) => AloneDone(cfg, sh, answer, code, 4);
    case Success(email) =>
      var b := Advance(cfg, a.shared, a.thread, code);
      AloneNext(cfg, a.shared, a.thread, code, 4, b);
      var c := Advance(cfg, b.shared, b.thread, code);
      AloneNext(cfg, b.shared, b.thread, code, 3, c);
      AloneDone(cfg, c.shared, c.thread.response, code, 2);
  }

  lemma TokenAlone(cfg: Config, sh: Shared, form: TokenForm, token: string)
    requires Fresh(sh, token)
    ensures Comes(Alone(cfg, sh, TokenStart(form), token, 5), ServeToken(cfg, sh, form, token))
  {
    var a := Advance(cfg, sh, TokenStart(form), token);
    AloneNext(cfg, sh, TokenStart(form), token, 5, a);
    match CheckClient(cfg, form)
    case Some(answer) => AloneDone(cfg, sh, answer, token, 4);
    case None =>
      var popped := if form.code in sh.codes then Some(sh.codes[form.code]) else None;
      assert a.thread == TokenPopped(form, form.code, popped) && a.shared == sh.(codes := sh.codes - {form.code});
      PoppedAlone(cfg, a.shared, form, popped, token);
  }

  lemma PoppedAlone(cfg: Config, sh: Shared, form: TokenForm, popped: Option<CodeGrant>, token: string)
    requires Fresh(sh, token)
    ensures var end := Alone(cfg, sh, TokenPopped(form, form.code, popped), token, 4);
            if popped.Some? && popped.value.expires >= sh.now
               && form.redirectUri == Some(popped.value.redirectUri) && form.clientId == Some(popped.value.clientId)
            then Comes(end, After(sh.codes, sh.tokens[token := TokenGrant(popped.value.email, sh.now + TOKEN_TTL)], Bearer(token)))
            else Comes(end, After(sh.codes, sh.tokens, Refused(400, "invalid_grant")))
  {
    var th := TokenPopped(form, form.code, popped);
    var a := Advance(cfg, sh, th, token);
    AloneNext(cfg, sh, th, token, 4, a);
    if a.thread.Done? {
      AloneDone(cfg, a.shared, a.thread.response, token, 3);
    } else {
      var b := Advance(cfg, a.shared, a.thread, token);
      AloneNext(cfg, a.shared, a.thread, token, 3, b);
      if b.thread.Done? {
        AloneDone(cfg, b.shared, b.thread.response, token, 2);
      } else {
        var c := Advance(cfg, b.shared, b.thread, token);
        AloneNext(cfg, b.shared, b.thread, token, 2, c);
        var d := Advance(cfg, c.shared, c.thread, token);
        AloneNext(cfg, c.shared, c.thread, token, 1, d);
      }
    }
  }

  lemma UserInfoAlone(cfg: Config, sh: Shared, token: string, secret: string)
    ensures Comes(Alone(cfg, sh, UserStart(token), secret, 5), ServeUserInfo(sh, token))
  {
    var a := Advance(cfg, sh, UserStart(token), secret);
    AloneNext(cfg, sh, UserStart(token), secret, 5, a);
    if a.thread.Done? {
      AloneDone(cfg, a.shared, a.thread.response, secret, 4);
    } else {
      var b := Advance(cfg, a.shared, a.thread, secret);
      AloneNext(cfg, a.shared, a.thread, secret, 4, b);
      AloneDone(cfg, b.shared, b.thread.response, secret, 3);
    }
  }

  /** What a handler does to the tables and answers is what its thread comes to when nobody
      interrupts it, so the theorems about all runs hold of it. */
  lemma RequestAlone(cfg: Config, sh: Shared, request: Request, secret: string)
    requires Fresh(sh, secret)
    ensures Comes(Alone(cfg, sh, Begin(request), secret, 5), Serve(cfg, sh, request, secret))
  {
    match request
    case Authorize(q) => AuthorizeAlone(cfg, sh, q, secret);
    case Token(form) => TokenAlone(cfg, sh, form, secret);
    case UserInfo(token) => UserInfoAlone(cfg, sh, token, secret);
  }

  class Provider {
    const cfg: Config
    var codes: map<string, CodeGrant>
    var tokens: map<string, TokenGrant>

    constructor (cfg: Config)
      ensures this.cfg == cfg && codes == map[] && tokens == map[]
    {
      this.cfg := cfg;
      codes, tokens := map[], map[];
    }

    /** GET /authorize. `code` is what `secrets.token_urlsafe` gives. */
    method GetAuthorize(q: AuthorizeQuery, code: string, now: real) returns (answer: Response)
      modifies this`codes
      ensures After(codes, tokens, answer) == ServeAuthorize(cfg, Shared(old(codes), tokens, {}, now), q, code)
      ensures answer.Redirect? ==> q.responseType == Some("code") && q.clientId == Some(cfg.clientId)
      ensures answer.Redirect? ==> q.redirectUri == Some(answer.uri) && answer.uri != "" && answer.code == code && answer.state == q.state
      ensures answer.Redirect? && q.loginHint.Some? && q.loginHint.value != "" ==>
                Lower(q.loginHint.value) in cfg.users
                && codes == old(codes)[code := CodeGrant(Lower(q.loginHint.value), answer.uri, cfg.clientId, now + 120.0)]
      ensures answer.Redirect? && (q.loginHint == None || q.loginHint == Some("")) ==>
                Lower(cfg.defaultUser) in cfg.users
                && codes == old(codes)[code := CodeGrant(Lower(cfg.defaultUser), answer.uri, cfg.clientId, now + 120.0)]
      ensures !answer.Redirect? ==> answer.Refused? && answer.status == 400 && codes == old(codes)
      ensures q.responseType != Some("code") <==> answer == Refused(400, "unsupported_response_type")
      ensures q.responseType == Some("code") && q.clientId != Some(cfg.clientId) <==> answer == Refused(400, "unauthorized_client")
      ensures answer == Refused(400, "invalid_request") <==>
                q.responseType == Some("code") && q.clientId == Some(cfg.clientId) && (q.redirectUri == None || q.redirectUri == Some(""))
      ensures answer == Refused(400, "access_denied") ==>
                if q.loginHint.Some? && q.loginHint.value != "" then Lower(q.loginHint.value) !in cfg.users
                else Lower(cfg.defaultUser) !in cfg.users
    {
      if q.responseType != Some("code") {
        return Refused(400, "unsupported_response_type");
      }
      if q.clientId != Some(cfg.clientId) {
        return Refused(400, "unauthorized_client");
      }
      if q.redirectUri == None || q.redirectUri == Some("") {
        return Refused(400, "invalid_request");
      }
      var email := Lower(if q.loginHint == None || q.loginHint == Some("") then cfg.defaultUser else q.loginHint.value);
      if email !in cfg.users {
        return Refused(400, "access_denied");
      }
      codes := codes[code := CodeGrant(email, q.redirectUri.value, q.clientId.value, now + CODE_TTL)];
      answer := Redirect(q.redirectUri.value, code, q.state);
    }

    /** POST /token: the code is taken out of the table before anything about it is checked. */
    method PostToken(form: TokenForm, token: string, now: real) returns (answer: Response)
      modifies this`codes, this`tokens
      ensures After(codes, tokens, answer) == ServeToken(cfg, Shared(old(codes), old(tokens), {}, now), form, token)
      ensures answer.Bearer? <==>
                && form.clientId == Some(cfg.clientId) && form.clientSecret == Some(cfg.clientSecret)
                && form.grantType == Some("authorization_code") && form.code in old(codes)
                && now <= old(codes)[form.code].expires && form.redirectUri == Some(old(codes)[form.code].redirectUri)
                && old(codes)[form.code].clientId == cfg.clientId
      ensures answer.Bearer? ==>
                answer.token == token && tokens == old(tokens)[token := TokenGrant(old(codes)[form.code].email, now + 600.0)]
      ensures !answer.Bearer? ==> tokens == old(tokens)
      ensures form.clientId != Some(cfg.clientId) || form.clientSecret != Some(cfg.clientSecret) <==>
                answer == Refused(401, "invalid_client")
      ensures answer == Refused(400, "unsupported_grant_type") <==>
                && form.clientId == Some(cfg.clientId) && form.clientSecret == Some(cfg.clientSecret)
                && form.grantType != Some("authorization_code")
      ensures answer == Refused(401, "invalid_client") || answer == Refused(400, "unsupported_grant_type") ==> codes == old(codes)
      ensures answer == Refused(400, "invalid_grant") || answer.Bearer? ==> codes == old(codes) - {form.code}
      ensures answer.Bearer? || answer == Refused(401, "invalid_client") || answer == Refused(400, "unsupported_grant_type")
              || answer == Refused(400, "invalid_grant")
    {
      if form.clientId != Some(cfg.clientId) || form.clientSecret != Some(cfg.clientSecret) {
        return Refused(401, "invalid_client");
      }
      if form.grantType != Some("authorization_code") {
        return Refused(400, "unsupported_grant_type");
      }
      var popped := if form.code in codes then Some(codes[form.code]) else None;
      codes := codes - {form.code};
      if popped == None || popped.value.expires < now {
        return Refused(400, "invalid_grant");
      }
      var grant := popped.value;
      if form.redirectUri != Some(grant.redirectUri) || form.clientId != Some(grant.clientId) {
        return Refused(400, "invalid_grant");
      }
      tokens := tokens[token := TokenGrant(grant.email, now + TOKEN_TTL)];
      answer := Bearer(token);
    }

    /** GET /userinfo reads, and changes nothing. */
    method GetUserInfo(token: string, now: real) returns (answer: Response)
      ensures After(codes, tokens, answer) == ServeUserInfo(Shared(codes, tokens, {}, now), token)
      ensures answer == if token in tokens && now <= tokens[token].expires then Person(tokens[token].email)
                        else Refused(401, "invalid_token")
    {
      if token !in tokens || tokens[token].expires < now {
        return Refused(401, "invalid_token");
      }
      answer := Person(tokens[token].email);
    }
  }

  /** One sign-in, start to finish: the person hinted at, or the default one, is the person
      served, and the code cannot be used again, for every client request that plays by the
      rules in time. */
  method SignIn(p: Provider, q: AuthorizeQuery, form: TokenForm, code: string, token: string, t0: real, t1: real, t2: real)
    returns (person: Response, again: Response)
    requires q.responseType == Some("code") && q.clientId == Some(p.cfg.clientId)
    requires q.redirectUri.Some? && q.redirectUri.value != ""
    requires Lower(if q.loginHint.Some? && q.loginHint.value != "" then q.loginHint.value else p.cfg.defaultUser) in p.cfg.users
    requires form.clientId == Some(p.cfg.clientId) && form.clientSecret == Some(p.cfg.clientSecret)
    requires form.grantType == Some("authorization_code") && form.code == code && form.redirectUri == q.redirectUri
    requires t1 <= t0 + 120.0 && t2 <= t1 + 600.0
    modifies p
    ensures person == Person(Lower(if q.loginHint.Some? && q.loginHint.value != "" then q.loginHint.value else p.cfg.defaultUser))
    ensures again == Refused(400, "invalid_grant")
  {
    var redirect := p.GetAuthorize(q, code, t0);
    var bearer := p.PostToken(form, token, t1);
    person := p.GetUserInfo(token, t2);
    again := p.PostToken(form, token, t2);
  }
}
