/** scripts/mock_oidc_provider.py: the handlers as threads over the two shared tables.
    A thread moves one atomic step at a time: a table operation, a clock reading or a draw of
    a fresh secret. Any number of threads interleave in any order. */
module Oidc {
  import opened Text

  const CODE_TTL: real := 120.0
  const TOKEN_TTL: real := 600.0

  /** The people are known by their lower-case address; the first one named is the default. */
  datatype Config = Config(clientId: string, clientSecret: string, users: set<string>, defaultUser: string)

  datatype AuthorizeQuery = AuthorizeQuery(
    responseType: Option<string>, clientId: Option<string>, redirectUri: Option<string>,
    loginHint: Option<string>, state: string)

  /** The form, with the client's credentials taken from HTTP Basic when it is used. */
  datatype TokenForm = TokenForm(
    clientId: Option<string>, clientSecret: Option<string>, grantType: Option<string>,
    code: string, redirectUri: Option<string>)

  datatype Request = Authorize(query: AuthorizeQuery) | Token(form: TokenForm) | UserInfo(token: string)

  datatype CodeGrant = CodeGrant(email: string, redirectUri: string, clientId: string, expires: real)
  datatype TokenGrant = TokenGrant(email: string, expires: real)

  datatype Response =
    | Refused(status: nat, error: string)
    | Redirect(uri: string, code: string, state: string)
    | Bearer(token: string)
    | Person(email: string)

  /** Which person /authorize signs in, or how it refuses. */
  function CheckAuthorize(cfg: Config, q: AuthorizeQuery): Result<string, Response> {
    if q.responseType != Some("code") then Failure(Refused(400, "unsupported_response_type"))
    else if q.clientId != Some(cfg.clientId) then Failure(Refused(400, "unauthorized_client"))
    else if q.redirectUri == None || q.redirectUri == Some("") then Failure(Refused(400, "invalid_request"))
    else
      var hint := if q.loginHint == None || q.loginHint == Some("") then cfg.defaultUser else q.loginHint.value;
      if Lower(hint) !in cfg.users then Failure(Refused(400, "access_denied")) else Success(Lower(hint))
  }

  /** What /token checks before it touches the codes. */
  function CheckClient(cfg: Config, form: TokenForm): Option<Response> {
    if form.clientId != Some(cfg.clientId) || form.clientSecret != Some(cfg.clientSecret)
    then Some(Refused(401, "invalid_client"))
    else if form.grantType != Some("authorization_code") then Some(Refused(400, "unsupported_grant_type"))
    else None
  }

  // ---- threads

  datatype Thread =
    | AuthStart(query: AuthorizeQuery)
    | AuthDrawn(code: string, email: string, redirectUri: string, clientId: string, state: string)
    | AuthStamped(code: string, grant: CodeGrant, state: string)
    | TokenStart(form: TokenForm)
    | TokenPopped(form: TokenForm, code: string, popped: Option<CodeGrant>)
    | TokenTimely(form: TokenForm, code: string, grant: CodeGrant, checked: real)
    | TokenDrawn(code: string, grant: CodeGrant, checked: real, token: string)
    | TokenStamped(code: string, grant: CodeGrant, checked: real, token: string, at: real)
    | UserStart(token: string)
    | UserFound(token: string, found: TokenGrant)
    | Done(response: Response)

  /** What a run leaves behind, in order. A code's time is the clock reading its expiry is
      counted from; `checked` is the reading a code's expiry was compared with, and a token's
      `at` the reading its own expiry is counted from. */
  datatype Event =
    | Issued(code: string, email: string, redirectUri: string, clientId: string, at: real)
    | Redeemed(code: string, presented: Option<string>)
    | Minted(token: string, code: string, checked: real, at: real)
    | Served(token: string, email: string, at: real)

  /** The tables, the clock, and every secret drawn so far. */
  datatype Shared = Shared(codes: map<string, CodeGrant>, tokens: map<string, TokenGrant>, drawn: set<string>, now: real)

  datatype Outcome = Outcome(shared: Shared, thread: Thread, events: seq<Event>)

  function Begin(r: Request): Thread {
    match r
    case Authorize(query) => AuthStart(query)
    case Token(form) => TokenStart(form)
    case UserInfo(token) => UserStart(token)
  }

  /** `secrets.token_urlsafe` gives a non-empty text nobody was given before. */
  predicate Fresh(sh: Shared, secret: string) { secret != "" && secret !in sh.drawn }

  function Draw(sh: Shared, secret: string): Shared { sh.(drawn := sh.drawn + {secret}) }

  /** One atomic step of one thread. `secret` is what a draw would give; a draw that is not
      fresh cannot happen, and leaves everything as it is. */
  function Advance(cfg: Config, sh: Shared, th: Thread, secret: string): Outcome {
    match th
    case AuthStart(q) =>
      (match CheckAuthorize(cfg, q)
       case Failure(response) => Outcome(sh, Done(response), [])
       case Success(email) =>
         if Fresh(sh, secret)
         then Outcome(Draw(sh, secret), AuthDrawn(secret, email, q.redirectUri.GetOr(""), q.clientId.GetOr(""), q.state), [])
         else Outcome(sh, th, []))
    case AuthDrawn(code, email, redirectUri, clientId, state) =>
      Outcome(sh, AuthStamped(code, CodeGrant(email, redirectUri, clientId, sh.now + CODE_TTL), state), [])
    case AuthStamped(code, g, state) =>
      Outcome(sh.(codes := sh.codes[code := g]), Done(Redirect(g.redirectUri, code, state)),
              [Issued(code, g.email, g.redirectUri, g.clientId, g.expires - CODE_TTL)])
    case TokenStart(form) =>
      (match CheckClient(cfg, form)
       case Some(response) => Outcome(sh, Done(response), [])
       case None =>
         if form.code in sh.codes
         then Outcome(sh.(codes := sh.codes - {form.code}), TokenPopped(form, form.code, Some(sh.codes[form.code])),
                      [Redeemed(form.code, form.redirectUri)])
         else Outcome(sh, TokenPopped(form, form.code, None), []))
    case TokenPopped(form, code, popped) =>
      if popped == None || popped.value.expires < sh.now
      then Outcome(sh, Done(Refused(400, "invalid_grant")), [])
      else Outcome(sh, TokenTimely(form, code, popped.value, sh.now), [])
    case TokenTimely(form, code, g, checked) =>
      if form.redirectUri != Some(g.redirectUri) || form.clientId != Some(g.clientId)
      then Outcome(sh, Done(Refused(400, "invalid_grant")), [])
      else if Fresh(sh, secret) then Outcome(Draw(sh, secret), TokenDrawn(code, g, checked, secret), [])
      else Outcome(sh, th, [])
    case TokenDrawn(code, g, checked, token) =>
      Outcome(sh, TokenStamped(code, g, checked, token, sh.now), [])
    case TokenStamped(code, g, checked, token, at) =>
      Outcome(sh.(tokens := sh.tokens[token := TokenGrant(g.email, at + TOKEN_TTL)]), Done(Bearer(token)),
              [Minted(token, code, checked, at)])
    case UserStart(token) =>
      if token in sh.tokens then Outcome(sh, UserFound(token, sh.tokens[token]), [])
      else Outcome(sh, Done(Refused(401, "invalid_token")), [])
    case UserFound(token, g) =>
      if g.expires < sh.now then Outcome(sh, Done(Refused(401, "invalid_token")), [])
      else Outcome(sh, Done(Person(g.email)), [Served(token, g.email, sh.now)])
    case Done(_) => Outcome(sh, th, [])
  }

  // ---- runs

  datatype State = State(shared: Shared, threads: map<nat, Thread>, log: seq<Event>)

  /** A request arrives under a new number, a thread moves, or the clock does,
      forwards as time passes or back when it is set. */
  datatype Action = Arrive(id: nat, request: Request) | Move(id: nat, secret: string) | Clock(step: real)

  function Exec(cfg: Config, s: State, a: Action): State {
    match a
    case Arrive(id, r) => if id in s.threads then s else s.(threads := s.threads[id := Begin(r)])
    case Move(id, secret) =>
      if id !in s.threads then s else
        var o := Advance(cfg, s.shared, s.threads[id], secret);
        State(o.shared, s.threads[id := o.thread], s.log + o.events)
    case Clock(step) => s.(shared := s.shared.(now := s.shared.now + step))
  }

  function Run(cfg: Config, s: State, actions: seq<Action>): State
    decreases |actions|
  {
    if actions == [] then s else Run(cfg, Exec(cfg, s, actions[0]), actions[1..])
  }

  function Start(now: real): State { State(Shared(map[], map[], {}, now), map[], []) }

  // ---- what may be written to the log

  ghost predicate IsIssued(log: seq<Event>, code: string, g: CodeGrant) {
    Issued(code, g.email, g.redirectUri, g.clientId, g.expires - CODE_TTL) in log
  }

  /** The event introduces or spends the secret. */
  predicate Mentions(e: Event, secret: string) {
    match e
    case Issued(code, _, _, _, _) => code == secret
    case Redeemed(code, _) => code == secret
    case Minted(token, code, _, _) => token == secret || code == secret
    case Served(_, _, _) => false
  }

  predicate Unmentioned(log: seq<Event>, secret: string) {
    forall k :: 0 <= k < |log| ==> !Mentions(log[k], secret)
  }

  predicate NeverRedeemed(log: seq<Event>, code: string) {
    forall k :: 0 <= k < |log| && log[k].Redeemed? ==> log[k].code != code
  }

  predicate NeverMinted(log: seq<Event>, code: string) {
    forall k :: 0 <= k < |log| && log[k].Minted? ==> log[k].code != code
  }

  ghost predicate BackedBy(log: seq<Event>, token: string, g: TokenGrant, code: string, cg: CodeGrant, checked: real) {
    IsIssued(log, code, cg) && cg.email == g.email && Minted(token, code, checked, g.expires - TOKEN_TTL) in log
  }

  /** The token was minted for a code that was issued to the same person. */
  ghost predicate Backed(log: seq<Event>, token: string, g: TokenGrant) {
    exists code, cg, checked :: BackedBy(log, token, g, code, cg, checked)
  }

  /** When an event may follow a log. */
  ghost predicate Legal(cfg: Config, log: seq<Event>, e: Event) {
    match e
    case Issued(code, email, _, clientId, _) =>
      email in cfg.users && clientId == cfg.clientId && Unmentioned(log, code)
    case Redeemed(code, _) =>
      NeverRedeemed(log, code) && exists g :: IsIssued(log, code, g)
    case Minted(token, code, checked, at) =>
      && NeverMinted(log, code) && Unmentioned(log, token)
      && exists g :: IsIssued(log, code, g) && Redeemed(code, Some(g.redirectUri)) in log && checked <= g.expires
    case Served(token, email, at) =>
      exists g :: Backed(log, token, g) && g.email == email && at <= g.expires
  }

  ghost predicate LegalLog(cfg: Config, log: seq<Event>) {
    forall k :: 0 <= k < |log| ==> Legal(cfg, log[..k], log[k])
  }

  // ---- the invariant

  /** The secrets a thread alone may put into a table or spend. */
  function Held(th: Thread): set<string> {
    match th
    case AuthDrawn(code, _, _, _, _) => {code}
    case AuthStamped(code, _, _) => {code}
    case TokenPopped(_, code, Some(_)) => {code}
    case TokenTimely(_, code, _, _) => {code}
    case TokenDrawn(code, _, _, token) => {code, token}
    case TokenStamped(code, _, _, token, _) => {code, token}
    case _ => {}
  }

  ghost predicate CodeTaken(cfg: Config, log: seq<Event>, code: string, g: CodeGrant, presented: Option<string>) {
    IsIssued(log, code, g) && g.clientId == cfg.clientId && Redeemed(code, presented) in log && NeverMinted(log, code)
  }

  /** What is true of a thread wherever it stands. */
  ghost predicate ThreadOk(cfg: Config, log: seq<Event>, th: Thread) {
    match th
    case AuthDrawn(code, email, _, clientId, _) =>
      Unmentioned(log, code) && email in cfg.users && clientId == cfg.clientId
    case AuthStamped(code, g, _) =>
      Unmentioned(log, code) && g.email in cfg.users && g.clientId == cfg.clientId
    case TokenPopped(form, code, Some(g)) =>
      form.clientId == Some(cfg.clientId) && CodeTaken(cfg, log, code, g, form.redirectUri)
    case TokenTimely(form, code, g, checked) =>
      form.clientId == Some(cfg.clientId) && CodeTaken(cfg, log, code, g, form.redirectUri)
      && checked <= g.expires
    case TokenDrawn(code, g, checked, token) =>
      CodeTaken(cfg, log, code, g, Some(g.redirectUri)) && checked <= g.expires
      && Unmentioned(log, token) && token != code
    case TokenStamped(code, g, checked, token, at) =>
      CodeTaken(cfg, log, code, g, Some(g.redirectUri)) && checked <= g.expires
      && Unmentioned(log, token) && token != code
    case UserFound(token, g) => Backed(log, token, g)
    case _ => true
  }

  ghost predicate CodeOk(cfg: Config, log: seq<Event>, code: string, g: CodeGrant) {
    IsIssued(log, code, g) && g.clientId == cfg.clientId && NeverRedeemed(log, code) && NeverMinted(log, code)
  }

  ghost predicate TablesOk(cfg: Config, sh: Shared, log: seq<Event>) {
    && (forall code :: code in sh.codes ==> code in sh.drawn && CodeOk(cfg, log, code, sh.codes[code]))
    && (forall token :: token in sh.tokens ==> Backed(log, token, sh.tokens[token]))
    && (forall secret :: secret !in sh.drawn ==> Unmentioned(log, secret))
  }

  ghost predicate ThreadsOk(cfg: Config, s: State) {
    forall id :: id in s.threads ==>
      && ThreadOk(cfg, s.log, s.threads[id])
      && Held(s.threads[id]) <= s.shared.drawn
      && Held(s.threads[id]) !! s.shared.codes.Keys
  }

  /** No two threads hold the same secret. */
  predicate Apart(s: State) {
    forall i, j :: i in s.threads && j in s.threads && i != j ==> Held(s.threads[i]) !! Held(s.threads[j])
  }

  ghost predicate Inv(cfg: Config, s: State) {
    LegalLog(cfg, s.log) && TablesOk(cfg, s.shared, s.log) && ThreadsOk(cfg, s) && Apart(s)
  }

  // ---- facts survive later events

  predicate Touches(e: Event, secrets: set<string>) { exists x :: x in secrets && Mentions(e, x) }

  lemma LegalSnoc(cfg: Config, log: seq<Event>, e: Event)
    requires LegalLog(cfg, log) && Legal(cfg, log, e)
    ensures LegalLog(cfg, log + [e])
  {
    var all := log + [e];
    forall k | 0 <= k < |all|
      ensures Legal(cfg, all[..k], all[k])
    {
      if k < |log| {
        assert all[..k] == log[..k];
      } else {
        assert all[..k] == log;
      }
    }
  }

  lemma IssuedStays(log: seq<Event>, e: Event, code: string, g: CodeGrant)
    requires IsIssued(log, code, g)
    ensures IsIssued(log + [e], code, g)
  {
  }

  lemma BackedStays(log: seq<Event>, e: Event, token: string, g: TokenGrant)
    requires Backed(log, token, g)
    ensures Backed(log + [e], token, g)
  {
    var code, cg, checked :| BackedBy(log, token, g, code, cg, checked);
    assert BackedBy(log + [e], token, g, code, cg, checked);
  }

  lemma UnmentionedStays(log: seq<Event>, e: Event, secret: string)
    requires Unmentioned(log, secret) && !Mentions(e, secret)
    ensures Unmentioned(log + [e], secret)
  {
  }

  lemma CodeTakenStays(cfg: Config, log: seq<Event>, e: Event, code: string, g: CodeGrant, presented: Option<string>)
    requires CodeTaken(cfg, log, code, g, presented) && !Mentions(e, code)
    ensures CodeTaken(cfg, log + [e], code, g, presented)
  {
  }

  /** An event about other secrets, and the passing of time, leave a thread as it was. */
  lemma ThreadStays(cfg: Config, log: seq<Event>, e: Event, th: Thread)
    requires ThreadOk(cfg, log, th) && !Touches(e, Held(th))
    ensures ThreadOk(cfg, log + [e], th)
  {
    match th
    case AuthDrawn(code, _, _, _, _) => UnmentionedStays(log, e, code);
    case AuthStamped(code, _, _) => UnmentionedStays(log, e, code);
    case TokenPopped(form, code, Some(g)) => CodeTakenStays(cfg, log, e, code, g, form.redirectUri);
    case TokenTimely(form, code, g, _) => CodeTakenStays(cfg, log, e, code, g, form.redirectUri);
    case TokenDrawn(code, g, _, token) =>
      CodeTakenStays(cfg, log, e, code, g, Some(g.redirectUri));
      UnmentionedStays(log, e, token);
    case TokenStamped(code, g, _, token, _) =>
      CodeTakenStays(cfg, log, e, code, g, Some(g.redirectUri));
      UnmentionedStays(log, e, token);
    case UserFound(token, g) => BackedStays(log, e, token, g);
    case _ =>
  }

  lemma TablesStay(cfg: Config, sh: Shared, log: seq<Event>, e: Event)
    requires TablesOk(cfg, sh, log) && !Touches(e, sh.codes.Keys)
    requires forall secret :: Mentions(e, secret) ==> secret in sh.drawn
    ensures TablesOk(cfg, sh, log + [e])
  {
    forall code | code in sh.codes
      ensures CodeOk(cfg, log + [e], code, sh.codes[code])
    {
      IssuedStays(log, e, code, sh.codes[code]);
      assert !Mentions(e, code);
    }
    forall token | token in sh.tokens
      ensures Backed(log + [e], token, sh.tokens[token])
    {
      BackedStays(log, e, token, sh.tokens[token]);
    }
  }

  // ---- one step

  /** What a step must give so that everything else is undisturbed: its own thread and the
      tables are right, and it touches only secrets that are its own, drawn just now, or
      taken from the table of codes. */
  ghost predicate StepOk(cfg: Config, sh: Shared, log: seq<Event>, th: Thread, o: Outcome) {
    && |o.events| <= 1
    && sh.drawn <= o.shared.drawn
    && (forall e :: e in o.events ==> Legal(cfg, log, e))
    && (forall e, x :: e in o.events && Mentions(e, x) ==> x in Held(th) || x in sh.codes)
    && TablesOk(cfg, o.shared, log + o.events)
    && ThreadOk(cfg, log + o.events, o.thread)
    && Held(o.thread) <= o.shared.drawn && Held(o.thread) !! o.shared.codes.Keys
    && (forall x :: x in Held(o.thread) ==> x in Held(th) || x !in sh.drawn || x in sh.codes)
    && (forall x :: x in o.shared.codes ==> x in sh.codes || x in Held(th))
  }

  ghost predicate Before(cfg: Config, sh: Shared, log: seq<Event>, th: Thread) {
    TablesOk(cfg, sh, log) && ThreadOk(cfg, log, th) && Held(th) <= sh.drawn && Held(th) !! sh.codes.Keys
  }

  lemma DrawKeepsTables(cfg: Config, sh: Shared, log: seq<Event>, secret: string)
    requires TablesOk(cfg, sh, log)
    ensures TablesOk(cfg, Draw(sh, secret), log)
  {
  }

  lemma QuietStep(cfg: Config, sh: Shared, log: seq<Event>, th: Thread, o: Outcome)
    requires Before(cfg, sh, log, th) && o.events == []
    requires o.shared == sh || exists secret :: secret !in sh.drawn && o.shared == Draw(sh, secret)
    requires ThreadOk(cfg, log, o.thread) && Held(o.thread) <= o.shared.drawn
    requires forall x :: x in Held(o.thread) ==> x in Held(th) || x !in sh.drawn
    ensures StepOk(cfg, sh, log, th, o)
  {
    assert log + o.events == log;
    if o.shared != sh {
      var secret :| secret !in sh.drawn && o.shared == Draw(sh, secret);
      DrawKeepsTables(cfg, sh, log, secret);
    }
  }

  lemma AuthorizeStep(cfg: Config, sh: Shared, log: seq<Event>, th: Thread, secret: string)
    requires Before(cfg, sh, log, th) && (th.AuthStart? || th.AuthDrawn?)
    ensures StepOk(cfg, sh, log, th, Advance(cfg, sh, th, secret))
  {
    var o := Advance(cfg, sh, th, secret);
    if o.shared != sh {
      assert o.shared == Draw(sh, secret) && secret !in sh.drawn;
    }
    QuietStep(cfg, sh, log, th, o);
  }

  /** The code enters the table, and the log, for the first time. */
  lemma IssueStep(cfg: Config, sh: Shared, log: seq<Event>, th: Thread, secret: string)
    requires Before(cfg, sh, log, th) && th.AuthStamped?
    ensures StepOk(cfg, sh, log, th, Advance(cfg, sh, th, secret))
  {
    var AuthStamped(code, g, state) := th;
    var e := Issued(code, g.email, g.redirectUri, g.clientId, g.expires - CODE_TTL);
    TablesStay(cfg, sh, log, e);
    var log' := log + [e];
    assert e in log';
    assert NeverRedeemed(log', code) && NeverMinted(log', code) by {
      assert forall k :: 0 <= k < |log| ==> !Mentions(log[k], code);
    }
  }

  /** The code leaves the table for good: redeemed once, by this thread. */
  lemma RedeemStep(cfg: Config, sh: Shared, log: seq<Event>, th: Thread, secret: string)
    requires Before(cfg, sh, log, th) && th.TokenStart?
    ensures StepOk(cfg, sh, log, th, Advance(cfg, sh, th, secret))
  {
    var form := th.form;
    var o := Advance(cfg, sh, th, secret);
    if CheckClient(cfg, form).Some? || form.code !in sh.codes {
      QuietStep(cfg, sh, log, th, o);
    } else {
      var e := Redeemed(form.code, form.redirectUri);
      var g := sh.codes[form.code];
      assert CodeOk(cfg, log, form.code, g);
      var sh' := o.shared;
      assert TablesOk(cfg, sh', log);
      TablesStay(cfg, sh', log, e);
      IssuedStays(log, e, form.code, g);
      assert e in log + [e];
      assert CodeTaken(cfg, log + [e], form.code, g, form.redirectUri);
    }
  }

  lemma CheckSteps(cfg: Config, sh: Shared, log: seq<Event>, th: Thread, secret: string)
    requires Before(cfg, sh, log, th) && (th.TokenPopped? || th.TokenTimely? || th.TokenDrawn? || th.UserStart? || th.Done?)
    ensures StepOk(cfg, sh, log, th, Advance(cfg, sh, th, secret))
  {
    var o := Advance(cfg, sh, th, secret);
    if o.shared != sh {
      assert o.shared == Draw(sh, secret) && secret !in sh.drawn;
    }
    QuietStep(cfg, sh, log, th, o);
  }

  /** The token enters the table, and the log, for the first time. */
  lemma MintStep(cfg: Config, sh: Shared, log: seq<Event>, th: Thread, secret: string)
    requires Before(cfg, sh, log, th) && th.TokenStamped?
    ensures StepOk(cfg, sh, log, th, Advance(cfg, sh, th, secret))
  {
    var TokenStamped(code, g, checked, token, at) := th;
    var e := Minted(token, code, checked, at);
    var o := Advance(cfg, sh, th, secret);
    TablesStay(cfg, sh, log, e);
    IssuedStays(log, e, code, g);
    assert e in log + [e];
    assert BackedBy(log + [e], token, TokenGrant(g.email, at + TOKEN_TTL), code, g, checked);
  }

  lemma ServeStep(cfg: Config, sh: Shared, log: seq<Event>, th: Thread, secret: string)
    requires Before(cfg, sh, log, th) && th.UserFound?
    ensures StepOk(cfg, sh, log, th, Advance(cfg, sh, th, secret))
  {
    var o := Advance(cfg, sh, th, secret);
    if o.events == [] {
      QuietStep(cfg, sh, log, th, o);
    } else {
      TablesStay(cfg, sh, log, o.events[0]);
    }
  }

  lemma AdvanceStep(cfg: Config, sh: Shared, log: seq<Event>, th: Thread, secret: string)
    requires Before(cfg, sh, log, th)
    ensures StepOk(cfg, sh, log, th, Advance(cfg, sh, th, secret))
  {
    match th
    case AuthStart(_) => AuthorizeStep(cfg, sh, log, th, secret);
    case AuthDrawn(_, _, _, _, _) => AuthorizeStep(cfg, sh, log, th, secret);
    case AuthStamped(_, _, _) => IssueStep(cfg, sh, log, th, secret);
    case TokenStart(_) => RedeemStep(cfg, sh, log, th, secret);
    case TokenStamped(_, _, _, _, _) => MintStep(cfg, sh, log, th, secret);
    case UserFound(_, _) => ServeStep(cfg, sh, log, th, secret);
    case _ =>
      CheckSteps(cfg, sh, log, th, secret);
  }

  /** A step of one thread leaves every other thread as it was. */
  lemma OtherStays(cfg: Config, s: State, id: nat, other: nat, o: Outcome)
    requires Inv(cfg, s) && id in s.threads && other in s.threads && id != other
    requires StepOk(cfg, s.shared, s.log, s.threads[id], o)
    ensures var th := s.threads[other];
            && ThreadOk(cfg, s.log + o.events, th)
            && Held(th) <= o.shared.drawn && Held(th) !! o.shared.codes.Keys && Held(th) !! Held(o.thread)
  {
    var th := s.threads[other];
    assert Held(s.threads[id]) !! Held(th);
    if o.events == [] {
      assert s.log + o.events == s.log;
    } else {
      var e := o.events[0];
      assert o.events == [e];
      assert e in o.events;
      ThreadStays(cfg, s.log, e, th);
    }
  }

  lemma EventsKeepLegal(cfg: Config, log: seq<Event>, events: seq<Event>)
    requires LegalLog(cfg, log) && |events| <= 1 && forall e :: e in events ==> Legal(cfg, log, e)
    ensures LegalLog(cfg, log + events)
  {
    if events == [] {
      assert log + events == log;
    } else {
      assert events == [events[0]] && events[0] in events;
      LegalSnoc(cfg, log, events[0]);
    }
  }

  lemma MoveKeeps(cfg: Config, s: State, id: nat, secret: string)
    requires Inv(cfg, s)
    ensures Inv(cfg, Exec(cfg, s, Move(id, secret)))
  {
    if id in s.threads {
      var th := s.threads[id];
      var o := Advance(cfg, s.shared, th, secret);
      AdvanceStep(cfg, s.shared, s.log, th, secret);
      var s' := Exec(cfg, s, Move(id, secret));
      forall other | other in s.threads && other != id
        ensures var t := s.threads[other];
                && ThreadOk(cfg, s'.log, t)
                && Held(t) <= o.shared.drawn && Held(t) !! o.shared.codes.Keys && Held(t) !! Held(o.thread)
      {
        OtherStays(cfg, s, id, other, o);
      }
      EventsKeepLegal(cfg, s.log, o.events);
    }
  }

  lemma ClockKeeps(cfg: Config, s: State, step: real)
    requires Inv(cfg, s)
    ensures Inv(cfg, Exec(cfg, s, Clock(step)))
  {
  }

  lemma ArriveKeeps(cfg: Config, s: State, id: nat, r: Request)
    requires Inv(cfg, s)
    ensures Inv(cfg, Exec(cfg, s, Arrive(id, r)))
  {
  }

  /** Every reachable state, under every interleaving. */
  lemma {:induction false} RunKeeps(cfg: Config, s: State, actions: seq<Action>)
    requires Inv(cfg, s)
    ensures Inv(cfg, Run(cfg, s, actions))
    decreases |actions|
  {
    if actions != [] {
      match actions[0] {
        case Move(id, secret) => MoveKeeps(cfg, s, id, secret);
        case Clock(step) => ClockKeeps(cfg, s, step);
        case Arrive(id, r) => ArriveKeeps(cfg, s, id, r);
      }
      RunKeeps(cfg, Exec(cfg, s, actions[0]), actions[1..]);
    }
  }

  lemma StartOk(cfg: Config, now: real)
    ensures Inv(cfg, Start(now))
  {
  }
}
