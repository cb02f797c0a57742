/** Which request every answer, every logged event and every change of a table goes back to,
    over every run of the provider, said in the terms of the request's own fields. */
module OidcRequests {
  import opened Text
  import opened Oidc
  import opened OidcTheorems

  /** The request that arrived under a number: the first one, as the number is taken then. */
  function RequestOf(actions: seq<Action>, id: nat): Option<Request> {
    if actions == [] then None else
      var last := actions[|actions| - 1];
      var before := RequestOf(actions[..|actions| - 1], id);
      if before.Some? then before
      else if last.Arrive? && last.id == id then Some(last.request)
      else None
  }

  /** The state after the first n actions. */
  function After(cfg: Config, start: real, actions: seq<Action>, n: nat): State
    requires n <= |actions|
  {
    Run(cfg, Start(start), actions[..n])
  }

  // ---- what a request may be answered

  /** /authorize: a redirect for a known person, or one refusal for each thing wrong, the
      first of them in this order. */
  predicate AuthorizeFits(cfg: Config, q: AuthorizeQuery, answer: Response) {
    var coded := q.responseType == Some("code");
    var client := q.clientId == Some(cfg.clientId);
    var targeted := q.redirectUri.Some? && q.redirectUri.value != "";
    && (answer == Refused(400, "unsupported_response_type") <==> !coded)
    && (answer == Refused(400, "unauthorized_client") <==> coded && !client)
    && (answer == Refused(400, "invalid_request") <==> coded && client && !targeted)
    && (answer == Refused(400, "access_denied") <==> coded && client && targeted && !Known(cfg, q))
    && (answer.Redirect? <==> Signable(cfg, q))
    && (answer.Redirect? ==> q.redirectUri == Some(answer.uri) && answer.state == q.state)
  }

  /** The person the query asks for is one of the people. */
  predicate Known(cfg: Config, q: AuthorizeQuery) {
    if q.loginHint.Some? && q.loginHint.value != "" then Lower(q.loginHint.value) in cfg.users
    else Lower(cfg.defaultUser) in cfg.users
  }

  predicate Signable(cfg: Config, q: AuthorizeQuery) {
    && q.responseType == Some("code") && q.clientId == Some(cfg.clientId)
    && q.redirectUri.Some? && q.redirectUri.value != "" && Known(cfg, q)
  }

  /** The email is the one hinted at, lower-cased, or the default one when there is no hint. */
  predicate Asked(cfg: Config, q: AuthorizeQuery, email: string) {
    && (q.loginHint.Some? && q.loginHint.value != "" ==> email == Lower(q.loginHint.value))
    && (q.loginHint == None || q.loginHint == Some("") ==> email == Lower(cfg.defaultUser))
  }

  /** The form carries the client's id, its secret and the one grant type. */
  predicate Entitled(cfg: Config, form: TokenForm) {
    && form.clientId == Some(cfg.clientId) && form.clientSecret == Some(cfg.clientSecret)
    && form.grantType == Some("authorization_code")
  }

  predicate TokenFits(cfg: Config, form: TokenForm, answer: Response) {
    && (form.clientId != Some(cfg.clientId) || form.clientSecret != Some(cfg.clientSecret) ==>
          answer == Refused(401, "invalid_client"))
    && ((form.clientId == Some(cfg.clientId) && form.clientSecret == Some(cfg.clientSecret)
         && form.grantType != Some("authorization_code")) ==> answer == Refused(400, "unsupported_grant_type"))
    && (Entitled(cfg, form) ==> answer.Bearer? || answer == Refused(400, "invalid_grant"))
  }

  predicate AnswerFits(cfg: Config, r: Request, answer: Response) {
    match r
    case Authorize(q) => AuthorizeFits(cfg, q, answer)
    case Token(form) => TokenFits(cfg, form, answer)
    case UserInfo(_) => answer.Person? || answer == Refused(401, "invalid_token")
  }

  /** The request an event belongs to. */
  predicate EventFits(cfg: Config, r: Request, e: Event) {
    match e
    case Issued(_, email, redirectUri, clientId, _) =>
      r.Authorize? && Signable(cfg, r.query) && Asked(cfg, r.query, email)
      && r.query.redirectUri == Some(redirectUri) && clientId == cfg.clientId
    case Redeemed(code, presented) =>
      r.Token? && Entitled(cfg, r.form) && r.form.code == code && r.form.redirectUri == presented
    case Minted(_, code, _, _) => r.Token? && Entitled(cfg, r.form) && r.form.code == code
    case Served(token, _, _) => r == UserInfo(token)
  }

  // ---- clock readings

  /** The clock showed the time when a thread took one of its steps. */
  ghost predicate ReadBy(cfg: Config, start: real, actions: seq<Action>, id: nat, at: real) {
    exists n: nat :: ReadAt(cfg, start, actions, id, at, n)
  }

  ghost predicate ReadAt(cfg: Config, start: real, actions: seq<Action>, id: nat, at: real, n: nat) {
    n < |actions| && actions[n].Move? && actions[n].id == id && RequestOf(actions[..n], id).Some?
    && After(cfg, start, actions, n).shared.now == at
  }

  // ---- the invariant

  /** What a thread carries comes from its own request and from the clock. */
  ghost predicate ThreadFits(cfg: Config, start: real, actions: seq<Action>, id: nat, r: Request, th: Thread) {
    match th
    case AuthStart(q) => r == Authorize(q)
    case AuthDrawn(_, email, redirectUri, clientId, state) =>
      r.Authorize? && Signable(cfg, r.query) && Asked(cfg, r.query, email)
      && r.query.redirectUri == Some(redirectUri) && clientId == cfg.clientId && state == r.query.state
    case AuthStamped(_, g, state) =>
      r.Authorize? && Signable(cfg, r.query) && Asked(cfg, r.query, g.email)
      && r.query.redirectUri == Some(g.redirectUri) && g.clientId == cfg.clientId && state == r.query.state
      && ReadBy(cfg, start, actions, id, g.expires - 120.0)
    case TokenStart(form) => r == Token(form)
    case TokenPopped(form, code, _) => r == Token(form) && Entitled(cfg, form) && form.code == code
    case TokenTimely(form, code, _, checked) =>
      r == Token(form) && Entitled(cfg, form) && form.code == code && ReadBy(cfg, start, actions, id, checked)
    case TokenDrawn(code, _, checked, _) =>
      r.Token? && Entitled(cfg, r.form) && r.form.code == code && ReadBy(cfg, start, actions, id, checked)
    case TokenStamped(code, _, checked, _, at) =>
      r.Token? && Entitled(cfg, r.form) && r.form.code == code
      && ReadBy(cfg, start, actions, id, checked) && ReadBy(cfg, start, actions, id, at)
    case UserStart(token) => r == UserInfo(token)
    case UserFound(token, _) => r == UserInfo(token)
    case Done(answer) => AnswerFits(cfg, r, answer)
  }

  ghost predicate AllFit(cfg: Config, start: real, actions: seq<Action>) {
    forall id :: id in Run(cfg, Start(start), actions).threads ==> Fit(cfg, start, actions, id)
  }

  ghost predicate Fit(cfg: Config, start: real, actions: seq<Action>, id: nat)
    requires id in Run(cfg, Start(start), actions).threads
  {
    var r := RequestOf(actions, id);
    r.Some? && ThreadFits(cfg, start, actions, id, r.value, Run(cfg, Start(start), actions).threads[id])
  }

  lemma RunSnoc(cfg: Config, start: real, actions: seq<Action>, a: Action)
    ensures Run(cfg, Start(start), actions + [a]) == Exec(cfg, Run(cfg, Start(start), actions), a)
  {
    RunAppend(cfg, Start(start), actions, [a]);
    var s := Run(cfg, Start(start), actions);
    assert [a][1..] == [];
    assert Run(cfg, s, [a]) == Run(cfg, Exec(cfg, s, a), []);
  }

  lemma RequestSnoc(actions: seq<Action>, a: Action, id: nat)
    ensures RequestOf(actions, id).Some? ==> RequestOf(actions + [a], id) == RequestOf(actions, id)
    ensures RequestOf(actions, id).None? ==>
              RequestOf(actions + [a], id) == if a.Arrive? && a.id == id then Some(a.request) else None
  {
    assert (actions + [a])[..|actions|] == actions;
  }

  lemma ReadStays(cfg: Config, start: real, actions: seq<Action>, a: Action, id: nat, at: real)
    requires ReadBy(cfg, start, actions, id, at)
    ensures ReadBy(cfg, start, actions + [a], id, at)
  {
    var n: nat :| ReadAt(cfg, start, actions, id, at, n);
    assert (actions + [a])[..n] == actions[..n];
    assert ReadAt(cfg, start, actions + [a], id, at, n);
  }

  lemma ReadNow(cfg: Config, start: real, actions: seq<Action>, id: nat, secret: string)
    requires RequestOf(actions, id).Some?
    ensures ReadBy(cfg, start, actions + [Move(id, secret)], id, Run(cfg, Start(start), actions).shared.now)
  {
    var n := |actions|;
    assert (actions + [Move(id, secret)])[..n] == actions;
    assert ReadAt(cfg, start, actions + [Move(id, secret)], id, Run(cfg, Start(start), actions).shared.now, n);
  }

  /** Later actions leave a thread that does not move as it is. */
  lemma FitStays(cfg: Config, start: real, actions: seq<Action>, a: Action, id: nat, r: Request, th: Thread)
    requires ThreadFits(cfg, start, actions, id, r, th)
    ensures ThreadFits(cfg, start, actions + [a], id, r, th)
  {
    match th
    case AuthStamped(_, g, _) => ReadStays(cfg, start, actions, a, id, g.expires - 120.0);
    case TokenTimely(_, _, _, checked) => ReadStays(cfg, start, actions, a, id, checked);
    case TokenDrawn(_, _, checked, _) => ReadStays(cfg, start, actions, a, id, checked);
    case TokenStamped(_, _, checked, _, at) =>
      ReadStays(cfg, start, actions, a, id, checked);
      ReadStays(cfg, start, actions, a, id, at);
    case _ =>
  }

  /** The times an event carries were read from the clock by its own thread. */
  ghost predicate TimesFit(cfg: Config, start: real, actions: seq<Action>, id: nat, e: Event) {
    match e
    case Issued(_, _, _, _, at) => ReadBy(cfg, start, actions, id, at)
    case Redeemed(_, _) => true
    case Minted(_, _, checked, at) => ReadBy(cfg, start, actions, id, checked) && ReadBy(cfg, start, actions, id, at)
    case Served(_, _, at) => ReadBy(cfg, start, actions, id, at)
  }

  ghost predicate OutcomeFits(cfg: Config, start: real, actions: seq<Action>, id: nat, r: Request, o: Outcome) {
    && ThreadFits(cfg, start, actions, id, r, o.thread)
    && |o.events| <= 1
    && (o.events != [] ==> EventFits(cfg, r, o.events[0]) && TimesFit(cfg, start, actions, id, o.events[0]))
  }

  lemma AuthFits(cfg: Config, start: real, actions: seq<Action>, id: nat, r: Request, th: Thread, sh: Shared, secret: string)
    requires ThreadFits(cfg, start, actions, id, r, th) && ReadBy(cfg, start, actions, id, sh.now)
    requires th.AuthStart? || th.AuthDrawn? || th.AuthStamped?
    ensures OutcomeFits(cfg, start, actions, id, r, Advance(cfg, sh, th, secret))
  {
  }

  lemma TokenFitsStep(cfg: Config, start: real, actions: seq<Action>, id: nat, r: Request, th: Thread, sh: Shared, secret: string)
    requires ThreadFits(cfg, start, actions, id, r, th) && ReadBy(cfg, start, actions, id, sh.now)
    requires th.TokenStart? || th.TokenPopped? || th.TokenTimely? || th.TokenDrawn? || th.TokenStamped?
    ensures OutcomeFits(cfg, start, actions, id, r, Advance(cfg, sh, th, secret))
  {
  }

  lemma UserFits(cfg: Config, start: real, actions: seq<Action>, id: nat, r: Request, th: Thread, sh: Shared, secret: string)
    requires ThreadFits(cfg, start, actions, id, r, th) && ReadBy(cfg, start, actions, id, sh.now)
    requires th.UserStart? || th.UserFound? || th.Done?
    ensures OutcomeFits(cfg, start, actions, id, r, Advance(cfg, sh, th, secret))
  {
  }

  /** A step of a thread fits the same request, and so does the event it writes. */
  lemma StepFits(cfg: Config, start: real, actions: seq<Action>, id: nat, r: Request, th: Thread, sh: Shared, secret: string)
    requires ThreadFits(cfg, start, actions, id, r, th) && ReadBy(cfg, start, actions, id, sh.now)
    ensures OutcomeFits(cfg, start, actions, id, r, Advance(cfg, sh, th, secret))
  {
    if th.AuthStart? || th.AuthDrawn? || th.AuthStamped? {
      AuthFits(cfg, start, actions, id, r, th, sh, secret);
    } else if th.UserStart? || th.UserFound? || th.Done? {
      UserFits(cfg, start, actions, id, r, th, sh, secret);
    } else {
      TokenFitsStep(cfg, start, actions, id, r, th, sh, secret);
    }
  }

  /** The thread that moves. */
  lemma MoveFits(cfg: Config, start: real, actions: seq<Action>, id: nat, secret: string)
    requires id in Run(cfg, Start(start), actions).threads && Fit(cfg, start, actions, id)
    ensures var s := Run(cfg, Start(start), actions);
            OutcomeFits(cfg, start, actions + [Move(id, secret)], id, RequestOf(actions, id).value,
                        Advance(cfg, s.shared, s.threads[id], secret))
  {
    var s := Run(cfg, Start(start), actions);
    var r, a := RequestOf(actions, id).value, Move(id, secret);
    FitStays(cfg, start, actions, a, id, r, s.threads[id]);
    ReadNow(cfg, start, actions, id, secret);
    StepFits(cfg, start, actions + [a], id, r, s.threads[id], s.shared, secret);
  }

  lemma SnocFits(cfg: Config, start: real, actions: seq<Action>, a: Action, id: nat)
    requires AllFit(cfg, start, actions) && id in Run(cfg, Start(start), actions + [a]).threads
    ensures Fit(cfg, start, actions + [a], id)
  {
    var s := Run(cfg, Start(start), actions);
    RunSnoc(cfg, start, actions, a);
    RequestSnoc(actions, a, id);
    if id in s.threads {
      assert Fit(cfg, start, actions, id);
      if a.Move? && a.id == id {
        MoveFits(cfg, start, actions, id, a.secret);
      } else {
        FitStays(cfg, start, actions, a, id, RequestOf(actions, id).value, s.threads[id]);
      }
    } else {
      NotArrived(cfg, start, actions, id);
    }
  }

  /** A number that never arrived has no thread. */
  lemma {:induction false} NotArrived(cfg: Config, start: real, actions: seq<Action>, id: nat)
    ensures id in Run(cfg, Start(start), actions).threads <==> RequestOf(actions, id).Some?
  {
    if actions != [] {
      var front, a := actions[..|actions| - 1], actions[|actions| - 1];
      assert actions == front + [a];
      NotArrived(cfg, start, front, id);
      RunSnoc(cfg, start, front, a);
      RequestSnoc(front, a, id);
    }
  }

  lemma {:induction false} RunFits(cfg: Config, start: real, actions: seq<Action>)
    ensures AllFit(cfg, start, actions)
  {
    if actions != [] {
      var front, a := actions[..|actions| - 1], actions[|actions| - 1];
      assert actions == front + [a];
      RunFits(cfg, start, front);
      forall id | id in Run(cfg, Start(start), actions).threads
        ensures Fit(cfg, start, actions, id)
      {
        SnocFits(cfg, start, front, a, id);
      }
    }
  }

  // ---- the main results

  /** Over every run: a request that is done was answered as its own fields ask. */
  lemma AnswersFit(cfg: Config, start: real, actions: seq<Action>, id: nat)
    requires var s := Run(cfg, Start(start), actions); id in s.threads && s.threads[id].Done?
    ensures RequestOf(actions, id).Some?
    ensures AnswerFits(cfg, RequestOf(actions, id).value, Run(cfg, Start(start), actions).threads[id].response)
  {
    RunFits(cfg, start, actions);
    assert Fit(cfg, start, actions, id);
  }

  /** Over every run: each event of the log was written by a step of one request, whose fields
      it fits, and the times it carries are clock readings of that request. */
  lemma {:induction false} EventTraced(cfg: Config, start: real, actions: seq<Action>, k: nat) returns (n: nat, id: nat)
    requires k < |Run(cfg, Start(start), actions).log|
    ensures n < |actions| && actions[n].Move? && actions[n].id == id && |After(cfg, start, actions, n).log| == k
    ensures RequestOf(actions[..n], id).Some?
    ensures EventFits(cfg, RequestOf(actions[..n], id).value, Run(cfg, Start(start), actions).log[k])
    ensures TimesFit(cfg, start, actions[..n + 1], id, Run(cfg, Start(start), actions).log[k])
    decreases |actions|
  {
    assert actions != [];
    var front, a := actions[..|actions| - 1], actions[|actions| - 1];
    assert actions == front + [a];
    RunSnoc(cfg, start, front, a);
    var s := Run(cfg, Start(start), front);
    if k < |s.log| {
      n, id := EventTraced(cfg, start, front, k);
      LogGrows(cfg, s, a);
      assert actions[..n] == front[..n] && actions[..n + 1] == front[..n + 1];
    } else {
      n, id := |front|, a.id;
      RunFits(cfg, start, front);
      assert Fit(cfg, start, front, id);
      MoveFits(cfg, start, front, id, a.secret);
      assert actions[..n] == front && actions[..n + 1] == actions;
    }
  }

  lemma LogGrows(cfg: Config, s: State, a: Action)
    ensures s.log <= Exec(cfg, s, a).log
  {
  }

  // ---- the tables and the answers, as the log has them

  /** A code stands in the table, for two minutes from its time, unless it was redeemed; a
      token stands for ten, from its own. */
  predicate EventStands(s: State, k: nat)
    requires k < |s.log|
  {
    match s.log[k]
    case Issued(code, email, redirectUri, clientId, at) =>
      NeverRedeemed(s.log, code) ==>
        code in s.shared.codes && s.shared.codes[code] == CodeGrant(email, redirectUri, clientId, at + 120.0)
    case Minted(token, _, _, at) => token in s.shared.tokens && s.shared.tokens[token].expires == at + 600.0
    case _ => true
  }

  predicate AnswerLogged(log: seq<Event>, answer: Response) {
    match answer
    case Redirect(uri, code, _) =>
      exists k :: 0 <= k < |log| && log[k].Issued? && log[k].code == code && log[k].redirectUri == uri
    case Bearer(token) => exists k :: 0 <= k < |log| && log[k].Minted? && log[k].token == token
    case Person(email) => exists k :: 0 <= k < |log| && log[k].Served? && log[k].email == email
    case Refused(_, _) => true
  }

  predicate Standing(s: State) {
    && (forall k :: 0 <= k < |s.log| ==> EventStands(s, k))
    && (forall id :: id in s.threads && s.threads[id].Done? ==> AnswerLogged(s.log, s.threads[id].response))
  }

  lemma LoggedStays(log: seq<Event>, events: seq<Event>, answer: Response)
    requires AnswerLogged(log, answer)
    ensures AnswerLogged(log + events, answer)
  {
    match answer
    case Redirect(uri, code, _) =>
      var k :| 0 <= k < |log| && log[k].Issued? && log[k].code == code && log[k].redirectUri == uri;
      assert (log + events)[k] == log[k];
    case Bearer(token) =>
      var k :| 0 <= k < |log| && log[k].Minted? && log[k].token == token;
      assert (log + events)[k] == log[k];
    case Person(email) =>
      var k :| 0 <= k < |log| && log[k].Served? && log[k].email == email;
      assert (log + events)[k] == log[k];
    case Refused(_, _) =>
  }

  lemma AnswerLoggedNow(cfg: Config, sh: Shared, th: Thread, secret: string, log: seq<Event>)
    requires th.Done? ==> AnswerLogged(log, th.response)
    ensures var o := Advance(cfg, sh, th, secret);
            o.thread.Done? ==> AnswerLogged(log + o.events, o.thread.response)
  {
    var o := Advance(cfg, sh, th, secret);
    if o.events == [] {
      assert log + o.events == log;
    } else {
      assert (log + o.events)[|log|] == o.events[0];
    }
  }

  /** The tables differ as the event says. */
  predicate Written(s: State, s': State, e: Event) {
    match e
    case Issued(code, email, redirectUri, clientId, at) =>
      s'.shared.codes == s.shared.codes[code := CodeGrant(email, redirectUri, clientId, at + 120.0)] && s'.shared.tokens == s.shared.tokens
    case Redeemed(code, _) => s'.shared.codes == s.shared.codes - {code} && s'.shared.tokens == s.shared.tokens
    case Minted(token, _, _, at) =>
      s'.shared.codes == s.shared.codes && s'.shared.tokens - {token} == s.shared.tokens - {token}
      && token in s'.shared.tokens && s'.shared.tokens[token].expires == at + 600.0
    case Served(_, _, _) => s'.shared.codes == s.shared.codes && s'.shared.tokens == s.shared.tokens
  }

  /** What a step does to the tables is what the event it writes says. */
  lemma StepWrites(cfg: Config, s: State, s': State, th: Thread, secret: string)
    requires s'.shared == Advance(cfg, s.shared, th, secret).shared
    ensures var events := Advance(cfg, s.shared, th, secret).events;
            && |events| <= 1
            && (events == [] ==> s'.shared.codes == s.shared.codes && s'.shared.tokens == s.shared.tokens)
            && (events != [] ==> Written(s, s', events[0]))
  {
  }

  lemma OldStands(cfg: Config, s: State, s': State, e: Event, k: nat)
    requires LegalLog(cfg, s'.log) && k < |s.log| && s'.log == s.log + [e] && EventStands(s, k) && Written(s, s', e)
    ensures EventStands(s', k)
  {
    var n := |s.log|;
    NotTwice(cfg, s'.log, k, n);
    var o := s.log[k];
    assert s'.log[k] == o;
    if o.Issued? && NeverRedeemed(s'.log, o.code) {
      assert NeverRedeemed(s.log, o.code) by {
        forall i | 0 <= i < |s.log| && s.log[i].Redeemed?
          ensures s.log[i].code != o.code
        {
          assert s'.log[i] == s.log[i];
        }
      }
      if e.Issued? { assert o.code in s.shared.codes - {e.code}; }
    }
    if o.Minted? && e.Minted? { assert o.token in s.shared.tokens - {e.token}; }
  }

  lemma MoveStands(cfg: Config, s: State, id: nat, secret: string)
    requires Inv(cfg, s) && Standing(s) && id in s.threads
    ensures forall k :: 0 <= k < |Exec(cfg, s, Move(id, secret)).log| ==> EventStands(Exec(cfg, s, Move(id, secret)), k)
  {
    var s' := Exec(cfg, s, Move(id, secret));
    var th := s.threads[id];
    var o := Advance(cfg, s.shared, th, secret);
    StepWrites(cfg, s, s', th, secret);
    if o.events == [] {
      assert s'.log == s.log;
      QuietStands(s, s');
    } else {
      assert s'.log == s.log + [o.events[0]];
      MoveLegal(cfg, s, id, secret);
      LoudStands(cfg, s, s', o.events[0]);
    }
  }

  lemma MoveLegal(cfg: Config, s: State, id: nat, secret: string)
    requires Inv(cfg, s)
    ensures LegalLog(cfg, Exec(cfg, s, Move(id, secret)).log)
  {
    MoveKeeps(cfg, s, id, secret);
  }

  lemma QuietStands(s: State, s': State)
    requires Standing(s) && s'.log == s.log && s'.shared.codes == s.shared.codes && s'.shared.tokens == s.shared.tokens
    ensures forall k :: 0 <= k < |s'.log| ==> EventStands(s', k)
  {
    forall k | 0 <= k < |s'.log|
      ensures EventStands(s', k)
    {
      assert EventStands(s, k);
    }
  }

  lemma LoudStands(cfg: Config, s: State, s': State, e: Event)
    requires LegalLog(cfg, s'.log) && Standing(s) && s'.log == s.log + [e] && Written(s, s', e)
    ensures forall k :: 0 <= k < |s'.log| ==> EventStands(s', k)
  {
    forall k | 0 <= k < |s'.log|
      ensures EventStands(s', k)
    {
      if k < |s.log| {
        assert EventStands(s, k);
        OldStands(cfg, s, s', e, k);
      }
    }
  }

  lemma ExecStands(cfg: Config, s: State, a: Action)
    requires Inv(cfg, s) && Standing(s)
    ensures Standing(Exec(cfg, s, a))
  {
    var s' := Exec(cfg, s, a);
    match a
    case Move(id, secret) =>
      if id in s.threads {
        MoveStands(cfg, s, id, secret);
        var o := Advance(cfg, s.shared, s.threads[id], secret);
        AnswerLoggedNow(cfg, s.shared, s.threads[id], secret, s.log);
        forall other | other in s'.threads && s'.threads[other].Done?
          ensures AnswerLogged(s'.log, s'.threads[other].response)
        {
          if other != id { LoggedStays(s.log, o.events, s.threads[other].response); }
        }
      }
    case Arrive(_, _) => SameStands(s, s');
    case Clock(_) => SameStands(s, s');
  }

  lemma SameStands(s: State, s': State)
    requires Standing(s) && s'.log == s.log && s'.shared.codes == s.shared.codes && s'.shared.tokens == s.shared.tokens
    requires forall id :: id in s'.threads && s'.threads[id].Done? ==> id in s.threads && s.threads[id] == s'.threads[id]
    ensures Standing(s')
  {
    forall k | 0 <= k < |s'.log|
      ensures EventStands(s', k)
    {
      assert EventStands(s, k);
    }
  }

  lemma {:induction false} RunStands(cfg: Config, s: State, actions: seq<Action>)
    requires Inv(cfg, s) && Standing(s)
    ensures Standing(Run(cfg, s, actions))
    decreases |actions|
  {
    if actions != [] {
      ExecStands(cfg, s, actions[0]);
      RunKeeps(cfg, s, [actions[0]]);
      assert Run(cfg, s, [actions[0]]) == Run(cfg, Exec(cfg, s, actions[0]), []);
      RunStands(cfg, Exec(cfg, s, actions[0]), actions[1..]);
    }
  }

  ghost predicate IssuedIn(log: seq<Event>, code: string) { exists k :: IssuedAt(log, k, code) }

  predicate IssuedAt(log: seq<Event>, k: int, code: string) { 0 <= k < |log| && log[k].Issued? && log[k].code == code }

  ghost predicate MintedIn(log: seq<Event>, token: string) { exists k :: MintedAt(log, k, token) }

  predicate MintedAt(log: seq<Event>, k: int, token: string) { 0 <= k < |log| && log[k].Minted? && log[k].token == token }

  lemma CodesIssued(cfg: Config, s: State, code: string)
    requires TablesOk(cfg, s.shared, s.log) && code in s.shared.codes
    ensures IssuedIn(s.log, code) && NeverRedeemed(s.log, code)
  {
    var g := s.shared.codes[code];
    assert CodeOk(cfg, s.log, code, g);
    var e := Issued(code, g.email, g.redirectUri, g.clientId, g.expires - CODE_TTL);
    assert e in s.log;
    var k :| 0 <= k < |s.log| && s.log[k] == e;
    assert IssuedAt(s.log, k, code);
  }

  lemma TokensMinted(cfg: Config, s: State, token: string)
    requires TablesOk(cfg, s.shared, s.log) && token in s.shared.tokens
    ensures MintedIn(s.log, token)
  {
    var g := s.shared.tokens[token];
    var code, cg, checked :| BackedBy(s.log, token, g, code, cg, checked);
    var e := Minted(token, code, checked, g.expires - TOKEN_TTL);
    var k :| 0 <= k < |s.log| && s.log[k] == e;
    assert MintedAt(s.log, k, token);
  }

  /** Over every run: no step of a token request with a wrong id, secret or grant type
      changes a table. */
  lemma UnentitledTouchNothing(cfg: Config, start: real, actions: seq<Action>, n: nat)
    requires n < |actions| && actions[n].Move?
    requires RequestOf(actions[..n], actions[n].id).Some? && RequestOf(actions[..n], actions[n].id).value.Token?
    requires var form := RequestOf(actions[..n], actions[n].id).value.form;
             form.clientId != Some(cfg.clientId) || form.clientSecret != Some(cfg.clientSecret)
             || form.grantType != Some("authorization_code")
    ensures After(cfg, start, actions, n + 1).shared == After(cfg, start, actions, n).shared
  {
    var front, a := actions[..n], actions[n];
    assert actions[..n + 1] == front + [a];
    RunSnoc(cfg, start, front, a);
    RunFits(cfg, start, front);
    NotArrived(cfg, start, front, a.id);
    assert Fit(cfg, start, front, a.id);
    UnentitledStay(cfg, start, front, a.id, RequestOf(front, a.id).value, Run(cfg, Start(start), front), a.secret);
  }

  lemma UnentitledStay(cfg: Config, start: real, actions: seq<Action>, id: nat, r: Request, s: State, secret: string)
    requires id in s.threads && ThreadFits(cfg, start, actions, id, r, s.threads[id])
    requires r.Token? && !Entitled(cfg, r.form)
    ensures Exec(cfg, s, Move(id, secret)).shared == s.shared
  {
  }

  /** Over every run: each issued code stands until it is redeemed and each minted token for
      good, with the time they were given; nothing else stands; and every redirect, bearer
      token and person answered is in the log. */
  lemma TablesAreTheLog(cfg: Config, start: real, actions: seq<Action>)
    ensures var s := Run(cfg, Start(start), actions);
            && Standing(s)
            && (forall code :: code in s.shared.codes <==> IssuedIn(s.log, code) && NeverRedeemed(s.log, code))
            && (forall token :: token in s.shared.tokens <==> MintedIn(s.log, token))
  {
    var s := Run(cfg, Start(start), actions);
    StartOk(cfg, start);
    RunKeeps(cfg, Start(start), actions);
    RunStands(cfg, Start(start), actions);
    InvTables(cfg, s);
    StandsExactly(cfg, s);
  }

  lemma InvTables(cfg: Config, s: State)
    requires Inv(cfg, s)
    ensures TablesOk(cfg, s.shared, s.log)
  {
  }

  lemma IssuedStand(s: State, code: string)
    requires Standing(s) && IssuedIn(s.log, code) && NeverRedeemed(s.log, code)
    ensures code in s.shared.codes
  {
    var k :| IssuedAt(s.log, k, code);
    assert EventStands(s, k);
  }

  lemma MintedStand(s: State, token: string)
    requires Standing(s) && MintedIn(s.log, token)
    ensures token in s.shared.tokens
  {
    var k :| MintedAt(s.log, k, token);
    assert EventStands(s, k);
  }

  lemma StandsExactly(cfg: Config, s: State)
    requires TablesOk(cfg, s.shared, s.log) && Standing(s)
    ensures forall code :: code in s.shared.codes <==> IssuedIn(s.log, code) && NeverRedeemed(s.log, code)
    ensures forall token :: token in s.shared.tokens <==> MintedIn(s.log, token)
  {
    forall code
      ensures code in s.shared.codes <==> IssuedIn(s.log, code) && NeverRedeemed(s.log, code)
    {
      if code in s.shared.codes { CodesIssued(cfg, s, code); }
      if IssuedIn(s.log, code) && NeverRedeemed(s.log, code) { IssuedStand(s, code); }
    }
    forall token
      ensures token in s.shared.tokens <==> MintedIn(s.log, token)
    {
      if token in s.shared.tokens { TokensMinted(cfg, s, token); }
      if MintedIn(s.log, token) { MintedStand(s, token); }
    }
  }
}
