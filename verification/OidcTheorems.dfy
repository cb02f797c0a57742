/** The guarantees of sections 4.1.2 and 4.1.3 of RFC 6749, over every run of the provider. */
module OidcTheorems {
  import opened Text
  import opened Oidc

  ghost predicate RunLog(cfg: Config, log: seq<Event>) {
    exists start, actions :: log == Run(cfg, Start(start), actions).log
  }

  lemma LogsAreLegal(cfg: Config, log: seq<Event>)
    requires RunLog(cfg, log)
    ensures LegalLog(cfg, log)
  {
    var start, actions :| log == Run(cfg, Start(start), actions).log;
    StartOk(cfg, start);
    RunKeeps(cfg, Start(start), actions);
  }

  /** Two different events never issue, redeem or exchange the same code, nor mint the same
      token. */
  lemma NotTwice(cfg: Config, log: seq<Event>, a: nat, b: nat)
    requires LegalLog(cfg, log) && a < b < |log|
    ensures log[a].Issued? && log[b].Issued? ==> log[a].code != log[b].code
    ensures log[a].Redeemed? && log[b].Redeemed? ==> log[a].code != log[b].code
    ensures log[a].Minted? && log[b].Minted? ==> log[a].code != log[b].code && log[a].token != log[b].token
  {
  }

  /** Each code yields at most one access token, and each token is minted once. */
  lemma OneTokenPerCode(cfg: Config, log: seq<Event>, i: nat, j: nat)
    requires RunLog(cfg, log) && i < |log| && j < |log| && log[i].Minted? && log[j].Minted?
    requires log[i].code == log[j].code || log[i].token == log[j].token
    ensures i == j
  {
    LogsAreLegal(cfg, log);
    if i < j {
      NotTwice(cfg, log, i, j);
    } else if j < i {
      NotTwice(cfg, log, j, i);
    }
  }

  lemma OneRedemptionPerCode(cfg: Config, log: seq<Event>, i: nat, j: nat)
    requires LegalLog(cfg, log) && i < |log| && j < |log| && log[i].Redeemed? && log[j].Redeemed?
    requires log[i].code == log[j].code
    ensures i == j
  {
  }

  lemma OneIssuePerCode(cfg: Config, log: seq<Event>, i: nat, j: nat)
    requires LegalLog(cfg, log) && i < |log| && j < |log| && log[i].Issued? && log[j].Issued?
    requires log[i].code == log[j].code
    ensures i == j
  {
  }

  /** What stands behind a minted token: one issue and one redemption of its code, in that
      order, for the same redirect URI, by a known client, and in time. */
  lemma MintTraced(cfg: Config, log: seq<Event>, m: nat) returns (i: nat, j: nat)
    requires LegalLog(cfg, log) && m < |log| && log[m].Minted?
    ensures i < j < m
    ensures log[i].Issued? && log[i].code == log[m].code && log[i].email in cfg.users && log[i].clientId == cfg.clientId
    ensures log[j] == Redeemed(log[m].code, Some(log[i].redirectUri))
    ensures log[m].checked <= log[i].at + CODE_TTL
  {
    var code := log[m].code;
    var g;
    g, j := RedemptionBehind(cfg, log, m);
    var k := IndexIn(log, m, Issued(code, g.email, g.redirectUri, g.clientId, g.expires - CODE_TTL));
    i := IssueBehind(cfg, log, j);
    OneIssuePerCode(cfg, log, i, k);
    assert Legal(cfg, log[..i], log[i]);
  }

  lemma IndexIn(log: seq<Event>, m: nat, e: Event) returns (k: nat)
    requires m <= |log| && e in log[..m]
    ensures k < m && log[k] == e
  {
    k :| k < m && log[..m][k] == e;
  }

  lemma RedemptionBehind(cfg: Config, log: seq<Event>, m: nat) returns (g: CodeGrant, j: nat)
    requires LegalLog(cfg, log) && m < |log| && log[m].Minted?
    ensures IsIssued(log[..m], log[m].code, g) && log[m].checked <= g.expires
    ensures j < m && log[j] == Redeemed(log[m].code, Some(g.redirectUri))
  {
    assert Legal(cfg, log[..m], log[m]);
    var code := log[m].code;
    g :| IsIssued(log[..m], code, g) && Redeemed(code, Some(g.redirectUri)) in log[..m] && log[m].checked <= g.expires;
    j := IndexIn(log, m, Redeemed(code, Some(g.redirectUri)));
  }

  lemma IssueBehind(cfg: Config, log: seq<Event>, j: nat) returns (i: nat)
    requires LegalLog(cfg, log) && j < |log| && log[j].Redeemed?
    ensures i < j && log[i].Issued? && log[i].code == log[j].code
  {
    assert Legal(cfg, log[..j], log[j]);
    var g :| IsIssued(log[..j], log[j].code, g);
    i := IndexIn(log, j, Issued(log[j].code, g.email, g.redirectUri, g.clientId, g.expires - CODE_TTL));
  }

  /** A code presented with a redirect URI other than the one it was issued for never yields
      a token, before or after, in this run or any continuation of it. */
  lemma WrongRedirectSpends(cfg: Config, log: seq<Event>, i: nat, j: nat, m: nat)
    requires RunLog(cfg, log) && i < |log| && j < |log| && m < |log|
    requires log[i].Issued? && log[j].Redeemed? && log[i].code == log[j].code
    requires log[j].presented != Some(log[i].redirectUri)
    ensures !(log[m].Minted? && log[m].code == log[i].code)
  {
    LogsAreLegal(cfg, log);
    if log[m].Minted? && log[m].code == log[i].code {
      var i', j' := MintTraced(cfg, log, m);
      OneIssuePerCode(cfg, log, i, i');
      OneRedemptionPerCode(cfg, log, j, j');
    }
  }

  /** Once redeemed, a code is out of the table in every later state. */
  lemma SpentForGood(cfg: Config, start: real, actions: seq<Action>, more: seq<Action>, j: nat)
    requires var s := Run(cfg, Start(start), actions); j < |s.log| && s.log[j].Redeemed?
    ensures var s := Run(cfg, Start(start), actions);
            s.log[j].code !in Run(cfg, s, more).shared.codes && s.log[j] in Run(cfg, s, more).log
  {
    var s := Run(cfg, Start(start), actions);
    var s' := Run(cfg, s, more);
    StartOk(cfg, start);
    RunKeeps(cfg, Start(start), actions);
    RunKeeps(cfg, s, more);
    LogOnlyGrows(cfg, s, more);
    assert s'.log[j] == s.log[j];
    assert !NeverRedeemed(s'.log, s.log[j].code);
  }

  lemma {:induction false} LogOnlyGrows(cfg: Config, s: State, actions: seq<Action>)
    ensures s.log <= Run(cfg, s, actions).log
    decreases |actions|
  {
    if actions != [] { LogOnlyGrows(cfg, Exec(cfg, s, actions[0]), actions[1..]); }
  }

  /** Every answer of /userinfo goes back to one /authorize for the same known person and
      client, redeemed with the same redirect URI and exchanged, in that order. The answer
      is at most CODE_TTL + TOKEN_TTL after the authorisation, plus however long the token
      request paused between checking the code's expiry and stamping the token. */
  lemma ServedTraced(cfg: Config, log: seq<Event>, k: nat) returns (i: nat, j: nat, m: nat)
    requires RunLog(cfg, log) && k < |log| && log[k].Served?
    ensures i < j < m < k
    ensures log[m].Minted? && log[m].token == log[k].token
    ensures log[i].Issued? && log[i].code == log[m].code
    ensures log[i].email == log[k].email && log[k].email in cfg.users && log[i].clientId == cfg.clientId
    ensures log[j] == Redeemed(log[m].code, Some(log[i].redirectUri))
    ensures log[k].at <= log[i].at + (CODE_TTL + TOKEN_TTL) + (log[m].at - log[m].checked)
  {
    LogsAreLegal(cfg, log);
    var c;
    m, c := MintBehind(cfg, log, k);
    i, j := MintTraced(cfg, log, m);
    OneIssuePerCode(cfg, log, i, c);
  }

  lemma BackingOf(cfg: Config, log: seq<Event>, k: nat) returns (g: TokenGrant, code: string, cg: CodeGrant, checked: real)
    requires LegalLog(cfg, log) && k < |log| && log[k].Served?
    ensures g.email == log[k].email && log[k].at <= g.expires && BackedBy(log[..k], log[k].token, g, code, cg, checked)
  {
    assert Legal(cfg, log[..k], log[k]);
    g :| Backed(log[..k], log[k].token, g) && g.email == log[k].email && log[k].at <= g.expires;
    code, cg, checked :| BackedBy(log[..k], log[k].token, g, code, cg, checked);
  }

  lemma MintBehind(cfg: Config, log: seq<Event>, k: nat) returns (m: nat, c: nat)
    requires LegalLog(cfg, log) && k < |log| && log[k].Served?
    ensures m < k && log[m].Minted? && log[m].token == log[k].token && log[k].at <= log[m].at + TOKEN_TTL
    ensures c < k && log[c].Issued? && log[c].code == log[m].code && log[c].email == log[k].email
  {
    var g, code, cg, checked := BackingOf(cfg, log, k);
    m := IndexIn(log, k, Minted(log[k].token, code, checked, g.expires - TOKEN_TTL));
    c := IndexIn(log, k, Issued(code, cg.email, cg.redirectUri, cg.clientId, cg.expires - CODE_TTL));
  }

  /** Without such a pause the whole way takes at most 720 seconds. */
  lemma ServedInTime(cfg: Config, log: seq<Event>, k: nat) returns (i: nat, m: nat)
    requires RunLog(cfg, log) && k < |log| && log[k].Served?
    requires forall n :: 0 <= n < |log| && log[n].Minted? ==> log[n].at <= log[n].checked
    ensures i < m < k && log[i].Issued? && log[m].Minted? && log[i].code == log[m].code && log[m].token == log[k].token
    ensures log[k].at <= log[i].at + 720.0
  {
    var j;
    i, j, m := ServedTraced(cfg, log, k);
  }

  /** The client comparison at the exchange never fails: the code's client is the only one,
      and the request was authenticated as that client before the code was looked at. */
  lemma ClientAlwaysMatches(cfg: Config, start: real, actions: seq<Action>, id: nat)
    requires var s := Run(cfg, Start(start), actions); id in s.threads && s.threads[id].TokenTimely?
    ensures var th := Run(cfg, Start(start), actions).threads[id]; th.form.clientId == Some(th.grant.clientId)
  {
    StartOk(cfg, start);
    RunKeeps(cfg, Start(start), actions);
  }

  // ---- 720 seconds is not a bound when a request pauses

  const DEMO: Config := Config("app", "s", {"a"}, "a")

  const AUTHORISED: seq<Action> :=
    [Arrive(0, Authorize(AuthorizeQuery(Some("code"), Some("app"), Some("u"), None, ""))), Move(0, "C"), Move(0, ""), Move(0, "")]
  const CHECKED: seq<Action> :=
    [Arrive(1, Token(TokenForm(Some("app"), Some("s"), Some("authorization_code"), "C", Some("u")))), Clock(120.0),
     Move(1, ""), Move(1, ""), Move(1, "T")]
  function Paused(pause: real): seq<Action> { [Clock(pause), Move(1, ""), Move(1, "")] }
  const ASKED: seq<Action> := [Arrive(2, UserInfo("T")), Clock(600.0), Move(2, ""), Move(2, "")]

  lemma {:induction false} RunAppend(cfg: Config, s: State, first: seq<Action>, second: seq<Action>)
    ensures Run(cfg, s, first + second) == Run(cfg, Run(cfg, s, first), second)
    decreases |first|
  {
    if first == [] {
      assert first + second == second;
    } else {
      assert (first + second)[1..] == first[1..] + second;
      RunAppend(cfg, Exec(cfg, s, first[0]), first[1..], second);
    }
  }

  /** Runs a list of steps when the states between them are known. */
  lemma {:induction false} RunThrough(cfg: Config, states: seq<State>, actions: seq<Action>)
    requires |states| == |actions| + 1
    requires forall k :: 0 <= k < |actions| ==> Exec(cfg, states[k], actions[k]) == states[k + 1]
    ensures Run(cfg, states[0], actions) == states[|actions|]
    decreases |actions|
  {
    if actions != [] {
      RunThrough(cfg, states[1..], actions[1..]);
    }
  }

  const G: CodeGrant := CodeGrant("a", "u", "app", 120.0)
  const FIRST: Thread := Done(Redirect("u", "C", ""))
  const LOG: seq<Event> := [Issued("C", "a", "u", "app", 0.0)]

  lemma AfterAuthorised()
    ensures Run(DEMO, Start(0.0), AUTHORISED) == State(Shared(map["C" := G], map[], {"C"}, 0.0), map[0 := FIRST], LOG)
  {
    var s := Start(0.0);
    var q := AuthorizeQuery(Some("code"), Some("app"), Some("u"), None, "");
    assert Lower("a") == "a";
    assert CheckAuthorize(DEMO, q) == Success("a");
    var s1 := State(s.shared, map[0 := AuthStart(q)], []);
    var s2 := State(Shared(map[], map[], {"C"}, 0.0), map[0 := AuthDrawn("C", "a", "u", "app", "")], []);
    var s3 := State(s2.shared, map[0 := AuthStamped("C", G, "")], []);
    var s4 := State(Shared(map["C" := G], map[], {"C"}, 0.0), map[0 := FIRST], LOG);
    assert Exec(DEMO, s, AUTHORISED[0]) == s1;
    assert Exec(DEMO, s1, AUTHORISED[1]) == s2;
    assert Exec(DEMO, s2, AUTHORISED[2]) == s3;
    assert Exec(DEMO, s3, AUTHORISED[3]) == s4;
    RunThrough(DEMO, [s, s1, s2, s3, s4], AUTHORISED);
  }

  const THEN: seq<Event> := LOG + [Redeemed("C", Some("u"))]
  const SECOND: Thread := TokenDrawn("C", G, 120.0, "T")

  lemma AfterChecked()
    ensures Run(DEMO, State(Shared(map["C" := G], map[], {"C"}, 0.0), map[0 := FIRST], LOG), CHECKED)
         == State(Shared(map[], map[], {"C", "T"}, 120.0), map[0 := FIRST, 1 := SECOND], THEN)
  {
    var form := TokenForm(Some("app"), Some("s"), Some("authorization_code"), "C", Some("u"));
    var s := State(Shared(map["C" := G], map[], {"C"}, 0.0), map[0 := FIRST], LOG);
    var s1 := s.(threads := map[0 := FIRST, 1 := TokenStart(form)]);
    var s2 := s1.(shared := s.shared.(now := 120.0));
    var s3 := State(Shared(map[], map[], {"C"}, 120.0), map[0 := FIRST, 1 := TokenPopped(form, "C", Some(G))], THEN);
    var s4 := s3.(threads := map[0 := FIRST, 1 := TokenTimely(form, "C", G, 120.0)]);
    var s5 := State(Shared(map[], map[], {"C", "T"}, 120.0), map[0 := FIRST, 1 := SECOND], THEN);
    CheckedSteps(form, s, s1, s2, s3);
    assert Exec(DEMO, s3, CHECKED[3]) == s4;
    assert Exec(DEMO, s4, CHECKED[4]) == s5;
    RunThrough(DEMO, [s, s1, s2, s3, s4, s5], CHECKED);
  }

  lemma CheckedSteps(form: TokenForm, s: State, s1: State, s2: State, s3: State)
    requires form == TokenForm(Some("app"), Some("s"), Some("authorization_code"), "C", Some("u"))
    requires s == State(Shared(map["C" := G], map[], {"C"}, 0.0), map[0 := FIRST], LOG)
    requires s1 == s.(threads := map[0 := FIRST, 1 := TokenStart(form)]) && s2 == s1.(shared := s.shared.(now := 120.0))
    requires s3 == State(Shared(map[], map[], {"C"}, 120.0), map[0 := FIRST, 1 := TokenPopped(form, "C", Some(G))], THEN)
    ensures Exec(DEMO, s, CHECKED[0]) == s1 && Exec(DEMO, s1, CHECKED[1]) == s2 && Exec(DEMO, s2, CHECKED[2]) == s3
  {
    assert CheckClient(DEMO, form) == None;
    assert s2.shared.codes - {"C"} == map[];
    assert s2.threads[1 := TokenPopped(form, "C", Some(G))] == s3.threads;
  }

  function Last(pause: real): seq<Event> { THEN + [Minted("T", "C", 120.0, 120.0 + pause)] }

  function Signed(pause: real): TokenGrant { TokenGrant("a", 720.0 + pause) }

  lemma AfterPaused(pause: real)
    ensures Run(DEMO, State(Shared(map[], map[], {"C", "T"}, 120.0), map[0 := FIRST, 1 := SECOND], THEN), Paused(pause))
         == State(Shared(map[], map["T" := Signed(pause)], {"C", "T"}, 120.0 + pause), map[0 := FIRST, 1 := Done(Bearer("T"))], Last(pause))
  {
    var s := State(Shared(map[], map[], {"C", "T"}, 120.0), map[0 := FIRST, 1 := SECOND], THEN);
    var s1 := s.(shared := s.shared.(now := 120.0 + pause));
    var s2 := s1.(threads := map[0 := FIRST, 1 := TokenStamped("C", G, 120.0, "T", 120.0 + pause)]);
    var s3 := State(Shared(map[], map["T" := Signed(pause)], {"C", "T"}, 120.0 + pause), map[0 := FIRST, 1 := Done(Bearer("T"))], Last(pause));
    var actions := Paused(pause);
    assert Exec(DEMO, s, actions[0]) == s1;
    assert Exec(DEMO, s1, actions[1]) == s2;
    assert Exec(DEMO, s2, actions[2]) == s3;
    RunThrough(DEMO, [s, s1, s2, s3], actions);
  }

  lemma AfterAsked(pause: real)
    ensures Run(DEMO, State(Shared(map[], map["T" := Signed(pause)], {"C", "T"}, 120.0 + pause), map[0 := FIRST, 1 := Done(Bearer("T"))], Last(pause)), ASKED).log
         == Last(pause) + [Served("T", "a", 720.0 + pause)]
  {
    var two := map[0 := FIRST, 1 := Done(Bearer("T"))];
    var s := State(Shared(map[], map["T" := Signed(pause)], {"C", "T"}, 120.0 + pause), two, Last(pause));
    var s1 := s.(threads := two[2 := UserStart("T")]);
    var s2 := s1.(shared := s.shared.(now := 720.0 + pause));
    var s3 := s2.(threads := two[2 := UserFound("T", Signed(pause))]);
    var s4 := State(s2.shared, two[2 := Done(Person("a"))], Last(pause) + [Served("T", "a", 720.0 + pause)]);
    assert Exec(DEMO, s, ASKED[0]) == s1;
    assert Exec(DEMO, s1, ASKED[1]) == s2;
    assert Exec(DEMO, s2, ASKED[2]) == s3;
    assert Exec(DEMO, s3, ASKED[3]) == s4;
    RunThrough(DEMO, [s, s1, s2, s3, s4], ASKED);
  }

  /** A token request that pauses after the expiry check can serve the person that much later
      than 720 seconds after the authorisation; so can one during which the clock is set. */
  lemma PauseBreaksTheBound(pause: real)
    ensures var log := Run(DEMO, Start(0.0), AUTHORISED + (CHECKED + (Paused(pause) + ASKED))).log;
            log == Last(pause) + [Served("T", "a", 720.0 + pause)]
  {
    var paused := Paused(pause);
    RunAppend(DEMO, Start(0.0), AUTHORISED, CHECKED + (paused + ASKED));
    AfterAuthorised();
    var s1 := Run(DEMO, Start(0.0), AUTHORISED);
    RunAppend(DEMO, s1, CHECKED, paused + ASKED);
    AfterChecked();
    var s2 := Run(DEMO, s1, CHECKED);
    RunAppend(DEMO, s2, paused, ASKED);
    AfterPaused(pause);
    AfterAsked(pause);
  }

  predicate PausesAtMost(log: seq<Event>, pause: real) {
    forall n :: 0 <= n < |log| && log[n].Minted? ==> log[n].at - log[n].checked <= pause
  }

  /** The answer comes within a time of the authorisation its token goes back to. */
  ghost predicate ServedWithin(log: seq<Event>, k: nat, bound: real)
    requires k < |log| && log[k].Served?
  {
    exists i, m :: 0 <= i < m < k && log[i].Issued? && log[m].Minted? && log[i].code == log[m].code
      && log[m].token == log[k].token && log[k].at <= log[i].at + bound
  }

  ghost predicate BoundHolds(cfg: Config, log: seq<Event>, pause: real, bound: real) {
    RunLog(cfg, log) && PausesAtMost(log, pause) ==> forall k: nat :: k < |log| && log[k].Served? ==> ServedWithin(log, k, bound)
  }

  lemma PausedTooLong(pause: real, bound: real)
    requires bound < 720.0 + pause
    ensures exists log :: !BoundHolds(DEMO, log, pause, bound)
  {
    PauseBreaksTheBound(pause);
    var log := Last(pause) + [Served("T", "a", 720.0 + pause)];
    assert log[0] == Issued("C", "a", "u", "app", 0.0) && log[1].Redeemed? && log[2] == Minted("T", "C", 120.0, 120.0 + pause);
    assert !ServedWithin(log, 3, bound);
    assert !BoundHolds(DEMO, log, pause, bound);
  }

  /** The bound is exact: a time holds for every run whose token requests pause no longer than
      this exactly when it is at least 720 seconds and the pause. */
  lemma BoundIsExact(pause: real, bound: real)
    ensures (forall cfg, log :: BoundHolds(cfg, log, pause, bound)) <==> bound >= 720.0 + pause
  {
    if bound < 720.0 + pause {
      PausedTooLong(pause, bound);
    } else {
      forall cfg, log
        ensures BoundHolds(cfg, log, pause, bound)
      {
        BoundEnough(cfg, log, pause, bound);
      }
    }
  }

  lemma BoundEnough(cfg: Config, log: seq<Event>, pause: real, bound: real)
    requires bound >= 720.0 + pause
    ensures BoundHolds(cfg, log, pause, bound)
  {
    if RunLog(cfg, log) && PausesAtMost(log, pause) {
      forall k: nat | k < |log| && log[k].Served?
        ensures ServedWithin(log, k, bound)
      {
        var i, j, m := ServedTraced(cfg, log, k);
        assert log[m].at - log[m].checked <= pause;
      }
    }
  }
}
