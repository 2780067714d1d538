/** Refresh-token sessions: backend/app/services/auth_token_service.py, the token queries of
    backend/app/repositories/user_repository.py and the clean-up task. A token's raw value, its hash
    and its row id are one fresh number. Revoking all tokens of a user selects rows without a lock and
    then writes those rows; other requests may come between. */
module Sessions {
  import opened Basics

  datatype Row = Row(user: Id, expiresAt: int, revokedAt: Option<int>)

  /** History of one issued token: whose it is, which token it replaced, and the login it descends
      from, named by the first token of the chain. */
  datatype Issue = Issue(user: Id, parent: Option<nat>, chain: nat)

  /** A revoke-all in flight: the unrevoked tokens it has selected, when, and how many tokens had been
      issued by then. */
  datatype Selection = Selection(user: Id, tokens: set<nat>, at: int, before: nat)

  /** `rows` is the table; `issued[t]` remembers token `t` even after its row is deleted. */
  datatype State = State(now: int, rows: map<nat, Row>, issued: seq<Issue>, selections: seq<Selection>)

  datatype Step =
    | Wait(elapsed: nat)
    | Login(user: Id)                     // `issue_session_tokens`
    | Refresh(token: nat, active: bool)   // `refresh_access_token`, with the user's status
    | Logout(token: nat)                  // the commit of `logout`, whatever happened since it validated
    | Select(user: Id)                    // logout everywhere, password change or reset: the query
    | Write(selection: nat)               // and its writes
    | Cleanup                             // `cleanup_refresh_tokens`

  /** How long a token lives, and how long a revoked row is kept. */
  datatype Config = Config(lifetime: nat, retention: nat)

  /** `validate_refresh_token`. */
  function Validate(s: State, token: nat): Result<Row> {
    if token !in s.rows then Err(Unauthorised)
    else if s.rows[token].revokedAt.Some? then Err(Unauthorised)
    else if s.rows[token].expiresAt < s.now then Err(Unauthorised)
    else Ok(s.rows[token])
  }

  /** The session check on every request: stricter than `Validate` at the moment of expiry. */
  predicate SessionValid(s: State, token: nat, user: Id) {
    && token in s.rows && s.rows[token].user == user
    && s.rows[token].revokedAt.None? && s.rows[token].expiresAt > s.now
  }

  function Revoked(row: Row, at: int): Row {
    row.(revokedAt := Some(at))
  }

  function Issued(s: State, user: Id, parent: Option<nat>, chain: nat, config: Config): State {
    s.(rows := s.rows[|s.issued| := Row(user, s.now + config.lifetime, None)],
       issued := s.issued + [Issue(user, parent, chain)])
  }

  predicate ActiveRow(row: Row, user: Id) {
    row.user == user && row.revokedAt.None?
  }

  function SelectFor(s: State, user: Id): Selection {
    var tokens := set t | t in s.rows && ActiveRow(s.rows[t], user);
    Selection(user, tokens, s.now, |s.issued|)
  }

  /** The selected rows are written whatever has become of them; a deleted row is skipped. */
  function RevokeRows(rows: map<nat, Row>, tokens: set<nat>, at: int): map<nat, Row> {
    map t | t in rows :: if t in tokens then Revoked(rows[t], at) else rows[t]
  }

  predicate Deletable(row: Row, now: int, retention: nat) {
    row.expiresAt < now || (row.revokedAt.Some? && row.revokedAt.value < now - retention)
  }

  function Kept(rows: map<nat, Row>, now: int, retention: nat): map<nat, Row> {
    map t | t in rows && !Deletable(rows[t], now, retention) :: rows[t]
  }

  function Apply(s: State, step: Step, config: Config): State {
    match step
    case Wait(elapsed) => s.(now := s.now + elapsed)
    case Login(user) => Issued(s, user, None, |s.issued|, config)
    case Refresh(token, active) =>
      if Validate(s, token).Err? || !active || token >= |s.issued| then s
      else
        Issued(s.(rows := s.rows[token := Revoked(s.rows[token], s.now)]),
               s.rows[token].user, Some(token), s.issued[token].chain, config)
    case Logout(token) =>
      if token in s.rows then s.(rows := s.rows[token := Revoked(s.rows[token], s.now)]) else s
    case Select(user) => s.(selections := s.selections + [SelectFor(s, user)])
    case Write(i) =>
      if i >= |s.selections| then s
      else s.(rows := RevokeRows(s.rows, s.selections[i].tokens, s.selections[i].at))
    case Cleanup => s.(rows := Kept(s.rows, s.now, config.retention))
  }

  function Run(s: State, steps: seq<Step>, config: Config): State {
    if steps == [] then s else Apply(Run(s, steps[..|steps| - 1], config), steps[|steps| - 1], config)
  }

  function Empty(now: int): State {
    State(now, map[], [], [])
  }

  predicate Live(s: State, t: nat) {
    t in s.rows && s.rows[t].revokedAt.None?
  }

  // ---- what every step keeps ----

  /** A token either opens its chain or replaces an older token of it. */
  ghost predicate Linked(issued: seq<Issue>, t: nat)
    requires t < |issued|
  {
    var c := issued[t].chain;
    && c <= t && issued[c].user == issued[t].user
    && match issued[t].parent
       case None => c == t
       case Some(p) => p < t && issued[p].chain == c && issued[p].user == issued[t].user
  }

  /** Two tokens do not replace the same one. */
  ghost predicate Apart(issued: seq<Issue>, t: nat, u: nat)
    requires t < |issued| && u < |issued|
  {
    t != u && issued[t].parent.Some? ==> issued[t].parent != issued[u].parent
  }

  /** `u` neither belongs to a later stage of `t`'s chain nor replaces `t`. */
  ghost predicate NotBeyond(issued: seq<Issue>, t: nat, u: nat)
    requires t < |issued| && u < |issued|
  {
    (issued[u].chain == issued[t].chain ==> u <= t) && issued[u].parent != Some(t)
  }

  ghost predicate Newest(issued: seq<Issue>, t: nat)
    requires t < |issued|
  {
    forall u {:trigger NotBeyond(issued, t, u)} | 0 <= u < |issued| :: NotBeyond(issued, t, u)
  }

  /** A row agrees with the history, and an unrevoked one is the newest of its chain. */
  ghost predicate RowFits(s: State, t: nat)
    requires t in s.rows
  {
    && t < |s.issued| && s.rows[t].user == s.issued[t].user
    && (Live(s, t) ==> Newest(s.issued, t))
  }

  ghost predicate Inv(s: State) {
    && (forall t {:trigger Linked(s.issued, t)} | 0 <= t < |s.issued| :: Linked(s.issued, t))
    && (forall t, u {:trigger Apart(s.issued, t, u)} | 0 <= t < |s.issued| && 0 <= u < |s.issued| ::
          Apart(s.issued, t, u))
    && (forall t {:trigger RowFits(s, t)} | t in s.rows :: RowFits(s, t))
  }

  /** What a step needs to know of the state before it issues the successor of `parent`. */
  ghost predicate MayIssue(s: State, user: Id, parent: Option<nat>, chain: nat) {
    && (forall t | t in s.rows && Live(s, t) :: t < |s.issued| && s.issued[t].chain != chain)
    && match parent
       case None => chain == |s.issued|
       case Some(p) =>
         && p < |s.issued| && chain == s.issued[p].chain && s.issued[p].user == user && !Live(s, p)
         && (forall u | 0 <= u < |s.issued| :: s.issued[u].parent != parent)
  }

  lemma IssuedLinks(s: State, user: Id, parent: Option<nat>, chain: nat, config: Config)
    requires Inv(s) && MayIssue(s, user, parent, chain)
    ensures var issued := Issued(s, user, parent, chain, config).issued;
      && (forall t {:trigger Linked(issued, t)} | 0 <= t < |issued| :: Linked(issued, t))
      && (forall t, u {:trigger Apart(issued, t, u)} | 0 <= t < |issued| && 0 <= u < |issued| :: Apart(issued, t, u))
  {
    var issued := Issued(s, user, parent, chain, config).issued;
    forall t | 0 <= t < |issued| ensures Linked(issued, t) {
      if t < |s.issued| {
        assert Linked(s.issued, t);
      } else if parent.Some? {
        assert Linked(s.issued, parent.value);
      }
    }
    forall t, u | 0 <= t < |issued| && 0 <= u < |issued| ensures Apart(issued, t, u) {
      if t < |s.issued| && u < |s.issued| {
        assert Apart(s.issued, t, u);
      }
    }
  }

  lemma IssuedKeeps(s: State, user: Id, parent: Option<nat>, chain: nat, config: Config)
    requires Inv(s) && MayIssue(s, user, parent, chain)
    ensures Inv(Issued(s, user, parent, chain, config))
  {
    IssuedLinks(s, user, parent, chain, config);
    var t := Issued(s, user, parent, chain, config);
    var n := |s.issued|;
    forall x | x in t.rows ensures RowFits(t, x) {
      if x == n {
        forall u | 0 <= u < |t.issued| ensures NotBeyond(t.issued, n, u) {
          if u < n {
            assert Linked(s.issued, u);
          }
        }
      } else {
        assert RowFits(s, x);
        if Live(s, x) {
          forall u | 0 <= u < |t.issued| ensures NotBeyond(t.issued, x, u) {
            if u < n {
              assert NotBeyond(s.issued, x, u);
            }
          }
        }
      }
    }
  }

  lemma FewerLiveKeeps(s: State, rows: map<nat, Row>)
    requires Inv(s)
    requires forall t | t in rows :: t in s.rows && rows[t].user == s.rows[t].user
    requires forall t | t in rows && rows[t].revokedAt.None? :: s.rows[t].revokedAt.None?
    ensures Inv(s.(rows := rows))
  {
    var t := s.(rows := rows);
    forall x | x in t.rows ensures RowFits(t, x) {
      assert RowFits(s, x);
    }
  }

  lemma RefreshMayIssue(s: State, p: nat)
    requires Inv(s) && Validate(s, p).Ok?
    ensures p < |s.issued| && s.issued[p].user == s.rows[p].user
    ensures MayIssue(s.(rows := s.rows[p := Revoked(s.rows[p], s.now)]),
                     s.rows[p].user, Some(p), s.issued[p].chain)
  {
    assert RowFits(s, p);
    forall u | 0 <= u < |s.issued| ensures s.issued[u].parent != Some(p) {
      assert NotBeyond(s.issued, p, u);
    }
    forall t | t in s.rows && t != p && Live(s, t) ensures t < |s.issued| && s.issued[t].chain != s.issued[p].chain {
      assert RowFits(s, t) && NotBeyond(s.issued, t, p) && NotBeyond(s.issued, p, t);
    }
  }

  lemma LoginMayIssue(s: State, user: Id)
    requires Inv(s)
    ensures MayIssue(s, user, None, |s.issued|)
  {
    forall t | t in s.rows && Live(s, t) ensures t < |s.issued| && s.issued[t].chain != |s.issued| {
      assert RowFits(s, t) && Linked(s.issued, t);
    }
  }

  lemma StepKeeps(s: State, step: Step, config: Config)
    requires Inv(s)
    ensures Inv(Apply(s, step, config))
  {
    if step.Login? {
      LoginMayIssue(s, step.user);
      IssuedKeeps(s, step.user, None, |s.issued|, config);
    } else if step.Refresh? && Validate(s, step.token).Ok? && step.active {
      var p := step.token;
      RefreshMayIssue(s, p);
      FewerLiveKeeps(s, s.rows[p := Revoked(s.rows[p], s.now)]);
      IssuedKeeps(s.(rows := s.rows[p := Revoked(s.rows[p], s.now)]),
                  s.rows[p].user, Some(p), s.issued[p].chain, config);
    } else if step.Wait? || step.Select? {
      forall x | x in s.rows ensures RowFits(Apply(s, step, config), x) {
        assert RowFits(s, x);
      }
    } else {
      FewerLiveKeeps(s, Apply(s, step, config).rows);
      assert Apply(s, step, config) == s.(rows := Apply(s, step, config).rows);
    }
  }

  lemma {:induction false} RunKeeps(s: State, steps: seq<Step>, config: Config)
    requires Inv(s)
    ensures Inv(Run(s, steps, config))
  {
    if steps != [] {
      RunKeeps(s, steps[..|steps| - 1], config);
      StepKeeps(Run(s, steps[..|steps| - 1], config), steps[|steps| - 1], config);
    }
  }

  // ---- the main results ----

  lemma TwoLive(s: State, t: nat, u: nat)
    requires Inv(s) && Live(s, t) && Live(s, u)
    ensures t < |s.issued| && u < |s.issued| && (s.issued[t].chain == s.issued[u].chain ==> t == u)
  {
    assert RowFits(s, t) && RowFits(s, u);
    assert NotBeyond(s.issued, t, u) && NotBeyond(s.issued, u, t);
  }

  /** In every run each token has at most one successor, and each login chain at most one unrevoked
      token, which is the newest of the chain. */
  lemma SessionChains(now: int, steps: seq<Step>, config: Config, t: nat, u: nat)
    ensures var s := Run(Empty(now), steps, config);
      && (t < u < |s.issued| && s.issued[t].parent.Some? ==> s.issued[t].parent != s.issued[u].parent)
      && (Live(s, t) ==> t < |s.issued|)
      && (Live(s, t) && u < |s.issued| && s.issued[u].chain == s.issued[t].chain ==> u <= t && (Live(s, u) ==> u == t))
  {
    RunKeeps(Empty(now), steps, config);
    var s := Run(Empty(now), steps, config);
    if t < u < |s.issued| {
      assert Apart(s.issued, t, u);
    }
    if Live(s, t) {
      assert RowFits(s, t);
      if u < |s.issued| {
        assert NotBeyond(s.issued, t, u);
        if Live(s, u) {
          TwoLive(s, t, u);
        }
      }
    }
  }

  /** No unrevoked token of chain `c` is left. */
  ghost predicate DeadChain(s: State, c: nat) {
    c < |s.issued| && forall t | t in s.rows && t < |s.issued| && s.issued[t].chain == c :: !Live(s, t)
  }

  lemma StepKeepsDead(s: State, step: Step, config: Config, c: nat)
    requires Inv(s) && DeadChain(s, c)
    ensures DeadChain(Apply(s, step, config), c)
  {
    var t := Apply(s, step, config);
    forall x | x in t.rows && x < |t.issued| && t.issued[x].chain == c ensures !Live(t, x) {
      if x in s.rows {
        assert RowFits(s, x);
        assert t.issued[x] == s.issued[x] && !Live(s, x);
      }
    }
  }

  /** A chain without an unrevoked token stays so for ever, whatever is replayed against it. */
  lemma {:induction false} DeadChainsStayDead(s: State, steps: seq<Step>, config: Config, c: nat)
    requires Inv(s) && DeadChain(s, c)
    ensures DeadChain(Run(s, steps, config), c)
  {
    if steps != [] {
      var n := |steps| - 1;
      DeadChainsStayDead(s, steps[..n], config, c);
      RunKeeps(s, steps[..n], config);
      StepKeepsDead(Run(s, steps[..n], config), steps[n], config, c);
    }
  }

  lemma {:induction false} HistoryGrows(s: State, steps: seq<Step>, config: Config)
    ensures s.issued <= Run(s, steps, config).issued
  {
    if steps != [] {
      HistoryGrows(s, steps[..|steps| - 1], config);
    }
  }

  lemma RejectedStep(s: State, step: Step, config: Config, t: nat)
    requires t < |s.issued| && Validate(s, t).Err?
    ensures Validate(Apply(s, step, config), t).Err?
  {
  }

  /** An issued token that is refused now is refused in every later state. */
  lemma {:induction false} RejectedForEver(s: State, steps: seq<Step>, config: Config, t: nat)
    requires t < |s.issued| && Validate(s, t).Err?
    ensures Validate(Run(s, steps, config), t).Err?
  {
    if steps != [] {
      var n := |steps| - 1;
      RejectedForEver(s, steps[..n], config, t);
      HistoryGrows(s, steps[..n], config);
      RejectedStep(Run(s, steps[..n], config), steps[n], config, t);
    }
  }

  /** Steps that end token `t`. */
  ghost predicate Ends(s: State, step: Step, t: nat) {
    && t < |s.issued|
    && (step == Refresh(t, true) || step == Logout(t)
        || (step.Write? && step.selection < |s.selections| && t in s.selections[step.selection].tokens))
  }

  /** A token that was rotated, logged out or revoked is refused in every later state. */
  lemma SpentTokensStaySpent(now: int, before: seq<Step>, step: Step, after: seq<Step>, config: Config, t: nat)
    requires Ends(Run(Empty(now), before, config), step, t)
    ensures Validate(Run(Apply(Run(Empty(now), before, config), step, config), after, config), t).Err?
  {
    RunKeeps(Empty(now), before, config);
    var s := Run(Empty(now), before, config);
    if t in s.rows {
      assert RowFits(s, t);
    }
    RejectedForEver(Apply(s, step, config), after, config, t);
  }

  // ---- how long a token is accepted ----

  /** The step issues a token for `user`: a login, or a refresh with an accepted token of an active user. */
  ghost predicate Issues(s: State, step: Step, user: Id) {
    || step == Login(user)
    || (step.Refresh? && step.active && step.token < |s.issued| && Validate(s, step.token).Ok?
        && s.rows[step.token].user == user)
  }

  /** Some step of the run from `s` ends token `t`. */
  ghost predicate EndedDuring(s: State, steps: seq<Step>, config: Config, t: nat) {
    steps != [] &&
    var n := |steps| - 1;
    EndedDuring(s, steps[..n], config, t) || Ends(Run(s, steps[..n], config), steps[n], t)
  }

  /** A token's row, while there is one, has the expiry and the user it was issued with, and is unrevoked
      exactly if nothing has ended it; it is deleted only once it is expired or ended. */
  ghost predicate RowStands(s: State, t: nat, user: Id, until: int, ended: bool) {
    && t < |s.issued|
    && (t in s.rows ==> s.rows[t].user == user && s.rows[t].expiresAt == until)
    && (!ended && s.now <= until ==> Live(s, t))
    && (ended ==> !Live(s, t) || until < s.now)
  }

  lemma IssuedStands(s: State, step: Step, user: Id, config: Config)
    requires Inv(s) && Issues(s, step, user)
    ensures RowStands(Apply(s, step, config), |s.issued|, user, s.now + config.lifetime, false)
  {
    if step.Refresh? {
      assert RowFits(s, step.token);
    }
  }

  lemma StepStands(s: State, step: Step, config: Config, t: nat, user: Id, until: int, ended: bool)
    requires Inv(s) && RowStands(s, t, user, until, ended)
    ensures RowStands(Apply(s, step, config), t, user, until, ended || Ends(s, step, t))
  {
    if step.Refresh? && Validate(s, step.token).Ok? {
      assert RowFits(s, step.token);
    }
  }

  lemma {:induction false} RunStands(s: State, steps: seq<Step>, config: Config, t: nat, user: Id, until: int)
    requires Inv(s) && RowStands(s, t, user, until, false)
    ensures RowStands(Run(s, steps, config), t, user, until, EndedDuring(s, steps, config, t))
  {
    if steps != [] {
      var n := |steps| - 1;
      RunStands(s, steps[..n], config, t, user, until);
      RunKeeps(s, steps[..n], config);
      StepStands(Run(s, steps[..n], config), steps[n], config, t, user, until,
                 EndedDuring(s, steps[..n], config, t));
    }
  }

  /** A token is accepted in a later state if and only if no more than its lifetime has passed since it was
      issued and no step has rotated, logged out or revoked it; its session serves its own user, and stops
      a moment earlier. */
  lemma AcceptedIff(s: State, step: Step, user: Id, later: seq<Step>, config: Config, other: Id)
    requires Inv(s) && Issues(s, step, user)
    ensures var s1 := Apply(s, step, config);
      var u := Run(s1, later, config);
      var ended := EndedDuring(s1, later, config, |s.issued|);
      && (Validate(u, |s.issued|).Ok? <==> !ended && u.now <= s.now + config.lifetime)
      && (SessionValid(u, |s.issued|, other) <==> !ended && other == user && u.now < s.now + config.lifetime)
  {
    var s1 := Apply(s, step, config);
    StepKeeps(s, step, config);
    IssuedStands(s, step, user, config);
    RunStands(s1, later, config, |s.issued|, user, s.now + config.lifetime);
  }

  // ---- revoke-all ----

  /** A selection has every token of its user that was issued before it and is still unrevoked. */
  ghost predicate Covers(s: State, i: nat)
    requires i < |s.selections|
  {
    var sel := s.selections[i];
    && sel.before <= |s.issued|
    && forall t | t in s.rows && t < sel.before && ActiveRow(s.rows[t], sel.user) :: t in sel.tokens
  }

  ghost predicate AllCover(s: State) {
    forall i {:trigger Covers(s, i)} | 0 <= i < |s.selections| :: Covers(s, i)
  }

  /** No token is unrevoked again, and none changes its user. */
  lemma NoRevival(s: State, step: Step, config: Config, t: nat)
    requires t < |s.issued| && t in Apply(s, step, config).rows
    ensures |s.issued| <= |Apply(s, step, config).issued| && t in s.rows
    ensures Apply(s, step, config).rows[t].user == s.rows[t].user
    ensures Live(Apply(s, step, config), t) ==> Live(s, t)
  {
  }

  lemma SelectionsStay(s: State, step: Step, config: Config)
    ensures s.selections <= Apply(s, step, config).selections
    ensures |s.issued| <= |Apply(s, step, config).issued|
    ensures |Apply(s, step, config).selections| > |s.selections| ==>
      Apply(s, step, config) == s.(selections := s.selections + [SelectFor(s, step.user)])
  {
  }

  lemma StepCovers(s: State, step: Step, config: Config)
    requires Inv(s) && AllCover(s)
    ensures AllCover(Apply(s, step, config))
  {
    var u := Apply(s, step, config);
    SelectionsStay(s, step, config);
    forall i | 0 <= i < |u.selections| ensures Covers(u, i) {
      if i < |s.selections| {
        assert Covers(s, i) && u.selections[i] == s.selections[i];
        var sel := s.selections[i];
        forall t | t in u.rows && t < sel.before && ActiveRow(u.rows[t], sel.user) ensures t in sel.tokens {
          NoRevival(s, step, config, t);
        }
      }
    }
  }

  lemma {:induction false} RunCovers(s: State, steps: seq<Step>, config: Config)
    requires Inv(s) && AllCover(s)
    ensures Inv(Run(s, steps, config)) && AllCover(Run(s, steps, config))
    ensures s.selections <= Run(s, steps, config).selections
  {
    if steps != [] {
      var n := |steps| - 1;
      RunCovers(s, steps[..n], config);
      StepKeeps(Run(s, steps[..n], config), steps[n], config);
      StepCovers(Run(s, steps[..n], config), steps[n], config);
      SelectionsStay(Run(s, steps[..n], config), steps[n], config);
    }
  }

  /** No unrevoked token of the user was issued since the selection. */
  predicate NoneSince(s: State, i: nat)
    requires i < |s.selections|
  {
    forall t | t in s.rows && t >= s.selections[i].before :: !ActiveRow(s.rows[t], s.selections[i].user)
  }

  /** What a revoke-all leaves unrevoked of its user is exactly what was issued after it selected. */
  lemma SurvivorsAreNewer(s: State, i: nat, config: Config, t: nat)
    requires Inv(s) && AllCover(s) && i < |s.selections|
    ensures var u := Apply(s, Write(i), config);
      var sel := s.selections[i];
      t in u.rows && ActiveRow(u.rows[t], sel.user) <==>
        t in s.rows && ActiveRow(s.rows[t], sel.user) && t !in sel.tokens
    ensures var u := Apply(s, Write(i), config);
      var sel := s.selections[i];
      t in u.rows && ActiveRow(u.rows[t], sel.user) ==> t >= sel.before
  {
    assert Covers(s, i);
  }

  /** The exact condition: no unrevoked token of the user is left after the writes if and only if none was
      issued, and is still unrevoked, since the selection. */
  lemma NoneLeftIff(s: State, i: nat, config: Config)
    requires Inv(s) && AllCover(s) && i < |s.selections|
    requires forall t | t in s.selections[i].tokens :: t < s.selections[i].before
    ensures var u := Apply(s, Write(i), config);
      (forall t | t in u.rows :: !ActiveRow(u.rows[t], s.selections[i].user)) <==> NoneSince(s, i)
  {
    var u := Apply(s, Write(i), config);
    if NoneSince(s, i) {
      forall t | t in u.rows ensures !ActiveRow(u.rows[t], s.selections[i].user) {
        SurvivorsAreNewer(s, i, config, t);
      }
    } else {
      var t :| t in s.rows && t >= s.selections[i].before && ActiveRow(s.rows[t], s.selections[i].user);
      assert t in u.rows && ActiveRow(u.rows[t], s.selections[i].user);
    }
  }

  /** The state of a run in which `user`'s tokens are selected after `before` and written after `between`. */
  function Revoking(now: int, before: seq<Step>, user: Id, between: seq<Step>, config: Config): State {
    Run(Apply(Run(Empty(now), before, config), Select(user), config), between, config)
  }

  lemma RevokingKeeps(now: int, before: seq<Step>, user: Id, between: seq<Step>, config: Config)
    ensures var s := Run(Empty(now), before, config);
      var m := Revoking(now, before, user, between, config);
      var i := |s.selections|;
      && Inv(m) && AllCover(m) && i < |m.selections| && m.selections[i] == SelectFor(s, user)
      && forall t | t in m.selections[i].tokens :: t < m.selections[i].before
  {
    RunCovers(Empty(now), before, config);
    var s := Run(Empty(now), before, config);
    StepKeeps(s, Select(user), config);
    StepCovers(s, Select(user), config);
    RunCovers(Apply(s, Select(user), config), between, config);
    forall t | t in SelectFor(s, user).tokens ensures t < |s.issued| {
      assert RowFits(s, t);
    }
  }

  lemma NoLiveLeft(s: State, user: Id, c: nat)
    requires Inv(s) && c < |s.issued| && s.issued[c].user == user
    requires forall t | t in s.rows :: !ActiveRow(s.rows[t], user)
    ensures DeadChain(s, c)
  {
    forall t | t in s.rows && t < |s.issued| && s.issued[t].chain == c ensures !Live(s, t) {
      assert RowFits(s, t) && Linked(s.issued, t);
    }
  }

  /** Revoke-all touches nobody else, and if no token of the user was issued between its query and its
      writes that is still unrevoked, it ends every session of the user: whatever is accepted for that
      user later descends from a login made afterwards. */
  lemma RevokeAllEndsSessions(now: int, before: seq<Step>, user: Id, between: seq<Step>, after: seq<Step>,
                              config: Config, i: nat, t: nat)
    requires i == |Run(Empty(now), before, config).selections|
    ensures var m := Revoking(now, before, user, between, config);
      var u := Apply(m, Write(i), config);
      var v := Run(u, after, config);
      && i < |m.selections|
      && (forall x | x in m.rows && m.rows[x].user != user :: x in u.rows && u.rows[x] == m.rows[x])
      && ((forall x | x in u.rows :: !ActiveRow(u.rows[x], user)) <==> NoneSince(m, i))
      && (NoneSince(m, i) && Validate(v, t).Ok? && v.rows[t].user == user ==>
            t < |v.issued| && v.issued[t].chain >= |m.issued|)
  {
    RevokingKeeps(now, before, user, between, config);
    var m := Revoking(now, before, user, between, config);
    var u := Apply(m, Write(i), config);
    NoneLeftIff(m, i, config);
    OthersUntouched(now, before, user, between, config, i);
    if NoneSince(m, i) {
      StepKeeps(m, Write(i), config);
      NothingRevives(u, user, after, config, t);
    }
  }

  /** Only rows of the user are selected, and rows keep their user. */
  lemma OthersUntouched(now: int, before: seq<Step>, user: Id, between: seq<Step>, config: Config, i: nat)
    requires i == |Run(Empty(now), before, config).selections|
    ensures var m := Revoking(now, before, user, between, config);
      var u := Apply(m, Write(i), config);
      && i < |m.selections|
      && forall x | x in m.rows && m.rows[x].user != user :: x in u.rows && u.rows[x] == m.rows[x]
  {
    RevokingKeeps(now, before, user, between, config);
    RunKeeps(Empty(now), before, config);
    var s := Run(Empty(now), before, config);
    var m := Revoking(now, before, user, between, config);
    HistoryGrows(Apply(s, Select(user), config), between, config);
    forall x | x in m.rows && m.rows[x].user != user ensures x !in m.selections[i].tokens {
      assert RowFits(m, x);
      assert x in s.rows ==> RowFits(s, x);
    }
  }

  /** Where a user has no unrevoked token, only a new login brings one. */
  lemma NothingRevives(u: State, user: Id, after: seq<Step>, config: Config, t: nat)
    requires Inv(u) && forall x | x in u.rows :: !ActiveRow(u.rows[x], user)
    ensures var v := Run(u, after, config);
      Validate(v, t).Ok? && v.rows[t].user == user ==> t < |v.issued| && v.issued[t].chain >= |u.issued|
  {
    RunKeeps(u, after, config);
    var v := Run(u, after, config);
    if Validate(v, t).Ok? && v.rows[t].user == user {
      assert RowFits(v, t) && Linked(v.issued, t);
      var c := v.issued[t].chain;
      if c < |u.issued| {
        HistoryGrows(u, after, config);
        assert u.issued[c] == v.issued[c];
        NoLiveLeft(u, user, c);
        DeadChainsStayDead(u, after, config, c);
        assert Live(v, t);
        assert false;
      }
    }
  }

  /** Without the condition a session survives: log in, let a revoke-all select, refresh, let it write. The
      new token is accepted, for the same user and of the same old login. */
  lemma RefreshSurvivesRevokeAll(config: Config) returns (t: State)
    ensures t == Apply(Revoking(0, [Login(7)], 7, [Refresh(0, true)], config), Write(0), config)
    ensures Validate(t, 0).Err? && Validate(t, 1).Ok? && t.rows[1].user == 7
    ensures |t.issued| == 2 && t.issued[1] == Issue(7, Some(0), 0)
  {
    var s0 := Empty(0);
    RunOne(s0, Login(7), config);
    var s1 := Apply(s0, Login(7), config);
    var s2 := Apply(s1, Select(7), config);
    RunOne(s2, Refresh(0, true), config);
    t := Apply(Apply(s2, Refresh(0, true), config), Write(0), config);
  }

  lemma RunOne(s: State, step: Step, config: Config)
    ensures Run(s, [step], config) == Apply(s, step, config)
  {
    assert [step][..0] == [];
  }

  // ---- logout and refresh ----

  lemma OnlyLiveGone(s: State, t: nat, at: int)
    requires Inv(s) && Live(s, t)
    ensures t < |s.issued| && s.issued[t].chain < |s.issued|
    ensures DeadChain(s.(rows := s.rows[t := Revoked(s.rows[t], at)]), s.issued[t].chain)
  {
    assert RowFits(s, t) && Linked(s.issued, t);
    var s1 := s.(rows := s.rows[t := Revoked(s.rows[t], at)]);
    forall x | x in s1.rows && x < |s1.issued| && s1.issued[x].chain == s.issued[t].chain ensures !Live(s1, x) {
      if Live(s1, x) {
        TwoLive(s, x, t);
      }
    }
  }

  /** Logging out with the current token of a chain ends the whole chain. */
  lemma LogoutEndsChain(now: int, before: seq<Step>, t: nat, after: seq<Step>, config: Config, x: nat)
    requires Validate(Run(Empty(now), before, config), t).Ok?
    ensures var s := Run(Empty(now), before, config);
      var s2 := Run(Apply(s, Logout(t), config), after, config);
      && t < |s.issued|
      && (x < |s2.issued| && s2.issued[x].chain == s.issued[t].chain ==> Validate(s2, x).Err?)
  {
    var s := Run(Empty(now), before, config);
    RunKeeps(Empty(now), before, config);
    OnlyLiveGone(s, t, s.now);
    var s1 := Apply(s, Logout(t), config);
    StepKeeps(s, Logout(t), config);
    DeadChainsStayDead(s1, after, config, s.issued[t].chain);
  }

  /** A session that serves requests can be refreshed, and refreshing it ends it: the old session id
      is refused from then on and the new one is valid at once. */
  lemma RefreshMovesTheSession(now: int, before: seq<Step>, t: nat, user: Id, config: Config)
    requires SessionValid(Run(Empty(now), before, config), t, user)
    ensures var s := Run(Empty(now), before, config);
      var s1 := Apply(s, Refresh(t, true), config);
      && Validate(s, t).Ok? && !SessionValid(s1, t, user)
      && |s1.issued| == |s.issued| + 1 && Validate(s1, |s.issued|).Ok?
      && (SessionValid(s1, |s.issued|, user) <==> config.lifetime > 0)
  {
    RunKeeps(Empty(now), before, config);
    assert RowFits(Run(Empty(now), before, config), t);
  }

  // ---- clean-up cannot be observed ----

  function WithoutCleanup(steps: seq<Step>): seq<Step> {
    if steps == [] then []
    else
      WithoutCleanup(steps[..|steps| - 1])
      + (if steps[|steps| - 1].Cleanup? then [] else [steps[|steps| - 1]])
  }

  /** `a` is `b` with some rows deleted, all of them revoked or expired. */
  ghost predicate Thinner(a: State, b: State) {
    && a.now == b.now && a.issued == b.issued && |a.selections| == |b.selections|
    && (forall t | t in a.rows :: t in b.rows && a.rows[t] == b.rows[t])
    && (forall t | t in b.rows && t !in a.rows :: b.rows[t].revokedAt.Some? || b.rows[t].expiresAt < b.now)
    && (forall t | t in b.rows :: t < |b.issued|)
    && (forall i | 0 <= i < |a.selections| :: SameSelection(a, a.selections[i], b.selections[i]))
  }

  /** Selections agree on the rows that the thinner table still has, and name issued tokens only. */
  ghost predicate SameSelection(a: State, p: Selection, q: Selection) {
    && p.user == q.user && p.at == q.at && p.before == q.before
    && (forall t | t in a.rows :: t in p.tokens <==> t in q.tokens)
    && (forall t | t in p.tokens || t in q.tokens :: t < |a.issued|)
  }

  lemma StepsTogether(a: State, b: State, step: Step, config: Config)
    requires Thinner(a, b) && !step.Cleanup?
    ensures Thinner(Apply(a, step, config), Apply(b, step, config))
  {
    if step.Refresh? {
      assert Validate(a, step.token) == Validate(b, step.token);
    }
  }

  lemma CleanupThins(a: State, b: State, config: Config)
    requires Thinner(a, b)
    ensures Thinner(Apply(a, Cleanup, config), b)
  {
  }

  lemma {:induction false} RunThinner(s: State, steps: seq<Step>, config: Config)
    requires s.selections == [] && forall t | t in s.rows :: t < |s.issued|
    ensures Thinner(Run(s, steps, config), Run(s, WithoutCleanup(steps), config))
  {
    if steps != [] {
      var n := |steps| - 1;
      RunThinner(s, steps[..n], config);
      var a, b := Run(s, steps[..n], config), Run(s, WithoutCleanup(steps[..n]), config);
      if steps[n].Cleanup? {
        CleanupThins(a, b, config);
        assert WithoutCleanup(steps) == WithoutCleanup(steps[..n]);
      } else {
        StepsTogether(a, b, steps[n], config);
        var kept := WithoutCleanup(steps[..n]);
        assert WithoutCleanup(steps) == kept + [steps[n]] && (kept + [steps[n]])[..|kept|] == kept;
      }
    }
  }

  /** A run with clean-ups at any points accepts exactly the refresh tokens and sessions, and issues
      exactly the tokens, of the same run without them. */
  lemma CleanupUnobservable(now: int, steps: seq<Step>, config: Config, t: nat, user: Id)
    ensures var a, b := Run(Empty(now), steps, config), Run(Empty(now), WithoutCleanup(steps), config);
      && a.issued == b.issued
      && Validate(a, t) == Validate(b, t)
      && (SessionValid(a, t, user) <==> SessionValid(b, t, user))
  {
    RunThinner(Empty(now), steps, config);
  }

  // ---- the table ----

  class TokenTable {
    var clock: int
    var rows: map<nat, Row>
    /** Supply of fresh tokens. */
    var next: nat
    /** Revoke-alls in flight, kept by the workers that serve them. */
    var selections: seq<Selection>
    ghost var issued: seq<Issue>

    ghost function View(): State
      reads this
    {
      State(clock, rows, issued, selections)
    }

    ghost predicate Valid()
      reads this
    {
      next == |issued| && Inv(View())
    }

    constructor (now: int)
      ensures Valid() && View() == Empty(now)
    {
      clock, rows, next, selections := now, map[], 0, [];
      issued := [];
    }

    method ValidateRefreshToken(token: nat) returns (result: Result<Row>)
      ensures result == Validate(View(), token)
      ensures result.Ok? <==> token in rows && rows[token].revokedAt == None && clock <= rows[token].expiresAt
      ensures result == if result.Ok? then Ok(rows[token]) else Err(Unauthorised)
    {
      if token !in rows || rows[token].revokedAt.Some? || rows[token].expiresAt < clock {
        return Err(Unauthorised);
      }
      return Ok(rows[token]);
    }

    method CreateAndStore(user: Id, ghost parent: Option<nat>, ghost chain: nat, config: Config)
      returns (token: nat)
      requires next == |issued|
      modifies this
      ensures next == |issued| && token == old(next)
      ensures View() == Issued(old(View()), user, parent, chain, config)
    {
      token := next;
      rows := rows[token := Row(user, clock + config.lifetime, None)];
      issued := issued + [Issue(user, parent, chain)];
      next := next + 1;
    }

    method IssueSessionTokens(user: Id, config: Config) returns (token: nat)
      requires Valid()
      modifies this
      ensures Valid() && View() == Apply(old(View()), Login(user), config)
      ensures token !in old(rows) && Validate(View(), token).Ok?
    {
      StepKeeps(View(), Login(user), config);
      assert next in rows ==> RowFits(View(), next);
      token := CreateAndStore(user, None, next, config);
    }

    method RotateRefreshToken(token: nat, config: Config) returns (successor: nat)
      requires Valid() && Validate(View(), token).Ok?
      modifies this
      ensures Valid() && View() == Apply(old(View()), Refresh(token, true), config)
      ensures successor == old(next)
    {
      StepKeeps(View(), Refresh(token, true), config);
      assert RowFits(View(), token);
      var user := rows[token].user;
      rows := rows[token := Revoked(rows[token], clock)];
      successor := CreateAndStore(user, Some(token), issued[token].chain, config);
    }

    method RefreshAccessToken(token: nat, active: bool, config: Config) returns (result: Result<nat>)
      requires Valid()
      modifies this
      ensures Valid() && View() == Apply(old(View()), Refresh(token, active), config)
      ensures result.Ok? <==> old(Validate(View(), token)).Ok? && active
      ensures result.Ok? ==> result.value == |old(issued)|
    {
      var stored := ValidateRefreshToken(token);
      if stored.Err? || !active {
        return Err(Unauthorised);
      }
      var successor := RotateRefreshToken(token, config);
      return Ok(successor);
    }

    method LogOut(token: nat, ghost config: Config) returns (result: Result<()>)
      requires Valid()
      modifies this`rows
      ensures Valid()
      ensures result.Ok? <==> old(Validate(View(), token)).Ok?
      ensures View() == if result.Ok? then Apply(old(View()), Logout(token), config) else old(View())
    {
      var stored := ValidateRefreshToken(token);
      if stored.Err? {
        return Err(Unauthorised);
      }
      StepKeeps(View(), Logout(token), config);
      rows := rows[token := Revoked(rows[token], clock)];
      return Ok(());
    }

    /** The query of revoke-all: the user's unrevoked rows, without locks. */
    method SelectActive(user: Id, ghost config: Config) returns (i: nat)
      requires Valid()
      modifies this`selections
      ensures Valid() && View() == Apply(old(View()), Select(user), config)
      ensures i == |old(selections)| && i < |selections|
    {
      StepKeeps(View(), Select(user), config);
      i := |selections|;
      var tokens := set t | t in rows && rows[t].user == user && rows[t].revokedAt.None?;
      selections := selections + [Selection(user, tokens, clock, next)];
      assert tokens == SelectFor(old(View()), user).tokens;
    }

    /** Its writes, row by row. */
    method WriteRevoked(i: nat, ghost config: Config)
      requires Valid() && i < |selections|
      modifies this`rows
      ensures Valid() && View() == Apply(old(View()), Write(i), config)
    {
      StepKeeps(View(), Write(i), config);
      var sel := selections[i];
      var present := set t | t in rows && t in sel.tokens;
      rows := RevokeEach(rows, present, sel.at);
      assert rows == RevokeRows(old(rows), sel.tokens, sel.at);
    }

    /** Both parts with nothing in between: no unrevoked row of the user is left, and nobody else's row is
        touched. */
    method RevokeAllForUser(user: Id, ghost config: Config) returns (count: nat)
      requires Valid()
      modifies this`rows, this`selections
      ensures Valid()
      ensures View() == Apply(Apply(old(View()), Select(user), config), Write(|old(selections)|), config)
      ensures count == |set t | t in old(rows) && old(rows)[t].user == user && old(rows)[t].revokedAt.None?|
      ensures forall t | t in rows :: !ActiveRow(rows[t], user)
      ensures forall t | t in old(rows) && old(rows)[t].user != user :: t in rows && rows[t] == old(rows)[t]
    {
      var i := SelectActive(user, config);
      count := |selections[i].tokens|;
      assert selections[i].tokens ==
             set t | t in old(rows) && old(rows)[t].user == user && old(rows)[t].revokedAt.None?;
      WriteRevoked(i, config);
    }

    /** `cleanup_refresh_tokens`: first the expired rows, then those revoked longer ago than the
        retention. */
    method CleanUp(config: Config) returns (expired: nat, revoked: nat)
      requires Valid()
      modifies this`rows
      ensures Valid() && View() == Apply(old(View()), Cleanup, config)
      ensures forall t :: t in rows <==>
        && t in old(rows) && clock <= old(rows)[t].expiresAt
        && (old(rows)[t].revokedAt.Some? ==> clock - config.retention <= old(rows)[t].revokedAt.value)
      ensures forall t | t in rows :: rows[t] == old(rows)[t]
      ensures expired + revoked + |rows| == |old(rows)|
    {
      StepKeeps(View(), Cleanup, config);
      rows, expired, revoked := CleanRows(rows, clock, config.retention);
    }
  }

  /** Both deletions together leave the rows that are kept. */
  lemma TwoDeletions(rows: map<nat, Row>, now: int, retention: nat, after: map<nat, Row>, second: set<nat>)
    requires forall t :: t in after <==> t in rows && rows[t].expiresAt >= now
    requires forall t | t in after :: after[t] == rows[t]
    requires forall t :: t in second <==>
      t in after && after[t].revokedAt.Some? && after[t].revokedAt.value < now - retention
    ensures after - second == Kept(rows, now, retention)
  {
    assert (after - second).Keys == Kept(rows, now, retention).Keys;
  }

  method CleanRows(rows: map<nat, Row>, now: int, retention: nat)
    returns (after: map<nat, Row>, expired: nat, revoked: nat)
    ensures after == Kept(rows, now, retention)
    ensures expired + revoked + |after| == |rows|
  {
    var left;
    left, expired := DeleteExpired(rows, now);
    var tokens := set t | t in left && left[t].revokedAt.Some? && left[t].revokedAt.value < now - retention;
    revoked := |tokens|;
    after := DeleteEach(left, tokens);
    TwoDeletions(rows, now, retention, left, tokens);
  }

  method DeleteExpired(rows: map<nat, Row>, now: int) returns (after: map<nat, Row>, count: nat)
    ensures forall t :: t in after <==> t in rows && rows[t].expiresAt >= now
    ensures forall t | t in after :: after[t] == rows[t]
    ensures count + |after| == |rows|
  {
    var tokens := set t | t in rows && rows[t].expiresAt < now;
    count := |tokens|;
    after := DeleteEach(rows, tokens);
  }

  method RevokeEach(rows: map<nat, Row>, tokens: set<nat>, at: int) returns (after: map<nat, Row>)
    requires tokens <= rows.Keys
    ensures after == map t | t in rows :: if t in tokens then Revoked(rows[t], at) else rows[t]
  {
    after := rows;
    var todo := tokens;
    while todo != {}
      invariant todo <= tokens
      invariant after == map t | t in rows :: if t in tokens - todo then Revoked(rows[t], at) else rows[t]
      decreases todo
    {
      var t :| t in todo;
      after := after[t := Revoked(after[t], at)];
      todo := todo - {t};
    }
  }

  lemma WithoutSize(rows: map<nat, Row>, tokens: set<nat>)
    requires tokens <= rows.Keys
    ensures |rows - tokens| + |tokens| == |rows|
  {
    var left := rows - tokens;
    assert left.Keys == rows.Keys - tokens;
    assert |left.Keys| == |left| && |rows.Keys| == |rows|;
  }

  method DeleteEach(rows: map<nat, Row>, tokens: set<nat>) returns (after: map<nat, Row>)
    requires tokens <= rows.Keys
    ensures after == rows - tokens && |after| + |tokens| == |rows|
  {
    after := rows;
    var todo := tokens;
    while todo != {}
      invariant todo <= tokens
      invariant forall t :: t in after <==> t in rows && (t in todo || t !in tokens)
      invariant forall t | t in after :: after[t] == rows[t]
      decreases todo
    {
      var t :| t in todo;
      after := after - {t};
      todo := todo - {t};
    }
    assert after == rows - tokens;
    WithoutSize(rows, tokens);
  }
}
