/** Refresh-token rotation: tokens live in a table by the hash of their value, each refresh
    revokes one and issues another. */
module RefreshTokens {
  import opened Wrappers
  import opened Sums

  /** A stored token. Its place in the table stands for the hash of its value; the login it
      descends from is not a column, but follows it through the rotations. */
  datatype Token = Token(user: int, expiresAt: int, revoked: bool, login: nat)

  type Table = seq<Token>

  datatype Error = Required | Invalid | Revoked | Expired | UserGone

  predicate Known(table: Table, token: int) {
    0 <= token < |table|
  }

  function Revoke(table: Table, token: int): Table
    requires Known(table, token)
  {
    table[token := table[token].(revoked := true)]
  }

  /** refresh(): the checks in order, then revoke, then issue, unless the user is gone by then. */
  function Refresh(table: Table, token: Option<int>, userExists: bool, now: int, ttl: int): (Table, Result<int, Error>) {
    if token.None? then (table, Failure(Required))
    else if !Known(table, token.value) then (table, Failure(Invalid))
    else
      var stored := table[token.value];
      if stored.revoked then (table, Failure(Revoked))
      else if stored.expiresAt < now then (table, Failure(Expired))
      else
        var rotated := Revoke(table, token.value);
        if !userExists then (rotated, Failure(UserGone))
        else (rotated + [Token(stored.user, now + ttl, false, stored.login)], Success(|rotated|))
  }

  function Logout(table: Table, token: Option<int>): Table {
    if token.Some? && Known(table, token.value) && !table[token.value].revoked
    then Revoke(table, token.value) else table
  }

  class AuthService {
    var table: Table
    var logins: nat
    const ttl: int

    constructor (ttl: int)
      ensures table == [] && logins == 0 && this.ttl == ttl
    {
      table, logins, this.ttl := [], 0, ttl;
    }

    /** _issueTokenPair: stores a new unrevoked token and returns it. */
    method Issue(user: int, login: nat, now: int) returns (token: int)
      modifies this`table
      ensures table == old(table) + [Token(user, now + ttl, false, login)] && token == |old(table)|
    {
      token := |table|;
      table := table + [Token(user, now + ttl, false, login)];
    }

    method Login(user: int, validPassword: bool, now: int) returns (token: Option<int>)
      modifies this
      ensures if validPassword
              then table == old(table) + [Token(user, now + ttl, false, old(logins))]
                   && logins == old(logins) + 1 && token == Some(|old(table)|)
              else table == old(table) && logins == old(logins) && token == None
      ensures Service(table, logins, []) ==
              Perform(Service(old(table), old(logins), []), DoLogin(user, validPassword, now), ttl)
    {
      if !validPassword {
        return None;
      }
      var t := Issue(user, logins, now);
      logins := logins + 1;
      token := Some(t);
    }

    method RefreshToken(token: Option<int>, userExists: bool, now: int) returns (result: Result<int, Error>)
      modifies this`table
      ensures Service(table, logins, if token.Some? && result.Success? then [token.value] else []) ==
              Perform(Service(old(table), logins, []), DoRefresh(token, userExists, now), ttl)
      ensures token.None? || !Known(old(table), token.value) ==>
                table == old(table) && result == Failure(if token.None? then Required else Invalid)
      ensures token.Some? && Known(old(table), token.value) ==>
                var was := old(table)[token.value];
                var spent := old(table)[token.value := was.(revoked := true)];
                && (was.revoked ==> table == old(table) && result == Failure(Revoked))
                && (!was.revoked && now > was.expiresAt ==> table == old(table) && result == Failure(Expired))
                && (!was.revoked && now <= was.expiresAt && !userExists ==>
                      table == spent && result == Failure(UserGone))
                && (!was.revoked && now <= was.expiresAt && userExists ==>
                      && table == spent + [Token(was.user, now + ttl, false, was.login)]
                      && result == Success(|old(table)|))
    {
      if token.None? { return Failure(Required); }
      var id := token.value;
      if !(0 <= id < |table|) { return Failure(Invalid); }
      var stored := table[id];
      if stored.revoked { return Failure(Revoked); }
      if stored.expiresAt < now { return Failure(Expired); }
      table := table[id := stored.(revoked := true)];
      if !userExists { return Failure(UserGone); }
      var next := Issue(stored.user, stored.login, now);
      result := Success(next);
    }

    method LogoutToken(token: Option<int>)
      modifies this`table
      ensures Service(table, logins, []) == Perform(Service(old(table), logins, []), DoLogout(token), ttl)
      ensures |table| == |old(table)|
      ensures forall i :: 0 <= i < |table| ==>
                table[i] == old(table)[i].(revoked := old(table)[i].revoked || token == Some(i))
    {
      if token.Some? && 0 <= token.value < |table| && !table[token.value].revoked {
        table := table[token.value := table[token.value].(revoked := true)];
      }
    }
  }

  // ---------- runs ----------

  datatype Call =
    | DoLogin(user: int, validPassword: bool, now: int)
    | DoRefresh(token: Option<int>, userExists: bool, now: int)
    | DoLogout(token: Option<int>)

  /** The service after some calls, and the tokens that were exchanged for a new one. */
  datatype Service = Service(table: Table, logins: nat, exchanged: seq<int>)

  function Perform(s: Service, call: Call, ttl: int): Service {
    match call
    case DoLogin(user, ok, now) =>
      if ok then s.(table := s.table + [Token(user, now + ttl, false, s.logins)], logins := s.logins + 1) else s
    case DoRefresh(token, userExists, now) =>
      var (table, result) := Refresh(s.table, token, userExists, now, ttl);
      s.(table := table, exchanged := if result.Success? then s.exchanged + [token.value] else s.exchanged)
    case DoLogout(token) => s.(table := Logout(s.table, token))
  }

  function PerformAll(s: Service, calls: seq<Call>, ttl: int): Service
    decreases |calls|
  {
    if calls == [] then s else PerformAll(Perform(s, calls[0], ttl), calls[1..], ttl)
  }

  function Live(): Token -> int {
    (t: Token) => if t.revoked then 0 else 1
  }

  function LiveIn(login: nat): Token -> int {
    (t: Token) => if !t.revoked && t.login == login then 1 else 0
  }

  /** Tokens are only added, and a revoked one stays revoked. */
  predicate Grows(before: Table, after: Table) {
    && |before| <= |after|
    && forall i :: 0 <= i < |before| ==>
         after[i] == before[i] || after[i] == before[i].(revoked := true)
  }

  predicate Rotating(s: Service, login: nat, token: int) {
    && (login < s.logins ==> Sum(LiveIn(login), s.table) <= 1)
    && (login >= s.logins ==> Sum(LiveIn(login), s.table) == 0)
    && (forall t :: t in s.table ==> t.login < s.logins)
    && Sum(Live(), s.table) <= s.logins
    && Count(s.exchanged, token) <= (if Known(s.table, token) && s.table[token].revoked then 1 else 0)
  }

  lemma RevokeRotates(s: Service, id: int, login: nat, token: int)
    requires Rotating(s, login, token) && Known(s.table, id) && !s.table[id].revoked
    ensures Rotating(s.(table := Revoke(s.table, id)), login, token)
    ensures Sum(Live(), Revoke(s.table, id)) == Sum(Live(), s.table) - 1
    ensures s.table[id].login == login ==> Sum(LiveIn(login), Revoke(s.table, id)) == 0
    ensures id == token ==> Count(s.exchanged, token) == 0
    ensures Grows(s.table, Revoke(s.table, id))
  {
    var gone := s.table[id].(revoked := true);
    SumUpdate(Live(), s.table, id, gone);
    SumUpdate(LiveIn(login), s.table, id, gone);
    assert s.table[id] in s.table;
    SumNonNegative(LiveIn(login), s.table);
    SumNonNegative(LiveIn(login), Revoke(s.table, id));
  }

  /** Issuing a token for a login that has no live one, and for the exchange of one revoked. */
  lemma IssueRotates(s: Service, issued: Token, exchanged: seq<int>, logins: nat, login: nat, token: int)
    requires Rotating(s, login, token) && !issued.revoked && issued.login < logins && s.logins <= logins
    requires Sum(Live(), s.table) < logins
    requires issued.login == login ==> Sum(LiveIn(login), s.table) == 0
    requires logins == s.logins || issued.login == s.logins == logins - 1
    requires Count(exchanged, token) <= if Known(s.table, token) && s.table[token].revoked then 1 else 0
    ensures Rotating(Service(s.table + [issued], logins, exchanged), login, token)
    ensures Grows(s.table, s.table + [issued])
  {
    SumAppend(Live(), s.table, issued);
    SumAppend(LiveIn(login), s.table, issued);
  }

  lemma RefreshRotates(s: Service, id: int, userExists: bool, now: int, ttl: int, login: nat, token: int)
    requires Rotating(s, login, token) && Known(s.table, id) && !s.table[id].revoked && now <= s.table[id].expiresAt
    ensures var t := Perform(s, DoRefresh(Some(id), userExists, now), ttl);
            Rotating(t, login, token) && Grows(s.table, t.table)
  {
    var stored := s.table[id];
    assert stored in s.table;
    RevokeRotates(s, id, login, token);
    var rotated := s.(table := Revoke(s.table, id));
    if userExists {
      CountAppend(s.exchanged, id, token);
      IssueRotates(rotated, Token(stored.user, now + ttl, false, stored.login), s.exchanged + [id],
                   s.logins, login, token);
      GrowsTransitive(s.table, rotated.table, Perform(s, DoRefresh(Some(id), userExists, now), ttl).table);
    }
  }

  lemma PerformRotates(s: Service, call: Call, ttl: int, login: nat, token: int)
    requires Rotating(s, login, token)
    ensures Rotating(Perform(s, call, ttl), login, token)
    ensures Grows(s.table, Perform(s, call, ttl).table)
  {
    match call
    case DoLogin(user, ok, now) =>
      if ok {
        IssueRotates(s, Token(user, now + ttl, false, s.logins), s.exchanged, s.logins + 1, login, token);
      }
    case DoRefresh(t, userExists, now) =>
      if t.Some? && Known(s.table, t.value) && !s.table[t.value].revoked && !(s.table[t.value].expiresAt < now) {
        RefreshRotates(s, t.value, userExists, now, ttl, login, token);
      }
    case DoLogout(t) =>
      if t.Some? && Known(s.table, t.value) && !s.table[t.value].revoked {
        RevokeRotates(s, t.value, login, token);
      }
  }

  lemma {:induction false} AllCallsRotate(s: Service, calls: seq<Call>, ttl: int, login: nat, token: int)
    requires Rotating(s, login, token)
    ensures Rotating(PerformAll(s, calls, ttl), login, token)
    ensures Grows(s.table, PerformAll(s, calls, ttl).table)
    decreases |calls|
  {
    if calls != [] {
      PerformRotates(s, calls[0], ttl, login, token);
      AllCallsRotate(Perform(s, calls[0], ttl), calls[1..], ttl, login, token);
      GrowsTransitive(s.table, Perform(s, calls[0], ttl).table, PerformAll(s, calls, ttl).table);
    }
  }

  lemma GrowsTransitive(a: Table, b: Table, c: Table)
    requires Grows(a, b) && Grows(b, c)
    ensures Grows(a, c)
  {
  }

  const NOBODY := Service([], 0, [])

  /** Over every serial run of calls: a stored token is exchanged at most once, the tokens
      descending from one login hold at most one that is not revoked, unrevoked tokens never
      outnumber logins, and the calls that follow never undo a revocation. */
  lemma RefreshLineages(before: seq<Call>, after: seq<Call>, ttl: int, login: nat, token: int)
    ensures var s := PerformAll(NOBODY, before, ttl);
            var t := PerformAll(s, after, ttl);
            && Count(t.exchanged, token) <= 1
            && Sum(LiveIn(login), t.table) <= 1
            && Sum(Live(), t.table) <= t.logins
            && (Known(s.table, token) && s.table[token].revoked ==>
                  Known(t.table, token) && t.table[token] == s.table[token])
  {
    AllCallsRotate(NOBODY, before, ttl, login, token);
    AllCallsRotate(PerformAll(NOBODY, before, ttl), after, ttl, login, token);
  }

  /** A token logged out is revoked, and no later call revives it or exchanges it for a new one. */
  lemma LogoutIsFinal(s: Service, after: seq<Call>, ttl: int, token: int)
    requires Known(s.table, token)
    ensures var t := PerformAll(Perform(s, DoLogout(Some(token)), ttl), after, ttl);
            && Known(t.table, token) && t.table[token] == s.table[token].(revoked := true)
            && Count(t.exchanged, token) == Count(s.exchanged, token)
  {
    RevokedStays(Perform(s, DoLogout(Some(token)), ttl), after, ttl, token);
  }

  lemma {:induction false} RevokedStays(s: Service, calls: seq<Call>, ttl: int, token: int)
    requires Known(s.table, token) && s.table[token].revoked
    ensures var t := PerformAll(s, calls, ttl);
            && Known(t.table, token) && t.table[token] == s.table[token]
            && Count(t.exchanged, token) == Count(s.exchanged, token)
    decreases |calls|
  {
    if calls != [] {
      RevokedStaysOnce(s, calls[0], ttl, token);
      RevokedStays(Perform(s, calls[0], ttl), calls[1..], ttl, token);
    }
  }

  lemma RevokedStaysOnce(s: Service, call: Call, ttl: int, token: int)
    requires Known(s.table, token) && s.table[token].revoked
    ensures var t := Perform(s, call, ttl);
            && Known(t.table, token) && t.table[token] == s.table[token]
            && Count(t.exchanged, token) == Count(s.exchanged, token)
  {
    if call.DoRefresh? && call.token.Some? {
      CountAppend(s.exchanged, call.token.value, token);
    }
  }

  // ---------- what reuse of a rotated token does ----------

  /** Every call presents this one token, by whomever and whenever. */
  predicate AllPresent(calls: seq<Call>, token: int) {
    forall i :: 0 <= i < |calls| ==> calls[i].DoRefresh? && calls[i].token == Some(token)
  }

  lemma {:induction false} ReuseChangesNothing(s: Service, calls: seq<Call>, ttl: int, token: int)
    requires Known(s.table, token) && s.table[token].revoked && AllPresent(calls, token)
    ensures PerformAll(s, calls, ttl) == s
    decreases |calls|
  {
    if calls != [] {
      assert calls[0].DoRefresh?;
      ReuseChangesNothing(s, calls[1..], ttl, token);
    }
  }

  /** Reuse revokes nothing: after a token has been exchanged it can be presented any number of
      times, and the token it was exchanged for is still there, live and of the same login. */
  lemma DescendantSurvivesReuse(s: Service, token: int, now: int, reuse: seq<Call>, ttl: int)
    requires Known(s.table, token) && !s.table[token].revoked && now <= s.table[token].expiresAt
    requires AllPresent(reuse, token)
    ensures var spent := s.table[token];
            PerformAll(s, [DoRefresh(Some(token), true, now)] + reuse, ttl).table ==
            s.table[token := spent.(revoked := true)] + [Token(spent.user, now + ttl, false, spent.login)]
  {
    var calls := [DoRefresh(Some(token), true, now)] + reuse;
    var t := Perform(s, calls[0], ttl);
    assert calls[1..] == reuse;
    ReuseChangesNothing(t, reuse, ttl, token);
  }
}
