/** Sign-in sessions: families of one-use refresh tokens, their reuse detection, and access tokens bound
    to a session and an authentication version.  Each call is one transaction. */
module RefreshFamilies {
  import opened Options

  datatype User = User(active: bool, version: nat)

  /** `version` is the user's auth_version at sign-in. */
  datatype Family = Family(user: nat, version: nat, absolute: nat, inactivity: nat, revoked: bool)

  datatype Token = Token(family: nat, parent: Option<nat>, replacement: Option<nat>, consumed: bool, revoked: bool, expires: nat)

  datatype Tables = Tables(users: map<nat, User>, families: map<nat, Family>, tokens: map<nat, Token>)

  /** The claims of an access token. */
  datatype Claims = Claims(user: nat, family: nat, version: nat)

  datatype Policy = Policy(absolute: nat, inactivity: nat)

  datatype Call =
    | CreateUser(user: nat)
    | Login(user: nat, verified: bool, family: nat, token: nat)
    | Refresh(token: nat, replacement: nat)
    | Logout(user: nat, family: nat)
    | LogoutAll(user: nat)              // also a password change and an administrator's revocation
    | Disable(user: nat)

  datatype Reply = Granted(claims: Claims, token: nat) | Done | Refused

  datatype Outcome = Outcome(tables: Tables, reply: Reply)

  const NOBODY: Tables := Tables(map[], map[], map[])

  function Min(a: nat, b: nat): nat {
    if a <= b then a else b
  }

  function LoggedIn(s: Tables, p: Policy, user: nat, verified: bool, family: nat, token: nat, now: nat): (result: Outcome) {
    if user !in s.users || !verified || !s.users[user].active then Outcome(s, Refused)
    else
      var absolute := now + p.absolute;
      var inactivity := Min(absolute, now + p.inactivity);
      var version := s.users[user].version;
      Outcome(s.(families := s.families[family := Family(user, version, absolute, inactivity, false)],
                 tokens := s.tokens[token := Token(family, None, None, false, false, inactivity)]),
              Granted(Claims(user, family, version), token))
  }

  /** `_revoke_family` */
  function RevokedFamily(s: Tables, family: nat): (t: Tables)
    requires family in s.families
  {
    s.(families := s.families[family := s.families[family].(revoked := true)],
       tokens := map k | k in s.tokens :: if s.tokens[k].family == family then s.tokens[k].(revoked := true) else s.tokens[k])
  }

  predicate FamilyInvalid(s: Tables, family: nat, now: nat) {
    family in s.families ==>
      var f := s.families[family];
      f.revoked || f.absolute <= now || f.inactivity <= now
      || f.user !in s.users || !s.users[f.user].active || f.version != s.users[f.user].version
  }

  function Refreshed(s: Tables, p: Policy, token: nat, replacement: nat, now: nat): (result: Outcome) {
    if token !in s.tokens || s.tokens[token].family !in s.families then Outcome(s, Refused)
    else
      var record := s.tokens[token];
      var family := record.family;
      if record.consumed then Outcome(RevokedFamily(s, family), Refused)
      else if FamilyInvalid(s, family, now) || record.revoked || record.expires <= now then Outcome(RevokedFamily(s, family), Refused)
      else
        var f := s.families[family];
        var inactivity := Min(f.absolute, now + p.inactivity);
        Outcome(s.(families := s.families[family := f.(inactivity := inactivity)],
                   tokens := s.tokens[token := record.(consumed := true, replacement := Some(replacement))]
                                     [replacement := Token(family, Some(token), None, false, false, inactivity)]),
                Granted(Claims(f.user, family, s.users[f.user].version), replacement))
  }

  /** `authenticate_access` */
  predicate Accepted(s: Tables, c: Claims, now: nat) {
    && c.user in s.users && c.family in s.families
    && var f := s.families[c.family];
    && f.user == c.user && s.users[c.user].active && !f.revoked && f.absolute > now && f.inactivity > now
    && s.users[c.user].version == c.version && f.version == c.version
  }

  /** The user's version goes up and all their sessions are revoked. */
  function Bumped(s: Tables, user: nat, active: bool): (t: Tables)
    requires user in s.users
  {
    s.(users := s.users[user := User(active, s.users[user].version + 1)],
       families := map f | f in s.families :: if s.families[f].user == user then s.families[f].(revoked := true) else s.families[f])
  }

  function Served(s: Tables, p: Policy, call: Call, now: nat): (result: Outcome) {
    match call
    case CreateUser(user) => if user in s.users then Outcome(s, Refused) else Outcome(s.(users := s.users[user := User(true, 0)]), Done)
    case Login(user, verified, family, token) => LoggedIn(s, p, user, verified, family, token, now)
    case Refresh(token, replacement) => Refreshed(s, p, token, replacement, now)
    case Logout(user, family) =>
      if family in s.families && s.families[family].user == user then Outcome(RevokedFamily(s, family), Done) else Outcome(s, Done)
    case LogoutAll(user) => if user in s.users then Outcome(Bumped(s, user, s.users[user].active), Done) else Outcome(s, Refused)
    case Disable(user) => if user in s.users then Outcome(Bumped(s, user, false), Done) else Outcome(s, Refused)
  }

  /** Identifiers and tokens are drawn afresh. */
  predicate Fresh(s: Tables, call: Call) {
    match call
    case Login(_, _, family, token) => family !in s.families && token !in s.tokens
    case Refresh(_, replacement) => replacement !in s.tokens
    case _ => true
  }

  /** The service itself, statement by statement. */
  class AuthService {
    const policy: Policy
    var users: map<nat, User>
    var families: map<nat, Family>
    var tokens: map<nat, Token>

    function Now(): Tables
      reads this
    {
      Tables(users, families, tokens)
    }

    constructor (policy: Policy)
      ensures Now() == NOBODY && this.policy == policy
    {
      this.policy, users, families, tokens := policy, map[], map[], map[];
    }

    method Login(user: nat, verified: bool, family: nat, token: nat, now: nat) returns (reply: Reply)
      modifies this
      ensures Outcome(Now(), reply) == LoggedIn(old(Now()), policy, user, verified, family, token, now)
    {
      if user !in users || !verified || !users[user].active {
        return Refused;
      }
      var absolute := now + policy.absolute;
      var inactivity := Min(absolute, now + policy.inactivity);
      families := families[family := Family(user, users[user].version, absolute, inactivity, false)];
      tokens := tokens[token := Token(family, None, None, false, false, inactivity)];
      return Granted(Claims(user, family, users[user].version), token);
    }

    method RevokeFamily(family: nat)
      requires family in families
      modifies `families, `tokens
      ensures Now() == RevokedFamily(old(Now()), family)
    {
      families := families[family := families[family].(revoked := true)];
      tokens := map k | k in tokens :: if tokens[k].family == family then tokens[k].(revoked := true) else tokens[k];
    }

    /** A token that was used before ends the whole family; so does one that is no longer good. */
    method Refresh(token: nat, replacement: nat, now: nat) returns (reply: Reply)
      modifies this
      ensures Outcome(Now(), reply) == Refreshed(old(Now()), policy, token, replacement, now)
    {
      if token !in tokens || tokens[token].family !in families {
        return Refused;
      }
      var record := tokens[token];
      var family := families[record.family];
      var invalidFamily := family.revoked || family.absolute <= now || family.inactivity <= now
                           || family.user !in users || !users[family.user].active || family.version != users[family.user].version;
      if record.consumed {
        RevokeFamily(record.family);
        return Refused;
      }
      if invalidFamily || record.revoked || record.expires <= now {
        RevokeFamily(record.family);
        return Refused;
      }
      tokens := tokens[token := record.(consumed := true)];
      var inactivity := Min(family.absolute, now + policy.inactivity);
      var linked := tokens[token := tokens[token].(replacement := Some(replacement))];
      tokens := linked[replacement := Token(record.family, Some(token), None, false, false, inactivity)];
      families := families[record.family := family.(inactivity := inactivity)];
      assert tokens == old(tokens)[token := record.(consumed := true, replacement := Some(replacement))]
                                  [replacement := Token(record.family, Some(token), None, false, false, inactivity)];
      return Granted(Claims(family.user, record.family, users[family.user].version), replacement);
    }

    method AuthenticateAccess(c: Claims, now: nat) returns (accepted: bool)
      ensures accepted <==> Accepted(Now(), c, now)
      ensures accepted <==>
                && c.user in users && users[c.user].active && users[c.user].version == c.version
                && c.family in families && families[c.family].user == c.user && families[c.family].version == c.version
                && !families[c.family].revoked && now < families[c.family].absolute && now < families[c.family].inactivity
    {
      if c.user !in users || c.family !in families {
        return false;
      }
      var user, family := users[c.user], families[c.family];
      return family.user == c.user && user.active && !family.revoked && family.absolute > now && family.inactivity > now
             && user.version == c.version && family.version == c.version;
    }

    method Logout(user: nat, family: nat)
      modifies `families, `tokens
      ensures Now() == if family in old(families) && old(families)[family].user == user then RevokedFamily(old(Now()), family) else old(Now())
    {
      if family in families && families[family].user == user {
        RevokeFamily(family);
      }
    }

    /** logout_all, change_password and revoke_sessions; with `disable`, disable_user. */
    method EndSessions(user: nat, disable: bool)
      requires user in users
      modifies `users, `families
      ensures Now() == Bumped(old(Now()), user, old(users)[user].active && !disable)
    {
      var row := users[user];
      if disable {
        row := row.(active := false);
      }
      row := row.(version := row.version + 1);
      users := users[user := row];
      families := map f | f in families :: if families[f].user == user then families[f].(revoked := true) else families[f];
    }
  }

  /* What every call keeps. */

  /** The tokens of family f, oldest first: each was replaced by the next, and only the last is unused. */
  ghost predicate Chain(s: Tables, f: nat, chain: seq<nat>) {
    && chain != []
    && (forall k | 0 <= k < |chain| :: ChainLink(s, f, chain, k))
    && (forall j, k | 0 <= j < k < |chain| :: chain[j] != chain[k])
    && (forall t | t in s.tokens && s.tokens[t].family == f :: t in chain)
  }

  ghost predicate ChainLink(s: Tables, f: nat, chain: seq<nat>, k: nat)
    requires k < |chain|
  {
    && chain[k] in s.tokens && s.tokens[chain[k]].family == f
    && s.tokens[chain[k]].parent == (if k == 0 then None else Some(chain[k - 1]))
    && s.tokens[chain[k]].replacement == (if k + 1 < |chain| then Some(chain[k + 1]) else None)
    && (s.tokens[chain[k]].consumed <==> k + 1 < |chain|)
  }

  ghost predicate Inv(s: Tables) {
    && (forall f | f in s.families :: (exists chain :: Chain(s, f, chain)) && s.families[f].user in s.users && s.families[f].version <= s.users[s.families[f].user].version)
    && (forall t | t in s.tokens :: s.tokens[t].family in s.families)
  }

  lemma NobodyInv()
    ensures Inv(NOBODY)
  {
  }

  /** A change that leaves links alone leaves chains alone. */
  lemma SameChain(s: Tables, t: Tables, f: nat, chain: seq<nat>)
    requires Chain(s, f, chain)
    requires forall k | k in s.tokens && s.tokens[k].family == f ::
               k in t.tokens && t.tokens[k].(revoked := s.tokens[k].revoked) == s.tokens[k]
    requires forall k | k in t.tokens && t.tokens[k].family == f :: k in s.tokens && s.tokens[k].family == f
    ensures Chain(t, f, chain)
  {
    forall k | 0 <= k < |chain| ensures ChainLink(t, f, chain, k) {
      assert ChainLink(s, f, chain, k);
    }
  }

  lemma LoginKeepsInv(s: Tables, p: Policy, user: nat, verified: bool, family: nat, token: nat, now: nat)
    requires Inv(s) && family !in s.families && token !in s.tokens
    ensures Inv(LoggedIn(s, p, user, verified, family, token, now).tables)
  {
    var t := LoggedIn(s, p, user, verified, family, token, now).tables;
    if t != s {
      forall f | f in t.families ensures exists chain :: Chain(t, f, chain) {
        if f == family {
          assert ChainLink(t, f, [token], 0);
          assert Chain(t, f, [token]);
        } else {
          var chain :| Chain(s, f, chain);
          SameChain(s, t, f, chain);
        }
      }
    }
  }

  lemma RevokeKeepsInv(s: Tables, family: nat)
    requires Inv(s) && family in s.families
    ensures Inv(RevokedFamily(s, family))
  {
    var t := RevokedFamily(s, family);
    forall f | f in t.families ensures exists chain :: Chain(t, f, chain) {
      var chain :| Chain(s, f, chain);
      SameChain(s, t, f, chain);
    }
  }

  /** The tokens after a granted refresh. */
  predicate Rotated(s: Tables, t: Tables, token: nat, replacement: nat) {
    && token in s.tokens && replacement !in s.tokens && replacement in t.tokens && !s.tokens[token].consumed
    && t.tokens.Keys == s.tokens.Keys + {replacement}
    && (forall k | k in s.tokens && k != token :: t.tokens[k] == s.tokens[k])
    && t.tokens[token] == s.tokens[token].(consumed := true, replacement := Some(replacement))
    && t.tokens[replacement] == Token(s.tokens[token].family, Some(token), None, false, false, t.tokens[replacement].expires)
  }

  lemma GrantRotates(s: Tables, p: Policy, token: nat, replacement: nat, now: nat)
    requires replacement !in s.tokens && Refreshed(s, p, token, replacement, now).reply.Granted?
    ensures Rotated(s, Refreshed(s, p, token, replacement, now).tables, token, replacement)
  {
  }

  /** An unused token is the last of its chain. */
  lemma UnusedIsLast(s: Tables, f: nat, chain: seq<nat>, token: nat)
    requires Chain(s, f, chain) && token in s.tokens && s.tokens[token].family == f
    ensures !s.tokens[token].consumed <==> token == chain[|chain| - 1]
  {
    var k :| 0 <= k < |chain| && chain[k] == token;
    assert ChainLink(s, f, chain, k);
  }

  lemma LinkGrows(s: Tables, t: Tables, f: nat, chain: seq<nat>, token: nat, replacement: nat, j: nat)
    requires Rotated(s, t, token, replacement) && chain != [] && token == chain[|chain| - 1] && s.tokens[token].family == f
    requires j < |chain| && ChainLink(s, f, chain, j) && (chain[j] == token <==> j == |chain| - 1)
    ensures chain[j] != replacement && ChainLink(t, f, chain + [replacement], j)
  {
  }

  lemma ChainGrows(s: Tables, t: Tables, f: nat, chain: seq<nat>, token: nat, replacement: nat)
    requires Rotated(s, t, token, replacement) && s.tokens[token].family == f && Chain(s, f, chain)
    ensures Chain(t, f, chain + [replacement])
  {
    hide ChainLink;
    var longer, n := chain + [replacement], |chain|;
    UnusedIsLast(s, f, chain, token);
    forall j | 0 <= j < n ensures chain[j] != replacement && ChainLink(t, f, longer, j) {
      LinkGrows(s, t, f, chain, token, replacement, j);
    }
    LastLink(s, t, f, chain, token, replacement);
    forall u | u in t.tokens && t.tokens[u].family == f ensures u in longer {
      assert u == replacement || u in chain;
    }
  }

  lemma LastLink(s: Tables, t: Tables, f: nat, chain: seq<nat>, token: nat, replacement: nat)
    requires Rotated(s, t, token, replacement) && chain != [] && token == chain[|chain| - 1] && s.tokens[token].family == f
    ensures ChainLink(t, f, chain + [replacement], |chain|)
  {
  }

  lemma RefreshKeepsInv(s: Tables, p: Policy, token: nat, replacement: nat, now: nat)
    requires Inv(s) && replacement !in s.tokens
    ensures Inv(Refreshed(s, p, token, replacement, now).tables)
  {
    var result := Refreshed(s, p, token, replacement, now);
    if result.reply.Granted? {
      GrantRotates(s, p, token, replacement, now);
      var t, family := result.tables, s.tokens[token].family;
      forall f | f in t.families ensures exists chain :: Chain(t, f, chain) {
        var chain :| Chain(s, f, chain);
        if f == family {
          ChainGrows(s, t, f, chain, token, replacement);
        } else {
          SameChain(s, t, f, chain);
        }
      }
    } else if result.tables != s {
      RevokeKeepsInv(s, s.tokens[token].family);
    }
  }

  lemma BumpKeepsInv(s: Tables, user: nat, active: bool)
    requires Inv(s) && user in s.users
    ensures Inv(Bumped(s, user, active))
  {
    var t := Bumped(s, user, active);
    forall f | f in t.families ensures exists chain :: Chain(t, f, chain) {
      var chain :| Chain(s, f, chain);
      SameChain(s, t, f, chain);
    }
  }

  lemma CreateKeepsInv(s: Tables, p: Policy, user: nat, now: nat)
    requires Inv(s)
    ensures Inv(Served(s, p, CreateUser(user), now).tables)
  {
    var t := Served(s, p, CreateUser(user), now).tables;
    forall f | f in t.families ensures exists chain :: Chain(t, f, chain) {
      var chain :| Chain(s, f, chain);
      SameChain(s, t, f, chain);
    }
  }

  /** Every call keeps the invariant. */
  lemma ServeKeepsInv(s: Tables, p: Policy, call: Call, now: nat)
    requires Inv(s) && Fresh(s, call)
    ensures Inv(Served(s, p, call, now).tables)
  {
    hide Inv;
    match call
    case CreateUser(user) => CreateKeepsInv(s, p, user, now);
    case Login(user, verified, family, token) => LoginKeepsInv(s, p, user, verified, family, token, now);
    case Refresh(token, replacement) => RefreshKeepsInv(s, p, token, replacement, now);
    case Logout(user, family) =>
      if family in s.families {
        RevokeKeepsInv(s, family);
      }
    case LogoutAll(user) =>
      if user in s.users {
        BumpKeepsInv(s, user, s.users[user].active);
      }
    case Disable(user) =>
      if user in s.users {
        BumpKeepsInv(s, user, false);
      }
  }

  /** A call and the time it runs at. */
  datatype Timed = Timed(call: Call, now: nat)

  ghost predicate LegalCalls(s: Tables, p: Policy, calls: seq<Timed>)
    decreases |calls|
  {
    calls != [] ==> Fresh(s, calls[0].call) && LegalCalls(Served(s, p, calls[0].call, calls[0].now).tables, p, calls[1..])
  }

  ghost function After(s: Tables, p: Policy, calls: seq<Timed>): (t: Tables)
    decreases |calls|
  {
    if calls == [] then s else After(Served(s, p, calls[0].call, calls[0].now).tables, p, calls[1..])
  }

  lemma {:induction false} CallsKeepInv(s: Tables, p: Policy, calls: seq<Timed>)
    requires Inv(s) && LegalCalls(s, p, calls)
    ensures Inv(After(s, p, calls))
    decreases |calls|
  {
    hide Inv, Served, Fresh;
    if calls != [] {
      ServeKeepsInv(s, p, calls[0].call, calls[0].now);
      CallsKeepInv(Served(s, p, calls[0].call, calls[0].now).tables, p, calls[1..]);
    }
  }

  /** In every run the tokens of a family form one chain of replacements, and a token is unused exactly
      when it is the chain's last. */
  lemma OneChainPerFamily(p: Policy, calls: seq<Timed>, f: nat) returns (chain: seq<nat>)
    requires LegalCalls(NOBODY, p, calls) && f in After(NOBODY, p, calls).families
    ensures Chain(After(NOBODY, p, calls), f, chain)
    ensures forall t | t in After(NOBODY, p, calls).tokens && After(NOBODY, p, calls).tokens[t].family == f ::
              !After(NOBODY, p, calls).tokens[t].consumed <==> t == chain[|chain| - 1]
  {
    NobodyInv();
    CallsKeepInv(NOBODY, p, calls);
    var s := After(NOBODY, p, calls);
    hide After, LegalCalls;
    chain :| Chain(s, f, chain);
    forall t | t in s.tokens && s.tokens[t].family == f ensures !s.tokens[t].consumed <==> t == chain[|chain| - 1] {
      UnusedIsLast(s, f, chain, t);
    }
  }

  /* What cannot be undone. */

  /** The family is over. */
  ghost predicate Dead(s: Tables, f: nat) {
    f in s.families && s.families[f].revoked
  }

  lemma DeadStays(s: Tables, p: Policy, call: Call, now: nat, f: nat)
    requires Dead(s, f) && Fresh(s, call)
    ensures Dead(Served(s, p, call, now).tables, f)
  {
  }

  lemma {:induction false} DeadForever(s: Tables, p: Policy, calls: seq<Timed>, f: nat)
    requires Dead(s, f) && LegalCalls(s, p, calls)
    ensures Dead(After(s, p, calls), f)
    decreases |calls|
  {
    hide Dead, Served, Fresh;
    if calls != [] {
      DeadStays(s, p, calls[0].call, calls[0].now, f);
      DeadForever(Served(s, p, calls[0].call, calls[0].now).tables, p, calls[1..], f);
    }
  }

  /** Whoever presents a token for the second time - its thief or its owner - ends the family for both:
      from then on no token of the family refreshes and no access token of it authenticates. */
  lemma ReuseEndsFamily(s: Tables, p: Policy, token: nat, replacement: nat, now: nat, calls: seq<Timed>, other: nat, drawn: nat, claims: Claims, later: nat)
    requires token in s.tokens && s.tokens[token].consumed && s.tokens[token].family in s.families
    requires LegalCalls(Refreshed(s, p, token, replacement, now).tables, p, calls)
    ensures var t := After(Refreshed(s, p, token, replacement, now).tables, p, calls);
            && (other in t.tokens && t.tokens[other].family == s.tokens[token].family ==> Refreshed(t, p, other, drawn, later).reply == Refused)
            && (claims.family == s.tokens[token].family ==> !Accepted(t, claims, later))
  {
    var after := Refreshed(s, p, token, replacement, now).tables;
    DeadForever(after, p, calls, s.tokens[token].family);
    hide LegalCalls, After;
  }

  lemma VersionsOnlyRise(s: Tables, p: Policy, call: Call, now: nat, user: nat)
    requires user in s.users
    ensures user in Served(s, p, call, now).tables.users
    ensures Served(s, p, call, now).tables.users[user].version >= s.users[user].version
    ensures forall f | f in s.families && Fresh(s, call) ::
              f in Served(s, p, call, now).tables.families
              && Served(s, p, call, now).tables.families[f].user == s.families[f].user
              && Served(s, p, call, now).tables.families[f].version == s.families[f].version
  {
  }

  lemma {:induction false} VersionsRise(s: Tables, p: Policy, calls: seq<Timed>, user: nat)
    requires user in s.users && LegalCalls(s, p, calls)
    ensures user in After(s, p, calls).users && After(s, p, calls).users[user].version >= s.users[user].version
    ensures forall f | f in s.families ::
              f in After(s, p, calls).families && After(s, p, calls).families[f].user == s.families[f].user
              && After(s, p, calls).families[f].version == s.families[f].version
    decreases |calls|
  {
    hide Served, Fresh;
    if calls != [] {
      VersionsOnlyRise(s, p, calls[0].call, calls[0].now, user);
      VersionsRise(Served(s, p, calls[0].call, calls[0].now).tables, p, calls[1..], user);
    }
  }

  /** After the user's version was raised, nothing issued before is ever accepted again: no access token
      with an older version authenticates, and no token of a family signed in before refreshes. */
  lemma RaiseEndsEverythingBefore(s: Tables, p: Policy, user: nat, active: bool, calls: seq<Timed>, claims: Claims, token: nat, drawn: nat, later: nat)
    requires Inv(s) && user in s.users && LegalCalls(Bumped(s, user, active), p, calls)
    ensures var t := After(Bumped(s, user, active), p, calls);
            && (claims.user == user && claims.version <= s.users[user].version ==> !Accepted(t, claims, later))
            && (token in t.tokens && t.tokens[token].family in s.families && s.families[t.tokens[token].family].user == user ==>
                  Refreshed(t, p, token, drawn, later).reply == Refused)
  {
    VersionsRise(Bumped(s, user, active), p, calls, user);
    hide LegalCalls, After;
  }
}
