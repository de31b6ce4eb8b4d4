/** Refreshes interleaved: each locks the row of the token it was given, reads the session and its user
    without a lock, and writes the session only while its version column is still the one it read. */
module RefreshInterleaving {
  import opened Options
  import opened RefreshFamilies

  /** A refresh: the token presented, the one that may replace it, and the time read at the start. */
  datatype Ask = Ask(token: nat, replacement: nat, now: nat)

  /** A session row as it was read, and its version column. */
  datatype Copy = Copy(row: Family, version: nat)

  datatype Txn =
    | Begun(ask: Ask)
    | Locked(ask: Ask, record: Token)                                         // the token's row is locked
    | Loaded(ask: Ask, record: Token, copy: Copy)
    | Viewed(ask: Ask, record: Token, copy: Copy, user: User)
    | Swept(ask: Ask, record: Token, copy: Copy, user: User, seen: set<nat>)  // the tokens that `_revoke_family` found

  /** `bulkRaises`: whether an update of all sessions of a user raises their version columns. */
  datatype World = World(policy: Policy, bulkRaises: bool, tables: Tables, versions: map<nat, nat>, running: map<nat, Txn>)

  /** Of the other calls each is one event. */
  datatype Event =
    | Begin(txn: nat, ask: Ask)
    | Lock(txn: nat)
    | Load(txn: nat)
    | View(txn: nat)
    | Sweep(txn: nat)
    | Commit(txn: nat)
    | Abort(txn: nat)
    | Serve(call: Call, now: nat)

  function Start(policy: Policy, bulkRaises: bool): (w: World) {
    World(policy, bulkRaises, NOBODY, map[], map[])
  }

  predicate Expired(copy: Copy, user: User, now: nat) {
    copy.row.revoked || copy.row.absolute <= now || copy.row.inactivity <= now || !user.active || copy.row.version != user.version
  }

  /** As far as the transaction has seen, its token was used before or is no longer good. */
  predicate Ends(t: Txn)
    requires t.Viewed? || t.Swept?
  {
    t.record.consumed || Expired(t.copy, t.user, t.ask.now) || t.record.revoked || t.record.expires <= t.ask.now
  }

  /** The session has not been written since it was read. */
  predicate Current(w: World, t: Txn)
    requires t.Loaded? || t.Viewed? || t.Swept?
  {
    t.record.family in w.tables.families && t.record.family in w.versions && w.versions[t.record.family] == t.copy.version
  }

  /** A session that was read as revoked is not written again, so its version is not checked. */
  predicate CanCommit(w: World, t: Txn) {
    && (t.Viewed? || t.Swept?)
    && t.ask.token in w.tables.tokens
    && (if t.Swept? then t.copy.row.revoked || Current(w, t) else !Ends(t) && Current(w, t))
  }

  /** A token that is neither stored nor drawn by a transaction in flight. */
  predicate Unclaimed(w: World, token: nat) {
    token !in w.tables.tokens && forall y | y in w.running :: w.running[y].ask.replacement != token
  }

  predicate Enabled(w: World, e: Event) {
    match e
    case Begin(x, ask) => x !in w.running && Unclaimed(w, ask.replacement)
    case Lock(x) =>
      && x in w.running && w.running[x].Begun? && w.running[x].ask.token in w.tables.tokens
      && forall y | y in w.running && !w.running[y].Begun? :: w.running[y].ask.token != w.running[x].ask.token
    case Load(x) => x in w.running && w.running[x].Locked? && w.running[x].record.family in w.tables.families && w.running[x].record.family in w.versions
    case View(x) => x in w.running && w.running[x].Loaded? && w.running[x].copy.row.user in w.tables.users
    case Sweep(x) => x in w.running && w.running[x].Viewed? && Ends(w.running[x])
    case Commit(x) => x in w.running && CanCommit(w, w.running[x])
    case Abort(x) => x in w.running
    case Serve(call, _) => !call.Refresh? && Fresh(w.tables, call) && (call.Login? ==> Unclaimed(w, call.token))
  }

  /** What the transaction leaves: of every row it changes only the columns it sets. */
  function Written(w: World, t: Txn): (s: Tables)
    requires CanCommit(w, t)
  {
    var s, f := w.tables, t.record.family;
    if t.Swept? then
      s.(families := if t.copy.row.revoked then s.families else s.families[f := s.families[f].(revoked := true)],
         tokens := map k | k in s.tokens :: if k in t.seen then s.tokens[k].(revoked := true) else s.tokens[k])
    else
      var inactivity := Min(t.copy.row.absolute, t.ask.now + w.policy.inactivity);
      s.(families := s.families[f := s.families[f].(inactivity := inactivity)],
         tokens := s.tokens[t.ask.token := s.tokens[t.ask.token].(consumed := true, replacement := Some(t.ask.replacement))]
                           [t.ask.replacement := Token(f, Some(t.ask.token), None, false, false, inactivity)])
  }

  function Answered(t: Txn): (reply: Reply)
    requires t.Viewed? || t.Swept?
  {
    if Ends(t) then Refused else Granted(Claims(t.copy.row.user, t.record.family, t.user.version), t.ask.replacement)
  }

  predicate WritesSession(t: Txn)
    requires t.Viewed? || t.Swept?
  {
    t.Viewed? || !t.copy.row.revoked
  }

  /** A session row that a call changes gets its next version, unless the call updates all of a user's at
      once and that does not raise them. */
  function VersionsAfter(w: World, call: Call, s: Tables): (versions: map<nat, nat>) {
    map f | f in s.families ::
      if f !in w.tables.families || f !in w.versions then 0
      else if s.families[f] == w.tables.families[f] || ((call.LogoutAll? || call.Disable?) && !w.bulkRaises) then w.versions[f]
      else w.versions[f] + 1
  }

  function Next(w: World, e: Event): (v: World)
    requires Enabled(w, e)
  {
    match e
    case Begin(x, ask) => w.(running := w.running[x := Begun(ask)])
    case Lock(x) => w.(running := w.running[x := Locked(w.running[x].ask, w.tables.tokens[w.running[x].ask.token])])
    case Load(x) =>
      var t := w.running[x];
      w.(running := w.running[x := Loaded(t.ask, t.record, Copy(w.tables.families[t.record.family], w.versions[t.record.family]))])
    case View(x) =>
      var t := w.running[x];
      w.(running := w.running[x := Viewed(t.ask, t.record, t.copy, w.tables.users[t.copy.row.user])])
    case Sweep(x) =>
      var t := w.running[x];
      var seen := set k | k in w.tables.tokens && w.tables.tokens[k].family == t.record.family;
      w.(running := w.running[x := Swept(t.ask, t.record, t.copy, t.user, seen)])
    case Commit(x) =>
      var t := w.running[x];
      w.(tables := Written(w, t),
         versions := if WritesSession(t) then w.versions[t.record.family := w.versions[t.record.family] + 1] else w.versions,
         running := w.running - {x})
    case Abort(x) => w.(running := w.running - {x})
    case Serve(call, now) =>
      var s := Served(w.tables, w.policy, call, now).tables;
      w.(tables := s, versions := VersionsAfter(w, call, s))
  }

  /* What every event keeps. */

  /** A session that stands has an active user of its own version, and its tokens stand. */
  ghost predicate Standing(s: Tables) {
    && (forall k | k in s.tokens && s.tokens[k].revoked && s.tokens[k].family in s.families :: s.families[s.tokens[k].family].revoked)
    && (forall f | f in s.families && !s.families[f].revoked ::
          s.families[f].user in s.users && s.users[s.families[f].user] == User(true, s.families[f].version))
  }

  /** The token's row is still as it was when it was locked, but for being revoked. */
  ghost predicate TokenOk(s: Tables, t: Txn)
    requires !t.Begun?
  {
    && t.ask.token in s.tokens && s.tokens[t.ask.token].(revoked := t.record.revoked) == t.record
    && (t.record.revoked ==> s.tokens[t.ask.token].revoked)
  }

  /** What never changes in a session row. */
  predicate SameSession(f: Family, g: Family) {
    f.user == g.user && f.version == g.version && f.absolute == g.absolute
  }

  ghost predicate CopyOk(w: World, t: Txn)
    requires t.Loaded? || t.Viewed? || t.Swept?
  {
    && t.record.family in w.tables.families && t.record.family in w.versions
    && var now := w.tables.families[t.record.family];
    && SameSession(now, t.copy.row) && (t.copy.row.revoked ==> now.revoked)
    && t.copy.version <= w.versions[t.record.family]
    && (Current(w, t) ==> now.inactivity == t.copy.row.inactivity && (w.bulkRaises ==> now.revoked == t.copy.row.revoked))
  }

  ghost predicate UserOk(s: Tables, t: Txn)
    requires t.Viewed? || t.Swept?
  {
    && t.copy.row.user in s.users
    && var now := s.users[t.copy.row.user];
    && t.copy.row.version <= t.user.version <= now.version
    && (t.user.version == now.version ==> t.user == now)
  }

  ghost predicate AllSeen(s: Tables, t: Txn)
    requires t.Swept?
  {
    forall k | k in s.tokens && s.tokens[k].family == t.record.family :: k in t.seen
  }

  ghost predicate SeenOk(w: World, t: Txn)
    requires t.Swept? && t.record.family in w.tables.families
  {
    && Ends(t)
    && (forall k | k in t.seen :: k in w.tables.tokens && w.tables.tokens[k].family == t.record.family)
    && (Current(w, t) && !w.tables.families[t.record.family].revoked ==> AllSeen(w.tables, t))
    && (w.bulkRaises && t.copy.row.revoked ==> AllSeen(w.tables, t))
  }

  ghost predicate TxnOk(w: World, t: Txn) {
    match t
    case Begun(_) => true
    case Locked(_, _) => TokenOk(w.tables, t)
    case Loaded(_, _, _) => TokenOk(w.tables, t) && CopyOk(w, t)
    case Viewed(_, _, _, _) => TokenOk(w.tables, t) && CopyOk(w, t) && UserOk(w.tables, t)
    case Swept(_, _, _, _, _) => TokenOk(w.tables, t) && CopyOk(w, t) && UserOk(w.tables, t) && SeenOk(w, t)
  }

  /** No two transactions hold the same token. */
  ghost predicate Apart(w: World) {
    forall x, y | x in w.running && y in w.running && x != y && !w.running[x].Begun? && !w.running[y].Begun? ::
      w.running[x].ask.token != w.running[y].ask.token
  }

  /** Every transaction in flight has a token of its own to draw. */
  ghost predicate Drawable(w: World) {
    && (forall x | x in w.running :: w.running[x].ask.replacement !in w.tables.tokens)
    && (forall x, y | x in w.running && y in w.running && x != y :: w.running[x].ask.replacement != w.running[y].ask.replacement)
  }

  ghost predicate WorldInv(w: World) {
    && Inv(w.tables) && Standing(w.tables) && w.versions.Keys == w.tables.families.Keys && Apart(w) && Drawable(w)
    && (forall x | x in w.running :: TxnOk(w, w.running[x]))
  }

  /** How committed rows change: versions rise, what is revoked stays so, and a new token of a session
      comes with a new version of it. */
  ghost predicate Evolves(w: World, v: World) {
    && v.bulkRaises == w.bulkRaises && v.versions.Keys == v.tables.families.Keys
    && UsersEvolve(w.tables, v.tables) && TokensEvolve(w.tables, v.tables)
    && (forall f | f in w.versions :: SessionEvolves(w, v, f))
    && (forall k | k in v.tables.tokens && k !in w.tables.tokens && v.tables.tokens[k].family in w.versions :: NewTokenOk(w, v, v.tables.tokens[k].family))
  }

  ghost predicate UsersEvolve(s: Tables, u: Tables) {
    forall n | n in s.users ::
      && n in u.users && s.users[n].version <= u.users[n].version
      && (s.users[n].version == u.users[n].version ==> u.users[n] == s.users[n])
  }

  ghost predicate TokensEvolve(s: Tables, u: Tables) {
    forall k | k in s.tokens ::
      k in u.tokens && u.tokens[k].family == s.tokens[k].family && (s.tokens[k].revoked ==> u.tokens[k].revoked)
  }

  ghost predicate NewTokenOk(w: World, v: World, f: nat) {
    && f in w.versions && f in v.versions && f in w.tables.families
    && w.versions[f] < v.versions[f] && (w.bulkRaises ==> !w.tables.families[f].revoked)
  }

  ghost predicate SessionEvolves(w: World, v: World, f: nat) {
    && f in w.tables.families && f in v.tables.families && f in w.versions && f in v.versions
    && var was, now := w.tables.families[f], v.tables.families[f];
    && SameSession(was, now) && (was.revoked ==> now.revoked) && w.versions[f] <= v.versions[f]
    && (w.versions[f] == v.versions[f] ==> now.inactivity == was.inactivity && (w.bulkRaises ==> now.revoked == was.revoked))
  }

  /** The token's row differs at most in being revoked. */
  ghost predicate TokenAlone(s: Tables, u: Tables, t: Txn) {
    !t.Begun? && t.ask.token in s.tokens && t.ask.token in u.tokens ==>
      u.tokens[t.ask.token].(revoked := s.tokens[t.ask.token].revoked) == s.tokens[t.ask.token]
  }

  /** What others commit leaves a transaction in order, if it leaves its token alone. */
  lemma TxnKept(w: World, v: World, t: Txn)
    requires TxnOk(w, t) && Evolves(w, v) && w.versions.Keys == w.tables.families.Keys && TokenAlone(w.tables, v.tables, t)
    ensures TxnOk(v, t)
  {
    if !t.Begun? && !t.Locked? {
      var f := t.record.family;
      assert f in w.tables.families && SessionEvolves(w, v, f);
      if t.Swept? && ((Current(v, t) && !v.tables.families[f].revoked) || (w.bulkRaises && t.copy.row.revoked)) {
        assert AllSeen(w.tables, t);
        forall k | k in v.tables.tokens && v.tables.tokens[k].family == f ensures k in t.seen {
          assert k !in w.tables.tokens ==> NewTokenOk(w, v, f);
        }
      }
    }
  }

  /* Ending a family. */

  /** What a transaction that commits as `t` finds. */
  ghost predicate Ready(w: World, t: Txn) {
    TxnOk(w, t) && CanCommit(w, t) && t.ask.replacement !in w.tables.tokens && Inv(w.tables) && Standing(w.tables) && w.versions.Keys == w.tables.families.Keys
  }

  function AfterCommit(w: World, t: Txn): (v: World)
    requires CanCommit(w, t) && t.record.family in w.versions
  {
    w.(tables := Written(w, t),
       versions := if WritesSession(t) then w.versions[t.record.family := w.versions[t.record.family] + 1] else w.versions)
  }

  lemma EndingEvolves(w: World, t: Txn)
    requires Ready(w, t) && t.Swept?
    ensures Evolves(w, AfterCommit(w, t))
  {
    hide Inv, Standing;
  }

  lemma ChainsStay(s: Tables, u: Tables)
    requires Inv(s) && u.users == s.users && u.families.Keys == s.families.Keys
    requires forall f | f in s.families :: SameSession(u.families[f], s.families[f])
    requires forall k | k in u.tokens :: u.tokens[k].family in s.families
    requires forall f | f in s.families :: exists chain :: Chain(u, f, chain)
    ensures Inv(u)
  {
    hide Chain;
  }

  /** Ending a family changes nothing but who is revoked. */
  lemma EndingRevokes(w: World, t: Txn)
    requires CanCommit(w, t) && t.Swept?
    ensures var s, u := w.tables, Written(w, t);
            && u.users == s.users && u.families.Keys == s.families.Keys && u.tokens.Keys == s.tokens.Keys
            && (forall f | f in s.families :: u.families[f].(revoked := s.families[f].revoked) == s.families[f])
            && (forall k | k in s.tokens :: u.tokens[k].(revoked := s.tokens[k].revoked) == s.tokens[k])
  {
  }

  lemma EndingKeepsChains(w: World, t: Txn)
    requires Inv(w.tables) && CanCommit(w, t) && t.Swept?
    ensures Inv(Written(w, t))
  {
    var s, u := w.tables, Written(w, t);
    EndingRevokes(w, t);
    hide CanCommit, Written, Chain;
    forall f | f in s.families ensures exists chain :: Chain(u, f, chain) {
      var chain :| Chain(s, f, chain);
      SameChain(s, u, f, chain);
    }
    ChainsStay(s, u);
  }

  lemma EndingStanding(w: World, t: Txn)
    requires Ready(w, t) && t.Swept?
    ensures Standing(Written(w, t))
  {
    hide Inv;
  }

  /* Replacing a token. */

  lemma GrantEvolves(w: World, t: Txn)
    requires Ready(w, t) && t.Viewed?
    ensures Evolves(w, AfterCommit(w, t))
  {
    hide Inv, Standing;
  }

  lemma GrantKeepsChains(w: World, t: Txn)
    requires Ready(w, t) && t.Viewed?
    ensures Inv(Written(w, t))
  {
    var s, u := w.tables, Written(w, t);
    GrantRotation(w, t);
    hide Ready, Written, Rotated, Chain;
    forall f | f in s.families ensures exists chain :: Chain(u, f, chain) {
      var chain :| Chain(s, f, chain);
      GrantedChain(s, u, f, chain, t.ask.token, t.ask.replacement);
    }
    ChainsStay(s, u);
  }

  lemma GrantRotation(w: World, t: Txn)
    requires Ready(w, t) && t.Viewed?
    ensures var s, u := w.tables, Written(w, t);
            && Inv(s) && Rotated(s, u, t.ask.token, t.ask.replacement)
            && u.users == s.users && u.families.Keys == s.families.Keys
            && (forall f | f in s.families :: SameSession(u.families[f], s.families[f]))
            && (forall k | k in u.tokens :: u.tokens[k].family in s.families)
  {
    assert forall k | k in w.tables.tokens :: w.tables.tokens[k].family in w.tables.families;
    assert TokenOk(w.tables, t) && CopyOk(w, t);
    hide Inv, Standing, TxnOk, UserOk, Expired;
  }

  lemma GrantedChain(s: Tables, u: Tables, f: nat, chain: seq<nat>, token: nat, replacement: nat)
    requires Rotated(s, u, token, replacement) && Chain(s, f, chain)
    ensures exists longer :: Chain(u, f, longer)
  {
    if f == s.tokens[token].family {
      ChainGrows(s, u, f, chain, token, replacement);
    } else {
      SameChain(s, u, f, chain);
    }
  }

  lemma GrantStanding(w: World, t: Txn)
    requires Ready(w, t) && t.Viewed?
    ensures Standing(Written(w, t))
  {
    hide Inv;
  }

  lemma OtherToken(w: World, x: nat, y: nat)
    requires Apart(w) && x in w.running && Ready(w, w.running[x]) && y in w.running && y != x
    ensures TokenAlone(w.tables, Written(w, w.running[x]), w.running[y])
  {
    hide Inv, Standing, TxnOk;
  }

  lemma CommitKeepsInv(w: World, x: nat)
    requires WorldInv(w) && Enabled(w, Commit(x))
    ensures WorldInv(Next(w, Commit(x)))
  {
    var t, v := w.running[x], Next(w, Commit(x));
    CommitIsReady(w, x);
    var u := AfterCommit(w, t);
    hide Next, Written, AfterCommit, Enabled, CanCommit, WorldInv, Ready, Inv, Standing, TxnOk, Evolves;
    if t.Swept? {
      EndingEvolves(w, t);
      EndingKeepsChains(w, t);
      EndingStanding(w, t);
    } else {
      GrantEvolves(w, t);
      GrantKeepsChains(w, t);
      GrantStanding(w, t);
    }
    EvolvedKeys(w, u);
    CommitKeepsOthers(w, u, x);
    CommitDraws(w, x);
    Assembled(u, v);
  }

  lemma CommitIsReady(w: World, x: nat)
    requires WorldInv(w) && Enabled(w, Commit(x))
    ensures var t, v := w.running[x], Next(w, Commit(x));
            && Ready(w, t) && Inv(w.tables) && CanCommit(w, t) && t.record.family in w.versions && (t.Viewed? || t.Swept?)
            && AfterCommit(w, t).tables == Written(w, t)
            && v == AfterCommit(w, t).(running := w.running - {x})
  {
    assert TxnOk(w, w.running[x]);
    hide Inv, Standing, Apart;
  }

  lemma EvolvedKeys(w: World, v: World)
    requires Evolves(w, v)
    ensures v.versions.Keys == v.tables.families.Keys
  {
  }

  lemma Assembled(u: World, v: World)
    requires v == u.(running := v.running) && Inv(u.tables) && Standing(u.tables) && u.versions.Keys == u.tables.families.Keys
    requires Apart(v) && Drawable(v) && forall y | y in v.running :: TxnOk(u, v.running[y])
    ensures WorldInv(v)
  {
    hide Inv, Standing, Apart, Drawable;
  }

  lemma CommitDraws(w: World, x: nat)
    requires WorldInv(w) && Enabled(w, Commit(x))
    ensures Drawable(Next(w, Commit(x)))
  {
    hide Inv, Standing, TxnOk, Apart, Ends, Current;
  }

  lemma CommitKeepsOthers(w: World, u: World, x: nat)
    requires WorldInv(w) && x in w.running && Ready(w, w.running[x]) && w.running[x].record.family in w.versions
    requires u == AfterCommit(w, w.running[x]) && Evolves(w, u)
    ensures forall y | y in w.running && y != x :: TxnOk(u, w.running[y])
    ensures Apart(u.(running := w.running - {x}))
  {
    assert u.tables == Written(w, w.running[x]);
    hide TxnOk, Evolves, Inv, Standing, Written, AfterCommit, CanCommit;
    forall y | y in w.running && y != x ensures TxnOk(u, w.running[y]) {
      OtherToken(w, x, y);
      TxnKept(w, u, w.running[y]);
    }
  }

  /* The other calls. */

  lemma ServedSessions(w: World, call: Call, now: nat)
    requires Inv(w.tables) && w.versions.Keys == w.tables.families.Keys && !call.Refresh? && Fresh(w.tables, call)
    ensures var s := Served(w.tables, w.policy, call, now).tables;
            forall f | f in w.versions :: SessionEvolves(w, w.(tables := s, versions := VersionsAfter(w, call, s)), f)
  {
    hide Inv;
  }

  lemma ServedUsers(s: Tables, p: Policy, call: Call, now: nat)
    requires !call.Refresh?
    ensures UsersEvolve(s, Served(s, p, call, now).tables)
  {
  }

  lemma ServedTokens(s: Tables, p: Policy, call: Call, now: nat)
    requires !call.Refresh? && Fresh(s, call)
    ensures var u := Served(s, p, call, now).tables;
            && TokensEvolve(s, u)
            && (forall k | k in s.tokens :: u.tokens[k].(revoked := s.tokens[k].revoked) == s.tokens[k])
            && (forall k | k in u.tokens && k !in s.tokens :: u.tokens[k].family !in s.families)
  {
  }

  lemma ServedEvolves(w: World, call: Call, now: nat)
    requires Inv(w.tables) && w.versions.Keys == w.tables.families.Keys && !call.Refresh? && Fresh(w.tables, call)
    ensures var s := Served(w.tables, w.policy, call, now).tables;
            Evolves(w, w.(tables := s, versions := VersionsAfter(w, call, s)))
  {
    ServedSessions(w, call, now);
    ServedUsers(w.tables, w.policy, call, now);
    ServedTokens(w.tables, w.policy, call, now);
    hide Inv, SessionEvolves, Served, UsersEvolve, TokensEvolve;
  }

  lemma ServedStanding(s: Tables, p: Policy, call: Call, now: nat)
    requires Inv(s) && Standing(s) && !call.Refresh? && Fresh(s, call)
    ensures Standing(Served(s, p, call, now).tables)
  {
    assert forall f | f in s.families :: s.families[f].user in s.users;
    assert forall k | k in s.tokens :: s.tokens[k].family in s.families;
    hide Inv;
  }

  lemma ServedDraws(w: World, call: Call, now: nat)
    requires Drawable(w) && Enabled(w, Serve(call, now))
    ensures Drawable(Next(w, Serve(call, now)))
  {
  }

  lemma ServeKeepsWorld(w: World, call: Call, now: nat)
    requires WorldInv(w) && Enabled(w, Serve(call, now))
    ensures WorldInv(Next(w, Serve(call, now)))
  {
    var v := Next(w, Serve(call, now));
    ServedEvolves(w, call, now);
    ServedTokens(w.tables, w.policy, call, now);
    ServedStanding(w.tables, w.policy, call, now);
    ServeKeepsInv(w.tables, w.policy, call, now);
    ServedDraws(w, call, now);
    hide Inv, Standing, Evolves, TxnOk, Served, VersionsAfter, Drawable;
    forall x | x in v.running ensures TxnOk(v, v.running[x]) {
      TxnKept(w, v, w.running[x]);
    }
    EvolvedKeys(w, v);
  }

  /* A transaction's own steps. */

  lemma Replaced(w: World, x: nat, t: Txn)
    requires WorldInv(w) && TxnOk(w, t)
    requires !t.Begun? ==> forall y | y in w.running && y != x && !w.running[y].Begun? :: w.running[y].ask.token != t.ask.token
    requires if x in w.running then t.ask == w.running[x].ask else Unclaimed(w, t.ask.replacement)
    ensures WorldInv(w.(running := w.running[x := t]))
  {
    var v := w.(running := w.running[x := t]);
    hide Inv, Standing;
    forall y | y in v.running ensures TxnOk(v, v.running[y]) {
      assert y in w.running && y != x ==> TxnOk(w, w.running[y]);
    }
  }

  lemma Removed(w: World, x: nat)
    requires WorldInv(w)
    ensures WorldInv(w.(running := w.running - {x}))
  {
    hide Inv, Standing, TxnOk;
    var v := w.(running := w.running - {x});
    forall y | y in v.running ensures TxnOk(v, v.running[y]) {
      assert TxnOk(w, w.running[y]);
      SameTables(w, v, w.running[y]);
    }
  }

  lemma SameTables(w: World, v: World, t: Txn)
    requires TxnOk(w, t) && v == w.(running := v.running)
    ensures TxnOk(v, t)
  {
  }

  /** What a step has read is so. */
  lemma StepOk(w: World, e: Event)
    requires WorldInv(w) && Enabled(w, e) && (e.Begin? || e.Lock? || e.Load? || e.Sweep?)
    ensures TxnOk(w, Next(w, e).running[e.txn])
  {
    assert e.txn in w.running ==> TxnOk(w, w.running[e.txn]);
    hide Inv, Standing, Apart;
  }

  lemma ViewOk(w: World, x: nat)
    requires WorldInv(w) && Enabled(w, View(x))
    ensures TxnOk(w, Next(w, View(x)).running[x])
  {
    assert TxnOk(w, w.running[x]);
    var f := w.running[x].record.family;
    assert f in w.tables.families && w.tables.families[f].version <= w.tables.users[w.tables.families[f].user].version;
    hide Inv, Standing, Apart;
  }

  lemma StepKeepsInv(w: World, e: Event)
    requires WorldInv(w) && Enabled(w, e) && (e.Begin? || e.Lock? || e.Load? || e.View? || e.Sweep?)
    ensures WorldInv(Next(w, e))
  {
    var v := Next(w, e);
    if e.View? {
      ViewOk(w, e.txn);
    } else {
      StepOk(w, e);
    }
    hide Inv, Standing, TxnOk;
    Replaced(w, e.txn, v.running[e.txn]);
  }

  lemma AbortKeepsInv(w: World, x: nat)
    requires WorldInv(w) && Enabled(w, Abort(x))
    ensures WorldInv(Next(w, Abort(x)))
  {
    Removed(w, x);
    hide WorldInv;
  }

  lemma NextKeepsInv(w: World, e: Event)
    requires WorldInv(w) && Enabled(w, e)
    ensures WorldInv(Next(w, e))
  {
    hide WorldInv, Next, Enabled;
    match e
    case Commit(x) => CommitKeepsInv(w, x);
    case Serve(call, now) => ServeKeepsWorld(w, call, now);
    case Abort(x) => AbortKeepsInv(w, x);
    case _ => StepKeepsInv(w, e);
  }
}
