/** What becomes of refreshes that race: when a commit is what the whole call would have done at once,
    what a committed reuse ends, and when a reuse is overtaken. */
module RefreshRaces {
  import opened Options
  import opened RefreshFamilies
  import opened RefreshInterleaving

  /* What a transaction goes by. */

  /** Once it has read token, session and user, a refresh replaces the token - if the session is as it read it -
      exactly when all it has read is good, and otherwise goes on to end the session. */
  lemma DecidesByWhatItRead(w: World, x: nat)
    requires WorldInv(w) && x in w.running && w.running[x].Viewed?
    ensures var t := w.running[x];
            var good :=
              && !t.record.consumed && !t.record.revoked && t.ask.now < t.record.expires
              && !t.copy.row.revoked && t.ask.now < t.copy.row.absolute && t.ask.now < t.copy.row.inactivity
              && t.user.active && t.user.version == t.copy.row.version;
            && (Enabled(w, Sweep(x)) <==> !good)
            && (Enabled(w, Commit(x)) <==> good && w.versions[t.record.family] == t.copy.version)
            && Answered(t) == if good then Granted(Claims(t.copy.row.user, t.record.family, t.user.version), t.ask.replacement) else Refused
  {
    assert TxnOk(w, w.running[x]);
    hide Inv, Standing, Apart, Drawable;
  }

  /* A commit against the whole call at once. */

  ghost function AtOnce(w: World, t: Txn): (o: Outcome) {
    Refreshed(w.tables, w.policy, t.ask.token, t.ask.replacement, t.ask.now)
  }

  /** Every token of the family was found, or was revoked already. */
  ghost predicate Covered(s: Tables, t: Txn)
    requires t.Swept?
  {
    forall k | k in s.tokens && s.tokens[k].family == t.record.family :: k in t.seen || s.tokens[k].revoked
  }

  lemma GrantAtOnce(w: World, t: Txn)
    requires Ready(w, t) && t.Viewed?
    ensures Outcome(Written(w, t), Answered(t)) == AtOnce(w, t) <==> !w.tables.families[t.record.family].revoked
    ensures w.bulkRaises ==> !w.tables.families[t.record.family].revoked
  {
    hide Inv;
  }

  lemma EndingAtOnce(w: World, t: Txn)
    requires Ready(w, t) && t.Swept?
    ensures AtOnce(w, t).reply == Answered(t) == Refused
    ensures Written(w, t) == AtOnce(w, t).tables <==> Covered(w.tables, t)
    ensures w.bulkRaises || !w.tables.families[t.record.family].revoked ==> Covered(w.tables, t)
  {
    hide Inv;
    var s, u, v := w.tables, Written(w, t), AtOnce(w, t).tables;
    assert v == RevokedFamily(s, t.record.family);
    assert u.families == v.families;
    if Covered(s, t) {
      assert u.tokens == v.tokens;
    } else {
      var k :| k in s.tokens && s.tokens[k].family == t.record.family && k !in t.seen && !s.tokens[k].revoked;
      assert u.tokens[k] != v.tokens[k];
    }
  }

  /** A commit answers and leaves what the whole call would at that moment: a grant if and only if the family
      is not revoked, an ending if and only if every token still standing was found.  While a family stands
      both are so, and if updates of all sessions raise their versions both are always so. */
  lemma CommitAtOnce(w: World, x: nat)
    requires WorldInv(w) && Enabled(w, Commit(x))
    ensures var t := w.running[x];
            && t.record.family in w.tables.families
            && (Outcome(Next(w, Commit(x)).tables, Answered(t)) == AtOnce(w, t)
                <==> if t.Viewed? then !w.tables.families[t.record.family].revoked else Covered(w.tables, t))
            && (w.bulkRaises || !w.tables.families[t.record.family].revoked ==>
                  Outcome(Next(w, Commit(x)).tables, Answered(t)) == AtOnce(w, t))
  {
    var t := w.running[x];
    CommitIsReady(w, x);
    assert t.record.family in w.tables.families;
    if t.Viewed? {
      GrantAtOnce(w, t);
    } else {
      EndingAtOnce(w, t);
    }
    hide WorldInv, Ready, Written, Covered, Enabled;
  }

  /* Runs. */

  ghost predicate PossibleRun(w: World, events: seq<Event>)
    decreases |events|
  {
    events != [] ==> Enabled(w, events[0]) && PossibleRun(Next(w, events[0]), events[1..])
  }

  ghost function Play(w: World, events: seq<Event>): (v: World)
    requires PossibleRun(w, events)
    decreases |events|
  {
    if events == [] then w else Play(Next(w, events[0]), events[1..])
  }

  lemma {:induction false} PlayKeepsInv(w: World, events: seq<Event>)
    requires WorldInv(w) && PossibleRun(w, events)
    ensures WorldInv(Play(w, events))
    decreases |events|
  {
    hide WorldInv, Enabled, Next;
    if events != [] {
      NextKeepsInv(w, events[0]);
      PlayKeepsInv(Next(w, events[0]), events[1..]);
    }
  }

  lemma StartInv(p: Policy, bulkRaises: bool)
    ensures WorldInv(Start(p, bulkRaises))
  {
    NobodyInv();
  }

  /** In every interleaving, however updates of all sessions treat versions, the tokens of a family form one
      chain of replacements, and a token is unused exactly when it is the chain's last. */
  lemma OneChainInterleaved(p: Policy, bulkRaises: bool, events: seq<Event>, f: nat) returns (chain: seq<nat>)
    requires PossibleRun(Start(p, bulkRaises), events) && f in Play(Start(p, bulkRaises), events).tables.families
    ensures var s := Play(Start(p, bulkRaises), events).tables;
            && Chain(s, f, chain)
            && forall t | t in s.tokens && s.tokens[t].family == f :: !s.tokens[t].consumed <==> t == chain[|chain| - 1]
  {
    var s := Play(Start(p, bulkRaises), events).tables;
    StartInv(p, bulkRaises);
    PlayKeepsInv(Start(p, bulkRaises), events);
    hide PossibleRun, Play;
    chain :| Chain(s, f, chain);
    forall t | t in s.tokens && s.tokens[t].family == f ensures !s.tokens[t].consumed <==> t == chain[|chain| - 1] {
      UnusedIsLast(s, f, chain, t);
    }
  }

  /** The calls that take effect, in the order in which they commit. */
  ghost function Effects(w: World, events: seq<Event>): (calls: seq<Timed>)
    requires PossibleRun(w, events)
    decreases |events|
  {
    if events == [] then [] else Effect(w, events[0]) + Effects(Next(w, events[0]), events[1..])
  }

  function Effect(w: World, e: Event): (calls: seq<Timed>)
    requires Enabled(w, e)
  {
    match e
    case Commit(x) => [Timed(Refresh(w.running[x].ask.token, w.running[x].ask.replacement), w.running[x].ask.now)]
    case Serve(call, now) => [Timed(call, now)]
    case _ => []
  }

  /** If updates of all sessions raise their versions, every interleaving leaves what the calls that
      committed leave one after another. */
  lemma {:induction false} Serializable(w: World, events: seq<Event>)
    requires WorldInv(w) && w.bulkRaises && PossibleRun(w, events)
    ensures LegalCalls(w.tables, w.policy, Effects(w, events))
    ensures Play(w, events).tables == After(w.tables, w.policy, Effects(w, events))
    decreases |events|
  {
    if events != [] {
      var e, v := events[0], Next(w, events[0]);
      hide WorldInv, Enabled, Next, Served, Fresh, Effect, LegalCalls, After;
      NextKeepsInv(w, e);
      EffectAtOnce(w, e);
      Serializable(v, events[1..]);
      OneMore(w.tables, w.policy, Effect(w, e), v.tables, Effects(v, events[1..]));
    }
  }

  lemma OneMore(s: Tables, p: Policy, calls: seq<Timed>, u: Tables, rest: seq<Timed>)
    requires if calls == [] then u == s else |calls| == 1 && Fresh(s, calls[0].call) && u == Served(s, p, calls[0].call, calls[0].now).tables
    requires LegalCalls(u, p, rest)
    ensures LegalCalls(s, p, calls + rest) && After(s, p, calls + rest) == After(u, p, rest)
  {
    hide Served, Fresh;
    if calls == [] {
      assert calls + rest == rest;
    } else {
      assert (calls + rest)[1..] == rest;
    }
  }

  lemma EffectAtOnce(w: World, e: Event)
    requires WorldInv(w) && w.bulkRaises && Enabled(w, e)
    ensures var v, calls := Next(w, e), Effect(w, e);
            && v.policy == w.policy && v.bulkRaises
            && (if calls == [] then v.tables == w.tables
                else |calls| == 1 && Fresh(w.tables, calls[0].call) && v.tables == Served(w.tables, w.policy, calls[0].call, calls[0].now).tables)
  {
    if e.Commit? {
      CommitAtOnce(w, e.txn);
      assert w.running[e.txn].ask.replacement !in w.tables.tokens;
      hide WorldInv, Enabled, Written;
    } else {
      hide WorldInv, Served, VersionsAfter;
    }
  }

  /* A family that has ended. */

  /** No transaction in flight has seen the family standing and may still write it. */
  ghost predicate Barred(w: World, f: nat) {
    && f in w.tables.families && f in w.versions && w.tables.families[f].revoked
    && forall x | x in w.running && HasSession(w.running[x], f) && !w.running[x].copy.row.revoked :: w.running[x].copy.version < w.versions[f]
  }

  predicate HasSession(t: Txn, f: nat) {
    (t.Loaded? || t.Viewed? || t.Swept?) && t.record.family == f
  }

  /** A refresh that replaces a token of the family. */
  predicate Grants(w: World, e: Event, f: nat) {
    e.Commit? && e.txn in w.running && w.running[e.txn].Viewed? && w.running[e.txn].record.family == f
  }

  ghost predicate NeverGrants(w: World, events: seq<Event>, f: nat)
    requires PossibleRun(w, events)
    decreases |events|
  {
    events != [] ==> !Grants(w, events[0], f) && NeverGrants(Next(w, events[0]), events[1..], f)
  }

  lemma BarredStays(w: World, e: Event, f: nat)
    requires WorldInv(w) && Enabled(w, e) && Barred(w, f)
    ensures Barred(Next(w, e), f) && !Grants(w, e, f)
  {
    match e
    case Commit(x) => BarredAtCommit(w, x, f);
    case Serve(call, now) => BarredAtServe(w, call, now, f);
    case _ => hide WorldInv;
  }

  lemma BarredAtCommit(w: World, x: nat, f: nat)
    requires WorldInv(w) && Enabled(w, Commit(x)) && Barred(w, f)
    ensures Barred(Next(w, Commit(x)), f) && !Grants(w, Commit(x), f)
  {
    hide WorldInv;
  }

  lemma BarredAtServe(w: World, call: Call, now: nat, f: nat)
    requires WorldInv(w) && Enabled(w, Serve(call, now)) && Barred(w, f)
    ensures Barred(Next(w, Serve(call, now)), f)
  {
    ServedSessions(w, call, now);
    assert SessionEvolves(w, Next(w, Serve(call, now)), f);
    hide WorldInv, Served, VersionsAfter;
  }

  lemma {:induction false} BarredForGood(w: World, events: seq<Event>, f: nat)
    requires WorldInv(w) && PossibleRun(w, events) && Barred(w, f)
    ensures Barred(Play(w, events), f) && NeverGrants(w, events, f)
    decreases |events|
  {
    hide WorldInv, Enabled, Next, Barred, Grants;
    if events != [] {
      NextKeepsInv(w, events[0]);
      BarredStays(w, events[0], f);
      BarredForGood(Next(w, events[0]), events[1..], f);
    }
  }

  lemma EndingBars(w: World, x: nat)
    requires WorldInv(w) && Enabled(w, Commit(x)) && w.running[x].Swept?
    ensures Dead(Next(w, Commit(x)).tables, w.running[x].record.family)
    ensures w.bulkRaises || !w.running[x].copy.row.revoked ==> Barred(Next(w, Commit(x)), w.running[x].record.family)
  {
  }

  /** Whatever interleaves, a reuse that commits ends its family: it stays revoked, no access token of it
      authenticates, no token of it refreshes at once, and - unless only an update of all sessions that
      does not raise versions had revoked it before - no refresh in flight replaces a token of it. */
  lemma CommittedReuseEndsFamily(w: World, x: nat, events: seq<Event>, claims: Claims, other: nat, drawn: nat, later: nat)
    requires WorldInv(w) && Enabled(w, Commit(x)) && w.running[x].Swept? && PossibleRun(Next(w, Commit(x)), events)
    ensures var f, u := w.running[x].record.family, Play(Next(w, Commit(x)), events).tables;
            && Dead(u, f) && (claims.family == f ==> !Accepted(u, claims, later))
            && (other in u.tokens && u.tokens[other].family == f ==> Refreshed(u, w.policy, other, drawn, later).reply == Refused)
    ensures w.bulkRaises || !w.running[x].copy.row.revoked ==> NeverGrants(Next(w, Commit(x)), events, w.running[x].record.family)
  {
    var v, f := Next(w, Commit(x)), w.running[x].record.family;
    EndingBars(w, x);
    NextKeepsInv(w, Commit(x));
    hide WorldInv, Enabled, Next, Barred;
    DeadInEveryRun(v, events, f);
    if w.bulkRaises || !w.running[x].copy.row.revoked {
      BarredForGood(v, events, f);
    }
    hide PossibleRun, Play, NeverGrants;
    DeadMeans(Play(v, events).tables, w.policy, f, claims, other, drawn, later);
    hide Dead, Accepted, Refreshed;
  }

  lemma DeadMeans(s: Tables, p: Policy, f: nat, claims: Claims, other: nat, drawn: nat, later: nat)
    requires Dead(s, f)
    ensures claims.family == f ==> !Accepted(s, claims, later)
    ensures other in s.tokens && s.tokens[other].family == f ==> Refreshed(s, p, other, drawn, later).reply == Refused
  {
  }

  lemma {:induction false} DeadInEveryRun(w: World, events: seq<Event>, f: nat)
    requires WorldInv(w) && PossibleRun(w, events) && Dead(w.tables, f)
    ensures Dead(Play(w, events).tables, f)
    decreases |events|
  {
    hide WorldInv, Enabled, Next;
    if events != [] {
      NextKeepsInv(w, events[0]);
      DeadStaysDead(w, events[0], f);
      DeadInEveryRun(Next(w, events[0]), events[1..], f);
    }
  }

  lemma DeadStaysDead(w: World, e: Event, f: nat)
    requires WorldInv(w) && Enabled(w, e) && Dead(w.tables, f)
    ensures Dead(Next(w, e).tables, f)
  {
    if e.Serve? {
      DeadStays(w.tables, w.policy, e.call, e.now, f);
      hide Dead, Served;
    }
    hide WorldInv;
  }

  /* A reuse that is overtaken. */

  /** The event writes the session's row and raises its version. */
  predicate Writes(w: World, e: Event, f: nat)
    requires Enabled(w, e)
  {
    f in w.versions && f in Next(w, e).versions && Next(w, e).versions[f] != w.versions[f]
  }

  ghost predicate NobodyWrites(w: World, events: seq<Event>, f: nat)
    requires PossibleRun(w, events)
    decreases |events|
  {
    events != [] ==> !Writes(w, events[0], f) && NobodyWrites(Next(w, events[0]), events[1..], f)
  }

  lemma VersionRises(w: World, e: Event, f: nat)
    requires WorldInv(w) && Enabled(w, e) && f in w.versions
    ensures f in Next(w, e).versions && w.versions[f] <= Next(w, e).versions[f]
  {
    if e.Serve? {
      ServedSessions(w, e.call, e.now);
      assert SessionEvolves(w, Next(w, e), f);
    } else if e.Commit? {
      CommitIsReady(w, e.txn);
    }
    hide WorldInv, Served, VersionsAfter;
  }

  /** The transaction goes on as far as it likes but neither commits nor gives up. */
  predicate Pending(events: seq<Event>, x: nat) {
    Commit(x) !in events && Abort(x) !in events
  }

  lemma CopyStays(w: World, e: Event, x: nat, f: nat)
    requires Enabled(w, e) && x in w.running && HasSession(w.running[x], f) && e != Commit(x) && e != Abort(x)
    ensures x in Next(w, e).running && HasSession(Next(w, e).running[x], f) && Next(w, e).running[x].copy == w.running[x].copy
  {
  }

  lemma {:induction false} CurrentIffNobodyWrote(w: World, events: seq<Event>, x: nat, f: nat)
    requires WorldInv(w) && PossibleRun(w, events) && Pending(events, x)
    requires x in w.running && HasSession(w.running[x], f) && f in w.versions
    ensures var v := Play(w, events);
            && WorldInv(v) && x in v.running && HasSession(v.running[x], f) && v.running[x].copy == w.running[x].copy
            && f in v.versions && w.versions[f] <= v.versions[f]
            && (w.versions[f] == v.versions[f] <==> NobodyWrites(w, events, f))
    decreases |events|
  {
    hide WorldInv, Enabled, Next;
    if events != [] {
      NextKeepsInv(w, events[0]);
      assert events[0] in events;
      CopyStays(w, events[0], x, f);
      VersionRises(w, events[0], f);
      CurrentIffNobodyWrote(Next(w, events[0]), events[1..], x, f);
    }
  }

  /** A reuse that has read its session can end the family if and only if nobody wrote the session since it
      read it, or the family was over already. */
  lemma EndsIffNotOvertaken(w: World, events: seq<Event>, x: nat, f: nat)
    requires WorldInv(w) && PossibleRun(w, events) && Pending(events, x)
    requires x in w.running && HasSession(w.running[x], f) && Current(w, w.running[x])
    requires x in Play(w, events).running && Play(w, events).running[x].Swept?
    ensures Enabled(Play(w, events), Commit(x)) <==> w.running[x].copy.row.revoked || NobodyWrites(w, events, f)
  {
    var v := Play(w, events);
    CurrentIffNobodyWrote(w, events, x, f);
    assert TxnOk(v, v.running[x]);
    hide PossibleRun, Play, NobodyWrites, WorldInv, UserOk, SeenOk;
  }

  /** Once overtaken it can only give up. */
  lemma OvertakenForGood(w: World, events: seq<Event>, x: nat)
    requires WorldInv(w) && PossibleRun(w, events) && Pending(events, x)
    requires x in w.running && w.running[x].Swept? && !Enabled(w, Commit(x))
    ensures x in Play(w, events).running && !Enabled(Play(w, events), Commit(x))
  {
    var v, f := Play(w, events), w.running[x].record.family;
    assert TxnOk(w, w.running[x]) && f in w.versions;
    CurrentIffNobodyWrote(w, events, x, f);
    assert w.running[x].copy.version < w.versions[f];
    hide PossibleRun, Play, NobodyWrites, WorldInv;
  }

  /** A good refresh of the same family is such a write. */
  lemma GrantWrites(w: World, y: nat)
    requires WorldInv(w) && Enabled(w, Commit(y)) && w.running[y].Viewed?
    ensures Writes(w, Commit(y), w.running[y].record.family)
  {
    hide WorldInv, Written;
  }

  /** A refresh in flight outlives an update of all its user's sessions if and only if that does not raise
      their versions; but the family is over, and the token it then returns is refused. */
  lemma GrantPastLogoutAll(w: World, x: nat, now: nat, drawn: nat, later: nat)
    requires WorldInv(w) && Enabled(w, Commit(x)) && w.running[x].Viewed? && !w.tables.families[w.running[x].record.family].revoked
    ensures var t := w.running[x];
            var logout := Serve(LogoutAll(t.copy.row.user), now);
            && Enabled(w, logout)
            && (Enabled(Next(w, logout), Commit(x)) <==> !w.bulkRaises)
            && (!w.bulkRaises ==>
                  var v := Next(Next(w, logout), Commit(x)).tables;
                  Dead(v, t.record.family) && Refreshed(v, w.policy, t.ask.replacement, drawn, later).reply == Refused)
  {
    assert TxnOk(w, w.running[x]);
    assert w.tables.tokens[w.running[x].ask.token].family in w.tables.families;
    hide Inv, Standing, Apart;
  }

  /* The input. */

  lemma {:induction false} PlayAppend(w: World, a: seq<Event>, b: seq<Event>)
    requires PossibleRun(w, a) && PossibleRun(Play(w, a), b)
    ensures PossibleRun(w, a + b) && Play(w, a + b) == Play(Play(w, a), b)
    decreases |a|
  {
    hide Enabled, Next;
    if a == [] {
      assert a + b == b;
    } else {
      assert (a + b)[1..] == a[1..] + b;
      PlayAppend(Next(w, a[0]), a[1..], b);
    }
  }

  /** One more event. */
  lemma OneOn(w: World, events: seq<Event>, e: Event)
    requires PossibleRun(w, events) && Enabled(Play(w, events), e)
    ensures PossibleRun(w, events + [e]) && Play(w, events + [e]) == Next(Play(w, events), e)
  {
    hide Enabled, Next;
    assert [e][1..] == [];
    PlayAppend(w, events, [e]);
  }

  predicate Stored(w: World, token: nat) {
    && token in w.tables.tokens && w.tables.tokens[token].family in w.tables.families && w.tables.tokens[token].family in w.versions
    && w.tables.families[w.tables.tokens[token].family].user in w.tables.users
  }

  /** Nobody is in the way of this refresh. */
  predicate Free(w: World, x: nat, ask: Ask) {
    x !in w.running && Unclaimed(w, ask.replacement) && Stored(w, ask.token) && forall y | y in w.running :: w.running[y].ask.token != ask.token
  }

  function Seen(w: World, ask: Ask): (t: Txn)
    requires Stored(w, ask.token)
  {
    var record := w.tables.tokens[ask.token];
    var row := w.tables.families[record.family];
    Viewed(ask, record, Copy(row, w.versions[record.family]), w.tables.users[row.user])
  }

  /** A refresh reads its token, its session and its user. */
  lemma Reads(w: World, events: seq<Event>, x: nat, ask: Ask) returns (longer: seq<Event>)
    requires PossibleRun(w, events) && Free(Play(w, events), x, ask)
    ensures PossibleRun(w, longer) && Play(w, longer) == Play(w, events).(running := Play(w, events).running[x := Seen(Play(w, events), ask)])
  {
    var v := Play(w, events);
    var a := v.(running := v.running[x := Begun(ask)]);
    var b := v.(running := v.running[x := Locked(ask, v.tables.tokens[ask.token])]);
    var c := v.(running := v.running[x := Loaded(ask, b.running[x].record, Seen(v, ask).copy)]);
    assert Enabled(v, Begin(x, ask)) && Next(v, Begin(x, ask)) == a;
    assert Enabled(a, Lock(x)) && Next(a, Lock(x)) == b;
    assert Enabled(b, Load(x)) && Next(b, Load(x)) == c;
    assert Enabled(c, View(x)) && Next(c, View(x)) == v.(running := v.running[x := Seen(v, ask)]);
    hide PossibleRun, Play, Enabled, Next;
    OneOn(w, events, Begin(x, ask));
    OneOn(w, events + [Begin(x, ask)], Lock(x));
    OneOn(w, events + [Begin(x, ask)] + [Lock(x)], Load(x));
    longer := events + [Begin(x, ask)] + [Lock(x)] + [Load(x)];
    OneOn(w, longer, View(x));
    longer := longer + [View(x)];
  }

  /** After one sign-in and one refresh. */
  function RefreshedOnce(p: Policy, bulkRaises: bool): (w: World) {
    var row := Family(1, 0, p.absolute, Min(p.absolute, p.inactivity), false);
    World(p, bulkRaises,
          Tables(map[1 := User(true, 0)], map[5 := row],
                 map[10 := Token(5, None, Some(11), true, false, row.inactivity), 11 := Token(5, Some(10), None, false, false, row.inactivity)]),
          map[5 := 1], map[])
  }

  /** After the sign-in alone. */
  function SignedIn(p: Policy, bulkRaises: bool): (w: World) {
    var row := Family(1, 0, p.absolute, Min(p.absolute, p.inactivity), false);
    World(p, bulkRaises,
          Tables(map[1 := User(true, 0)], map[5 := row], map[10 := Token(5, None, None, false, false, row.inactivity)]),
          map[5 := 0], map[])
  }

  lemma SignedInReached(p: Policy, bulkRaises: bool) returns (events: seq<Event>)
    ensures PossibleRun(Start(p, bulkRaises), events) && Play(Start(p, bulkRaises), events) == SignedIn(p, bulkRaises)
  {
    var w := Start(p, bulkRaises);
    var create, login := Serve(CreateUser(1), 0), Serve(Login(1, true, 5, 10), 0);
    var a := w.(tables := NOBODY.(users := map[1 := User(true, 0)]));
    assert Enabled(w, create) && Next(w, create) == a;
    assert Enabled(a, login) && Next(a, login) == SignedIn(p, bulkRaises);
    hide Enabled, Next;
    OneOn(w, [], create);
    OneOn(w, [] + [create], login);
    events := [] + [create] + [login];
  }

  lemma RefreshedOnceReached(p: Policy, bulkRaises: bool) returns (events: seq<Event>)
    requires p.absolute > 0 && p.inactivity > 0
    ensures PossibleRun(Start(p, bulkRaises), events) && Play(Start(p, bulkRaises), events) == RefreshedOnce(p, bulkRaises)
  {
    var b, ask := SignedIn(p, bulkRaises), Ask(10, 11, 0);
    var c := b.(running := map[1 := Seen(b, ask)]);
    assert Free(b, 1, ask) && c == b.(running := b.running[1 := Seen(b, ask)]);
    assert Enabled(c, Commit(1)) && Next(c, Commit(1)) == RefreshedOnce(p, bulkRaises);
    hide Enabled, Next, Free, Seen, PossibleRun, Play, Start, SignedIn, RefreshedOnce;
    events := SignedInReached(p, bulkRaises);
    events := Reads(Start(p, bulkRaises), events, 1, ask);
    OneOn(Start(p, bulkRaises), events, Commit(1));
    events := events + [Commit(1)];
  }

  /** A stolen token, 10, is presented for the second time while its owner refreshes the token that replaced
      it.  The reuse has read the session when the good refresh commits, so it never can: it gives up, the
      family goes on, and the newest token refreshes. */
  lemma ReuseOvertaken(p: Policy, bulkRaises: bool) returns (events: seq<Event>)
    requires p.absolute > 0 && p.inactivity > 0
    ensures PossibleRun(Start(p, bulkRaises), events)
    ensures var w := Play(Start(p, bulkRaises), events);
            && 2 in w.running && w.running[2].Swept? && w.running[2].ask.token == 10 && w.running[2].record.consumed
            && !Enabled(w, Commit(2)) && w.running[2].record.family in w.tables.families && !Dead(w.tables, w.running[2].record.family)
            && 12 in w.tables.tokens && w.tables.tokens[12].family == w.running[2].record.family
            && Refreshed(w.tables, p, 12, 13, 0).reply.Granted?
  {
    var start, w := Start(p, bulkRaises), RefreshedOnce(p, bulkRaises);
    var reuse, refresh := Ask(10, 20, 0), Ask(11, 12, 0);
    var a := w.(running := w.running[2 := Seen(w, reuse)]);
    var b := Next(a, Sweep(2));
    var c := b.(running := b.running[3 := Seen(b, refresh)]);
    var d := Next(c, Commit(3));
    assert Free(w, 2, reuse) && Free(b, 3, refresh);
    Overtaken(p, bulkRaises, d, b.running[2].seen);
    hide Enabled, Next, Free, Seen, PossibleRun, Play, Start, RefreshedOnce, Refreshed;
    events := RefreshedOnceReached(p, bulkRaises);
    events := Reads(start, events, 2, reuse);
    OneOn(start, events, Sweep(2));
    events := Reads(start, events + [Sweep(2)], 3, refresh);
    OneOn(start, events, Commit(3));
    events := events + [Commit(3)];
  }

  /** The world it leads to. */
  lemma Overtaken(p: Policy, bulkRaises: bool, w: World, seen: set<nat>)
    requires p.absolute > 0 && p.inactivity > 0
    requires var was := RefreshedOnce(p, bulkRaises);
             && 2 in w.running && w.running[2] == Swept(Ask(10, 20, 0), was.tables.tokens[10], Copy(was.tables.families[5], 1), User(true, 0), seen)
             && w.versions == map[5 := 2] && w.tables.users == was.tables.users && w.tables.families == was.tables.families
    requires 12 in w.tables.tokens && w.tables.tokens[12] == Token(5, Some(11), None, false, false, Min(p.absolute, p.inactivity))
    ensures !Enabled(w, Commit(2)) && !Dead(w.tables, 5) && Refreshed(w.tables, p, 12, 13, 0).reply.Granted?
  {
  }
}
