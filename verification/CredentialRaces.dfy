/** Two runs, where a locked select keeps the copy that authentication loaded, in which a rotation is granted
    that would not have been granted at once: for an agent that was revoked meanwhile, and of a credential
    that was rotated meanwhile. */
module CredentialRaces {
  import opened Options
  import opened CredentialState
  import opened CredentialSafety
  import opened CredentialLifecycle
  import opened CredentialLocality
  import opened CredentialInterleaving
  import opened CredentialCopies
  import opened CredentialSerializability

  /* One transaction with nobody in its way. */

  lemma {:induction false} PlayAppend(w: World, a: seq<Event>, b: seq<Event>)
    requires PossibleRun(w, a) && PossibleRun(Play(w, a), b)
    ensures PossibleRun(w, a + b) && Play(w, a + b) == Play(Play(w, a), b)
    decreases |a|
  {
    hide Enabled, Next;
    if a == [] {
      assert a + b == b;
    } else {
      assert (a + b)[1..] == a[1..] + b;
      PlayAppend(Next(w, a[0]), a[1..], b);
    }
  }

  lemma PlayOne(w: World, e: Event)
    requires Enabled(w, e)
    ensures PossibleRun(w, [e]) && Play(w, [e]) == Next(w, e)
  {
    assert [e][1..] == [];
  }

  /** The calls of these runs: what they ask for is there. */
  ghost predicate Plain(s: Tables, q: Request) {
    match q
    case RequestRotation(agent, _, _) => agent in s.agents
    case RequestActivation(agent, _, rotation, _) => agent in s.agents && rotation in s.rotations
    case RequestAgentRevocation(agent) => agent in s.agents
    case _ => false
  }

  /** The transaction has run up to its commit. */
  ghost predicate RanUp(w: World, x: World, txn: nat) {
    && txn in w.running && txn in x.running && x.tables == w.tables && x.running == w.running[txn := x.running[txn]]
    && x.running[txn] == w.running[txn].(done := x.running[txn].done, view := x.running[txn].view)
    && NextOf(x.running[txn]).None? && forall l | l in x.locks :: x.locks[l] == txn
  }

  lemma {:induction false} Through(w: World, txn: nat) returns (events: seq<Event>)
    requires WorldInv(w) && txn in w.running && Plain(w.tables, w.running[txn].call.request) && forall l | l in w.locks :: w.locks[l] == txn
    ensures PossibleRun(w, events) && WorldInv(Play(w, events)) && RanUp(w, Play(w, events), txn)
    decreases {LockToken, LockScope, ReadRecord, LockAgent, LockRotations, LockCredentials} - w.running[txn].done
  {
    hide WorldInv, Enabled, Next;
    if NextOf(w.running[txn]).None? {
      events := [];
    } else {
      OneStatement(w, txn);
      var x := Next(w, Run(txn));
      NextKeepsInv(w, Run(txn));
      var rest := Through(x, txn);
      PlayOne(w, Run(txn));
      PlayAppend(w, [Run(txn)], rest);
      events := [Run(txn)] + rest;
    }
  }

  lemma OneStatement(w: World, txn: nat)
    requires txn in w.running && Plain(w.tables, w.running[txn].call.request) && forall l | l in w.locks :: w.locks[l] == txn
    requires NextOf(w.running[txn]).Some?
    ensures Enabled(w, Run(txn))
    ensures var x, t := Next(w, Run(txn)), w.running[txn];
            && x.tables == w.tables && x.running == w.running[txn := x.running[txn]] && txn in x.running
            && x.running[txn] == t.(done := t.done + {NextOf(t).value}, view := x.running[txn].view) && NextOf(t).value !in t.done
            && forall l | l in x.locks :: x.locks[l] == txn
  {
    NextIsNew(w.running[txn], NextOf(w.running[txn]).value);
  }

  /** While nothing has changed since authentication, the copies are the rows. */
  lemma CurrentRows(s: Tables, t: Txn, held: set<Lock>)
    requires TxnOk(s, t, held) && NextOf(t).None? && t.copy == Loaded(s, t.call.request) && Plain(s, t.call.request)
    ensures Rows(t) == t.view
  {
    forall c | c in t.view.credentials && c in t.copy.credentials ensures t.copy.credentials[c] == t.view.credentials[c] {
      assert LockCredentials in t.done;
      assert !Expiring(t) ==> MayChange(t, c, t.view.credentials[c]);
    }
    assert Copied(t.view.credentials, t.copy.credentials) == t.view.credentials;
    assert Copied(t.view.agents, t.copy.agents) == t.view.agents;
  }

  /** A rotation, an activation or a revocation that would have gone through at once goes through. */
  ghost predicate GoesThrough(s: Tables, call: Call) {
    match call.request
    case RequestRotation(_, _, _) => ScopeOf(call.request).value !in s.records
    case RequestActivation(_, _, _, _) => ScopeOf(call.request).value !in s.records && Step(s, call).reply.Ok?
    case RequestAgentRevocation(_) => true
    case _ => false
  }

  lemma SameAtOnce(s: Tables, t: Txn, held: set<Lock>)
    requires Inv(s) && TxnOk(s, t, held) && NextOf(t).None? && Unused(s, t.call.drawn) && Rows(t) == t.view && GoesThrough(s, t.call)
    ensures Written(s, t.view, ComputedAfresh(t).tables) == Step(s, t.call).tables
  {
    var q := t.call.request;
    assert !Known(t) by { hide Inv; }
    match q
    case RequestRotation(agent, active, key) =>
      GrantReads(s, t, held);
      assert active in s.credentials && s.credentials[active].agent == agent;
      hide TxnOk, NextOf;
      GrantOnPart(s, t.view, agent, active, key, t.call.drawn, t.call.now);
      hide Inv, Written, AgentRead, CreateRotation;
    case RequestActivation(agent, supplied, rotation, key) =>
      ActivationGoes(s, t, held);
      hide Inv, TxnOk;
    case RequestAgentRevocation(agent) =>
      AgentRevocationReads(s, t, held);
      hide TxnOk, NextOf;
      AgentRevocationOnPart(s, t.view, agent);
      hide Inv, Written, AgentRead;
  }

  lemma ActivationGoes(s: Tables, t: Txn, held: set<Lock>)
    requires Inv(s) && TxnOk(s, t, held) && NextOf(t).None? && t.call.request.RequestActivation? && !Known(t) && GoesThrough(s, t.call)
    ensures Written(s, t.view, ComputedAfresh(t).tables) == Step(s, t.call).tables
  {
    var q, v, now := t.call.request, t.view, t.call.now;
    ActivationReads(s, t, held);
    assert RotationOk(s, q.rotation);
    hide TxnOk, NextOf;
    ActivationOnPart(s, v, q.agent, q.supplied, q.rotation, q.key, now);
    hide Inv, Written;
    ActivationEffect(s, q.agent, q.supplied, q.rotation, q.key, now);
    assert q.supplied in v.credentials && s.rotations[q.rotation].previous in v.credentials;
    forall c ensures ActiveFor(s, q.agent, c) <==> ActiveFor(v, q.agent, c) {
      ActiveSeen(s, v, q.agent, c);
    }
    assert IndexBlocks(v, q.agent, q.rotation) <==> IndexBlocks(s, q.agent, q.rotation);
    hide CredentialsSeen, ActiveFor, IndexBlocks, Activating;
    ActivationEffect(v, q.agent, q.supplied, q.rotation, q.key, now);
    assert ActivateRotation(v, q.agent, q.supplied, q.rotation, q.key, now).reply.Ok?;
    assert ActivateScope(q.agent, q.rotation, q.key) in ComputedAfresh(t).tables.records by { RecordEntered(v, q.agent, q.rotation, q.key, now); }
  }

  lemma RecordEntered(s: Tables, agent: nat, rotation: nat, key: nat, now: nat)
    requires rotation in s.rotations && s.rotations[rotation].previous in s.credentials && s.rotations[rotation].pending in s.credentials
    ensures ActivateScope(agent, rotation, key) in Activating(s, agent, rotation, key, now).records
  {
  }

  /** A whole transaction while another one, which holds no locks yet, is between its authentication and its
      first statement. */
  lemma Alone(w: World, txn: nat, call: Call) returns (events: seq<Event>)
    requires WorldInv(w) && w.locks == map[] && txn !in w.running && Authenticated(w.tables, call)
    requires Plain(w.tables, call.request) && Unused(w.tables, call.drawn) && GoesThrough(w.tables, call)
    ensures PossibleRun(w, events) && WorldInv(Play(w, events))
    ensures Play(w, events) == w.(tables := Step(w.tables, call).tables)
  {
    hide WorldInv, Next, Enabled, Authenticated, GoesThrough, Plain, Unused, Step;
    var begin := Event.Begin(txn, call, AsLoaded);
    Begins(w, txn, call);
    var a := Next(w, begin);
    NextKeepsInv(w, begin);
    var runs := Through(a, txn);
    var x := Play(a, runs);
    CommitsAlone(w, x, txn, call);
    NextKeepsInv(x, Commit(txn));
    PlayOne(w, begin);
    PlayAppend(w, [begin], runs);
    PlayOne(x, Commit(txn));
    PlayAppend(w, [begin] + runs, [Commit(txn)]);
    events := [begin] + runs + [Commit(txn)];
  }

  lemma Begins(w: World, txn: nat, call: Call)
    requires txn !in w.running && Authenticated(w.tables, call)
    ensures Enabled(w, Event.Begin(txn, call, AsLoaded))
    ensures Next(w, Event.Begin(txn, call, AsLoaded)) ==
            w.(running := w.running[txn := Txn(call, AsLoaded, Loaded(w.tables, call.request), {}, NOTHING)])
  {
    hide Authenticated;
  }

  lemma CommitsAlone(w: World, x: World, txn: nat, call: Call)
    requires w.locks == map[] && txn !in w.running && WorldInv(x) && txn in x.running
    requires x.tables == w.tables && x.running == w.running[txn := x.running[txn]] && NextOf(x.running[txn]).None?
    requires x.running[txn].call == call && x.running[txn].copy == Loaded(w.tables, call.request)
    requires forall l | l in x.locks :: x.locks[l] == txn
    requires Plain(w.tables, call.request) && Unused(w.tables, call.drawn) && GoesThrough(w.tables, call)
    ensures Enabled(x, Commit(txn)) && Next(x, Commit(txn)) == w.(tables := Step(w.tables, call).tables)
  {
    var s, t, held := x.tables, x.running[txn], Held(x, txn);
    assert TxnOk(s, t, held) && Inv(s);
    hide WorldInv;
    CurrentRows(s, t, held);
    SameAtOnce(s, t, held);
    hide Inv, TxnOk, Written, Step, NextOf, Held, GoesThrough;
    CurrentVersions(s, t);
    assert Insertable(s, t) by { hide Unused; }
    assert x.running - {txn} == w.running;
    hide Insertable, VersionsMatch, Effective;
  }

  /** Copies that are the rows have the rows' versions. */
  lemma CurrentVersions(s: Tables, t: Txn)
    requires Rows(t) == t.view && t.copy == Loaded(s, t.call.request) && Plain(s, t.call.request)
    ensures VersionsMatch(s, t)
  {
  }

  /* A rotation that was authenticated and then overtaken. */

  /** It is granted all the same if no rotation waits by then. */
  lemma LateEffective(s: Tables, t: Txn, held: set<Lock>)
    requires Inv(s) && TxnOk(s, t, held) && CopyOk(s, t) && NextOf(t).None? && Grants(t) && t.reading.AsLoaded?
    requires Unused(s, t.call.drawn) && forall r :: !WaitingFor(s, t.call.request.agent, r)
    ensures Effective(t) && VersionsMatch(s, t)
  {
    var q, u, now := t.call.request, Rows(t), t.call.now;
    GrantRows(s, t, held);
    GrantReads(s, t, held);
    NothingPending(s, q.agent);
    assert u.rotations == map[];
    forall c | c in u.credentials ensures u.credentials[c].phase != Pending {
      assert c == q.active || u.credentials[c] == s.credentials[c];
    }
    assert t.copy.credentials.Keys == {q.active} && t.call.drawn.credential != q.active;
    assert u.records == map[];
    hide Inv, TxnOk, NextOf, CopyOk, AgentRead, Rows, Unused;
    GrantedOnRows(u, q.agent, q.active, q.key, t.call.drawn, now);
    hide CreateRotation, Highest;
  }

  lemma GrantedOnRows(u: Tables, agent: nat, active: nat, key: nat, drawn: Drawn, now: nat)
    requires u.rotations == map[] && u.records == map[] && agent in u.agents && u.agents[agent].active
    requires active in u.credentials && u.credentials[active].phase == Active && forall c | c in u.credentials :: u.credentials[c].phase != Pending
    ensures CreateRotation(u, agent, active, key, drawn, now).tables == Rotating(u, agent, active, key, drawn, now)
  {
    assert forall r :: !WaitingFor(u, agent, r);
    hide Rotating;
  }

  lemma Late(w: World, txn: nat) returns (events: seq<Event>)
    requires WorldInv(w) && w.locks == map[] && txn in w.running && w.running[txn].done == {} && w.running[txn].reading.AsLoaded?
    requires var call := w.running[txn].call;
             && call.request.RequestRotation? && Plain(w.tables, call.request) && Unused(w.tables, call.drawn)
             && ScopeOf(call.request).value !in w.tables.records && forall r :: !WaitingFor(w.tables, call.request.agent, r)
    ensures PossibleRun(w, events) && Inv(w.tables)
    ensures Play(w, events).tables == Granted(w.tables, w.running[txn].call)
  {
    assert Inv(w.tables);
    hide WorldInv, Next, Enabled, Plain, Unused, Granted, Inv;
    events := Through(w, txn);
    var x := Play(w, events);
    LateCommits(x, txn);
    PlayOne(x, Commit(txn));
    PlayAppend(w, events, [Commit(txn)]);
    events := events + [Commit(txn)];
  }

  lemma LateCommits(x: World, txn: nat)
    requires WorldInv(x) && txn in x.running && NextOf(x.running[txn]).None? && x.running[txn].reading.AsLoaded?
    requires var call := x.running[txn].call;
             && call.request.RequestRotation? && Unused(x.tables, call.drawn)
             && ScopeOf(call.request).value !in x.tables.records && forall r :: !WaitingFor(x.tables, call.request.agent, r)
    ensures Enabled(x, Commit(txn)) && Inv(x.tables) && Next(x, Commit(txn)).tables == Granted(x.tables, x.running[txn].call)
  {
    var s, t, held := x.tables, x.running[txn], Held(x, txn);
    assert TxnOk(s, t, held) && CopyOk(s, t) && Inv(s);
    assert Grants(t) by { hide Inv, WorldInv; }
    LateEffective(s, t, held);
    assert Insertable(s, t) by { hide WorldInv, TxnOk, CopyOk, Inv; }
    hide WorldInv, TxnOk, CopyOk, Inv, NextOf, Held, Unused, Effective, VersionsMatch, Granted;
    CommitIsGranted(x, txn);
  }

  lemma CommitIsGranted(x: World, txn: nat)
    requires WorldInv(x) && Enabled(x, Commit(txn)) && Effective(x.running[txn]) && Grants(x.running[txn])
    ensures Inv(x.tables) && Next(x, Commit(txn)).tables == Granted(x.tables, x.running[txn].call)
  {
    hide WorldInv, Enabled, Next, Effective, Granted, Inv, Step, Admissible, Ages;
    CommitEffect(x, txn);
  }

  /* The two runs. */

  /** An agent is enrolled. */
  ghost predicate OneEnrolled(s: Tables) {
    && Reachable(s) && s.agents == map[1 := Agent(true, 5)] && s.rotations == map[]
    && s.credentials.Keys == {11} && s.credentials[11].agent == 1 && s.credentials[11].phase == Active && s.credentials[11].expires == 1 + CREDENTIAL_LIFE
    && s.records.Keys == {RegisterScope(1, 5, 6)} && s.tokens.Keys == {1}
  }

  lemma OneAgent() returns (s: Tables)
    ensures OneEnrolled(s)
  {
    hide Step, Reachable;
    var enroll, register := Call(RequestToken(1, None, 100), Drawn(0, 0, 0), 0), Call(RequestRegistration(1, 5, 6, 8, true), Drawn(1, 11, 0), 1);
    NothingReachable();
    FirstToken(enroll);
    OneMoreCall(NOTHING, enroll);
    var a := Step(NOTHING, enroll).tables;
    FirstRegistration(a, register);
    OneMoreCall(a, register);
    s := Step(a, register).tables;
  }

  /** A rotation that has been authenticated, and nothing more. */
  const LATE: Call := Call(RequestRotation(1, 11, 7), Drawn(2, 13, 22), 3)

  lemma LateBegins(s: Tables) returns (w: World)
    requires OneEnrolled(s)
    ensures Enabled(Idle(s), Event.Begin(0, LATE, AsLoaded)) && w == Next(Idle(s), Event.Begin(0, LATE, AsLoaded)) && WorldInv(w)
    ensures w == World(s, map[0 := w.running[0]], map[]) && 0 in w.running
    ensures w.running[0].call == LATE && w.running[0].reading == AsLoaded && w.running[0].done == {}
  {
    ReachableInv(s);
    assert WorldInv(Idle(s)) by { hide Inv; }
    assert Authenticated(s, LATE) by { hide Inv; }
    hide Inv, WorldInv, Authenticated, Reachable;
    Begins(Idle(s), 0, LATE);
    w := Next(Idle(s), Event.Begin(0, LATE, AsLoaded));
    hide Next, Enabled;
    NextKeepsInv(Idle(s), Event.Begin(0, LATE, AsLoaded));
  }

  /** The agent is revoked after its request for a rotation was authenticated: it gets a pending credential
      and a waiting rotation. */
  lemma GrantedToRevoked()
    ensures exists s, events :: Reachable(s) && PossibleRun(Idle(s), events)
              && var x := Play(Idle(s), events).tables;
              && 1 in x.agents && !x.agents[1].active && 13 in x.credentials && x.credentials[13].agent == 1 && x.credentials[13].phase == Pending
              && WaitingFor(x, 1, 22)
  {
    hide Next, Enabled, PossibleRun, Play, WorldInv, Inv, Reachable;
    var s := OneAgent();
    var w := LateBegins(s);
    var revoke := Call(RequestAgentRevocation(1), Drawn(3, 14, 23), 3);
    var first := Alone(w, 1, revoke);
    var x := Play(w, first);
    assert x.tables == RevokeAgent(s, 1).tables;
    var second := Late(x, 0);
    var begin := Event.Begin(0, LATE, AsLoaded);
    PlayOne(Idle(s), begin);
    PlayAppend(Idle(s), [begin], first);
    PlayAppend(Idle(s), [begin] + first, second);
    RevokedThenGranted(s, x.tables);
    var events := [begin] + first + second;
    assert PossibleRun(Idle(s), events) && Play(Idle(s), events).tables == Granted(x.tables, LATE);
  }

  lemma RevokedThenGranted(s: Tables, r: Tables)
    requires OneEnrolled(s) && r == RevokeAgent(s, 1).tables && Inv(r)
    ensures var x := Granted(r, LATE);
            && 1 in x.agents && !x.agents[1].active && 13 in x.credentials && x.credentials[13].agent == 1 && x.credentials[13].phase == Pending
            && WaitingFor(x, 1, 22)
  {
    assert r.rotations == map[];
    assert forall q :: !WaitingFor(r, 1, q);
    hide Highest, Inv;
  }

  /** The presented credential is rotated away after the request was authenticated: a rotation that replaces
      the revoked credential waits, and though nobody recovered, the one-active index refuses to activate
      it. */
  lemma GrantedFromRotated()
    ensures exists s, events :: Reachable(s) && PossibleRun(Idle(s), events)
              && var x := Play(Idle(s), events).tables;
              && WaitingFor(x, 1, 22) && x.rotations[22].previous == 11 && 11 in x.credentials && x.credentials[11].phase == Revoked
              && ActiveFor(x, 1, 12) && ActivateRotation(x, 1, 13, 22, 9, 3).reply == Err(IntegrityError)
  {
    hide Next, Enabled, PossibleRun, Play, WorldInv, Inv, Reachable, Step;
    var s := OneAgent();
    var w := LateBegins(s);
    var rotate := Call(RequestRotation(1, 11, 6), Drawn(0, 12, 21), 2);
    FirstRotation(s, rotate);
    RotateReady(s, rotate);
    var first := Alone(w, 1, rotate);
    var x := Play(w, first);
    var activate := Call(RequestActivation(1, 12, 21, 8), Drawn(3, 14, 23), 3);
    ActivateReady(x.tables, activate);
    var second := Alone(x, 1, activate);
    var y := Play(x, second);
    LateReady(x.tables, y.tables, activate);
    var third := Late(y, 0);
    var begin := Event.Begin(0, LATE, AsLoaded);
    PlayOne(Idle(s), begin);
    PlayAppend(Idle(s), [begin], first);
    PlayAppend(Idle(s), [begin] + first, second);
    PlayAppend(Idle(s), [begin] + first + second, third);
    RotatedThenGranted(y.tables);
    var events := [begin] + first + second + third;
    assert PossibleRun(Idle(s), events) && Play(Idle(s), events).tables == Granted(y.tables, LATE);
  }

  lemma RotateReady(s: Tables, call: Call)
    requires OneEnrolled(s) && call == Call(RequestRotation(1, 11, 6), Drawn(0, 12, 21), 2)
    ensures Authenticated(s, call) && Plain(s, call.request) && Unused(s, call.drawn) && GoesThrough(s, call)
  {
  }

  lemma ActivateReady(s: Tables, call: Call)
    requires s.agents == map[1 := Agent(true, 5)] && Rotated(s) && s.credentials.Keys == {11, 12} && s.credentials[11].phase == Active
    requires s.records.Keys == {RegisterScope(1, 5, 6), RotateScope(1, 6)} && s.credentials[12].expires == 2 + WINDOW
    requires call == Call(RequestActivation(1, 12, 21, 8), Drawn(3, 14, 23), 3)
    ensures Authenticated(s, call) && Plain(s, call.request) && Unused(s, call.drawn) && GoesThrough(s, call)
    ensures Step(s, call).tables == Activating(s, 1, 21, 8, 3)
  {
    assert !IndexBlocks(s, 1, 21);
    hide IndexBlocks, Activating;
  }

  ghost predicate Overtaken(y: Tables) {
    && y.agents == map[1 := Agent(true, 5)] && y.credentials.Keys == {11, 12} && y.rotations.Keys == {21}
    && y.credentials[11].agent == y.credentials[12].agent == 1 && y.credentials[11].phase == Revoked && y.credentials[12].phase == Active
    && y.rotations[21].phase == RotationPhase.Activated
    && y.records.Keys == {RegisterScope(1, 5, 6), RotateScope(1, 6), ActivateScope(1, 21, 8)}
  }

  lemma LateReady(s: Tables, y: Tables, call: Call)
    requires s.agents == map[1 := Agent(true, 5)] && Rotated(s) && s.credentials.Keys == {11, 12}
    requires s.records.Keys == {RegisterScope(1, 5, 6), RotateScope(1, 6)} && y == Activating(s, 1, 21, 8, 3)
    ensures Overtaken(y) && Plain(y, LATE.request) && Unused(y, LATE.drawn) && ScopeOf(LATE.request).value !in y.records
    ensures forall r :: !WaitingFor(y, 1, r)
  {
  }

  lemma RotatedThenGranted(y: Tables)
    requires Overtaken(y) && Inv(y)
    ensures var x := Granted(y, LATE);
            && WaitingFor(x, 1, 22) && x.rotations[22].previous == 11 && 11 in x.credentials && x.credentials[11].phase == Revoked
            && ActiveFor(x, 1, 12) && ActivateRotation(x, 1, 13, 22, 9, 3).reply == Err(IntegrityError)
  {
    assert forall r :: !WaitingFor(y, 1, r);
    hide Inv, Highest;
    var x := Granted(y, LATE);
    assert x.rotations[22] == Rotation(1, 11, 13, Waiting, 3 + WINDOW) && x.credentials[13].phase == Pending;
    assert ActiveFor(x, 1, 12);
    assert IndexBlocks(x, 1, 22);
    hide IndexBlocks, Granted;
  }
}
