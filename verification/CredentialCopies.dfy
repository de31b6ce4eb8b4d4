/** What the copies that authentication loaded change: nothing for replays and activations; a rotation is
    granted although the agent or the presented credential was revoked in between. */
module CredentialCopies {
  import opened Options
  import opened CredentialState
  import opened CredentialSafety
  import opened CredentialLifecycle
  import opened CredentialLocality
  import opened CredentialInterleaving

  /** The transaction asks for a new rotation. */
  predicate Grants(t: Txn) {
    t.call.request.RequestRotation? && !Known(t)
  }

  /** What authentication saw is still so. */
  ghost predicate StillGood(s: Tables, q: Request) {
    q.RequestRotation? ==>
      q.agent in s.agents && s.agents[q.agent].active && q.active in s.credentials && s.credentials[q.active].phase == Active
  }

  /** How tables may change under a transaction that has been authenticated. */
  ghost predicate Ages(s: Tables, x: Tables) {
    && CredentialsAge(s, x)
    && (forall c | c in s.credentials && s.credentials[c].phase != Pending :: x.credentials[c].phase != Pending)
    && (forall r | r in x.rotations && x.rotations[r].phase == Waiting ::
          || (r in s.rotations && s.rotations[r].phase == Waiting && s.rotations[r].pending == x.rotations[r].pending)
          || x.rotations[r].pending !in s.credentials)
    && (forall a | a in s.agents :: a in x.agents)
    && (forall c | c in s.credentials && x.credentials[c].phase == Pending && StaysActive(s, s.credentials[c].agent) :: StaysActive(x, s.credentials[c].agent))
  }

  predicate StaysActive(s: Tables, agent: nat) {
    agent in s.agents && s.agents[agent].active
  }

  lemma CopyKept(s: Tables, x: Tables, t: Txn)
    requires CopyOk(s, t) && Ages(s, x)
    ensures CopyOk(x, t)
  {
  }

  lemma AgesNot(s: Tables)
    ensures Ages(s, s)
  {
  }

  lemma CreateAgesOn(s: Tables, agent: nat, active: nat, key: nat, drawn: Drawn, now: nat)
    requires Inv(s) && Unused(s, drawn) && active in s.credentials && s.credentials[active].agent == agent
    ensures Ages(s, CreateRotation(s, agent, active, key, drawn, now).tables)
  {
    WaitingKnown(s, agent);
    CreateAges(s, agent, active, key, drawn, now);
    hide Inv, Highest, CreateRotation;
    CreateShape(s, agent, active, key, drawn, now);
    ExpireAges(s, WaitingRotation(s, agent), now);
    RotatingAges(s, Expire(s, WaitingRotation(s, agent), now), agent, active, key, drawn, now);
    AgesNot(s);
    hide Ages, Expire, Rotating;
  }

  lemma ExpireAges(s: Tables, r: Option<nat>, now: nat)
    requires r.Some? ==> r.value in s.rotations
    ensures Ages(s, Expire(s, r, now))
    ensures var x := Expire(s, r, now);
            x == s.(rotations := x.rotations, credentials := x.credentials) && x.credentials.Keys == s.credentials.Keys && x.rotations.Keys == s.rotations.Keys
  {
  }

  lemma RotatingAges(s: Tables, x: Tables, agent: nat, active: nat, key: nat, drawn: Drawn, now: nat)
    requires Ages(s, x) && Unused(s, drawn) && x == s.(rotations := x.rotations, credentials := x.credentials)
    requires x.credentials.Keys == s.credentials.Keys && x.rotations.Keys == s.rotations.Keys
    ensures Ages(s, Rotating(x, agent, active, key, drawn, now))
  {
    hide Highest;
  }

  lemma ActivateAgesOn(s: Tables, agent: nat, supplied: nat, rotation: nat, key: nat, now: nat)
    ensures Ages(s, ActivateRotation(s, agent, supplied, rotation, key, now).tables)
  {
    ActivateAges(s, agent, supplied, rotation, key, now);
    hide IndexBlocks;
  }

  lemma RegisterAgesOn(s: Tables, token: nat, installation: nat, key: nat, fingerprint: nat, platformAllowed: bool, drawn: Drawn, now: nat)
    requires Unused(s, drawn)
    ensures Ages(s, Register(s, token, installation, key, fingerprint, platformAllowed, drawn, now).tables)
  {
    hide Ages, Issued, Enrolled;
    AgesNot(s);
    if token in s.tokens {
      var scope, bound := RegisterScope(token, installation, key), s.tokens[token].bound;
      if bound.Some? && bound.value in s.agents {
        IssuedAges(s, bound.value, installation, token, scope, fingerprint, drawn, now);
      }
      IssuedAges(s, drawn.agent, installation, token, scope, fingerprint, drawn, now);
    }
  }

  lemma IssuedAges(s: Tables, agent: nat, installation: nat, token: nat, scope: Scope, fingerprint: nat, drawn: Drawn, now: nat)
    requires Unused(s, drawn) && token in s.tokens
    ensures Ages(s, Issued(Enrolled(s, agent, installation), agent, token, scope, fingerprint, drawn, now))
  {
    hide Highest;
  }

  lemma StepAgesOn(s: Tables, call: Call)
    requires Inv(s) && Admissible(s, call)
    ensures Ages(s, Step(s, call).tables)
  {
    hide Inv, CreateRotation, ActivateRotation, Register, Ages;
    match call.request
    case RequestRotation(agent, active, key) => CreateAgesOn(s, agent, active, key, call.drawn, call.now);
    case RequestActivation(agent, supplied, rotation, key) => ActivateAgesOn(s, agent, supplied, rotation, key, call.now);
    case RequestRegistration(token, installation, key, fingerprint, platformAllowed) =>
      RegisterAgesOn(s, token, installation, key, fingerprint, platformAllowed, call.drawn, call.now);
    case _ => AdministrationAges(s, call);
  }

  lemma AdministrationAges(s: Tables, call: Call)
    requires ScopeOf(call.request).None?
    ensures Ages(s, Step(s, call).tables)
  {
    hide CreateRotation, ActivateRotation, Register;
  }

  lemma LoadedOk(s: Tables, call: Call, reading: Reading)
    requires Inv(s) && Authenticated(s, call)
    ensures CopyOk(s, Txn(call, reading, Loaded(s, call.request), {}, NOTHING))
  {
    if call.request.RequestRotation? {
      forall r | r in s.rotations && s.rotations[r].phase == Waiting ensures s.rotations[r].pending != call.request.active {
        assert RotationOk(s, r);
      }
    }
    hide Inv;
  }

  /* Where the copies make no difference. */

  lemma PlainRows(s: Tables, t: Txn, held: set<Lock>)
    requires TxnOk(s, t, held) && CopyOk(s, t) && NextOf(t).None?
    requires t.reading.Afresh? || ScopeOf(t.call.request).None? || t.call.request.RequestRegistration? || Known(t)
    ensures Rows(t) == t.view
  {
    if t.reading.AsLoaded? && t.call.request.RequestRotation? {
      assert t.view.agents == map[];
      forall c | c in t.view.credentials ensures c != t.call.request.active {
        var r :| r in t.view.rotations && t.view.rotations[r].pending == c;
        assert s.rotations[r] == t.view.rotations[r] && WaitingFor(s, t.call.request.agent, r);
      }
    }
  }

  /** A credential that is activated is updated, so its version column was compared; and its agent cannot
      have been revoked, or it would have been too. */
  lemma ActivationCopied(s: Tables, t: Txn, held: set<Lock>)
    requires TxnOk(s, t, held) && CopyOk(s, t) && NextOf(t).None? && t.call.request.RequestActivation? && !Known(t)
    requires Effective(t) && VersionsMatch(s, t)
    ensures ComputedAfresh(t).tables != t.view && Computed(t).reply == ComputedAfresh(t).reply
    ensures Written(s, Rows(t), Computed(t).tables) == Written(s, t.view, ComputedAfresh(t).tables)
  {
    var q, v, u := t.call.request, t.view, Rows(t);
    ActivationReads(s, t, held);
    hide TxnOk, InOrder, NextOf, Written;
    assert ActivateScope(q.agent, q.rotation, q.key) !in u.records;
    ActivationEffect(u, q.agent, q.supplied, q.rotation, q.key, t.call.now);
    ActivatingUpdates(u, q.agent, q.rotation, q.key, t.call.now);
    if t.reading.AsLoaded? {
      assert u.credentials[q.supplied].phase == Pending by { ActivatesPending(u, q.agent, q.supplied, q.rotation, q.key, t.call.now); }
      assert s.credentials[q.supplied] == t.copy.credentials[q.supplied];
      assert u.credentials == v.credentials;
      assert s.agents[q.agent].active;
      SameButAgent(s, v, u, q, t.call.now);
    }
  }

  lemma ActivatesPending(s: Tables, agent: nat, supplied: nat, rotation: nat, key: nat, now: nat)
    requires ActivateRotation(s, agent, supplied, rotation, key, now).tables != s
    ensures supplied in s.credentials && s.credentials[supplied].phase == Pending
  {
    hide Activating, IndexBlocks;
  }

  lemma ActivatingUpdates(s: Tables, agent: nat, rotation: nat, key: nat, now: nat)
    requires rotation in s.rotations && s.rotations[rotation].previous in s.credentials && s.rotations[rotation].pending in s.credentials
    ensures var x, p := Activating(s, agent, rotation, key, now), s.rotations[rotation].pending;
            p in x.credentials && x.credentials[p].phase == Active
  {
  }

  /** Nothing but whether the agent is active matters of its row. */
  lemma SameButAgent(s: Tables, v: Tables, u: Tables, q: Request, now: nat)
    requires q.RequestActivation? && q.agent in s.agents && s.agents[q.agent].active
    requires v.agents == map[q.agent := s.agents[q.agent]] && u == v.(agents := u.agents) && u.agents.Keys == {q.agent} && u.agents[q.agent].active
    ensures var a, b := ActivateRotation(u, q.agent, q.supplied, q.rotation, q.key, now), ActivateRotation(v, q.agent, q.supplied, q.rotation, q.key, now);
            && a.reply == b.reply && (a.tables != u <==> b.tables != v)
            && Written(s, u, a.tables) == Written(s, v, b.tables)
  {
    var a, b := ActivateRotation(u, q.agent, q.supplied, q.rotation, q.key, now), ActivateRotation(v, q.agent, q.supplied, q.rotation, q.key, now);
    forall c ensures ActiveFor(u, q.agent, c) <==> ActiveFor(v, q.agent, c) {
    }
    assert q.rotation in v.rotations ==> (IndexBlocks(u, q.agent, q.rotation) <==> IndexBlocks(v, q.agent, q.rotation));
    assert a.reply == b.reply && a.tables == b.tables.(agents := u.agents) && b.tables.agents == v.agents;
    assert Put(s.agents, u.agents, u.agents) == Put(s.agents, v.agents, v.agents);
  }

  /* Where they do: a rotation. */

  /** What granting a rotation leaves, whatever has become of the agent and the presented credential. */
  ghost function Granted(s: Tables, call: Call): (x: Tables)
    requires Inv(s) && call.request.RequestRotation?
  {
    var q := call.request;
    WaitingKnown(s, q.agent);
    Rotating(Expire(s, WaitingRotation(s, q.agent), call.now), q.agent, q.active, q.key, call.drawn, call.now)
  }

  lemma PutOverlaid<K, V>(committed: map<K, V>, read: map<K, V>, written: map<K, V>, k: K, copy: V)
    requires k in committed && k in read && k in written && written[k] == read[k]
    ensures Put(committed, read[k := copy], written[k := copy]) == Put(committed, read, written)
  {
  }

  /** The rows computed with are the rows selected, but for the agent's and the presented credential's. */
  lemma GrantRows(s: Tables, t: Txn, held: set<Lock>)
    requires TxnOk(s, t, held) && CopyOk(s, t) && NextOf(t).None? && Grants(t) && Inv(s)
    ensures var q, u := t.call.request, Rows(t);
            && q.active in t.view.credentials && q.active in u.credentials && q.agent in u.agents && u.agents[q.agent].active == (t.reading.AsLoaded? || s.agents[q.agent].active)
            && q.agent in s.agents && u.agents.Keys == {q.agent} && t.view.agents == map[q.agent := s.agents[q.agent]]
            && u == t.view.(agents := u.agents, credentials := t.view.credentials[q.active := u.credentials[q.active]])
            && u.credentials[q.active].phase == (if t.reading.AsLoaded? then Active else s.credentials[q.active].phase)
            && u.credentials[q.active].agent == q.agent && u.credentials[q.active].version == s.credentials[q.active].version
            && (t.reading.Afresh? ==> u == t.view)
  {
    var q := t.call.request;
    GrantReads(s, t, held);
    hide Inv, TxnOk, NextOf;
    CredentialIsRead(s, t.view, q.agent, q.active);
    assert t.view.agents == map[q.agent := s.agents[q.agent]];
    assert Rows(t).credentials == t.view.credentials[q.active := Rows(t).credentials[q.active]];
  }

  /** Expiring the waiting rotation does not touch the presented credential. */
  lemma ExpireBeside(v: Tables, u: Tables, r: Option<nat>, now: nat, c: nat, copy: Credential)
    requires r.Some? ==> r.value in v.rotations && v.rotations[r.value].pending != c
    requires c in v.credentials && u == v.(agents := u.agents, credentials := v.credentials[c := copy])
    ensures var y, z := Expire(v, r, now), Expire(u, r, now);
            && z == y.(agents := u.agents, credentials := y.credentials[c := copy])
            && c in y.credentials && y.credentials[c] == v.credentials[c] && y.agents == v.agents && y.tokens == v.tokens && y.records == v.records
  {
  }

  lemma SameRotationsWait(y: Tables, z: Tables, agent: nat)
    requires z.rotations == y.rotations
    ensures WaitingRotation(z, agent).Some? <==> WaitingRotation(y, agent).Some?
  {
    if WaitingRotation(z, agent).Some? {
      assert WaitingFor(y, agent, WaitingRotation(z, agent).value);
    }
    if WaitingRotation(y, agent).Some? {
      assert WaitingFor(z, agent, WaitingRotation(y, agent).value);
    }
  }

  /** What a call comes to once its scope is new, if it comes to anything. */
  lemma EffectOfGrant(u: Tables, r: Option<nat>, agent: nat, active: nat, key: nat, drawn: Drawn, now: nat)
    requires RotateScope(agent, key) !in u.records && r == WaitingRotation(u, agent) && CreateRotation(u, agent, active, key, drawn, now).tables != u
    ensures r.Some? ==> r.value in u.rotations
    ensures var z := Expire(u, r, now);
            && CreateRotation(u, agent, active, key, drawn, now) == Outcome(Rotating(z, agent, active, key, drawn, now), Ok(RotationBody(drawn.rotation, drawn.credential)))
            && WaitingRotation(z, agent).None? && agent in u.agents && u.agents[agent].active
            && active in z.credentials && z.credentials[active].phase == Active
  {
    hide Rotating, Expire, WaitingRotation;
  }

  lemma GrantCopied(s: Tables, t: Txn, held: set<Lock>)
    requires Inv(s) && TxnOk(s, t, held) && CopyOk(s, t) && NextOf(t).None? && Grants(t) && Effective(t) && Insertable(s, t)
    ensures Written(s, Rows(t), Computed(t).tables) == Granted(s, t.call)
    ensures Computed(t).reply == Ok(RotationBody(t.call.drawn.rotation, t.call.drawn.credential))
    ensures WaitingRotation(Expire(s, WaitingRotation(s, t.call.request.agent), t.call.now), t.call.request.agent).None?
    ensures t.reading.Afresh? ==> StillGood(s, t.call.request)
  {
    var q, v, u, d, now := t.call.request, t.view, Rows(t), t.call.drawn, t.call.now;
    var r := WaitingRotation(s, q.agent);
    GrantRows(s, t, held);
    GrantReads(s, t, held);
    StillWaiting(s, v, q.agent, now);
    WaitingKnown(s, q.agent);
    ExpireOnPart(s, v, q.agent, r, now);
    assert r.Some? ==> v.rotations[r.value] == s.rotations[r.value] && v.rotations[r.value].pending != q.active;
    assert forall p | p in u.rotations :: WaitingFor(s, q.agent, p) && u.rotations[p] == s.rotations[p];
    assert Unused(s, d);
    WaitingIsAll(s, v, q.agent);
    SameWaiting(s, u, q.agent);
    hide Inv, TxnOk, CopyOk, NextOf, WaitingRotation, Insertable, Rows, AgentRead;
    GrantOverlaid(s, v, u, r, q.agent, q.active, q.key, d, now);
  }

  lemma WaitingIsAll(s: Tables, v: Tables, agent: nat)
    requires AgentRead(s, v, agent)
    ensures forall r | WaitingFor(s, agent, r) :: r in v.rotations
  {
  }

  lemma GrantOverlaid(s: Tables, v: Tables, u: Tables, r: Option<nat>, agent: nat, active: nat, key: nat, drawn: Drawn, now: nat)
    requires AgentRead(s, v, agent) && Unused(s, drawn) && v.records == map[] && v.tokens == map[] && RotateScope(agent, key) !in s.records
    requires active in s.credentials && active in v.credentials && active in u.credentials
    requires u == v.(agents := u.agents, credentials := v.credentials[active := u.credentials[active]])
    requires u.credentials[active].agent == agent && u.credentials[active].version == s.credentials[active].version
    requires r == WaitingRotation(u, agent) == WaitingRotation(s, agent)
    requires r.Some? ==> r.value in v.rotations && r.value in s.rotations && v.rotations[r.value].pending != active
    requires ChangedAlike(s, v, Expire(s, r, now), Expire(v, r, now))
    requires WaitingRotation(Expire(v, r, now), agent).Some? <==> WaitingRotation(Expire(s, r, now), agent).Some?
    requires CreateRotation(u, agent, active, key, drawn, now).tables != u
    requires u.agents.Keys == {agent} && v.agents == map[agent := s.agents[agent]]
    ensures Written(s, u, CreateRotation(u, agent, active, key, drawn, now).tables) == Rotating(Expire(s, r, now), agent, active, key, drawn, now)
    ensures CreateRotation(u, agent, active, key, drawn, now).reply == Ok(RotationBody(drawn.rotation, drawn.credential))
    ensures WaitingRotation(Expire(s, r, now), agent).None?
    ensures u.agents[agent].active && u.credentials[active].phase == Active
  {
    var copy := u.credentials[active];
    var x, y, z := Expire(s, r, now), Expire(v, r, now), Expire(u, r, now);
    ExpireBeside(v, u, r, now, active, copy);
    SameRotationsWait(y, z, agent);
    EffectOfGrant(u, r, agent, active, key, drawn, now);
    ExpireKeepsAgents(s, r, now);
    HighestOverlaid(s, v, x, y, z, agent, active, copy);
    hide Expire, Highest, WaitingRotation, CreateRotation;
    GrantWritten(s, v, x, y, agent, active, key, drawn, now);
    RotatingOverlaid(s, v, u, y, z, agent, active, key, drawn, now, copy);
    hide Written, Rotating;
  }

  lemma HighestOverlaid(s: Tables, v: Tables, x: Tables, y: Tables, z: Tables, agent: nat, active: nat, copy: Credential)
    requires AgentRead(s, v, agent) && ChangedAlike(s, v, x, y) && active in v.credentials && z.credentials == y.credentials[active := copy]
    requires copy.agent == agent && active in s.credentials && copy.version == s.credentials[active].version
    requires forall c | c in s.credentials :: x.credentials[c].agent == s.credentials[c].agent
    requires active in y.credentials && y.credentials[active] == v.credentials[active]
    ensures Highest(y, agent) == Highest(x, agent) == Highest(z, agent)
  {
    hide Highest;
    SameHighestOf(x, y, agent);
    assert v.credentials[active] == s.credentials[active];
    SameHighestOf(x, z, agent);
  }

  lemma RotatingOverlaid(s: Tables, v: Tables, u: Tables, y: Tables, z: Tables, agent: nat, active: nat, key: nat, drawn: Drawn, now: nat, copy: Credential)
    requires Highest(z, agent) == Highest(y, agent) && active in s.credentials && active in v.credentials && drawn.credential !in s.credentials
    requires u == v.(agents := u.agents, credentials := v.credentials[active := copy])
    requires z == y.(agents := u.agents, credentials := y.credentials[active := copy]) && y.agents == v.agents
    requires active in y.credentials && y.credentials[active] == v.credentials[active]
    requires u.agents.Keys == v.agents.Keys && v.agents.Keys <= s.agents.Keys
    ensures Written(s, u, Rotating(z, agent, active, key, drawn, now)) == Written(s, v, Rotating(y, agent, active, key, drawn, now))
  {
    var a, b := Rotating(y, agent, active, key, drawn, now), Rotating(z, agent, active, key, drawn, now);
    hide Highest;
    assert b.credentials == a.credentials[active := copy];
    PutOverlaid(s.credentials, v.credentials, a.credentials, active, copy);
    assert Put(s.agents, u.agents, u.agents) == Put(s.agents, v.agents, v.agents);
    assert b == a.(agents := u.agents, credentials := b.credentials) && a.agents == v.agents;
    hide Put, Rotating;
  }

  /** What the expiry leaves of the presented credential, and of the pending ones. */
  lemma BesideExpiry(s: Tables, t: Txn)
    requires Inv(s) && CopyOk(s, t) && t.call.request.RequestRotation?
    ensures var q := t.call.request;
            var x := Expire(s, WaitingRotation(s, q.agent), t.call.now);
            && Inv(x) && q.active in x.credentials && x.credentials[q.active] == s.credentials[q.active]
            && x == s.(rotations := x.rotations, credentials := x.credentials)
            && x.credentials.Keys == s.credentials.Keys && x.rotations.Keys == s.rotations.Keys
  {
    var q := t.call.request;
    WaitingKnown(s, q.agent);
    KeepExpire(s, q.agent, t.call.now);
    hide Inv, WaitingRotation;
  }

  /** A granted rotation keeps the tables in order and stays within the transaction's locks. */
  lemma GrantedKeeps(s: Tables, t: Txn, held: set<Lock>)
    requires Inv(s) && TxnOk(s, t, held) && CopyOk(s, t) && NextOf(t).None? && Grants(t) && Insertable(s, t)
    requires WaitingRotation(Expire(s, WaitingRotation(s, t.call.request.agent), t.call.now), t.call.request.agent).None?
    ensures Inv(Granted(s, t.call)) && Within(s, Granted(s, t.call), held) && Ages(s, Granted(s, t.call))
  {
    var q, d, now := t.call.request, t.call.drawn, t.call.now;
    var r := WaitingRotation(s, q.agent);
    GrantReads(s, t, held);
    BesideExpiry(s, t);
    WaitingKnown(s, q.agent);
    var x := Expire(s, r, now);
    assert Unused(x, d) && q.agent in x.agents;
    assert r.Some? && s.credentials[s.rotations[r.value].pending].phase == Pending ==> CredentialRow(s.rotations[r.value].pending) in held;
    assert r.Some? ==> RotationRow(r.value) in held;
    assert q.active in x.credentials && x.credentials[q.active].agent == q.agent && x.credentials[q.active].phase != Pending;
    assert RotateScope(q.agent, q.key) !in x.records && ScopeLock(RotateScope(q.agent, q.key)) in held;
    hide TxnOk, CopyOk, NextOf, Inv, AgentRead, WaitingRotation, Expire, Insertable;
    KeepRotating(x, q.agent, q.active, q.key, d, now);
    ExpireWithin(s, q.agent, r, now, held);
    RotatingWithin(s, x, q.agent, q.active, q.key, d, now, held);
    ExpireAges(s, r, now);
    RotatingAges(s, x, q.agent, q.active, q.key, d, now);
    hide Within, Ages, Rotating;
  }

  /** A rotation that is granted is the one that would be granted at once if and only if what authentication
      saw is still so. */
  lemma GrantedIffStillGood(s: Tables, t: Txn)
    requires Inv(s) && CopyOk(s, t) && Grants(t) && RotateScope(t.call.request.agent, t.call.request.key) !in s.records
    requires WaitingRotation(Expire(s, WaitingRotation(s, t.call.request.agent), t.call.now), t.call.request.agent).None?
    ensures Granted(s, t.call) == Step(s, t.call).tables <==> StillGood(s, t.call.request)
    ensures StillGood(s, t.call.request) ==> Step(s, t.call).reply == Ok(RotationBody(t.call.drawn.rotation, t.call.drawn.credential))
  {
    var q := t.call.request;
    BesideExpiry(s, t);
    var r := WaitingRotation(s, q.agent);
    var x := Expire(s, r, t.call.now);
    NothingPending(x, q.agent);
    WaitingKnown(s, q.agent);
    hide Inv, WaitingRotation, Expire, CopyOk;
    DecidesAtOnce(s, x, r, q.agent, q.active, q.key, t.call.drawn, t.call.now);
    assert RotateScope(q.agent, q.key) in Granted(s, t.call).records by { hide Highest; }
    hide Rotating, CreateRotation;
  }

  lemma DecidesAtOnce(s: Tables, x: Tables, r: Option<nat>, agent: nat, active: nat, key: nat, drawn: Drawn, now: nat)
    requires RotateScope(agent, key) !in s.records && r == WaitingRotation(s, agent) && (r.Some? ==> r.value in s.rotations) && x == Expire(s, r, now)
    requires WaitingRotation(x, agent).None? && active in s.credentials && active in x.credentials && x.credentials[active] == s.credentials[active]
    requires forall c | c in x.credentials && x.credentials[c].agent == agent :: x.credentials[c].phase != Pending
    ensures CreateRotation(s, agent, active, key, drawn, now) ==
            if agent in s.agents && s.agents[agent].active && s.credentials[active].phase == Active then
              Outcome(Rotating(x, agent, active, key, drawn, now), Ok(RotationBody(drawn.rotation, drawn.credential)))
            else Outcome(s, Err(AuthenticationError))
  {
    hide Rotating, Expire, WaitingRotation;
  }

  /** What a commit does to the tables, whichever way rows loaded before are read. */
  lemma CommitOutcome(s: Tables, t: Txn, held: set<Lock>)
    requires Inv(s) && TxnOk(s, t, held) && CopyOk(s, t) && NextOf(t).None?
    requires Effective(t) ==> Insertable(s, t) && VersionsMatch(s, t)
    ensures var after := Written(s, Rows(t), Computed(t).tables);
            if !Effective(t) then after == s
            else
              && Inv(after) && Within(s, after, held) && Ages(s, after)
              && (after == Step(s, t.call).tables <==> (Grants(t) ==> StillGood(s, t.call.request)))
              && (after == Step(s, t.call).tables ==> Computed(t).reply == Step(s, t.call).reply)
              && (Grants(t) ==> after == Granted(s, t.call))
  {
    if !Effective(t) {
      RowsArePart(s, t, held);
      WrittenNothing(s, Rows(t));
    } else if Grants(t) {
      assert RotateScope(t.call.request.agent, t.call.request.key) !in s.records by { hide Inv; }
      hide Written, Computed, Effective;
      GrantCopied(s, t, held);
      hide TxnOk;
      GrantedOutcome(s, t, held);
    } else {
      SerialOutcome(s, t, held);
    }
  }

  lemma RowsArePart(s: Tables, t: Txn, held: set<Lock>)
    requires TxnOk(s, t, held)
    ensures Rows(t).agents.Keys <= s.agents.Keys && Rows(t).credentials.Keys <= s.credentials.Keys && Rows(t).rotations.Keys <= s.rotations.Keys
    ensures Rows(t).tokens.Keys <= s.tokens.Keys && Rows(t).records.Keys <= s.records.Keys
  {
    ViewIsPart(s, t, held);
    hide TxnOk;
  }

  lemma GrantedOutcome(s: Tables, t: Txn, held: set<Lock>)
    requires Inv(s) && TxnOk(s, t, held) && CopyOk(s, t) && NextOf(t).None? && Grants(t) && Insertable(s, t)
    requires RotateScope(t.call.request.agent, t.call.request.key) !in s.records
    requires WaitingRotation(Expire(s, WaitingRotation(s, t.call.request.agent), t.call.now), t.call.request.agent).None?
    ensures var after := Granted(s, t.call);
            && Inv(after) && Within(s, after, held) && Ages(s, after)
            && (after == Step(s, t.call).tables <==> StillGood(s, t.call.request))
            && (after == Step(s, t.call).tables ==> Step(s, t.call).reply == Ok(RotationBody(t.call.drawn.rotation, t.call.drawn.credential)))
  {
    hide Inv, TxnOk, CopyOk, NextOf, Insertable, Within, Ages, WaitingRotation, Expire, Step, StillGood;
    GrantedKeeps(s, t, held);
    GrantedIffStillGood(s, t);
    hide Granted;
  }

  lemma SerialOutcome(s: Tables, t: Txn, held: set<Lock>)
    requires Inv(s) && TxnOk(s, t, held) && CopyOk(s, t) && NextOf(t).None? && !Grants(t)
    requires Effective(t) && Insertable(s, t) && VersionsMatch(s, t)
    ensures var after := Written(s, Rows(t), Computed(t).tables);
            && Inv(after) && Within(s, after, held) && Ages(s, after)
            && after == Step(s, t.call).tables && Computed(t).reply == Step(s, t.call).reply
  {
    assert OwnCredential(s, t.call.request) && Unused(s, t.call.drawn) by { hide Inv; }
    if t.call.request.RequestActivation? && !Known(t) {
      ActivationCopied(s, t, held);
    } else {
      PlainRows(s, t, held);
    }
    hide TxnOk, CopyOk, NextOf, Insertable, VersionsMatch, Written, Step, Rows;
    CommitSerial(s, t, held);
    assert Admissible(s, t.call);
    StepKeepsInv(s, t.call);
    StepAgesOn(s, t.call);
    hide Inv, Within, Ages;
  }
}
