/** What holds of credentials, rotations, enrollment tokens and idempotency records after any run of
    transactions. */
module CredentialSafety {
  import opened Options
  import opened CredentialState

  /* The invariant. */

  ghost predicate CredentialsOk(s: Tables) {
    && (forall c | c in s.credentials :: s.credentials[c].agent in s.agents)
    && (forall c, d | c in s.credentials && d in s.credentials && c != d && s.credentials[c].agent == s.credentials[d].agent ::
          && s.credentials[c].version != s.credentials[d].version
          && !(s.credentials[c].phase == Active && s.credentials[d].phase == Active)
          && !(s.credentials[c].phase == Pending && s.credentials[d].phase == Pending))
  }

  ghost predicate RotationOk(s: Tables, r: nat)
    requires r in s.rotations
  {
    var rotation := s.rotations[r];
    && rotation.previous in s.credentials && rotation.pending in s.credentials && rotation.previous != rotation.pending
    && s.credentials[rotation.previous].agent == rotation.agent && s.credentials[rotation.pending].agent == rotation.agent
    && s.credentials[rotation.previous].phase != Pending
    && (s.credentials[rotation.pending].phase == Pending ==> rotation.phase == Waiting)
    && (rotation.phase == Waiting ==> s.credentials[rotation.pending].phase in {Pending, Revoked})
    && (rotation.phase == Activated ==> s.credentials[rotation.previous].phase == Revoked)
  }

  ghost predicate RotationsOk(s: Tables) {
    && (forall r | r in s.rotations :: RotationOk(s, r))
    && (forall q, r | q in s.rotations && r in s.rotations && q != r ::
          && s.rotations[q].pending != s.rotations[r].pending
          && !(s.rotations[q].agent == s.rotations[r].agent && s.rotations[q].phase == Waiting && s.rotations[r].phase == Waiting))
    && (forall c | c in s.credentials && s.credentials[c].phase == Pending :: exists r :: PendingIn(s, c, r))
  }

  ghost predicate PendingIn(s: Tables, c: nat, r: nat) {
    r in s.rotations && s.rotations[r].pending == c
  }

  /** A committed record is completed, and its body names what its effect inserted or changed. */
  ghost predicate RecordOk(s: Tables, scope: Scope)
    requires scope in s.records
  {
    var record := s.records[scope];
    && record.phase == Completed && record.body.Some? && (!scope.RegisterScope? ==> record.fingerprint == FINGERPRINT)
    && match scope
       case RotateScope(agent, _) =>
         && record.replayUntil.Some? && record.body.value.RotationBody?
         && var body := record.body.value;
         && body.rotation in s.rotations && s.rotations[body.rotation].agent == agent && s.rotations[body.rotation].pending == body.credential
       case ActivateScope(agent, rotation, _) =>
         && record.replayUntil.None? && record.body.value.ActivationBody?
         && var body := record.body.value;
         && body.rotation == rotation && rotation in s.rotations && s.rotations[rotation].agent == agent
         && s.rotations[rotation].pending == body.credential && s.rotations[rotation].phase == Activated
       case RegisterScope(token, _, _) =>
         && record.replayUntil.Some? && record.body.value.RegistrationBody?
         && var body := record.body.value;
         && body.credential in s.credentials && s.credentials[body.credential].agent == body.agent
         && token in s.tokens && s.tokens[token].uses >= 1
  }

  ghost predicate RecordsOk(s: Tables) {
    && (forall scope | scope in s.records :: RecordOk(s, scope))
    && (forall a, b | a in s.records && b in s.records && a.RegisterScope? && b.RegisterScope? && a.token == b.token :: a == b)
  }

  ghost predicate TokensOk(s: Tables) {
    forall t | t in s.tokens :: s.tokens[t].maxUses == 1 && s.tokens[t].uses <= 1
  }

  ghost predicate Inv(s: Tables) {
    CredentialsOk(s) && RotationsOk(s) && RecordsOk(s) && TokensOk(s)
  }

  const NOTHING: Tables := Tables(map[], map[], map[], map[], map[])

  lemma NothingInv()
    ensures Inv(NOTHING)
  {
  }

  /** Credentials keep their agents and versions; a phase is only moved as `moved` allows. */
  ghost predicate SameIdentity(s: Tables, t: Tables) {
    && s.agents.Keys <= t.agents.Keys
    && (forall c | c in s.credentials :: c in t.credentials && t.credentials[c].agent == s.credentials[c].agent && t.credentials[c].version == s.credentials[c].version)
    && (forall r | r in s.rotations :: r in t.rotations && t.rotations[r].agent == s.rotations[r].agent
          && t.rotations[r].previous == s.rotations[r].previous && t.rotations[r].pending == s.rotations[r].pending)
    && (forall r | r in s.rotations && s.rotations[r].phase == Activated :: t.rotations[r].phase == Activated)
    && (forall k | k in s.tokens :: k in t.tokens && t.tokens[k].uses >= s.tokens[k].uses)
  }

  lemma RecordFrame(s: Tables, t: Tables, scope: Scope)
    requires scope in s.records && RecordOk(s, scope) && SameIdentity(s, t)
    requires scope in t.records && t.records[scope] == s.records[scope]
    ensures RecordOk(t, scope)
  {
  }

  lemma AllRecordsFrame(s: Tables, t: Tables)
    requires RecordsOk(s) && SameIdentity(s, t) && t.records == s.records
    ensures RecordsOk(t)
  {
    forall scope | scope in t.records ensures RecordOk(t, scope) {
      RecordFrame(s, t, scope);
    }
  }

  lemma OneMoreRecord(s: Tables, t: Tables, scope: Scope)
    requires RecordsOk(s) && SameIdentity(s, t) && scope !in s.records
    requires t.records.Keys == s.records.Keys + {scope} && (forall other | other in s.records :: t.records[other] == s.records[other])
    requires RecordOk(t, scope)
    requires scope.RegisterScope? ==> forall other | other in s.records && other.RegisterScope? :: other.token != scope.token
    ensures RecordsOk(t)
  {
    forall other | other in t.records ensures RecordOk(t, other) {
      if other != scope {
        RecordFrame(s, t, other);
      }
    }
  }

  /* Each transaction keeps it. */

  /** From s to t nothing is added, and credentials and rotations only leave the phases in which they
      can still be used. */
  ghost predicate Fell(s: Tables, t: Tables) {
    && s.agents.Keys <= t.agents.Keys && t.records == s.records && t.tokens == s.tokens
    && t.credentials.Keys == s.credentials.Keys && t.rotations.Keys == s.rotations.Keys
    && (forall c | c in s.credentials :: CredentialFell(s.credentials[c], t.credentials[c]))
    && (forall r | r in s.rotations :: RotationFell(s.rotations[r], t.rotations[r]))
    && (forall r | r in s.rotations && s.rotations[r].pending in s.credentials ::
          && (t.rotations[r].phase != Waiting && s.rotations[r].phase == Waiting ==> t.credentials[s.rotations[r].pending].phase != Pending)
          && (t.rotations[r].phase == Waiting ==> t.credentials[s.rotations[r].pending].phase != Expired))
  }

  predicate CredentialFell(c: Credential, d: Credential) {
    && d.agent == c.agent && d.version == c.version
    && (d.phase == c.phase || (d.phase == Expired && c.phase != Revoked) || d.phase == Revoked)
  }

  predicate RotationFell(q: Rotation, r: Rotation) {
    && r.agent == q.agent && r.previous == q.previous && r.pending == q.pending
    && (r.phase == q.phase || (q.phase == Waiting && r.phase in {TimedOut, Withdrawn}))
  }

  lemma FallenRotations(s: Tables, t: Tables)
    requires RotationsOk(s) && Fell(s, t)
    ensures RotationsOk(t)
  {
    forall r | r in t.rotations ensures RotationOk(t, r) {
      FallenRotation(s, t, r);
    }
    hide RotationOk;
    forall c | c in t.credentials && t.credentials[c].phase == Pending ensures exists r :: PendingIn(t, c, r) {
      assert CredentialFell(s.credentials[c], t.credentials[c]);
      var r :| PendingIn(s, c, r);
      assert RotationFell(s.rotations[r], t.rotations[r]) && PendingIn(t, c, r);
    }
    forall q, r | q in t.rotations && r in t.rotations && q != r
      ensures t.rotations[q].pending != t.rotations[r].pending
      ensures !(t.rotations[q].agent == t.rotations[r].agent && t.rotations[q].phase == Waiting && t.rotations[r].phase == Waiting)
    {
      assert RotationFell(s.rotations[q], t.rotations[q]) && RotationFell(s.rotations[r], t.rotations[r]);
    }
  }

  lemma FallenRotation(s: Tables, t: Tables, r: nat)
    requires RotationsOk(s) && Fell(s, t) && r in t.rotations
    ensures RotationOk(t, r)
  {
    assert RotationOk(s, r) && RotationFell(s.rotations[r], t.rotations[r]);
    assert CredentialFell(s.credentials[s.rotations[r].pending], t.credentials[s.rotations[r].pending]);
    assert CredentialFell(s.credentials[s.rotations[r].previous], t.credentials[s.rotations[r].previous]);
  }

  lemma FallenCredentials(s: Tables, t: Tables)
    requires CredentialsOk(s) && Fell(s, t)
    ensures CredentialsOk(t)
  {
    forall c | c in t.credentials ensures CredentialFell(s.credentials[c], t.credentials[c]) {
    }
  }

  lemma FallenIdentity(s: Tables, t: Tables)
    requires Fell(s, t)
    ensures SameIdentity(s, t)
  {
    forall c | c in s.credentials ensures CredentialFell(s.credentials[c], t.credentials[c]) {
    }
    forall r | r in s.rotations ensures RotationFell(s.rotations[r], t.rotations[r]) {
    }
  }

  lemma KeepFallen(s: Tables, t: Tables)
    requires Inv(s) && Fell(s, t)
    ensures Inv(t)
  {
    FallenRotations(s, t);
    FallenCredentials(s, t);
    FallenIdentity(s, t);
    FallenLedger(s, t);
    hide Fell, CredentialsOk, RotationsOk, RecordsOk, SameIdentity;
    AllRecordsFrame(s, t);
  }

  lemma FallenLedger(s: Tables, t: Tables)
    requires Fell(s, t)
    ensures t.records == s.records && t.tokens == s.tokens
  {
  }

  lemma ExpireFells(s: Tables, agent: nat, now: nat)
    requires RotationsOk(s)
    ensures Fell(s, Expire(s, WaitingRotation(s, agent), now))
  {
    WaitingPendings(s);
    var waiting := WaitingRotation(s, agent);
    if waiting.Some? {
      assert forall r | r in s.rotations && r != waiting.value :: s.rotations[r].pending != s.rotations[waiting.value].pending;
      hide RotationsOk;
      WaitingExpiredFells(s, waiting.value, now);
    } else {
      hide RotationsOk;
      assert Fell(s, s);
    }
  }

  lemma WaitingPendings(s: Tables)
    requires RotationsOk(s)
    ensures forall r | r in s.rotations :: s.rotations[r].pending in s.credentials && s.rotations[r].previous in s.credentials
    ensures forall r | r in s.rotations && s.rotations[r].phase == Waiting :: s.credentials[s.rotations[r].pending].phase in {Pending, Revoked}
  {
    forall r | r in s.rotations
      ensures s.rotations[r].pending in s.credentials && s.rotations[r].previous in s.credentials
      ensures s.rotations[r].phase == Waiting ==> s.credentials[s.rotations[r].pending].phase in {Pending, Revoked}
    {
      assert RotationOk(s, r);
    }
  }

  lemma WaitingExpiredFells(s: Tables, w: nat, now: nat)
    requires w in s.rotations && s.rotations[w].phase == Waiting
    requires forall r | r in s.rotations :: s.rotations[r].pending in s.credentials
    requires forall r | r in s.rotations && s.rotations[r].phase == Waiting :: s.credentials[s.rotations[r].pending].phase in {Pending, Revoked}
    requires forall r | r in s.rotations && r != w :: s.rotations[r].pending != s.rotations[w].pending
    ensures Fell(s, Expire(s, Some(w), now))
  {
  }

  lemma KeepExpire(s: Tables, agent: nat, now: nat)
    requires Inv(s)
    ensures Inv(Expire(s, WaitingRotation(s, agent), now))
  {
    hide RotationsOk, CredentialsOk, RecordsOk, Fell;
    ExpireFells(s, agent, now);
    KeepFallen(s, Expire(s, WaitingRotation(s, agent), now));
  }

  lemma SetRevokedFells(s: Tables, c: nat)
    requires RotationsOk(s) && c in s.credentials
    ensures Fell(s, SetPhase(s, c, Revoked))
  {
    forall r | r in s.rotations && s.rotations[r].phase == Waiting ensures s.credentials[s.rotations[r].pending].phase in {Pending, Revoked} {
      assert RotationOk(s, r);
    }
  }

  lemma KeepSetRevoked(s: Tables, c: nat)
    requires Inv(s) && c in s.credentials
    ensures Inv(SetPhase(s, c, Revoked))
  {
    hide RotationsOk, CredentialsOk, RecordsOk, Fell;
    SetRevokedFells(s, c);
    KeepFallen(s, SetPhase(s, c, Revoked));
  }

  lemma RevokeAgentFells(s: Tables, agent: nat)
    requires RotationsOk(s) && agent in s.agents
    ensures Fell(s, RevokeAgent(s, agent).tables)
  {
    var t := RevokeAgent(s, agent).tables;
    forall r | r in s.rotations
      ensures RotationFell(s.rotations[r], t.rotations[r])
      ensures t.rotations[r].phase != Waiting && s.rotations[r].phase == Waiting ==> t.credentials[s.rotations[r].pending].phase != Pending
      ensures t.rotations[r].phase == Waiting ==> t.credentials[s.rotations[r].pending].phase != Expired
    {
      assert RotationOk(s, r);
    }
    assert forall c | c in s.credentials :: CredentialFell(s.credentials[c], t.credentials[c]);
  }

  lemma KeepRevokeAgent(s: Tables, agent: nat)
    requires Inv(s)
    ensures Inv(RevokeAgent(s, agent).tables)
  {
    hide RotationsOk, CredentialsOk, RecordsOk, Fell;
    if agent in s.agents {
      RevokeAgentFells(s, agent);
      KeepFallen(s, RevokeAgent(s, agent).tables);
    }
  }

  lemma EnrolledFells(s: Tables, agent: nat, installation: nat)
    requires RotationsOk(s)
    ensures Fell(s, Enrolled(s, agent, installation))
  {
    forall r | r in s.rotations && s.rotations[r].phase == Waiting ensures s.credentials[s.rotations[r].pending].phase in {Pending, Revoked} {
      assert RotationOk(s, r);
    }
  }

  lemma KeepEnrolled(s: Tables, agent: nat, installation: nat)
    requires Inv(s)
    ensures Inv(Enrolled(s, agent, installation))
  {
    hide RotationsOk, CredentialsOk, RecordsOk, Fell;
    EnrolledFells(s, agent, installation);
    KeepFallen(s, Enrolled(s, agent, installation));
  }

  lemma KeepRotating(s: Tables, agent: nat, active: nat, key: nat, drawn: Drawn, now: nat)
    requires Inv(s) && agent in s.agents && Unused(s, drawn)
    requires active in s.credentials && s.credentials[active].agent == agent && s.credentials[active].phase != Pending
    requires forall r :: !WaitingFor(s, agent, r)
    requires RotateScope(agent, key) !in s.records
    ensures Inv(Rotating(s, agent, active, key, drawn, now))
  {
    hide CredentialsOk, RotationsOk, RecordsOk, TokensOk, Rotating;
    var t := Rotating(s, agent, active, key, drawn, now);
    NothingPending(s, agent);
    RotatingCredentials(s, agent, active, key, drawn, now);
    RotatingRotations(s, agent, active, key, drawn, now);
    RotatingRecords(s, agent, active, key, drawn, now);
  }

  lemma RotatingRecords(s: Tables, agent: nat, active: nat, key: nat, drawn: Drawn, now: nat)
    requires RecordsOk(s) && TokensOk(s) && Unused(s, drawn) && RotateScope(agent, key) !in s.records
    ensures RecordsOk(Rotating(s, agent, active, key, drawn, now)) && TokensOk(Rotating(s, agent, active, key, drawn, now))
  {
    hide RecordsOk, Highest;
    OneMoreRecord(s, Rotating(s, agent, active, key, drawn, now), RotateScope(agent, key));
  }

  lemma RotatingCredentials(s: Tables, agent: nat, active: nat, key: nat, drawn: Drawn, now: nat)
    requires CredentialsOk(s) && agent in s.agents && Unused(s, drawn)
    requires forall c | c in s.credentials && s.credentials[c].agent == agent :: s.credentials[c].phase != Pending
    ensures CredentialsOk(Rotating(s, agent, active, key, drawn, now))
  {
    hide Highest;
    var highest := Highest(s, agent);
    assert HighestAmong(s, agent, s.credentials.Keys, highest);
  }

  lemma NothingPending(s: Tables, agent: nat)
    requires Inv(s) && forall r :: !WaitingFor(s, agent, r)
    ensures forall c | c in s.credentials && s.credentials[c].agent == agent :: s.credentials[c].phase != Pending
  {
    forall c | c in s.credentials && s.credentials[c].agent == agent ensures s.credentials[c].phase != Pending {
      assert forall r | r in s.rotations :: RotationOk(s, r) && !WaitingFor(s, agent, r);
      assert s.credentials[c].phase == Pending ==> exists r :: PendingIn(s, c, r);
    }
  }

  lemma RotatingRotations(s: Tables, agent: nat, active: nat, key: nat, drawn: Drawn, now: nat)
    requires Inv(s) && active in s.credentials && s.credentials[active].agent == agent && s.credentials[active].phase != Pending && Unused(s, drawn)
    requires forall r :: !WaitingFor(s, agent, r)
    ensures RotationsOk(Rotating(s, agent, active, key, drawn, now))
  {
    hide Highest, CredentialsOk, RecordsOk;
    var t := Rotating(s, agent, active, key, drawn, now);
    forall r | r in t.rotations ensures RotationOk(t, r) {
      if r != drawn.rotation {
        assert RotationOk(s, r);
      }
    }
    forall r | r in s.rotations ensures s.rotations[r].pending in s.credentials && !WaitingFor(s, agent, r) {
      assert RotationOk(s, r);
    }
    hide RotationOk;
    forall c | c in t.credentials && t.credentials[c].phase == Pending ensures exists r :: PendingIn(t, c, r) {
      if c == drawn.credential {
        assert PendingIn(t, c, drawn.rotation);
      } else {
        var r :| PendingIn(s, c, r);
        assert PendingIn(t, c, r);
      }
    }
  }

  lemma KeepActivating(s: Tables, agent: nat, rotation: nat, key: nat, now: nat)
    requires Inv(s) && rotation in s.rotations && s.rotations[rotation].agent == agent && s.rotations[rotation].phase == Waiting
    requires s.rotations[rotation].pending in s.credentials && s.rotations[rotation].previous in s.credentials
    requires s.credentials[s.rotations[rotation].pending].phase == Pending && !IndexBlocks(s, agent, rotation)
    requires ActivateScope(agent, rotation, key) !in s.records
    ensures Inv(Activating(s, agent, rotation, key, now))
  {
    assert RotationOk(s, rotation);
    hide CredentialsOk, RotationsOk, RecordsOk, TokensOk, Activating, RotationOk;
    ActivatingCredentials(s, agent, rotation, key, now);
    ActivatingRotations(s, agent, rotation, key, now);
    ActivatingRecords(s, agent, rotation, key, now);
  }

  lemma ActivatingRecords(s: Tables, agent: nat, rotation: nat, key: nat, now: nat)
    requires RecordsOk(s) && TokensOk(s) && rotation in s.rotations && s.rotations[rotation].agent == agent
    requires s.rotations[rotation].pending in s.credentials && s.rotations[rotation].previous in s.credentials
    requires ActivateScope(agent, rotation, key) !in s.records
    ensures RecordsOk(Activating(s, agent, rotation, key, now)) && TokensOk(Activating(s, agent, rotation, key, now))
  {
    hide RecordsOk;
    OneMoreRecord(s, Activating(s, agent, rotation, key, now), ActivateScope(agent, rotation, key));
  }

  lemma ActivatingCredentials(s: Tables, agent: nat, rotation: nat, key: nat, now: nat)
    requires CredentialsOk(s) && rotation in s.rotations && RotationOk(s, rotation) && s.rotations[rotation].agent == agent
    requires !IndexBlocks(s, agent, rotation)
    ensures CredentialsOk(Activating(s, agent, rotation, key, now))
  {
    var r := s.rotations[rotation];
    forall c | c in s.credentials && s.credentials[c].agent == agent && c != r.previous && c != r.pending ensures s.credentials[c].phase != Active {
      assert !(ActiveFor(s, agent, c) && c != r.previous && c != r.pending);
    }
    hide IndexBlocks;
  }

  lemma ActivatingRotations(s: Tables, agent: nat, rotation: nat, key: nat, now: nat)
    requires RotationsOk(s) && rotation in s.rotations && s.rotations[rotation].agent == agent && s.rotations[rotation].phase == Waiting
    requires s.rotations[rotation].pending in s.credentials && s.rotations[rotation].previous in s.credentials
    requires s.credentials[s.rotations[rotation].pending].phase == Pending
    ensures RotationsOk(Activating(s, agent, rotation, key, now))
  {
    var t := Activating(s, agent, rotation, key, now);
    assert RotationOk(s, rotation);
    forall r | r in t.rotations ensures RotationOk(t, r) {
      assert RotationOk(s, r);
    }
    forall c | c in t.credentials && t.credentials[c].phase == Pending ensures exists r :: PendingIn(t, c, r) {
      var r :| PendingIn(s, c, r);
      assert PendingIn(t, c, r);
    }
  }

  lemma KeepIssued(s: Tables, agent: nat, token: nat, scope: Scope, fingerprint: nat, drawn: Drawn, now: nat)
    requires Inv(s) && agent in s.agents && drawn.credential !in s.credentials
    requires token in s.tokens && s.tokens[token].uses == 0 && scope.RegisterScope? && scope.token == token && scope !in s.records
    ensures Inv(Issued(s, agent, token, scope, fingerprint, drawn, now))
  {
    hide CredentialsOk, RotationsOk, RecordsOk;
    var current := ActiveCredential(s, agent);
    var revoked := if current.Some? then SetPhase(s, current.value, Revoked) else s;
    if current.Some? {
      KeepSetRevoked(s, current.value);
    }
    var t := Issued(s, agent, token, scope, fingerprint, drawn, now);
    NoneActive(s, agent, revoked);
    SameHighest(s, revoked, agent);
    IssuedCredentials(revoked, t, agent, drawn.credential);
    IssuedRotations(s, revoked, t, drawn.credential);
    OtherTokens(s, token);
    IssuedRecords(revoked, t, scope, token, agent, drawn.credential);
  }

  lemma OtherTokens(s: Tables, token: nat)
    requires RecordsOk(s) && token in s.tokens && s.tokens[token].uses == 0
    ensures forall other | other in s.records && other.RegisterScope? :: other.token != token
  {
    forall other | other in s.records && other.RegisterScope? ensures other.token != token {
      assert RecordOk(s, other);
    }
  }

  lemma IssuedRecords(s: Tables, t: Tables, scope: Scope, token: nat, agent: nat, credential: nat)
    requires RecordsOk(s) && scope.RegisterScope? && scope.token == token && scope !in s.records && token in s.tokens
    requires forall other | other in s.records && other.RegisterScope? :: other.token != token
    requires t.agents == s.agents && t.rotations == s.rotations && credential !in s.credentials
    requires t.tokens == s.tokens[token := s.tokens[token].(uses := s.tokens[token].uses + 1)]
    requires credential in t.credentials && t.credentials == s.credentials[credential := t.credentials[credential]] && t.credentials[credential].agent == agent
    requires scope in t.records && t.records == s.records[scope := t.records[scope]]
    requires var record := t.records[scope];
             record.phase == Completed && record.replayUntil.Some? && record.body == Some(RegistrationBody(agent, credential))
    ensures RecordsOk(t)
  {
    hide RecordsOk;
    OneMoreRecord(s, t, scope);
  }

  lemma SameHighest(s: Tables, revoked: Tables, agent: nat)
    requires revoked == if ActiveCredential(s, agent).Some? then SetPhase(s, ActiveCredential(s, agent).value, Revoked) else s
    ensures HighestAmong(revoked, agent, revoked.credentials.Keys, Highest(s, agent))
  {
    var highest := Highest(s, agent);
    hide Highest;
    if highest != 0 {
      var c :| c in s.credentials.Keys && s.credentials[c].agent == agent && s.credentials[c].version == highest;
      assert c in revoked.credentials.Keys && revoked.credentials[c].version == highest;
    }
  }

  lemma IssuedCredentials(s: Tables, t: Tables, agent: nat, credential: nat)
    requires CredentialsOk(s) && agent in s.agents && t.agents == s.agents && credential !in s.credentials
    requires forall c | c in s.credentials && s.credentials[c].agent == agent :: s.credentials[c].phase != Active
    requires credential in t.credentials && t.credentials == s.credentials[credential := t.credentials[credential]]
    requires t.credentials[credential].agent == agent && t.credentials[credential].phase == Active && t.credentials[credential].version > 0
    requires HighestAmong(s, agent, s.credentials.Keys, t.credentials[credential].version - 1)
    ensures CredentialsOk(t)
  {
  }

  lemma NoneActive(s: Tables, agent: nat, revoked: Tables)
    requires CredentialsOk(s)
    requires revoked == if ActiveCredential(s, agent).Some? then SetPhase(s, ActiveCredential(s, agent).value, Revoked) else s
    ensures forall c | c in revoked.credentials && revoked.credentials[c].agent == agent :: revoked.credentials[c].phase != Active
  {
    forall c | c in s.credentials && s.credentials[c].agent == agent && s.credentials[c].phase == Active
      ensures ActiveCredential(s, agent) == Some(c)
    {
      assert ActiveFor(s, agent, c);
    }
  }

  lemma IssuedRotations(s: Tables, revoked: Tables, t: Tables, credential: nat)
    requires RotationsOk(revoked) && credential !in revoked.credentials && t.rotations == revoked.rotations
    requires t.credentials.Keys == revoked.credentials.Keys + {credential} && t.credentials[credential].phase == Active
    requires forall c | c in revoked.credentials :: t.credentials[c] == revoked.credentials[c]
    ensures RotationsOk(t)
  {
    forall r | r in t.rotations ensures RotationOk(t, r) {
      assert RotationOk(revoked, r);
    }
    forall d | d in t.credentials && t.credentials[d].phase == Pending ensures exists r :: PendingIn(t, d, r) {
      var r :| PendingIn(revoked, d, r);
      assert PendingIn(t, d, r);
    }
  }

  lemma KeepTokens(s: Tables, t: Tables)
    requires Inv(s) && TokensOk(t) && t == s.(tokens := t.tokens)
    requires forall k | k in s.tokens :: k in t.tokens && t.tokens[k].uses == s.tokens[k].uses
    ensures Inv(t)
  {
    forall r | r in t.rotations ensures RotationOk(t, r) {
      assert RotationOk(s, r);
    }
    forall d | d in t.credentials && t.credentials[d].phase == Pending ensures exists r :: PendingIn(t, d, r) {
      var r :| PendingIn(s, d, r);
      assert PendingIn(t, d, r);
    }
    hide RotationOk;
    AllRecordsFrame(s, t);
  }

  /* Calls and runs of calls. */

  /** A transaction, the identifiers drawn for it and the time it runs at. */
  datatype Call = Call(request: Request, drawn: Drawn, now: nat)

  /** Drawn identifiers are new, and a rotation is requested for the presented credential's own agent. */
  ghost predicate Admissible(s: Tables, call: Call) {
    && Unused(s, call.drawn)
    && (call.request.RequestRotation? ==> call.request.active in s.credentials && s.credentials[call.request.active].agent == call.request.agent)
  }

  ghost function Step(s: Tables, call: Call): (result: Outcome) {
    Serve(s, call.request, call.drawn, call.now)
  }

  lemma CreateKeepsInv(s: Tables, agent: nat, active: nat, key: nat, drawn: Drawn, now: nat)
    requires Inv(s) && Unused(s, drawn) && active in s.credentials && s.credentials[active].agent == agent
    ensures Inv(CreateRotation(s, agent, active, key, drawn, now).tables)
    ensures CreateRotation(s, agent, active, key, drawn, now).reply != Err(IntegrityError)
  {
    hide Inv, Rotating;
    KeepExpire(s, agent, now);
    var t := Expire(s, WaitingRotation(s, agent), now);
    if WaitingRotation(t, agent).None? {
      NothingPending(t, agent);
      if agent in s.agents && RotateScope(agent, key) !in s.records && t.credentials[active].phase == Active {
        assert ActiveFor(t, agent, active);
        KeepRotating(t, agent, active, key, drawn, now);
      }
    }
    BeginNeverBlocks(s, RotateScope(agent, key), FINGERPRINT, true, now);
  }

  lemma BeginNeverBlocks(s: Tables, scope: Scope, fingerprint: nat, secret: bool, now: nat)
    ensures Begin(s, scope, fingerprint, secret, now) != Refused(IntegrityError)
    ensures Begin(s, scope, fingerprint, secret, now).New? <==> scope !in s.records
  {
  }

  lemma ActivateKeepsInv(s: Tables, agent: nat, supplied: nat, rotation: nat, key: nat, now: nat)
    requires Inv(s)
    ensures Inv(ActivateRotation(s, agent, supplied, rotation, key, now).tables)
  {
    hide Inv, Activating, IndexBlocks;
    if ActivateRotation(s, agent, supplied, rotation, key, now).tables != s {
      KeepActivating(s, agent, rotation, key, now);
    }
  }

  lemma RegisterKeepsInv(s: Tables, token: nat, installation: nat, key: nat, fingerprint: nat, platformAllowed: bool, drawn: Drawn, now: nat)
    requires Inv(s) && Unused(s, drawn)
    ensures Inv(Register(s, token, installation, key, fingerprint, platformAllowed, drawn, now).tables)
  {
    assert token in s.tokens ==> s.tokens[token].maxUses == 1;
    hide Inv, Issued;
    var scope := RegisterScope(token, installation, key);
    if Register(s, token, installation, key, fingerprint, platformAllowed, drawn, now).tables != s {
      var agent := if s.tokens[token].bound.Some? then s.tokens[token].bound.value else drawn.agent;
      KeepEnrolled(s, agent, installation);
      KeepIssued(Enrolled(s, agent, installation), agent, token, scope, fingerprint, drawn, now);
    }
  }

  lemma TokenCallsKeepInv(s: Tables, call: Call)
    requires Inv(s) && (call.request.RequestToken? || call.request.RequestTokenRevocation?)
    ensures Inv(Step(s, call).tables)
  {
    assert TokensOk(s);
    hide Inv, CreateRotation, ActivateRotation, Register, RevokeAgent;
    KeepTokens(s, Step(s, call).tables);
  }

  /** Every transaction keeps the invariant. */
  lemma StepKeepsInv(s: Tables, call: Call)
    requires Inv(s) && Admissible(s, call)
    ensures Inv(Step(s, call).tables)
  {
    hide Inv, CreateRotation, ActivateRotation, Register, RevokeAgent;
    match call.request
    case RequestRotation(agent, active, key) => CreateKeepsInv(s, agent, active, key, call.drawn, call.now);
    case RequestActivation(agent, supplied, rotation, key) => ActivateKeepsInv(s, agent, supplied, rotation, key, call.now);
    case RequestRegistration(token, installation, key, fingerprint, platformAllowed) =>
      RegisterKeepsInv(s, token, installation, key, fingerprint, platformAllowed, call.drawn, call.now);
    case RequestCredentialRevocation(agent, credential) =>
      if credential in s.credentials {
        KeepSetRevoked(s, credential);
      }
    case RequestAgentRevocation(agent) => KeepRevokeAgent(s, agent);
    case RequestToken(_, _, _) => TokenCallsKeepInv(s, call);
    case RequestTokenRevocation(_) => TokenCallsKeepInv(s, call);
  }

  ghost predicate LegalCalls(s: Tables, calls: seq<Call>)
    decreases |calls|
  {
    calls != [] ==> Admissible(s, calls[0]) && LegalCalls(Step(s, calls[0]).tables, calls[1..])
  }

  ghost function Served(s: Tables, calls: seq<Call>): (t: Tables)
    decreases |calls|
  {
    if calls == [] then s else Served(Step(s, calls[0]).tables, calls[1..])
  }

  lemma {:induction false} CallsKeepInv(s: Tables, calls: seq<Call>)
    requires Inv(s) && LegalCalls(s, calls)
    ensures Inv(Served(s, calls))
    decreases |calls|
  {
    hide Inv, Step;
    if calls != [] {
      StepKeepsInv(s, calls[0]);
      CallsKeepInv(Step(s, calls[0]).tables, calls[1..]);
    }
  }

  ghost predicate Reachable(s: Tables) {
    exists calls :: LegalCalls(NOTHING, calls) && Served(NOTHING, calls) == s
  }

  lemma ReachableInv(s: Tables)
    requires Reachable(s)
    ensures Inv(s)
  {
    hide Inv;
    var calls :| LegalCalls(NOTHING, calls) && Served(NOTHING, calls) == s;
    NothingInv();
    CallsKeepInv(NOTHING, calls);
  }

  /* The credential lifecycle. */

  /** Each agent has at most one active and one pending credential, its versions are all different, and
      a pending credential belongs to exactly one rotation, which is waiting. */
  lemma AtMostOneOfEach(s: Tables, c: nat, d: nat)
    requires Reachable(s) && c in s.credentials && d in s.credentials && s.credentials[c].agent == s.credentials[d].agent
    ensures s.credentials[c].phase == s.credentials[d].phase == Active ==> c == d
    ensures s.credentials[c].phase == s.credentials[d].phase == Pending ==> c == d
    ensures s.credentials[c].version == s.credentials[d].version ==> c == d
    ensures s.credentials[c].phase == Pending ==> exists r :: PendingIn(s, c, r) && WaitingFor(s, s.credentials[c].agent, r)
  {
    ReachableInv(s);
    if s.credentials[c].phase == Pending {
      var r :| PendingIn(s, c, r);
      assert RotationOk(s, r);
      assert PendingIn(s, c, r) && WaitingFor(s, s.credentials[c].agent, r);
    }
  }

  /** What one transaction may do to the credentials there are: keep their agent and version, and never
      bring a revoked or expired one back. */
  ghost predicate CredentialsAge(s: Tables, t: Tables) {
    forall c | c in s.credentials ::
      && c in t.credentials && t.credentials[c].agent == s.credentials[c].agent && t.credentials[c].version == s.credentials[c].version
      && (s.credentials[c].phase in {Revoked, Expired} ==> t.credentials[c].phase in {Revoked, Expired})
  }

  lemma FallenAge(s: Tables, t: Tables)
    requires Fell(s, t)
    ensures CredentialsAge(s, t)
  {
    forall c | c in s.credentials ensures CredentialFell(s.credentials[c], t.credentials[c]) {
    }
  }

  lemma CreateAges(s: Tables, agent: nat, active: nat, key: nat, drawn: Drawn, now: nat)
    requires Inv(s) && Unused(s, drawn)
    ensures CredentialsAge(s, CreateRotation(s, agent, active, key, drawn, now).tables)
  {
    hide CredentialsOk, RecordsOk, TokensOk, Fell, Highest, RotationsOk;
    ExpireFells(s, agent, now);
    FallenAge(s, Expire(s, WaitingRotation(s, agent), now));
  }

  lemma ActivateAges(s: Tables, agent: nat, supplied: nat, rotation: nat, key: nat, now: nat)
    ensures CredentialsAge(s, ActivateRotation(s, agent, supplied, rotation, key, now).tables)
  {
    hide IndexBlocks;
  }

  lemma RegisterAges(s: Tables, token: nat, installation: nat, key: nat, fingerprint: nat, platformAllowed: bool, drawn: Drawn, now: nat)
    requires Unused(s, drawn)
    ensures CredentialsAge(s, Register(s, token, installation, key, fingerprint, platformAllowed, drawn, now).tables)
  {
    hide Highest;
  }

  lemma StepAges(s: Tables, call: Call)
    requires Inv(s) && Admissible(s, call)
    ensures CredentialsAge(s, Step(s, call).tables)
  {
    hide Inv, CreateRotation, ActivateRotation, Register;
    match call.request
    case RequestRotation(agent, active, key) => CreateAges(s, agent, active, key, call.drawn, call.now);
    case RequestActivation(agent, supplied, rotation, key) => ActivateAges(s, agent, supplied, rotation, key, call.now);
    case RequestRegistration(token, installation, key, fingerprint, platformAllowed) =>
      RegisterAges(s, token, installation, key, fingerprint, platformAllowed, call.drawn, call.now);
    case _ =>
  }

  /** Revoked and expired credentials never become usable again, whatever is requested later. */
  lemma {:induction false} NeverUsableAgain(s: Tables, calls: seq<Call>, c: nat, acceptPending: bool, now: nat)
    requires Inv(s) && LegalCalls(s, calls) && c in s.credentials && s.credentials[c].phase in {Revoked, Expired}
    ensures c in Served(s, calls).credentials && Served(s, calls).credentials[c].phase in {Revoked, Expired}
    ensures !Authenticates(Served(s, calls), c, acceptPending, now)
    decreases |calls|
  {
    hide Inv, Step;
    if calls != [] {
      StepAges(s, calls[0]);
      StepKeepsInv(s, calls[0]);
      NeverUsableAgain(Step(s, calls[0]).tables, calls[1..], c, acceptPending, now);
    }
  }

  /** Every credential a transaction issues has a higher version than all of its agent's before it. */
  lemma VersionsIncrease(s: Tables, call: Call, c: nat, d: nat)
    requires Inv(s) && Admissible(s, call)
    requires c in s.credentials && d !in s.credentials && d in Step(s, call).tables.credentials
    requires Step(s, call).tables.credentials[d].agent == s.credentials[c].agent
    ensures Step(s, call).tables.credentials[d].version > s.credentials[c].version
  {
    hide CredentialsOk, RecordsOk, TokensOk, RotationsOk, Highest, Fell;
    match call.request
    case RequestRotation(agent, active, key) =>
      ExpireFells(s, agent, call.now);
      FallenAge(s, Expire(s, WaitingRotation(s, agent), call.now));
      var t := Expire(s, WaitingRotation(s, agent), call.now);
      assert HighestAmong(t, agent, t.credentials.Keys, Highest(t, agent));
      assert c in t.credentials.Keys;
    case RequestRegistration(token, installation, key, fingerprint, platformAllowed) =>
      var agent := if s.tokens[token].bound.Some? then s.tokens[token].bound.value else call.drawn.agent;
      var t := Enrolled(s, agent, installation);
      assert HighestAmong(t, agent, t.credentials.Keys, Highest(t, agent));
      assert c in t.credentials.Keys;
    case _ =>
  }
}
