/** The server's services, statement by statement: a transaction works on the tables in place, and an
    error rolls them back. */
module CredentialService {
  import opened Options
  import opened CredentialState
  import opened CredentialSafety
  import opened CredentialLifecycle

  /* Queries have one answer. */

  lemma OneWaiting(s: Tables, agent: nat, r: nat)
    requires RotationsOk(s) && WaitingFor(s, agent, r)
    ensures WaitingRotation(s, agent) == Some(r)
  {
  }

  lemma OneActive(s: Tables, agent: nat, c: nat)
    requires CredentialsOk(s) && ActiveFor(s, agent, c)
    ensures ActiveCredential(s, agent) == Some(c)
  {
  }

  /** The tables differ only in their idempotency records. */
  ghost predicate SameButRecords(s: Tables, t: Tables) {
    t == s.(records := t.records)
  }

  lemma QueriesAgree(s: Tables, t: Tables, agent: nat)
    requires Inv(s) && SameButRecords(s, t)
    ensures WaitingRotation(t, agent) == WaitingRotation(s, agent) && ActiveCredential(t, agent) == ActiveCredential(s, agent)
    ensures Highest(t, agent) == Highest(s, agent)
  {
    forall r ensures WaitingFor(t, agent, r) <==> WaitingFor(s, agent, r) {
    }
    forall c ensures ActiveFor(t, agent, c) <==> ActiveFor(s, agent, c) {
    }
    if WaitingRotation(s, agent).Some? {
      assert WaitingFor(t, agent, WaitingRotation(s, agent).value);
      assert WaitingFor(s, agent, WaitingRotation(t, agent).value);
    }
    if ActiveCredential(s, agent).Some? {
      assert ActiveFor(t, agent, ActiveCredential(s, agent).value);
      assert ActiveFor(s, agent, ActiveCredential(t, agent).value);
    }
    HighestAgrees(s, t, agent);
  }

  lemma HighestAgrees(s: Tables, t: Tables, agent: nat)
    requires t.credentials == s.credentials
    ensures Highest(t, agent) == Highest(s, agent)
  {
    OneHighest(t, agent, Highest(s, agent), Highest(t, agent));
  }

  lemma OneHighest(s: Tables, agent: nat, a: nat, b: nat)
    requires HighestAmong(s, agent, s.credentials.Keys, a) && HighestAmong(s, agent, s.credentials.Keys, b)
    ensures a == b
  {
  }

  class Service {
    var agents: map<nat, Agent>
    var credentials: map<nat, Credential>
    var rotations: map<nat, Rotation>
    var tokens: map<nat, Token>
    var records: map<Scope, Record>

    function Store(): Tables
      reads this
    {
      Tables(agents, credentials, rotations, tokens, records)
    }

    constructor ()
      ensures Store() == NOTHING && Inv(Store())
    {
      agents, credentials, rotations, tokens, records := map[], map[], map[], map[], map[];
      new;
      NothingInv();
    }

    method Rollback(saved: Tables)
      modifies this
      ensures Store() == saved
    {
      agents, credentials, rotations, tokens, records := saved.agents, saved.credentials, saved.rotations, saved.tokens, saved.records;
    }

    /** `IdempotencyService.begin`: claim the scope, or find what it already holds. */
    method BeginScope(scope: Scope, fingerprint: nat, secret: bool, now: nat) returns (start: Start)
      requires Inv(Store())
      modifies `records
      ensures start == Begin(old(Store()), scope, fingerprint, secret, now)
      ensures records == if start.New? then old(records)[scope := Record(fingerprint, InProgress, None, None, now)] else old(records)
    {
      if scope !in records {
        records := records[scope := Record(fingerprint, InProgress, None, None, now)];
        return New;
      }
      var record := records[scope];
      assert RecordOk(Store(), scope);
      if record.fingerprint != fingerprint {
        return Refused(IdempotencyConflictError);
      }
      // A committed record is never in progress, so neither the window nor the failed state comes up.
      assert record.phase == Completed;
      if secret {
        if record.replayUntil.None? || record.replayUntil.value <= now {
          return Refused(SecretReplayExpiredError);
        }
        return Replay(record.body.value);
      }
      return Replay(record.body.value);
    }

    /** `complete_public` and `complete_secret` */
    method Complete(scope: Scope, body: Body, secret: bool, now: nat)
      requires scope in records
      modifies `records
      ensures records == old(records)[scope := CompletedRecord(old(records)[scope].fingerprint, body, secret, now)]
    {
      var record := records[scope];
      record := record.(phase := Completed, body := Some(body), updated := now);
      record := record.(replayUntil := if secret then Some(now + WINDOW) else None);
      records := records[scope := record];
    }

    method PendingRotation(agent: nat) returns (r: Option<nat>)
      requires RotationsOk(Store())
      ensures r == WaitingRotation(Store(), agent)
    {
      if q :| q in rotations && rotations[q].agent == agent && rotations[q].phase == Waiting {
        OneWaiting(Store(), agent, q);
        return Some(q);
      }
      assert forall q :: !WaitingFor(Store(), agent, q);
      return None;
    }

    method FindActive(agent: nat) returns (c: Option<nat>)
      requires CredentialsOk(Store())
      ensures c == ActiveCredential(Store(), agent)
    {
      if d :| d in credentials && credentials[d].agent == agent && credentials[d].phase == Active {
        assert ActiveFor(Store(), agent, d);
        OneActive(Store(), agent, d);
        return Some(d);
      }
      assert forall d :: !ActiveFor(Store(), agent, d);
      return None;
    }

    /** SELECT max(credential_version), or 0 */
    method HighestVersion(agent: nat) returns (highest: nat)
      ensures highest == Highest(Store(), agent)
    {
      highest := 0;
      var left := credentials.Keys;
      assert credentials.Keys - left == {};
      while left != {}
        invariant left <= credentials.Keys && HighestAmong(Store(), agent, credentials.Keys - left, highest)
        decreases left
      {
        var c :| c in left;
        assert credentials.Keys - (left - {c}) == credentials.Keys - left + {c};
        if credentials[c].agent == agent && credentials[c].version > highest {
          highest := credentials[c].version;
        }
        left := left - {c};
      }
      assert credentials.Keys - left == credentials.Keys;
      OneHighest(Store(), agent, highest, Highest(Store(), agent));
    }

    /** `_expire_pending` */
    method ExpirePending(agent: nat, now: nat)
      requires RotationsOk(Store())
      modifies `rotations, `credentials
      ensures Store() == Expire(old(Store()), WaitingRotation(old(Store()), agent), now)
    {
      var found := PendingRotation(agent);
      if found.None? || rotations[found.value].expires > now {
        return;
      }
      var r := found.value;
      var p := rotations[r].pending;
      rotations := rotations[r := rotations[r].(phase := TimedOut)];
      if p in credentials && credentials[p].phase == Pending {
        credentials := credentials[p := credentials[p].(phase := Expired)];
      }
    }

    method CreateRotation(agent: nat, active: nat, key: nat, drawn: Drawn, now: nat) returns (reply: Reply)
      requires Inv(Store()) && Unused(Store(), drawn) && active in credentials && credentials[active].agent == agent
      modifies this
      ensures Outcome(Store(), reply) == CredentialState.CreateRotation(old(Store()), agent, active, key, drawn, now)
    {
      hide Inv, Rotating, Expire, WaitingRotation, Highest, Unused;
      var saved, scope := Store(), RotateScope(agent, key);
      var start := BeginScope(scope, FINGERPRINT, true, now);
      BeginNeverBlocks(saved, scope, FINGERPRINT, true, now);
      if start.Refused? {
        if start.error == SecretReplayExpiredError {
          Parts(saved);
          ExpirePending(agent, now);
        }
        return Err(start.error);
      }
      if start.Replay? {
        return Ok(start.body);
      }
      hide CredentialState.CreateRotation;
      reply := GrantRotation(agent, active, key, drawn, now, saved);
    }

    /** The rest of `create_rotation`, once the scope is claimed. */
    method GrantRotation(agent: nat, active: nat, key: nat, drawn: Drawn, now: nat, saved: Tables) returns (reply: Reply)
      requires Inv(saved) && Unused(saved, drawn) && active in saved.credentials && saved.credentials[active].agent == agent
      requires SameButRecords(saved, Store()) && RotateScope(agent, key) !in saved.records
      requires records == saved.records[RotateScope(agent, key) := Record(FINGERPRINT, InProgress, None, None, now)]
      modifies this
      ensures Outcome(Store(), reply) == CredentialState.CreateRotation(saved, agent, active, key, drawn, now)
    {
      hide Inv, RotationsOk, CredentialsOk, Rotating, Expire, WaitingRotation, Highest, CredentialState.CreateRotation, Unused;
      CreateNew(saved, agent, active, key, drawn, now);
      if agent !in agents || !agents[agent].active {
        Rollback(saved);
        return Err(AuthenticationError);
      }
      Parts(saved);
      SamePartsOk(saved, Store());
      QueriesAgree(saved, Store(), agent);
      ExpireSameButRecords(saved, Store(), WaitingRotation(saved, agent), now);
      ExpirePending(agent, now);
      ghost var t := Expire(saved, WaitingRotation(saved, agent), now);
      KeepExpire(saved, agent, now);
      Parts(t);
      SamePartsOk(t, Store());
      QueriesAgree(t, Store(), agent);
      var waiting := PendingRotation(agent);
      if waiting.Some? {
        Rollback(saved);
        return Err(ConflictError);
      }
      if active !in credentials || credentials[active].phase != Active {
        Rollback(saved);
        return Err(AuthenticationError);
      }
      InsertRotation(agent, active, key, drawn, now, t);
      return Ok(RotationBody(drawn.rotation, drawn.credential));
    }

    method InsertRotation(agent: nat, active: nat, key: nat, drawn: Drawn, now: nat, ghost s: Tables)
      requires SameButRecords(s, Store())
      requires records == s.records[RotateScope(agent, key) := Record(FINGERPRINT, InProgress, None, None, now)]
      modifies this
      ensures Store() == Rotating(s, agent, active, key, drawn, now)
    {
      hide Rotating, Highest;
      HighestAgrees(s, Store(), agent);
      var highest := HighestVersion(agent);
      credentials := credentials[drawn.credential := Credential(agent, highest + 1, Pending, now + WINDOW)];
      rotations := rotations[drawn.rotation := Rotation(agent, active, drawn.credential, Waiting, now + WINDOW)];
      Complete(RotateScope(agent, key), RotationBody(drawn.rotation, drawn.credential), true, now);
      RotatingShape(s, Store(), agent, active, key, drawn, now);
    }

    method ActivateRotation(agent: nat, supplied: nat, rotation: nat, key: nat, now: nat) returns (reply: Reply)
      requires Inv(Store())
      modifies this
      ensures Outcome(Store(), reply) == CredentialState.ActivateRotation(old(Store()), agent, supplied, rotation, key, now)
    {
      hide Inv, IndexBlocks, Activating;
      var saved, scope := Store(), ActivateScope(agent, rotation, key);
      var start := BeginScope(scope, FINGERPRINT, false, now);
      if start.Refused? {
        return Err(start.error);
      }
      if start.Replay? {
        return Ok(start.body);
      }
      if agent !in agents || !agents[agent].active || rotation !in rotations
         || rotations[rotation].agent != agent || rotations[rotation].pending != supplied {
        Rollback(saved);
        return Err(AuthenticationError);
      }
      var r := rotations[rotation];
      if r.phase != Waiting || r.expires <= now
         || r.pending !in credentials || r.previous !in credentials || credentials[r.pending].phase != Pending {
        Rollback(saved);
        return Err(ConflictError);
      }
      if BlockedByIndex(agent, r) {
        IndexChecked(saved, agent, rotation);
        Rollback(saved);
        return Err(IntegrityError);
      }
      IndexChecked(saved, agent, rotation);
      SwitchTo(agent, rotation, key, now, saved);
      return Ok(ActivationBody(rotation, r.pending));
    }

    /** Whether the index that allows one active credential per agent refuses the switch. */
    predicate BlockedByIndex(agent: nat, r: Rotation)
      reads this
    {
      exists c | c in credentials :: credentials[c].agent == agent && credentials[c].phase == Active && c != r.previous && c != r.pending
    }

    method SwitchTo(agent: nat, rotation: nat, key: nat, now: nat, ghost s: Tables)
      requires SameButRecords(s, Store()) && rotation in s.rotations
      requires s.rotations[rotation].previous in s.credentials && s.rotations[rotation].pending in s.credentials
      requires records == s.records[ActivateScope(agent, rotation, key) := Record(FINGERPRINT, InProgress, None, None, now)]
      modifies this
      ensures Store() == Activating(s, agent, rotation, key, now)
    {
      var r := rotations[rotation];
      credentials := credentials[r.previous := credentials[r.previous].(phase := Revoked)];
      credentials := credentials[r.pending := credentials[r.pending].(phase := Active, expires := now + CREDENTIAL_LIFE)];
      rotations := rotations[rotation := r.(phase := Activated)];
      Complete(ActivateScope(agent, rotation, key), ActivationBody(rotation, r.pending), false, now);
    }

    method RevokeCredential(agent: nat, credential: nat) returns (reply: Reply)
      modifies this
      ensures Outcome(Store(), reply) == CredentialState.RevokeCredential(old(Store()), agent, credential)
    {
      if credential !in credentials || credentials[credential].agent != agent {
        return Err(ResourceNotFoundError);
      }
      credentials := credentials[credential := credentials[credential].(phase := Revoked)];
      return Done;
    }

    method RevokeAgent(agent: nat) returns (reply: Reply)
      modifies this
      ensures Outcome(Store(), reply) == CredentialState.RevokeAgent(old(Store()), agent)
    {
      if agent !in agents {
        return Err(ResourceNotFoundError);
      }
      agents := agents[agent := agents[agent].(active := false)];
      credentials := map c | c in credentials ::
        if credentials[c].agent == agent && credentials[c].phase in {Active, Pending}
        then credentials[c].(phase := Revoked) else credentials[c];
      rotations := map r | r in rotations ::
        if rotations[r].agent == agent && rotations[r].phase == Waiting
        then rotations[r].(phase := Withdrawn) else rotations[r];
      return Done;
    }

    method RevokeToken(token: nat) returns (reply: Reply)
      modifies this
      ensures Outcome(Store(), reply) == CredentialState.RevokeToken(old(Store()), token)
    {
      if token !in tokens {
        return Err(ConflictError);
      }
      if !tokens[token].revoked {
        tokens := tokens[token := tokens[token].(revoked := true)];
      }
      return Done;
    }

    method Register(token: nat, installation: nat, key: nat, fingerprint: nat, platformAllowed: bool, drawn: Drawn, now: nat)
      returns (reply: Reply)
      requires Inv(Store()) && Unused(Store(), drawn)
      modifies this
      ensures Outcome(Store(), reply) == CredentialState.Register(old(Store()), token, installation, key, fingerprint, platformAllowed, drawn, now)
    {
      hide Inv, Issued, Highest, ActiveCredential;
      if token !in tokens {
        return Err(EnrollmentFailedError);
      }
      var saved, scope, t := Store(), RegisterScope(token, installation, key), tokens[token];
      var start := BeginScope(scope, fingerprint, true, now);
      BeginNeverBlocks(saved, scope, fingerprint, true, now);
      if start.Refused? {
        return Err(start.error);
      }
      if start.Replay? {
        return Ok(start.body);
      }
      if t.revoked || t.expires <= now || t.uses >= t.maxUses || !platformAllowed {
        Rollback(saved);
        return Err(EnrollmentFailedError);
      }
      var agent := drawn.agent;
      if t.bound.Some? {
        agent := t.bound.value;
        if agent !in agents {
          Rollback(saved);
          return Err(EnrollmentFailedError);
        }
        if exists b | b in agents :: b != agent && agents[b].installation == installation {
          Rollback(saved);
          return Err(IntegrityError);
        }
      } else if exists b | b in agents :: agents[b].installation == installation {
        Rollback(saved);
        return Err(EnrollmentFailedError);
      }
      agents := agents[agent := Agent(true, installation)];
      KeepEnrolled(saved, agent, installation);
      Issue(agent, token, scope, fingerprint, drawn, now, Enrolled(saved, agent, installation));
      return Ok(RegistrationBody(agent, drawn.credential));
    }

    /** The rest of `register`: revoke the agent's active credential, insert the new one, use the token. */
    method Issue(agent: nat, token: nat, scope: Scope, fingerprint: nat, drawn: Drawn, now: nat, ghost s: Tables)
      requires Inv(s) && SameButRecords(s, Store()) && token in s.tokens
      requires records == s.records[scope := Record(fingerprint, InProgress, None, None, now)]
      modifies this
      ensures Store() == Issued(s, agent, token, scope, fingerprint, drawn, now)
    {
      hide Inv, RotationsOk, CredentialsOk, Highest, ActiveCredential, Issued;
      Parts(s);
      SamePartsOk(s, Store());
      QueriesAgree(s, Store(), agent);
      var existing := FindActive(agent);
      if existing.Some? {
        credentials := credentials[existing.value := credentials[existing.value].(phase := Revoked)];
      }
      InsertCredential(agent, token, scope, fingerprint, drawn, now, s, existing);
    }

    method InsertCredential(agent: nat, token: nat, scope: Scope, fingerprint: nat, drawn: Drawn, now: nat,
                            ghost s: Tables, ghost existing: Option<nat>)
      requires existing == ActiveCredential(s, agent) && token in s.tokens
      requires agents == s.agents && tokens == s.tokens && rotations == s.rotations
      requires credentials == if existing.Some? then s.credentials[existing.value := s.credentials[existing.value].(phase := Revoked)] else s.credentials
      requires records == s.records[scope := Record(fingerprint, InProgress, None, None, now)]
      modifies this
      ensures Store() == Issued(s, agent, token, scope, fingerprint, drawn, now)
    {
      hide Highest, ActiveCredential;
      RevokedHighest(s, Store(), agent, existing);
      var highest := HighestVersion(agent);
      credentials := credentials[drawn.credential := Credential(agent, highest + 1, Active, now + CREDENTIAL_LIFE)];
      tokens := tokens[token := tokens[token].(uses := tokens[token].uses + 1)];
      Complete(scope, RegistrationBody(agent, drawn.credential), true, now);
    }
  }

  lemma IndexChecked(s: Tables, agent: nat, rotation: nat)
    requires rotation in s.rotations
    ensures var r := s.rotations[rotation];
            IndexBlocks(s, agent, rotation) <==>
            exists c | c in s.credentials :: s.credentials[c].agent == agent && s.credentials[c].phase == Active && c != r.previous && c != r.pending
  {
    var r := s.rotations[rotation];
    if c :| c in s.credentials && s.credentials[c].agent == agent && s.credentials[c].phase == Active && c != r.previous && c != r.pending {
      assert ActiveFor(s, agent, c);
    }
  }

  lemma RevokedHighest(s: Tables, t: Tables, agent: nat, existing: Option<nat>)
    requires existing.Some? ==> existing.value in s.credentials
    requires t.credentials == if existing.Some? then s.credentials[existing.value := s.credentials[existing.value].(phase := Revoked)] else s.credentials
    ensures Highest(t, agent) == Highest(s, agent)
  {
    var highest := Highest(t, agent);
    if highest != 0 {
      var c :| c in t.credentials.Keys && t.credentials[c].agent == agent && t.credentials[c].version == highest;
      assert c in s.credentials.Keys && s.credentials[c].version == highest;
    }
    forall c | c in s.credentials.Keys && s.credentials[c].agent == agent ensures s.credentials[c].version <= highest {
      assert c in t.credentials.Keys;
    }
    hide Highest;
    assert HighestAmong(s, agent, s.credentials.Keys, highest);
    OneHighest(s, agent, highest, Highest(s, agent));
  }

  /** `create_rotation` once its scope is claimed; the index that allows one pending credential per agent
      never refuses the insertion. */
  lemma CreateNew(s: Tables, agent: nat, active: nat, key: nat, drawn: Drawn, now: nat)
    requires Inv(s) && Unused(s, drawn) && active in s.credentials && s.credentials[active].agent == agent
    requires RotateScope(agent, key) !in s.records
    ensures var t := Expire(s, WaitingRotation(s, agent), now);
            && active in t.credentials
            && CredentialState.CreateRotation(s, agent, active, key, drawn, now) ==
               if agent !in s.agents || !s.agents[agent].active then Outcome(s, Err(AuthenticationError))
               else if WaitingRotation(t, agent).Some? then Outcome(s, Err(ConflictError))
               else if t.credentials[active].phase != Active then Outcome(s, Err(AuthenticationError))
               else Outcome(Rotating(t, agent, active, key, drawn, now), Ok(RotationBody(drawn.rotation, drawn.credential)))
  {
    var t := Expire(s, WaitingRotation(s, agent), now);
    KeepExpire(s, agent, now);
    ExpireSameButRecords(s, s, WaitingRotation(s, agent), now);
    hide Inv, Rotating, Expire;
    if WaitingRotation(t, agent).None? {
      NothingPending(t, agent);
    }
  }

  lemma Parts(s: Tables)
    requires Inv(s)
    ensures RotationsOk(s) && CredentialsOk(s)
  {
  }

  lemma SamePartsOk(s: Tables, t: Tables)
    requires RotationsOk(s) && CredentialsOk(s) && SameButRecords(s, t)
    ensures RotationsOk(t) && CredentialsOk(t)
  {
    forall r | r in t.rotations ensures RotationOk(t, r) {
      assert RotationOk(s, r);
    }
    forall c | c in t.credentials && t.credentials[c].phase == Pending ensures exists r :: PendingIn(t, c, r) {
      var r :| PendingIn(s, c, r);
      assert PendingIn(t, c, r);
    }
  }

  lemma ExpireSameButRecords(s: Tables, t: Tables, waiting: Option<nat>, now: nat)
    requires SameButRecords(s, t) && (waiting.Some? ==> waiting.value in s.rotations)
    ensures SameButRecords(Expire(s, waiting, now), Expire(t, waiting, now))
    ensures Expire(s, waiting, now).records == s.records && Expire(t, waiting, now).records == t.records
    ensures Expire(s, waiting, now).agents == s.agents && Expire(s, waiting, now).credentials.Keys == s.credentials.Keys
  {
  }

  lemma RotatingShape(s: Tables, t: Tables, agent: nat, active: nat, key: nat, drawn: Drawn, now: nat)
    requires t.agents == s.agents && t.tokens == s.tokens
    requires t.credentials == s.credentials[drawn.credential := Credential(agent, Highest(s, agent) + 1, Pending, now + WINDOW)]
    requires t.rotations == s.rotations[drawn.rotation := Rotation(agent, active, drawn.credential, Waiting, now + WINDOW)]
    requires RotateScope(agent, key) in t.records
    requires t.records == s.records[RotateScope(agent, key) := t.records[RotateScope(agent, key)]]
    requires t.records[RotateScope(agent, key)] == CompletedRecord(FINGERPRINT, RotationBody(drawn.rotation, drawn.credential), true, now)
    ensures t == Rotating(s, agent, active, key, drawn, now)
  {
  }
}
