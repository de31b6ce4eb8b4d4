/** Activation and the one-active index, exactly-once effects, and one credential per token. */
module CredentialLifecycle {
  import opened Options
  import opened CredentialState
  import opened CredentialSafety

  /* The index that allows one active credential per agent. */

  /** While a rotation waits, the credential it replaces is the only one of its agent that can be active. */
  ghost predicate OnlyPreviousActive(s: Tables) {
    forall r, c | r in s.rotations && c in s.credentials && s.rotations[r].phase == Waiting
               && s.credentials[c].agent == s.rotations[r].agent && s.credentials[c].phase == Active :: c == s.rotations[r].previous
  }

  ghost predicate Recovers(s: Tables, request: Request) {
    request.RequestRegistration? && request.token in s.tokens && s.tokens[request.token].bound.Some?
  }

  ghost predicate NoRecovery(s: Tables, calls: seq<Call>)
    decreases |calls|
  {
    calls != [] ==> !Recovers(s, calls[0].request) && NoRecovery(Step(s, calls[0]).tables, calls[1..])
  }

  lemma CreateKeepsOnlyPrevious(s: Tables, agent: nat, active: nat, key: nat, drawn: Drawn, now: nat)
    requires Inv(s) && Unused(s, drawn) && active in s.credentials && s.credentials[active].agent == agent && OnlyPreviousActive(s)
    ensures OnlyPreviousActive(CreateRotation(s, agent, active, key, drawn, now).tables)
  {
    var t := Expire(s, WaitingRotation(s, agent), now);
    hide Inv, OnlyPreviousActive, Rotating, Expire, CreateRotation;
    CreateShape(s, agent, active, key, drawn, now);
    ExpireKeepsOnlyPrevious(s, agent, now);
    KeepExpire(s, agent, now);
    if CreateRotation(s, agent, active, key, drawn, now).tables == Rotating(t, agent, active, key, drawn, now) && ActiveFor(t, agent, active) {
      RotatingKeepsOnlyPrevious(t, agent, active, key, drawn, now);
    }
  }

  /** What `create_rotation` can leave: the tables as they were, the waiting rotation expired, or that
      and a new rotation of the presented credential, which is then active. */
  lemma CreateShape(s: Tables, agent: nat, active: nat, key: nat, drawn: Drawn, now: nat)
    requires active in s.credentials && s.credentials[active].agent == agent
    ensures var t, u := Expire(s, WaitingRotation(s, agent), now), CreateRotation(s, agent, active, key, drawn, now).tables;
            u == s || u == t || (u == Rotating(t, agent, active, key, drawn, now) && ActiveFor(t, agent, active))
  {
    hide Rotating;
  }

  lemma ExpireKeepsOnlyPrevious(s: Tables, agent: nat, now: nat)
    requires OnlyPreviousActive(s)
    ensures OnlyPreviousActive(Expire(s, WaitingRotation(s, agent), now))
    ensures var t := Expire(s, WaitingRotation(s, agent), now);
            t.credentials.Keys == s.credentials.Keys && t.rotations.Keys == s.rotations.Keys
            && forall c | c in s.credentials :: t.credentials[c].agent == s.credentials[c].agent
  {
  }

  lemma RotatingKeepsOnlyPrevious(s: Tables, agent: nat, active: nat, key: nat, drawn: Drawn, now: nat)
    requires Inv(s) && OnlyPreviousActive(s) && ActiveFor(s, agent, active)
    ensures OnlyPreviousActive(Rotating(s, agent, active, key, drawn, now))
  {
    hide Highest;
  }

  lemma RotationsHaveCredentials(s: Tables)
    requires RotationsOk(s)
    ensures forall r | r in s.rotations :: s.rotations[r].pending in s.credentials && s.rotations[r].previous in s.credentials
    ensures forall r | r in s.rotations :: s.credentials[s.rotations[r].pending].agent == s.rotations[r].agent
  {
    forall r | r in s.rotations
      ensures s.rotations[r].pending in s.credentials && s.rotations[r].previous in s.credentials
      ensures s.credentials[s.rotations[r].pending].agent == s.rotations[r].agent
    {
      assert RotationOk(s, r);
    }
  }

  lemma ActivateKeepsOnlyPrevious(s: Tables, agent: nat, supplied: nat, rotation: nat, key: nat, now: nat)
    requires RotationsOk(s) && OnlyPreviousActive(s)
    ensures OnlyPreviousActive(ActivateRotation(s, agent, supplied, rotation, key, now).tables)
  {
    RotationsHaveCredentials(s);
    hide RotationOk;
  }

  lemma EnrollKeepsOnlyPrevious(s: Tables, call: Call)
    requires Inv(s) && Admissible(s, call) && call.request.RequestRegistration? && !Recovers(s, call.request) && OnlyPreviousActive(s)
    ensures OnlyPreviousActive(Step(s, call).tables)
  {
    hide Highest, RecordsOk, TokensOk;
    RotationsHaveCredentials(s);
    hide RotationsOk;
    assert forall c | c in s.credentials :: s.credentials[c].agent != call.drawn.agent;
  }

  lemma StepKeepsOnlyPrevious(s: Tables, call: Call)
    requires Inv(s) && Admissible(s, call) && !Recovers(s, call.request) && OnlyPreviousActive(s)
    ensures OnlyPreviousActive(Step(s, call).tables)
  {
    match call.request
    case RequestRotation(agent, active, key) =>
      hide OnlyPreviousActive, CreateRotation, Inv;
      CreateKeepsOnlyPrevious(s, agent, active, key, call.drawn, call.now);
    case RequestActivation(agent, supplied, rotation, key) =>
      hide OnlyPreviousActive, ActivateRotation;
      ActivateKeepsOnlyPrevious(s, agent, supplied, rotation, key, call.now);
    case RequestRegistration(_, _, _, _, _) =>
      hide OnlyPreviousActive, Register, Inv;
      EnrollKeepsOnlyPrevious(s, call);
    case _ => hide Inv, CreateRotation, ActivateRotation, Register;
  }

  lemma {:induction false} CallsKeepOnlyPrevious(s: Tables, calls: seq<Call>)
    requires Inv(s) && LegalCalls(s, calls) && NoRecovery(s, calls) && OnlyPreviousActive(s)
    ensures OnlyPreviousActive(Served(s, calls))
    decreases |calls|
  {
    hide Inv, OnlyPreviousActive, Step;
    if calls != [] {
      StepKeepsOnlyPrevious(s, calls[0]);
      StepKeepsInv(s, calls[0]);
      CallsKeepOnlyPrevious(Step(s, calls[0]).tables, calls[1..]);
    }
  }

  /** Without recovery the one-active index never blocks an activation. */
  lemma IndexNeverBlocks(calls: seq<Call>, agent: nat, supplied: nat, rotation: nat, key: nat, now: nat)
    requires LegalCalls(NOTHING, calls) && NoRecovery(NOTHING, calls)
    ensures ActivateRotation(Served(NOTHING, calls), agent, supplied, rotation, key, now).reply != Err(IntegrityError)
  {
    CallsKeepOnlyPrevious(NOTHING, calls);
    BeginNeverBlocks(Served(NOTHING, calls), ActivateScope(agent, rotation, key), FINGERPRINT, false, now);
    hide Served, LegalCalls, NoRecovery;
  }

  /** In general it blocks exactly when the activation passed every check while a credential other than
      the one it replaces is active, which is then a recovered one. */
  lemma IndexBlocksIff(s: Tables, agent: nat, supplied: nat, rotation: nat, key: nat, now: nat)
    requires Inv(s)
    ensures ActivateRotation(s, agent, supplied, rotation, key, now).reply == Err(IntegrityError) <==>
              && ActivateScope(agent, rotation, key) !in s.records
              && agent in s.agents && s.agents[agent].active
              && WaitingFor(s, agent, rotation) && s.rotations[rotation].pending == supplied && s.rotations[rotation].expires > now
              && s.credentials[supplied].phase == Pending
              && exists c :: ActiveFor(s, agent, c) && c != s.rotations[rotation].previous
  {
    BeginNeverBlocks(s, ActivateScope(agent, rotation, key), FINGERPRINT, false, now);
    RotationsHaveCredentials(s);
    hide Inv;
    if WaitingFor(s, agent, rotation) && s.rotations[rotation].pending == supplied && s.credentials[supplied].phase == Pending {
      assert IndexBlocks(s, agent, rotation) <==> exists c :: ActiveFor(s, agent, c) && c != s.rotations[rotation].previous;
    }
  }

  /** Recovery is the exception: enroll, start a rotation, recover with a second token, and the old
      rotation, still waiting, can no longer be activated. */
  lemma RecoveryBlocksActivation()
    ensures exists s, supplied, rotation ::
              Reachable(s) && ActivateRotation(s, 1, supplied, rotation, 7, 3).reply == Err(IntegrityError)
  {
    hide LegalCalls, Served, Step, Reachable;
    var enroll := Call(RequestToken(1, None, 100), Drawn(0, 0, 0), 0);
    var register := Call(RequestRegistration(1, 5, 6, 8, true), Drawn(1, 11, 0), 1);
    var rotate := Call(RequestRotation(1, 11, 6), Drawn(0, 12, 21), 2);
    var permit := Call(RequestToken(2, Some(1), 100), Drawn(0, 0, 0), 2);
    var recover := Call(RequestRegistration(2, 5, 9, 8, true), Drawn(2, 13, 0), 3);
    NothingReachable();
    var a := Step(NOTHING, enroll).tables;
    FirstToken(enroll);
    OneMoreCall(NOTHING, enroll);
    var b := Step(a, register).tables;
    FirstRegistration(a, register);
    OneMoreCall(a, register);
    var c := Step(b, rotate).tables;
    FirstRotation(b, rotate);
    OneMoreCall(b, rotate);
    var d := Step(c, permit).tables;
    SecondToken(c, permit);
    OneMoreCall(c, permit);
    var e := Step(d, recover).tables;
    Recovery(d, recover);
    OneMoreCall(d, recover);
    BlockedNow(e);
  }

  lemma NothingReachable()
    ensures Reachable(NOTHING)
  {
    assert LegalCalls(NOTHING, []) && Served(NOTHING, []) == NOTHING;
  }

  lemma OneMoreCall(s: Tables, call: Call)
    requires Reachable(s) && Admissible(s, call)
    ensures Reachable(Step(s, call).tables)
  {
    hide Step, Admissible;
    var calls :| LegalCalls(NOTHING, calls) && Served(NOTHING, calls) == s;
    CallsAppend(NOTHING, calls, call);
    assert LegalCalls(NOTHING, calls + [call]);
  }

  lemma {:induction false} CallsAppend(s: Tables, calls: seq<Call>, call: Call)
    requires LegalCalls(s, calls) && Admissible(Served(s, calls), call)
    ensures LegalCalls(s, calls + [call]) && Served(s, calls + [call]) == Step(Served(s, calls), call).tables
    decreases |calls|
  {
    hide Step, Admissible;
    if calls == [] {
      assert [call][1..] == [];
      assert [] + [call] == [call];
    } else {
      assert (calls + [call])[1..] == calls[1..] + [call];
      CallsAppend(Step(s, calls[0]).tables, calls[1..], call);
    }
  }

  lemma FirstToken(call: Call)
    requires call == Call(RequestToken(1, None, 100), Drawn(0, 0, 0), 0)
    ensures Admissible(NOTHING, call)
    ensures Step(NOTHING, call).tables == NOTHING.(tokens := map[1 := Token(None, 1, 0, false, 100)])
  {
  }

  lemma FirstRegistration(s: Tables, call: Call)
    requires s == NOTHING.(tokens := map[1 := Token(None, 1, 0, false, 100)])
    requires call == Call(RequestRegistration(1, 5, 6, 8, true), Drawn(1, 11, 0), 1)
    ensures Admissible(s, call)
    ensures var t := Step(s, call).tables;
            && t.agents == map[1 := Agent(true, 5)] && t.rotations == map[]
            && t.credentials.Keys == {11} && t.credentials[11].agent == 1 && t.credentials[11].phase == Active
            && t.credentials[11].expires == 1 + CREDENTIAL_LIFE
            && t.records.Keys == {RegisterScope(1, 5, 6)} && t.tokens.Keys == {1}
  {
  }

  lemma FirstRotation(s: Tables, call: Call)
    requires s.agents == map[1 := Agent(true, 5)] && s.rotations == map[]
    requires s.credentials.Keys == {11} && s.credentials[11].agent == 1 && s.credentials[11].phase == Active
    requires s.records.Keys == {RegisterScope(1, 5, 6)} && s.tokens.Keys == {1}
    requires call == Call(RequestRotation(1, 11, 6), Drawn(0, 12, 21), 2)
    ensures Admissible(s, call)
    ensures var t := Step(s, call).tables;
            && t.agents == s.agents && t.tokens == s.tokens && Rotated(t)
            && t.records.Keys == {RegisterScope(1, 5, 6), RotateScope(1, 6)}
            && t.credentials.Keys == {11, 12} && t.credentials[11].phase == Active && t.credentials[12].expires == 2 + WINDOW
  {
    hide Highest;
  }

  ghost predicate Rotated(t: Tables) {
    && 11 in t.credentials && 12 in t.credentials && t.credentials[12].phase == Pending
    && t.credentials[11].agent == t.credentials[12].agent == 1
    && t.rotations == map[21 := Rotation(1, 11, 12, Waiting, 2 + WINDOW)]
  }

  lemma SecondToken(s: Tables, call: Call)
    requires s.agents == map[1 := Agent(true, 5)] && s.tokens.Keys == {1} && Rotated(s)
    requires s.records.Keys == {RegisterScope(1, 5, 6), RotateScope(1, 6)} && s.credentials.Keys == {11, 12}
    requires call == Call(RequestToken(2, Some(1), 100), Drawn(0, 0, 0), 2)
    ensures Admissible(s, call)
    ensures Step(s, call).tables == s.(tokens := s.tokens[2 := Token(Some(1), 1, 0, false, 100)])
  {
  }

  lemma Recovery(s: Tables, call: Call)
    requires s.agents == map[1 := Agent(true, 5)] && 2 in s.tokens && s.tokens[2] == Token(Some(1), 1, 0, false, 100) && Rotated(s)
    requires s.records.Keys == {RegisterScope(1, 5, 6), RotateScope(1, 6)} && s.credentials.Keys == {11, 12}
    requires call == Call(RequestRegistration(2, 5, 9, 8, true), Drawn(2, 13, 0), 3)
    ensures Admissible(s, call)
    ensures var t := Step(s, call).tables;
            && t.agents == s.agents && ActiveFor(t, 1, 13) && Rotated(t)
            && t.records.Keys == s.records.Keys + {RegisterScope(2, 5, 9)}
  {
    hide Highest;
    assert ActiveCredential(s, 1) != Some(12);
  }

  lemma BlockedNow(s: Tables)
    requires Reachable(s) && s.agents == map[1 := Agent(true, 5)] && ActiveFor(s, 1, 13) && Rotated(s)
    requires s.records.Keys == {RegisterScope(1, 5, 6), RotateScope(1, 6), RegisterScope(2, 5, 9)}
    ensures Reachable(s) && ActivateRotation(s, 1, 12, 21, 7, 3).reply == Err(IntegrityError)
  {
    ReachableInv(s);
    hide Inv, Reachable;
    IndexBlocksIff(s, 1, 12, 21, 7, 3);
  }

  /* Exactly-once effects. */

  function ScopeOf(request: Request): (scope: Option<Scope>) {
    match request
    case RequestRotation(agent, _, key) => Some(RotateScope(agent, key))
    case RequestActivation(agent, _, rotation, key) => Some(ActivateScope(agent, rotation, key))
    case RequestRegistration(token, installation, key, _, _) => Some(RegisterScope(token, installation, key))
    case _ => None
  }

  function FingerprintOf(request: Request): nat {
    if request.RequestRegistration? then request.fingerprint else FINGERPRINT
  }

  /** The call commits the effect of its scope. */
  ghost predicate Commits(s: Tables, call: Call, scope: Scope) {
    scope !in s.records && scope in Step(s, call).tables.records
  }

  /** A call adds no record but its own scope's, and without adding it changes nothing at all - except
      that a rotation replayed after its window expires the agent's waiting rotation. */
  lemma NoEffectWithoutCommit(s: Tables, call: Call)
    requires ScopeOf(call.request).Some?
    ensures var scope, t := ScopeOf(call.request).value, Step(s, call).tables;
            && (forall other | other in s.records :: other in t.records && t.records[other] == s.records[other])
            && (forall other | other in t.records && other !in s.records :: other == scope)
            && (Commits(s, call, scope) || t == s
                || (Step(s, call).reply == Err(SecretReplayExpiredError) && scope.RotateScope? && scope in s.records
                    && t == Expire(s, WaitingRotation(s, scope.agent), call.now)))
  {
    hide Highest, IndexBlocks;
    match call.request
    case RequestRotation(agent, active, key) => CreateCommits(s, agent, active, key, call.drawn, call.now);
    case RequestActivation(agent, supplied, rotation, key) =>
    case RequestRegistration(token, installation, key, fingerprint, platformAllowed) =>
  }

  lemma CreateCommits(s: Tables, agent: nat, active: nat, key: nat, drawn: Drawn, now: nat)
    ensures var scope, t := RotateScope(agent, key), CreateRotation(s, agent, active, key, drawn, now).tables;
            && (forall other | other in s.records :: other in t.records && t.records[other] == s.records[other])
            && (forall other | other in t.records && other !in s.records :: other == scope)
            && ((scope !in s.records && scope in t.records) || t == s
                || (CreateRotation(s, agent, active, key, drawn, now).reply == Err(SecretReplayExpiredError) && scope in s.records
                    && t == Expire(s, WaitingRotation(s, agent), now)))
  {
    hide Highest;
  }

  lemma RecordStays(s: Tables, call: Call, scope: Scope)
    requires scope in s.records
    ensures scope in Step(s, call).tables.records && Step(s, call).tables.records[scope] == s.records[scope]
  {
    if ScopeOf(call.request).Some? {
      hide Step;
      NoEffectWithoutCommit(s, call);
    }
  }

  ghost function CommitCount(s: Tables, calls: seq<Call>, scope: Scope): (n: nat)
    decreases |calls|
  {
    if calls == [] then 0
    else (if Commits(s, calls[0], scope) then 1 else 0) + CommitCount(Step(s, calls[0]).tables, calls[1..], scope)
  }

  /** In every run each idempotency scope commits at most one effect. */
  lemma {:induction false} AtMostOneCommit(s: Tables, calls: seq<Call>, scope: Scope)
    ensures CommitCount(s, calls, scope) <= if scope in s.records then 0 else 1
    decreases |calls|
  {
    hide Step;
    if calls != [] {
      AtMostOneCommit(Step(s, calls[0]).tables, calls[1..], scope);
      if scope in s.records {
        RecordStays(s, calls[0], scope);
      }
    }
  }

  lemma {:induction false} RecordLasts(s: Tables, calls: seq<Call>, scope: Scope)
    requires scope in s.records
    ensures scope in Served(s, calls).records && Served(s, calls).records[scope] == s.records[scope]
    decreases |calls|
  {
    hide Step;
    if calls != [] {
      RecordStays(s, calls[0], scope);
      RecordLasts(Step(s, calls[0]).tables, calls[1..], scope);
    }
  }

  /** After a scope committed with some body, every later call in it gets that body, or an expiry error
      once a secret's replay window is over; and one with another fingerprint gets a conflict and
      changes nothing. */
  lemma LaterCallsGetFirstBody(s: Tables, calls: seq<Call>, call: Call, scope: Scope)
    requires Reachable(s) && LegalCalls(s, calls) && scope in s.records && ScopeOf(call.request) == Some(scope)
    ensures s.records[scope].phase == Completed && s.records[scope].body.Some?
    ensures !scope.ActivateScope? ==> s.records[scope].replayUntil.Some?
    ensures var t, record := Served(s, calls), s.records[scope];
            if FingerprintOf(call.request) != record.fingerprint then
              Step(t, call) == Outcome(t, Err(IdempotencyConflictError))
            else if scope.ActivateScope? || call.now < record.replayUntil.value then
              Step(t, call) == Outcome(t, Ok(record.body.value))
            else
              Step(t, call).reply == Err(SecretReplayExpiredError)
  {
    hide LegalCalls;
    ReachableInv(s);
    assert RecordOk(s, scope);
    RecordLasts(s, calls, scope);
    var t := Served(s, calls);
    if scope.RegisterScope? {
      TokenLasts(s, calls, scope.token);
    }
    hide Served, Inv, Highest;
    ReplayedBody(t, call, scope);
  }

  lemma ReplayedBody(t: Tables, call: Call, scope: Scope)
    requires scope in t.records && ScopeOf(call.request) == Some(scope) && (scope.RegisterScope? ==> scope.token in t.tokens)
    requires t.records[scope].phase == Completed && t.records[scope].body.Some? && (!scope.ActivateScope? ==> t.records[scope].replayUntil.Some?)
    ensures var record := t.records[scope];
            if FingerprintOf(call.request) != record.fingerprint then
              Step(t, call) == Outcome(t, Err(IdempotencyConflictError))
            else if scope.ActivateScope? || call.now < record.replayUntil.value then
              Step(t, call) == Outcome(t, Ok(record.body.value))
            else
              Step(t, call).reply == Err(SecretReplayExpiredError)
  {
  }

  lemma {:induction false} TokenLasts(s: Tables, calls: seq<Call>, token: nat)
    requires token in s.tokens
    ensures token in Served(s, calls).tokens && Served(s, calls).tokens[token].uses >= s.tokens[token].uses
    decreases |calls|
  {
    if calls != [] {
      TokenStays(s, calls[0], token);
      hide Step;
      TokenLasts(Step(s, calls[0]).tables, calls[1..], token);
    }
  }

  lemma TokenStays(s: Tables, call: Call, token: nat)
    requires token in s.tokens
    ensures token in Step(s, call).tables.tokens && Step(s, call).tables.tokens[token].uses >= s.tokens[token].uses
  {
    hide Highest, IndexBlocks, WaitingRotation, ActiveCredential;
    match call.request
    case RequestRotation(_, _, _) =>
    case RequestActivation(_, _, _, _) =>
    case _ => hide CreateRotation, ActivateRotation;
  }

  /** The call mints a credential by the token. */
  ghost predicate Mints(s: Tables, call: Call, token: nat) {
    call.request.RequestRegistration? && call.request.token == token && Step(s, call).tables != s
  }

  ghost function MintCount(s: Tables, calls: seq<Call>, token: nat): (n: nat)
    decreases |calls|
  {
    if calls == [] then 0
    else (if Mints(s, calls[0], token) then 1 else 0) + MintCount(Step(s, calls[0]).tables, calls[1..], token)
  }

  lemma MintUsesToken(s: Tables, call: Call, token: nat)
    requires Inv(s) && Mints(s, call, token)
    ensures token in s.tokens && s.tokens[token].uses == 0
    ensures token in Step(s, call).tables.tokens && Step(s, call).tables.tokens[token].uses == 1
  {
    assert TokensOk(s);
    hide Inv, Highest;
  }

  /** One enrollment token mints at most one credential, under whatever keys it is presented. */
  lemma {:induction false} OneCredentialPerToken(s: Tables, calls: seq<Call>, token: nat)
    requires Inv(s) && LegalCalls(s, calls)
    ensures MintCount(s, calls, token) <= if token in s.tokens && s.tokens[token].uses > 0 then 0 else 1
    decreases |calls|
  {
    hide Inv, Step, Mints;
    if calls != [] {
      StepKeepsInv(s, calls[0]);
      OneCredentialPerToken(Step(s, calls[0]).tables, calls[1..], token);
      if Mints(s, calls[0], token) {
        MintUsesToken(s, calls[0], token);
      } else if token in s.tokens {
        TokenStays(s, calls[0], token);
      }
    }
  }

  /** No committed record is in progress, and each names the effect it stands for. */
  lemma RecordsAreCompleted(s: Tables, scope: Scope)
    requires Reachable(s) && scope in s.records
    ensures s.records[scope].phase == Completed && s.records[scope].body.Some? && RecordOk(s, scope)
  {
    ReachableInv(s);
    assert RecordOk(s, scope);
  }
}
