/** When each of the server's transactions takes effect and what it leaves, told by the rows alone. */
module CredentialLaws {
  import opened Options
  import opened CredentialState
  import opened CredentialSafety
  import opened CredentialLifecycle

  /* Idempotency. */

  /** A scope that is not on record is new.  One that is gives its body only for the same request, once it is no
      longer in progress, and a secret body only within its replay window. */
  lemma ReplaysIff(s: Tables, scope: Scope, fingerprint: nat, secret: bool, now: nat)
    ensures Begin(s, scope, fingerprint, secret, now).New? <==> scope !in s.records
    ensures Begin(s, scope, fingerprint, secret, now).Replay? <==>
              && scope in s.records && s.records[scope].fingerprint == fingerprint && s.records[scope].body.Some?
              && (s.records[scope].phase == InProgress ==> s.records[scope].updated + WINDOW <= now)
              && (secret ==> s.records[scope].replayUntil.Some? && now < s.records[scope].replayUntil.value)
    ensures Begin(s, scope, fingerprint, secret, now).Replay? ==> Begin(s, scope, fingerprint, secret, now).body == s.records[scope].body.value
  {
  }

  /* Enrollment. */

  /** The installation is not another agent's. */
  ghost predicate InstallationUnclaimed(s: Tables, bound: Option<nat>, installation: nat) {
    forall a | a in s.agents && (bound.None? || a != bound.value) :: s.agents[a].installation != installation
  }

  /** A registration under a new key is due when its token is good - not revoked, not expired, not used up -
      the platform is allowed, the agent a recovery token is for exists, and nobody else has the
      installation. */
  ghost predicate RegistrationDue(s: Tables, q: Request, now: nat)
    requires q.RequestRegistration?
  {
    && RegisterScope(q.token, q.installation, q.key) !in s.records && q.token in s.tokens
    && var t := s.tokens[q.token];
    && !t.revoked && now < t.expires && t.uses < t.maxUses && q.platformAllowed
    && (t.bound.Some? ==> t.bound.value in s.agents)
    && InstallationUnclaimed(s, t.bound, q.installation)
  }

  /** A registration changes anything at all, and changes credentials, exactly when it is due. */
  lemma RegistrationIff(s: Tables, call: Call)
    requires call.request.RequestRegistration? && Unused(s, call.drawn)
    ensures Step(s, call).tables.credentials != s.credentials <==> RegistrationDue(s, call.request, call.now)
    ensures Step(s, call).tables != s <==> RegistrationDue(s, call.request, call.now)
    ensures RegisterScope(call.request.token, call.request.installation, call.request.key) !in s.records ==>
              (Step(s, call).reply.Ok? <==> RegistrationDue(s, call.request, call.now))
  {
    if RegistrationDue(s, call.request, call.now) {
      RegistrationIssues(s, call);
    }
    hide Highest, Issued;
  }

  /** The agent a registration is for. */
  function Enrollee(s: Tables, call: Call): (agent: nat)
    requires call.request.RequestRegistration? && call.request.token in s.tokens
  {
    var bound := s.tokens[call.request.token].bound;
    if bound.Some? then bound.value else call.drawn.agent
  }

  /** The agent gets one active credential, newer than all it had, for its whole life; the one it had is
      revoked, and the token is used once more. */
  lemma RegistrationIssues(s: Tables, call: Call)
    requires call.request.RequestRegistration? && Unused(s, call.drawn) && RegistrationDue(s, call.request, call.now)
    ensures var x, q, agent, c := Step(s, call).tables, call.request, Enrollee(s, call), call.drawn.credential;
            && Step(s, call).reply == Ok(RegistrationBody(agent, c))
            && x.agents == s.agents[agent := Agent(true, q.installation)] && x.rotations == s.rotations
            && x.tokens == s.tokens[q.token := s.tokens[q.token].(uses := s.tokens[q.token].uses + 1)]
            && x.credentials.Keys == s.credentials.Keys + {c}
            && x.credentials[c].agent == agent && x.credentials[c].phase == Active && x.credentials[c].expires == call.now + CREDENTIAL_LIFE
            && NextVersion(s, agent, x.credentials[c].version) && x.credentials != s.credentials
            && x.records == s.records[RegisterScope(q.token, q.installation, q.key) :=
                                        Record(q.fingerprint, Completed, Some(RegistrationBody(agent, c)), Some(call.now + WINDOW), call.now)]
  {
    assert call.drawn.credential !in s.credentials;
    var agent := Enrollee(s, call);
    HighestIsNext(s, Enrolled(s, agent, call.request.installation), agent);
    hide NextVersion;
  }

  /** One more than the agent's highest version so far. */
  ghost predicate NextVersion(s: Tables, agent: nat, version: nat) {
    && (forall d | d in s.credentials && s.credentials[d].agent == agent :: s.credentials[d].version < version)
    && (version == 1 || exists d :: d in s.credentials && s.credentials[d].agent == agent && s.credentials[d].version == version - 1)
  }

  lemma HighestIsNext(s: Tables, t: Tables, agent: nat)
    requires t.credentials.Keys == s.credentials.Keys
    requires forall d | d in s.credentials :: t.credentials[d].agent == s.credentials[d].agent && t.credentials[d].version == s.credentials[d].version
    ensures NextVersion(s, agent, Highest(t, agent) + 1)
  {
    var h := Highest(t, agent);
    if h != 0 {
      var d :| d in t.credentials.Keys && t.credentials[d].agent == agent && t.credentials[d].version == h;
      assert d in s.credentials;
    }
  }

  /** Of the agent's other credentials only an active one changes, and it is revoked. */
  lemma RegistrationRevokes(s: Tables, call: Call, d: nat)
    requires Inv(s) && call.request.RequestRegistration? && Unused(s, call.drawn) && RegistrationDue(s, call.request, call.now)
    requires d in s.credentials
    ensures d in Step(s, call).tables.credentials
    ensures Step(s, call).tables.credentials[d] ==
              s.credentials[d].(phase := if s.credentials[d].agent == Enrollee(s, call) && s.credentials[d].phase == Active then Revoked
                                         else s.credentials[d].phase)
  {
    OneIsActive(s, Enrolled(s, Enrollee(s, call), call.request.installation), Enrollee(s, call), d);
    hide Inv, Highest, ActiveCredential;
  }

  lemma OneIsActive(s: Tables, e: Tables, agent: nat, d: nat)
    requires Inv(s) && e.credentials == s.credentials && d in s.credentials
    ensures ActiveCredential(e, agent) == Some(d) <==> s.credentials[d].agent == agent && s.credentials[d].phase == Active
  {
    assert CredentialsOk(s);
    hide Inv;
    assert ActiveFor(e, agent, d) <==> s.credentials[d].agent == agent && s.credentials[d].phase == Active;
  }

  /* What a revoked token prevents. */

  ghost predicate TokenRevoked(s: Tables, token: nat) {
    token in s.tokens && s.tokens[token].revoked
  }

  lemma RevokingRevokes(s: Tables, call: Call)
    requires call.request.RequestTokenRevocation? && call.request.token in s.tokens
    ensures TokenRevoked(Step(s, call).tables, call.request.token)
  {
  }

  lemma TokenStaysRevoked(s: Tables, call: Call, token: nat)
    requires TokenRevoked(s, token)
    ensures TokenRevoked(Step(s, call).tables, token)
  {
    hide Highest, IndexBlocks, WaitingRotation, ActiveCredential;
    match call.request
    case RequestRotation(_, _, _) =>
    case RequestActivation(_, _, _, _) =>
    case _ => hide CreateRotation, ActivateRotation;
  }

  lemma {:induction false} StaysRevoked(s: Tables, calls: seq<Call>, token: nat)
    requires TokenRevoked(s, token) && LegalCalls(s, calls)
    ensures TokenRevoked(Served(s, calls), token) && MintCount(s, calls, token) == 0
    decreases |calls|
  {
    hide Step, TokenRevoked, Mints;
    if calls != [] {
      TokenStaysRevoked(s, calls[0], token);
      MintsNothing(s, calls[0], token);
      StaysRevoked(Step(s, calls[0]).tables, calls[1..], token);
    }
  }

  lemma MintsNothing(s: Tables, call: Call, token: nat)
    requires TokenRevoked(s, token) && Unused(s, call.drawn)
    ensures !Mints(s, call, token)
  {
    if call.request.RequestRegistration? && call.request.token == token {
      RegistrationIff(s, call);
    }
  }

  /** After a token is revoked it never enrolls or recovers anybody: in every later run no credential is minted
      by it, and a registration with it changes nothing and gets no answer but the recorded one of a
      registration that had gone through before. */
  lemma RevokedTokenEnrollsNobody(s: Tables, revocation: Call, calls: seq<Call>, call: Call)
    requires revocation.request.RequestTokenRevocation? && revocation.request.token in s.tokens
    requires LegalCalls(Step(s, revocation).tables, calls)
    requires call.request.RequestRegistration? && call.request.token == revocation.request.token
    requires Unused(Served(Step(s, revocation).tables, calls), call.drawn)
    ensures MintCount(Step(s, revocation).tables, calls, revocation.request.token) == 0
    ensures var t, scope := Served(Step(s, revocation).tables, calls), RegisterScope(call.request.token, call.request.installation, call.request.key);
            && Step(t, call).tables == t
            && (Step(t, call).reply.Ok? ==> scope in t.records && t.records[scope].body == Some(Step(t, call).reply.body))
  {
    RevokingRevokes(s, revocation);
    StaysRevoked(Step(s, revocation).tables, calls, revocation.request.token);
    var t := Served(Step(s, revocation).tables, calls);
    hide Served, LegalCalls, MintCount;
    RegistrationIff(t, call);
    hide Highest, Issued;
  }

  /* Rotation. */

  /** A rotation under a new key is due for an active agent with an active credential, while no other rotation
      of the agent waits that is still in time. */
  ghost predicate RotationDue(s: Tables, q: Request, now: nat)
    requires q.RequestRotation?
  {
    && RotateScope(q.agent, q.key) !in s.records
    && q.agent in s.agents && s.agents[q.agent].active
    && q.active in s.credentials && s.credentials[q.active].phase == Active
    && (forall r | r in s.rotations && s.rotations[r].agent == q.agent && s.rotations[r].phase == Waiting :: s.rotations[r].expires <= now)
  }

  lemma RotationIff(s: Tables, call: Call)
    requires Inv(s) && Admissible(s, call) && call.request.RequestRotation?
    ensures call.drawn.rotation in Step(s, call).tables.rotations <==> RotationDue(s, call.request, call.now)
    ensures RotateScope(call.request.agent, call.request.key) !in s.records ==>
              (Step(s, call).reply.Ok? <==> RotationDue(s, call.request, call.now))
  {
    if RotationDue(s, call.request, call.now) {
      RotationGoes(s, call);
      hide Inv, Step, Highest, Expire, RotationDue;
    } else {
      RotationRefused(s, call);
      hide Inv, Step, RotationDue;
    }
  }

  lemma RotationRefused(s: Tables, call: Call)
    requires Inv(s) && Admissible(s, call) && call.request.RequestRotation? && !RotationDue(s, call.request, call.now)
    ensures call.drawn.rotation !in Step(s, call).tables.rotations
    ensures RotateScope(call.request.agent, call.request.key) !in s.records ==> !Step(s, call).reply.Ok?
  {
    var q := call.request;
    if RotateScope(q.agent, q.key) in s.records {
      RotationKnown(s, call);
    } else {
      NothingWaits(s, q.agent, call.now);
      AgedStillActive(s, q.agent, q.active, call.now);
      RotationNotDue(s, call, Expire(s, WaitingRotation(s, q.agent), call.now));
    }
    hide Inv, Step, RotationDue;
  }

  lemma RotationKnown(s: Tables, call: Call)
    requires call.request.RequestRotation? && RotateScope(call.request.agent, call.request.key) in s.records && Unused(s, call.drawn)
    ensures call.drawn.rotation !in Step(s, call).tables.rotations
  {
  }

  lemma RotationNotDue(s: Tables, call: Call, t: Tables)
    requires call.request.RequestRotation? && !RotationDue(s, call.request, call.now) && Unused(s, call.drawn)
    requires RotateScope(call.request.agent, call.request.key) !in s.records
    requires t == Expire(s, WaitingRotation(s, call.request.agent), call.now) && t.rotations.Keys == s.rotations.Keys && t.agents == s.agents
    requires WaitingRotation(t, call.request.agent).None? <==>
               forall r | r in s.rotations && s.rotations[r].agent == call.request.agent && s.rotations[r].phase == Waiting :: s.rotations[r].expires <= call.now
    requires call.request.active in t.credentials && t.credentials[call.request.active].phase == Active ==>
               call.request.active in s.credentials && s.credentials[call.request.active].phase == Active
    ensures call.drawn.rotation !in Step(s, call).tables.rotations && !Step(s, call).reply.Ok?
  {
    hide Expire, WaitingRotation, Rotating;
  }

  lemma AgedStillActive(s: Tables, agent: nat, c: nat, now: nat)
    requires Inv(s)
    ensures var t := Expire(s, WaitingRotation(s, agent), now);
            && t.agents == s.agents && t.records == s.records && t.rotations.Keys == s.rotations.Keys
            && (c in t.credentials <==> c in s.credentials) && (c in s.credentials ==> (t.credentials[c].phase == Active <==> s.credentials[c].phase == Active))
  {
    AfterExpiry(s, agent, now);
    hide Inv, Expire, WaitingRotation, TimesOut;
  }

  ghost predicate TimesOut(s: Tables, agent: nat, r: nat, now: nat) {
    r in s.rotations && s.rotations[r].agent == agent && s.rotations[r].phase == Waiting && s.rotations[r].expires <= now
  }

  ghost predicate PendingTimesOut(s: Tables, agent: nat, c: nat, now: nat) {
    c in s.credentials && s.credentials[c].phase == Pending && exists r :: TimesOut(s, agent, r, now) && s.rotations[r].pending == c
  }

  lemma OneWaits(s: Tables, agent: nat, q: nat)
    requires Inv(s) && WaitingFor(s, agent, q)
    ensures WaitingRotation(s, agent) == Some(q)
  {
    assert RotationsOk(s);
  }

  /** Whether anything still waits once the expired rotation is out of the way. */
  lemma NothingWaits(s: Tables, agent: nat, now: nat)
    requires Inv(s)
    ensures WaitingRotation(Expire(s, WaitingRotation(s, agent), now), agent).None? <==>
              forall r | r in s.rotations && s.rotations[r].agent == agent && s.rotations[r].phase == Waiting :: s.rotations[r].expires <= now
  {
    var w := WaitingRotation(s, agent);
    forall r: nat | WaitingFor(s, agent, r) ensures w == Some(r) {
      OneWaits(s, agent, r);
    }
    hide Inv, WaitingRotation;
    var t := Expire(s, w, now);
    assert forall r :: WaitingFor(t, agent, r) <==> WaitingFor(s, agent, r) && s.rotations[r].expires > now;
    assert WaitingRotation(t, agent).None? <==> forall r :: !WaitingFor(t, agent, r);
  }

  /** What the expiry changes: the rotation that timed out and its pending credential. */
  ghost predicate Aged(s: Tables, t: Tables, agent: nat, now: nat) {
    && t == s.(rotations := t.rotations, credentials := t.credentials)
    && t.rotations.Keys == s.rotations.Keys && t.credentials.Keys == s.credentials.Keys
    && (forall r | r in s.rotations ::
          t.rotations[r] == s.rotations[r].(phase := if TimesOut(s, agent, r, now) then TimedOut else s.rotations[r].phase))
    && (forall c | c in s.credentials ::
          t.credentials[c] == s.credentials[c].(phase := if PendingTimesOut(s, agent, c, now) then CredentialPhase.Expired else s.credentials[c].phase))
  }

  lemma AfterExpiry(s: Tables, agent: nat, now: nat)
    requires Inv(s)
    ensures Aged(s, Expire(s, WaitingRotation(s, agent), now), agent, now)
  {
    var w := WaitingRotation(s, agent);
    forall r ensures TimesOut(s, agent, r, now) <==> w == Some(r) && s.rotations[r].expires <= now {
      if WaitingFor(s, agent, r) {
        OneWaits(s, agent, r);
      }
    }
    assert w.Some? ==> w.value in s.rotations;
    hide Inv, WaitingRotation, TimesOut;
    if w.Some? && s.rotations[w.value].expires <= now {
      ExpiryAges(s, agent, w.value, now);
    } else {
      assert forall c :: !PendingTimesOut(s, agent, c, now);
    }
  }

  lemma ExpiryAges(s: Tables, agent: nat, w: nat, now: nat)
    requires w in s.rotations && s.rotations[w].expires <= now && forall r :: TimesOut(s, agent, r, now) <==> r == w
    ensures Aged(s, Expire(s, Some(w), now), agent, now)
  {
    hide TimesOut;
    forall c | c in s.credentials ensures PendingTimesOut(s, agent, c, now) <==> s.credentials[c].phase == Pending && s.rotations[w].pending == c {
      assert TimesOut(s, agent, w, now);
    }
    hide PendingTimesOut;
  }

  /** One pending credential and one waiting rotation are added, both for as long as the window; an expired
      rotation of the agent times out, with its pending credential; nothing else changes. */
  lemma RotationAdds(s: Tables, call: Call)
    requires Inv(s) && Admissible(s, call) && call.request.RequestRotation? && RotationDue(s, call.request, call.now)
    ensures var x, q, c, r := Step(s, call).tables, call.request, call.drawn.credential, call.drawn.rotation;
            && Step(s, call).reply == Ok(RotationBody(r, c))
            && x.agents == s.agents && x.tokens == s.tokens
            && x.rotations.Keys == s.rotations.Keys + {r} && x.credentials.Keys == s.credentials.Keys + {c}
            && x.rotations[r] == Rotation(q.agent, q.active, c, Waiting, call.now + WINDOW)
            && x.credentials[c].agent == q.agent && x.credentials[c].phase == Pending && x.credentials[c].expires == call.now + WINDOW
            && NextVersion(s, q.agent, x.credentials[c].version)
            && x.records == s.records[RotateScope(q.agent, q.key) := Record(FINGERPRINT, Completed, Some(RotationBody(r, c)), Some(call.now + WINDOW), call.now)]
            && (forall p | p in s.rotations ::
                  x.rotations[p] == s.rotations[p].(phase := if TimesOut(s, q.agent, p, call.now) then TimedOut else s.rotations[p].phase))
            && (forall d | d in s.credentials ::
                  x.credentials[d] == s.credentials[d].(phase := if PendingTimesOut(s, q.agent, d, call.now) then CredentialPhase.Expired else s.credentials[d].phase))
  {
    var q, drawn, now := call.request, call.drawn, call.now;
    var t := Expire(s, WaitingRotation(s, q.agent), now);
    assert drawn.credential !in s.credentials && drawn.rotation !in s.rotations;
    RotationGoes(s, call);
    AfterExpiry(s, q.agent, now);
    AgedVersions(s, t, q.agent, now);
    hide Inv, Expire, WaitingRotation, TimesOut, PendingTimesOut, Step, RotationDue, Rotating, Aged, NextVersion, Highest;
    RotatingRows(t, q.agent, q.active, q.key, drawn, now);
    AgedPlus(s, t, Rotating(t, q.agent, q.active, q.key, drawn, now), q.agent, drawn, now);
  }

  lemma AgedPlus(s: Tables, t: Tables, x: Tables, agent: nat, drawn: Drawn, now: nat)
    requires Aged(s, t, agent, now) && drawn.credential !in s.credentials && drawn.rotation !in s.rotations
    requires drawn.rotation in x.rotations && x.rotations == t.rotations[drawn.rotation := x.rotations[drawn.rotation]]
    requires drawn.credential in x.credentials && x.credentials == t.credentials[drawn.credential := x.credentials[drawn.credential]]
    ensures t.agents == s.agents && t.tokens == s.tokens && t.records == s.records
    ensures x.rotations.Keys == s.rotations.Keys + {drawn.rotation} && x.credentials.Keys == s.credentials.Keys + {drawn.credential}
    ensures forall p | p in s.rotations ::
              x.rotations[p] == s.rotations[p].(phase := if TimesOut(s, agent, p, now) then TimedOut else s.rotations[p].phase)
    ensures forall d | d in s.credentials ::
              x.credentials[d] == s.credentials[d].(phase := if PendingTimesOut(s, agent, d, now) then CredentialPhase.Expired else s.credentials[d].phase)
  {
    hide TimesOut, PendingTimesOut;
  }

  lemma RotatingRows(t: Tables, agent: nat, active: nat, key: nat, drawn: Drawn, now: nat)
    ensures var x := Rotating(t, agent, active, key, drawn, now);
            && x.agents == t.agents && x.tokens == t.tokens
            && x.rotations == t.rotations[drawn.rotation := Rotation(agent, active, drawn.credential, Waiting, now + WINDOW)]
            && drawn.credential in x.credentials && x.credentials == t.credentials[drawn.credential := x.credentials[drawn.credential]]
            && x.credentials[drawn.credential] == Credential(agent, Highest(t, agent) + 1, Pending, now + WINDOW)
            && x.records == t.records[RotateScope(agent, key) := Record(FINGERPRINT, Completed, Some(RotationBody(drawn.rotation, drawn.credential)), Some(now + WINDOW), now)]
  {
    hide Highest;
  }

  lemma AgedVersions(s: Tables, t: Tables, agent: nat, now: nat)
    requires Aged(s, t, agent, now)
    ensures NextVersion(s, agent, Highest(t, agent) + 1)
  {
    HighestIsNext(s, t, agent);
    hide Highest, NextVersion, TimesOut, PendingTimesOut;
  }

  lemma RotationGoes(s: Tables, call: Call)
    requires Inv(s) && Admissible(s, call) && call.request.RequestRotation? && RotationDue(s, call.request, call.now)
    ensures var q, t := call.request, Expire(s, WaitingRotation(s, call.request.agent), call.now);
            Step(s, call) == Outcome(Rotating(t, q.agent, q.active, q.key, call.drawn, call.now), Ok(RotationBody(call.drawn.rotation, call.drawn.credential)))
  {
    var q, drawn, now := call.request, call.drawn, call.now;
    CreateKeepsInv(s, q.agent, q.active, q.key, drawn, now);
    NothingWaits(s, q.agent, now);
    AgedStillActive(s, q.agent, q.active, now);
    hide Inv, Expire, WaitingRotation, Rotating;
  }

  /* Activation. */

  /** An activation under a new key is due for an active agent's own waiting rotation, in time, presented with
      its pending credential, while no third credential of the agent is active. */
  ghost predicate ActivationDue(s: Tables, q: Request, now: nat)
    requires q.RequestActivation?
  {
    && ActivateScope(q.agent, q.rotation, q.key) !in s.records
    && q.agent in s.agents && s.agents[q.agent].active && q.rotation in s.rotations
    && var r := s.rotations[q.rotation];
    && r.agent == q.agent && r.pending == q.supplied && r.phase == Waiting && now < r.expires
    && q.supplied in s.credentials && s.credentials[q.supplied].phase == Pending
    && (forall c | c in s.credentials && s.credentials[c].agent == q.agent && s.credentials[c].phase == Active :: c == r.previous)
  }

  lemma ActivationIff(s: Tables, call: Call)
    requires Inv(s) && call.request.RequestActivation?
    ensures Step(s, call).tables != s <==> ActivationDue(s, call.request, call.now)
    ensures ActivateScope(call.request.agent, call.request.rotation, call.request.key) !in s.records ==>
              (Step(s, call).reply.Ok? <==> ActivationDue(s, call.request, call.now))
  {
    var q := call.request;
    assert q.rotation in s.rotations ==> RotationOk(s, q.rotation);
    hide Inv;
    if ActivationDue(s, q, call.now) {
      assert Step(s, call).tables.rotations[q.rotation].phase == RotationPhase.Activated;
    } else if ActivateScope(q.agent, q.rotation, q.key) !in s.records && q.rotation in s.rotations {
      assert forall c :: ActiveFor(s, q.agent, c) <==> c in s.credentials && s.credentials[c].agent == q.agent && s.credentials[c].phase == Active;
    }
  }

  /** The pending credential becomes active for a whole life, the replaced one is revoked, the rotation is
      done; nothing else changes. */
  lemma ActivationSwaps(s: Tables, call: Call)
    requires Inv(s) && call.request.RequestActivation? && ActivationDue(s, call.request, call.now)
    ensures var x, q, r := Step(s, call).tables, call.request, s.rotations[call.request.rotation];
            && r.previous in s.credentials && r.previous != q.supplied
            && Step(s, call).reply == Ok(ActivationBody(q.rotation, q.supplied))
            && x.agents == s.agents && x.tokens == s.tokens && x.rotations == s.rotations[q.rotation := r.(phase := Activated)]
            && x.credentials == s.credentials[r.previous := s.credentials[r.previous].(phase := Revoked)]
                                             [q.supplied := s.credentials[q.supplied].(phase := Active, expires := call.now + CREDENTIAL_LIFE)]
            && x.records == s.records[ActivateScope(q.agent, q.rotation, q.key) :=
                                        Record(FINGERPRINT, Completed, Some(ActivationBody(q.rotation, q.supplied)), None, call.now)]
  {
    assert RotationOk(s, call.request.rotation);
    hide Inv;
  }

  /* Revocation. */

  /** Revoking an agent leaves it none of what it could use, and leaves everybody else alone. */
  lemma AgentRevocationEnds(s: Tables, call: Call)
    requires call.request.RequestAgentRevocation? && call.request.agent in s.agents
    ensures var x, agent := Step(s, call).tables, call.request.agent;
            && x.agents == s.agents[agent := s.agents[agent].(active := false)] && x.tokens == s.tokens && x.records == s.records
            && x.credentials.Keys == s.credentials.Keys && x.rotations.Keys == s.rotations.Keys
            && (forall c | c in s.credentials :: x.credentials[c] ==
                  s.credentials[c].(phase := if s.credentials[c].agent == agent && (s.credentials[c].phase == Active || s.credentials[c].phase == Pending)
                                             then Revoked else s.credentials[c].phase))
            && (forall r | r in s.rotations :: x.rotations[r] ==
                  s.rotations[r].(phase := if s.rotations[r].agent == agent && s.rotations[r].phase == Waiting then Withdrawn else s.rotations[r].phase))
  {
  }

  /** Revoking one credential needs it to be the agent's, and changes nothing else. */
  lemma CredentialRevocationIff(s: Tables, call: Call)
    requires call.request.RequestCredentialRevocation?
    ensures var o, q := Step(s, call), call.request;
            if q.credential in s.credentials && s.credentials[q.credential].agent == q.agent then
              o == Outcome(s.(credentials := s.credentials[q.credential := s.credentials[q.credential].(phase := Revoked)]), Done)
            else o.tables == s && o.reply.Err?
  {
  }

  /** A new enrollment token is good for one use until it expires; one for recovery needs its agent. */
  lemma TokenCreationIff(s: Tables, call: Call)
    requires call.request.RequestToken?
    ensures var o, q := Step(s, call), call.request;
            if q.token !in s.tokens && (q.bound.Some? ==> q.bound.value in s.agents) then
              && o.reply.Done? && o.tables == s.(tokens := o.tables.tokens)
              && o.tables.tokens == s.tokens[q.token := Token(q.bound, 1, 0, false, q.expires)]
            else o.tables == s && o.reply.Err?
  {
  }

  /** Revoking a token marks it and changes nothing else. */
  lemma TokenRevocationIff(s: Tables, call: Call)
    requires call.request.RequestTokenRevocation?
    ensures var o, token := Step(s, call), call.request.token;
            if token in s.tokens then o == Outcome(s.(tokens := s.tokens[token := s.tokens[token].(revoked := true)]), Done)
            else o.tables == s && o.reply.Err?
  {
  }

  /** Who a request is authenticated as: an active agent's own credential, in time, active or - to activate a
      rotation - pending. */
  lemma AuthenticatesIff(s: Tables, c: nat, acceptPending: bool, now: nat)
    ensures Authenticates(s, c, acceptPending, now) <==>
              && c in s.credentials && s.credentials[c].agent in s.agents && s.agents[s.credentials[c].agent].active
              && now < s.credentials[c].expires && (s.credentials[c].phase == Active || (s.credentials[c].phase == Pending && acceptPending))
  {
  }

  /** How long a credential lives is only ever decided when it is issued or activated: in no other way does a
      call change an expiry. */
  lemma ExpiryLaw(s: Tables, call: Call, c: nat)
    requires Inv(s) && Admissible(s, call) && c in Step(s, call).tables.credentials
    ensures var x, was := Step(s, call).tables.credentials[c], if c in s.credentials then Some(s.credentials[c]) else None;
            && (was.None? ==> c == call.drawn.credential && (x.phase == Active || x.phase == Pending)
                              && x.expires == call.now + if x.phase == Active then CREDENTIAL_LIFE else WINDOW)
            && (was.Some? && x.expires != was.value.expires ==>
                  was.value.phase == Pending && x.phase == Active && x.expires == call.now + CREDENTIAL_LIFE)
            && (was.Some? && was.value.phase == Pending && x.phase == Active ==> x.expires == call.now + CREDENTIAL_LIFE)
  {
    match call.request
    case RequestRegistration(_, _, _, _, _) =>
      RegistrationExpiry(s, call, c);
      hide Inv, Step;
    case RequestRotation(_, _, _) =>
      RotationExpiry(s, call, c);
      hide Inv, Step;
    case RequestActivation(_, _, _, _) =>
      ActivationExpiry(s, call, c);
      hide Inv, Step;
    case _ => hide Inv, CreateRotation, ActivateRotation, Register;
  }

  lemma RegistrationExpiry(s: Tables, call: Call, c: nat)
    requires Inv(s) && Admissible(s, call) && call.request.RequestRegistration? && c in Step(s, call).tables.credentials
    ensures var x := Step(s, call).tables.credentials[c];
            if c in s.credentials then x.expires == s.credentials[c].expires && (x.phase == Active ==> s.credentials[c].phase == Active)
            else c == call.drawn.credential && x.phase == Active && x.expires == call.now + CREDENTIAL_LIFE
  {
    RegistrationIff(s, call);
    if RegistrationDue(s, call.request, call.now) {
      RegistrationIssues(s, call);
      if c in s.credentials {
        RegistrationRevokes(s, call, c);
      }
    }
    hide Inv, Step, RegistrationDue;
  }

  lemma ActivationExpiry(s: Tables, call: Call, c: nat)
    requires Inv(s) && call.request.RequestActivation? && c in Step(s, call).tables.credentials
    ensures var x := Step(s, call).tables.credentials[c];
            && c in s.credentials
            && (if s.credentials[c].phase == Pending && x.phase == Active then x.expires == call.now + CREDENTIAL_LIFE
                else x.expires == s.credentials[c].expires)
  {
    ActivationIff(s, call);
    if ActivationDue(s, call.request, call.now) {
      ActivationSwaps(s, call);
    }
    hide Inv, Step;
  }

  lemma RotationExpiry(s: Tables, call: Call, c: nat)
    requires Inv(s) && Admissible(s, call) && call.request.RequestRotation? && c in Step(s, call).tables.credentials
    ensures var x := Step(s, call).tables.credentials[c];
            if c in s.credentials then x.expires == s.credentials[c].expires && (x.phase == Active ==> s.credentials[c].phase == Active)
            else c == call.drawn.credential && x.phase == Pending && x.expires == call.now + WINDOW
  {
    var q := call.request;
    CreateShape(s, q.agent, q.active, q.key, call.drawn, call.now);
    AfterExpiry(s, q.agent, call.now);
    hide Inv, Expire, WaitingRotation, Highest, TimesOut, PendingTimesOut, CreateRotation;
  }
}
