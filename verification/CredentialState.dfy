/** The server's tables for agent enrollment and credential rotation, and its transactions on them.

    Each transaction is one step here; CredentialInterleaving takes them apart into statements and locks, and
    CredentialSerializability says when they come to the same.  A credential's secret is known to whoever was
    given its value, so a credential value is the credential's identifier here. */
module CredentialState {
  import opened Options

  datatype CredentialPhase = Pending | Active | Revoked | Expired

  datatype Credential = Credential(agent: nat, version: nat, phase: CredentialPhase, expires: nat)

  datatype RotationPhase = Waiting | Activated | TimedOut | Withdrawn

  datatype Rotation = Rotation(agent: nat, previous: nat, pending: nat, phase: RotationPhase, expires: nat)

  datatype Agent = Agent(active: bool, installation: nat)

  /** `bound` is the agent a recovery token is for. */
  datatype Token = Token(bound: Option<nat>, maxUses: nat, uses: nat, revoked: bool, expires: nat)

  /** Principal, operation and idempotency key. */
  datatype Scope =
    | RotateScope(agent: nat, key: nat)
    | ActivateScope(agent: nat, rotation: nat, key: nat)
    | RegisterScope(token: nat, installation: nat, key: nat)

  datatype Body =
    | RotationBody(rotation: nat, credential: nat)
    | ActivationBody(rotation: nat, credential: nat)
    | RegistrationBody(agent: nat, credential: nat)

  datatype RecordPhase = InProgress | Completed | Failed

  /** `replayUntil` is the end of a secret response's replay window. */
  datatype Record = Record(fingerprint: nat, phase: RecordPhase, body: Option<Body>, replayUntil: Option<nat>, updated: nat)

  datatype Tables = Tables(
    agents: map<nat, Agent>,
    credentials: map<nat, Credential>,
    rotations: map<nat, Rotation>,
    tokens: map<nat, Token>,
    records: map<Scope, Record>)

  datatype Error =
    | AuthenticationError | ConflictError | EnrollmentFailedError | ResourceNotFoundError
    | IdempotencyConflictError | IdempotencyInProgressError | SecretReplayExpiredError
    | IntegrityError                      // a partial unique index refused the commit

  datatype Reply = Ok(body: Body) | Done | Err(error: Error)

  datatype Outcome = Outcome(tables: Tables, reply: Reply)

  const WINDOW: nat := 15                 // minutes: the pending window, the replay window, a rotation's life
  const CREDENTIAL_LIFE: nat := 129600    // minutes in ninety days
  const FINGERPRINT: nat := 1             // of the rotation payload, which is constant

  /* Queries. */

  ghost predicate WaitingFor(s: Tables, agent: nat, r: nat) {
    r in s.rotations && s.rotations[r].agent == agent && s.rotations[r].phase == Waiting
  }

  ghost function WaitingRotation(s: Tables, agent: nat): (r: Option<nat>)
    ensures r.Some? ==> WaitingFor(s, agent, r.value)
    ensures r.None? ==> forall q :: !WaitingFor(s, agent, q)
  {
    if exists q :: WaitingFor(s, agent, q) then var q :| WaitingFor(s, agent, q); Some(q) else None
  }

  ghost predicate ActiveFor(s: Tables, agent: nat, c: nat) {
    c in s.credentials && s.credentials[c].agent == agent && s.credentials[c].phase == Active
  }

  ghost function ActiveCredential(s: Tables, agent: nat): (c: Option<nat>)
    ensures c.Some? ==> ActiveFor(s, agent, c.value)
    ensures c.None? ==> forall d :: !ActiveFor(s, agent, d)
  {
    if exists d :: ActiveFor(s, agent, d) then var d :| ActiveFor(s, agent, d); Some(d) else None
  }

  /* Idempotency. */

  datatype Start = New | Replay(body: Body) | Refused(error: Error)

  /** What `begin` decides.  Only a record that was left in progress is ever changed by it. */
  function Begin(s: Tables, scope: Scope, fingerprint: nat, secret: bool, now: nat): (start: Start) {
    if scope !in s.records then New
    else
      var record := s.records[scope];
      if record.fingerprint != fingerprint then Refused(IdempotencyConflictError)
      else if record.phase == InProgress && record.updated + WINDOW > now then Refused(IdempotencyInProgressError)
      else if secret then
        if record.replayUntil.None? || record.replayUntil.value <= now || record.body.None? then Refused(SecretReplayExpiredError)
        else Replay(record.body.value)
      else if record.body.None? then Refused(IdempotencyInProgressError)
      else Replay(record.body.value)
  }

  function CompletedRecord(fingerprint: nat, body: Body, secret: bool, now: nat): (record: Record) {
    Record(fingerprint, Completed, Some(body), if secret then Some(now + WINDOW) else None, now)
  }

  /* Rotation. */

  function SetPhase(s: Tables, c: nat, phase: CredentialPhase): (t: Tables)
    requires c in s.credentials
  {
    s.(credentials := s.credentials[c := s.credentials[c].(phase := phase)])
  }

  /** `_expire_pending` once it has found the agent's waiting rotation. */
  function Expire(s: Tables, waiting: Option<nat>, now: nat): (t: Tables)
    requires waiting.Some? ==> waiting.value in s.rotations
  {
    if waiting.None? || s.rotations[waiting.value].expires > now then s
    else
      var r := waiting.value;
      var p := s.rotations[r].pending;
      s.(rotations := s.rotations[r := s.rotations[r].(phase := TimedOut)],
         credentials := if p in s.credentials && s.credentials[p].phase == Pending
                        then s.credentials[p := s.credentials[p].(phase := Expired)] else s.credentials)
  }

  /** The agent and the identifiers drawn for what the transaction inserts. */
  datatype Drawn = Drawn(agent: nat, credential: nat, rotation: nat)

  ghost predicate Unused(s: Tables, drawn: Drawn) {
    drawn.agent !in s.agents && drawn.credential !in s.credentials && drawn.rotation !in s.rotations
  }

  /** The maximum version among these credentials of the agent is `highest`, or there is none and it is 0. */
  ghost predicate HighestAmong(s: Tables, agent: nat, among: set<nat>, highest: nat)
    requires among <= s.credentials.Keys
  {
    && (forall c | c in among && s.credentials[c].agent == agent :: s.credentials[c].version <= highest)
    && (highest == 0 || exists c :: c in among && s.credentials[c].agent == agent && s.credentials[c].version == highest)
  }

  lemma {:induction false} HighestExists(s: Tables, agent: nat, among: set<nat>)
    requires among <= s.credentials.Keys
    ensures exists highest :: HighestAmong(s, agent, among, highest)
    decreases |among|
  {
    if among == {} {
      assert HighestAmong(s, agent, among, 0);
    } else {
      var c :| c in among;
      HighestExists(s, agent, among - {c});
      var highest :| HighestAmong(s, agent, among - {c}, highest);
      var version := s.credentials[c].version;
      assert HighestAmong(s, agent, among, if s.credentials[c].agent == agent && version > highest then version else highest);
    }
  }

  ghost function Highest(s: Tables, agent: nat): (highest: nat)
    ensures HighestAmong(s, agent, s.credentials.Keys, highest)
  {
    HighestExists(s, agent, s.credentials.Keys);
    var highest :| HighestAmong(s, agent, s.credentials.Keys, highest); highest
  }

  /** What `create_rotation` inserts once every check has passed. */
  ghost function Rotating(s: Tables, agent: nat, active: nat, key: nat, drawn: Drawn, now: nat): (t: Tables) {
    s.(credentials := s.credentials[drawn.credential := Credential(agent, Highest(s, agent) + 1, Pending, now + WINDOW)],
       rotations := s.rotations[drawn.rotation := Rotation(agent, active, drawn.credential, Waiting, now + WINDOW)],
       records := s.records[RotateScope(agent, key) := CompletedRecord(FINGERPRINT, RotationBody(drawn.rotation, drawn.credential), true, now)])
  }

  ghost function CreateRotation(s: Tables, agent: nat, active: nat, key: nat, drawn: Drawn, now: nat): (result: Outcome) {
    match Begin(s, RotateScope(agent, key), FINGERPRINT, true, now)
    case Refused(SecretReplayExpiredError) =>
      Outcome(Expire(s, WaitingRotation(s, agent), now), Err(SecretReplayExpiredError))
    case Refused(error) => Outcome(s, Err(error))
    case Replay(body) => Outcome(s, Ok(body))
    case New =>
      if agent !in s.agents || !s.agents[agent].active then Outcome(s, Err(AuthenticationError))
      else
        var t := Expire(s, WaitingRotation(s, agent), now);
        if WaitingRotation(t, agent).Some? then Outcome(s, Err(ConflictError))
        else if active !in t.credentials || t.credentials[active].phase != Active then Outcome(s, Err(AuthenticationError))
        else if exists c :: c in t.credentials && t.credentials[c].agent == agent && t.credentials[c].phase == Pending then
          Outcome(s, Err(IntegrityError))
        else Outcome(Rotating(t, agent, active, key, drawn, now), Ok(RotationBody(drawn.rotation, drawn.credential)))
  }

  function Activating(s: Tables, agent: nat, rotation: nat, key: nat, now: nat): (t: Tables)
    requires rotation in s.rotations && s.rotations[rotation].previous in s.credentials && s.rotations[rotation].pending in s.credentials
  {
    var r := s.rotations[rotation];
    var revoked := SetPhase(s, r.previous, Revoked);
    revoked.(credentials := revoked.credentials[r.pending := revoked.credentials[r.pending].(phase := Active, expires := now + CREDENTIAL_LIFE)],
             rotations := s.rotations[rotation := r.(phase := Activated)],
             records := s.records[ActivateScope(agent, rotation, key) := CompletedRecord(FINGERPRINT, ActivationBody(rotation, r.pending), false, now)])
  }

  /** Another credential of the agent would be active beside the one being activated. */
  ghost predicate IndexBlocks(s: Tables, agent: nat, rotation: nat)
    requires rotation in s.rotations
  {
    exists c :: ActiveFor(s, agent, c) && c != s.rotations[rotation].previous && c != s.rotations[rotation].pending
  }

  ghost function ActivateRotation(s: Tables, agent: nat, supplied: nat, rotation: nat, key: nat, now: nat): (result: Outcome) {
    match Begin(s, ActivateScope(agent, rotation, key), FINGERPRINT, false, now)
    case Refused(error) => Outcome(s, Err(error))
    case Replay(body) => Outcome(s, Ok(body))
    case New =>
      if agent !in s.agents || !s.agents[agent].active || rotation !in s.rotations then Outcome(s, Err(AuthenticationError))
      else
        var r := s.rotations[rotation];
        if r.agent != agent || r.pending != supplied then Outcome(s, Err(AuthenticationError))
        else if r.phase != Waiting || r.expires <= now then Outcome(s, Err(ConflictError))
        else if r.pending !in s.credentials || r.previous !in s.credentials || s.credentials[r.pending].phase != Pending then
          Outcome(s, Err(ConflictError))
        else if IndexBlocks(s, agent, rotation) then Outcome(s, Err(IntegrityError))
        else Outcome(Activating(s, agent, rotation, key, now), Ok(ActivationBody(rotation, r.pending)))
  }

  /* Administration. */

  function RevokeCredential(s: Tables, agent: nat, credential: nat): (result: Outcome) {
    if credential !in s.credentials || s.credentials[credential].agent != agent then Outcome(s, Err(ResourceNotFoundError))
    else Outcome(SetPhase(s, credential, Revoked), Done)
  }

  function RevokeAgent(s: Tables, agent: nat): (result: Outcome) {
    if agent !in s.agents then Outcome(s, Err(ResourceNotFoundError))
    else
      Outcome(
        s.(agents := s.agents[agent := s.agents[agent].(active := false)],
           credentials := map c | c in s.credentials ::
             if s.credentials[c].agent == agent && s.credentials[c].phase in {Active, Pending}
             then s.credentials[c].(phase := Revoked) else s.credentials[c],
           rotations := map r | r in s.rotations ::
             if s.rotations[r].agent == agent && s.rotations[r].phase == Waiting
             then s.rotations[r].(phase := Withdrawn) else s.rotations[r]),
        Done)
  }

  /** `revoke_token`; revoking twice changes nothing more. */
  function RevokeToken(s: Tables, token: nat): (result: Outcome) {
    if token !in s.tokens then Outcome(s, Err(ConflictError))
    else Outcome(s.(tokens := s.tokens[token := s.tokens[token].(revoked := true)]), Done)
  }

  /** `create_token`, which always allows one use. */
  function CreateToken(s: Tables, token: nat, bound: Option<nat>, expires: nat): (result: Outcome) {
    if token in s.tokens || (bound.Some? && bound.value !in s.agents) then Outcome(s, Err(ConflictError))
    else Outcome(s.(tokens := s.tokens[token := Token(bound, 1, 0, false, expires)]), Done)
  }

  /* Enrollment. */

  /** The agent that registration is for, entered or brought back. */
  function Enrolled(s: Tables, agent: nat, installation: nat): (t: Tables) {
    s.(agents := s.agents[agent := Agent(true, installation)])
  }

  /** What `register` writes for the agent once it is known: the new credential, the token's use and
      the record.  The agent's active credential, if there is one, is revoked. */
  ghost function Issued(s: Tables, agent: nat, token: nat, scope: Scope, fingerprint: nat, drawn: Drawn, now: nat): (t: Tables)
    requires token in s.tokens
  {
    var current := ActiveCredential(s, agent);
    var revoked := if current.Some? then SetPhase(s, current.value, Revoked) else s;
    revoked.(credentials := revoked.credentials[drawn.credential := Credential(agent, Highest(s, agent) + 1, Active, now + CREDENTIAL_LIFE)],
             tokens := s.tokens[token := s.tokens[token].(uses := s.tokens[token].uses + 1)],
             records := s.records[scope := CompletedRecord(fingerprint, RegistrationBody(agent, drawn.credential), true, now)])
  }

  ghost function Register(s: Tables, token: nat, installation: nat, key: nat, fingerprint: nat, platformAllowed: bool, drawn: Drawn, now: nat):
      (result: Outcome)
  {
    if token !in s.tokens then Outcome(s, Err(EnrollmentFailedError))
    else
      var scope, t := RegisterScope(token, installation, key), s.tokens[token];
      match Begin(s, scope, fingerprint, true, now)
      case Refused(error) => Outcome(s, Err(error))
      case Replay(body) => Outcome(s, Ok(body))
      case New =>
        if t.revoked || t.expires <= now || t.uses >= t.maxUses || !platformAllowed then Outcome(s, Err(EnrollmentFailedError))
        else if t.bound.Some? then
          if t.bound.value !in s.agents then Outcome(s, Err(EnrollmentFailedError))
          else if exists b :: b in s.agents && b != t.bound.value && s.agents[b].installation == installation then Outcome(s, Err(IntegrityError))
          else Outcome(Issued(Enrolled(s, t.bound.value, installation), t.bound.value, token, scope, fingerprint, drawn, now),
                       Ok(RegistrationBody(t.bound.value, drawn.credential)))
        else if exists b :: b in s.agents && s.agents[b].installation == installation then Outcome(s, Err(EnrollmentFailedError))
        else Outcome(Issued(Enrolled(s, drawn.agent, installation), drawn.agent, token, scope, fingerprint, drawn, now),
                     Ok(RegistrationBody(drawn.agent, drawn.credential)))
  }

  /* Authentication of an agent's request by the credential it presents. */

  predicate Authenticates(s: Tables, c: nat, acceptPending: bool, now: nat) {
    && c in s.credentials
    && var credential := s.credentials[c];
    && credential.agent in s.agents && s.agents[credential.agent].active
    && (credential.phase == Active || (acceptPending && credential.phase == Pending))
    && credential.expires > now
  }

  /* Every transaction, with the identifiers and the time it runs at. */

  datatype Request =
    | RequestRotation(agent: nat, active: nat, key: nat)
    | RequestActivation(agent: nat, supplied: nat, rotation: nat, key: nat)
    | RequestRegistration(token: nat, installation: nat, key: nat, fingerprint: nat, platformAllowed: bool)
    | RequestCredentialRevocation(agent: nat, credential: nat)
    | RequestAgentRevocation(agent: nat)
    | RequestToken(token: nat, bound: Option<nat>, expires: nat)
    | RequestTokenRevocation(token: nat)

  ghost function Serve(s: Tables, q: Request, drawn: Drawn, now: nat): (result: Outcome) {
    match q
    case RequestRotation(agent, active, key) => CreateRotation(s, agent, active, key, drawn, now)
    case RequestActivation(agent, supplied, rotation, key) => ActivateRotation(s, agent, supplied, rotation, key, now)
    case RequestRegistration(token, installation, key, fingerprint, platformAllowed) =>
      Register(s, token, installation, key, fingerprint, platformAllowed, drawn, now)
    case RequestCredentialRevocation(agent, credential) => RevokeCredential(s, agent, credential)
    case RequestAgentRevocation(agent) => RevokeAgent(s, agent)
    case RequestToken(token, bound, expires) => CreateToken(s, token, bound, expires)
    case RequestTokenRevocation(token) => RevokeToken(s, token)
  }
}
