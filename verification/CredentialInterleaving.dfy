/** The server's transactions interleaved, statement by statement.

    Authentication loads the agent and the presented credential without locking anything.  After that a
    transaction locks what it is about before it reads it - its token, its idempotency scope, its agent, the
    rotations and credentials it may change - and waits where somebody else holds the lock; it works on the
    rows it has read, and a commit writes what it added or changed over what is committed by then.  Locks are
    held to the end.

    A row that authentication has loaded is selected again under its lock, into the same session.  Both
    readings of that are here: the session takes the row as it is now, or it keeps the copy it has. */
module CredentialInterleaving {
  import opened Options
  import opened CredentialState
  import opened CredentialSafety
  import opened CredentialLifecycle
  import opened CredentialLocality

  /** The advisory lock of a scope, and the row locks of SELECT ... FOR UPDATE and of UPDATE. */
  datatype Lock =
    | ScopeLock(scope: Scope)
    | TokenRow(token: nat)
    | AgentRow(agent: nat)
    | RotationRow(rotation: nat)
    | CredentialRow(credential: nat)

  datatype Statement = LockToken | LockScope | ReadRecord | LockAgent | LockRotations | LockCredentials

  /** What a locked select gives for a row the session has already loaded. */
  datatype Reading = Afresh | AsLoaded

  /** `view` holds the rows selected so far as they were then, `copy` the rows that authentication loaded. */
  datatype Txn = Txn(call: Call, reading: Reading, copy: Tables, done: set<Statement>, view: Tables)

  datatype World = World(tables: Tables, running: map<nat, Txn>, locks: map<Lock, nat>)

  datatype Event =
    | Begin(txn: nat, call: Call, reading: Reading)
    | Run(txn: nat)
    | Commit(txn: nat)
    | Abort(txn: nat)              // an error, a deadlock, a lost connection

  function TokenOf(q: Request): (token: Option<nat>) {
    match q
    case RequestRegistration(token, _, _, _, _) => Some(token)
    case RequestTokenRevocation(token) => Some(token)
    case _ => None
  }

  /** The agent the transaction is about, as far as it knows. */
  function AgentOf(t: Txn): (agent: Option<nat>) {
    match t.call.request
    case RequestRotation(agent, _, _) => Some(agent)
    case RequestActivation(agent, _, _, _) => Some(agent)
    case RequestRegistration(token, _, _, _, _) => if token in t.view.tokens then t.view.tokens[token].bound else None
    case RequestCredentialRevocation(agent, _) => Some(agent)
    case RequestAgentRevocation(agent) => Some(agent)
    case RequestToken(_, bound, _) => bound
    case RequestTokenRevocation(_) => None
  }

  /** The scope has its record already. */
  predicate Known(t: Txn) {
    ScopeOf(t.call.request).Some? && ScopeOf(t.call.request).value in t.view.records
  }

  predicate Lapsed(t: Txn) {
    ScopeOf(t.call.request).Some? &&
    CredentialState.Begin(t.view, ScopeOf(t.call.request).value, FingerprintOf(t.call.request), true, t.call.now) == Refused(SecretReplayExpiredError)
  }

  function FirstMissing(done: set<Statement>, first: Statement, second: Statement, third: Statement): (next: Option<Statement>) {
    if first !in done then Some(first) else if second !in done then Some(second) else if third !in done then Some(third) else None
  }

  /** The next statement before the commit. */
  function NextOf(t: Txn): (next: Option<Statement>) {
    match t.call.request
    case RequestRotation(_, _, _) =>
      if LockScope !in t.done || ReadRecord !in t.done then FirstMissing(t.done, LockScope, ReadRecord, ReadRecord)
      else if Known(t) then (if Lapsed(t) then FirstMissing(t.done, LockRotations, LockCredentials, LockCredentials) else None)
      else FirstMissing(t.done, LockAgent, LockRotations, LockCredentials)
    case RequestActivation(_, _, _, _) =>
      if LockScope !in t.done || ReadRecord !in t.done then FirstMissing(t.done, LockScope, ReadRecord, ReadRecord)
      else if Known(t) then None
      else FirstMissing(t.done, LockAgent, LockRotations, LockCredentials)
    case RequestRegistration(_, _, _, _, _) =>
      if LockToken !in t.done || LockScope !in t.done || ReadRecord !in t.done then FirstMissing(t.done, LockToken, LockScope, ReadRecord)
      else if Known(t) || AgentOf(t).None? then None
      else FirstMissing(t.done, LockAgent, LockCredentials, LockCredentials)
    case RequestCredentialRevocation(_, _) => FirstMissing(t.done, LockAgent, LockCredentials, LockCredentials)
    case RequestAgentRevocation(_) => FirstMissing(t.done, LockAgent, LockCredentials, LockRotations)
    case RequestToken(_, bound, _) => if bound.Some? then FirstMissing(t.done, LockAgent, LockAgent, LockAgent) else None
    case RequestTokenRevocation(_) => FirstMissing(t.done, LockToken, LockToken, LockToken)
  }

  /** A replay after its window expires the waiting rotation without locking the agent. */
  predicate Expiring(t: Txn) {
    t.call.request.RequestRotation? && LockAgent !in t.done
  }

  ghost function RotationsRead(s: Tables, q: Request): (rotations: set<nat>) {
    match q
    case RequestActivation(_, _, rotation, _) => {rotation} * s.rotations.Keys
    case RequestRotation(agent, _, _) => set r | r in s.rotations && WaitingFor(s, agent, r)
    case RequestAgentRevocation(agent) => set r | r in s.rotations && WaitingFor(s, agent, r)
    case _ => {}
  }

  ghost function CredentialsRead(s: Tables, t: Txn): (credentials: set<nat>) {
    set c | c in s.credentials &&
      if Expiring(t) then exists r :: r in t.view.rotations && t.view.rotations[r].pending == c
      else AgentOf(t) == Some(s.credentials[c].agent)
  }

  /** Which of the credentials read are locked: those the transaction may change. */
  predicate MayChange(t: Txn, c: nat, credential: Credential) {
    match t.call.request
    case RequestRotation(_, active, _) => Expiring(t) || c == active || credential.phase == Pending
    case RequestActivation(_, supplied, rotation, _) =>
      c == supplied || (rotation in t.view.rotations && c == t.view.rotations[rotation].previous)
    case RequestRegistration(_, _, _, _, _) => credential.phase == Active
    case RequestCredentialRevocation(_, revoked) => c == revoked
    case RequestAgentRevocation(_) => credential.phase in {Active, Pending}
    case _ => false
  }

  ghost function Wanted(s: Tables, t: Txn, statement: Statement): (locks: set<Lock>) {
    match statement
    case LockToken => if TokenOf(t.call.request).Some? then {TokenRow(TokenOf(t.call.request).value)} else {}
    case LockScope => if ScopeOf(t.call.request).Some? then {ScopeLock(ScopeOf(t.call.request).value)} else {}
    case ReadRecord => {}
    case LockAgent => if AgentOf(t).Some? && !t.call.request.RequestToken? then {AgentRow(AgentOf(t).value)} else {}
    case LockRotations => set r | r in RotationsRead(s, t.call.request) :: RotationRow(r)
    case LockCredentials => set c | c in CredentialsRead(s, t) && MayChange(t, c, s.credentials[c]) :: CredentialRow(c)
  }

  ghost function Viewed(s: Tables, t: Txn, statement: Statement): (view: Tables) {
    match statement
    case LockToken => t.view.(tokens := Only(s.tokens, if TokenOf(t.call.request).Some? then {TokenOf(t.call.request).value} else {}))
    case LockScope => t.view
    case ReadRecord => t.view.(records := Only(s.records, if ScopeOf(t.call.request).Some? then {ScopeOf(t.call.request).value} else {}))
    case LockAgent => t.view.(agents := Only(s.agents, if AgentOf(t).Some? then {AgentOf(t).value} else {}))
    case LockRotations => t.view.(rotations := Only(s.rotations, RotationsRead(s, t.call.request)))
    case LockCredentials => t.view.(credentials := Only(s.credentials, CredentialsRead(s, t)))
  }

  /** A row that is asked for by its identifier and is not there ends the call in an error. */
  predicate RowThere(s: Tables, t: Txn, statement: Statement) {
    match statement
    case LockToken => TokenOf(t.call.request).Some? && TokenOf(t.call.request).value in s.tokens
    case LockAgent => AgentOf(t).Some? && AgentOf(t).value in s.agents
    case LockRotations => t.call.request.RequestActivation? ==> t.call.request.rotation in s.rotations
    case _ => true
  }

  /** Authentication, before any lock. */
  ghost predicate Authenticated(s: Tables, call: Call) {
    match call.request
    case RequestRotation(agent, active, _) => Authenticates(s, active, false, call.now) && s.credentials[active].agent == agent
    case RequestActivation(agent, supplied, _, _) => Authenticates(s, supplied, true, call.now) && s.credentials[supplied].agent == agent
    case _ => true
  }

  /** The rows authentication loads. */
  ghost function Loaded(s: Tables, q: Request): (copy: Tables) {
    match q
    case RequestRotation(agent, active, _) => NOTHING.(agents := Only(s.agents, {agent}), credentials := Only(s.credentials, {active}))
    case RequestActivation(agent, supplied, _, _) => NOTHING.(agents := Only(s.agents, {agent}), credentials := Only(s.credentials, {supplied}))
    case _ => NOTHING
  }

  function Copied<K, V>(selected: map<K, V>, copy: map<K, V>): (rows: map<K, V>) {
    map k | k in selected :: if k in copy then copy[k] else selected[k]
  }

  /** The rows the transaction computes with. */
  function Rows(t: Txn): (rows: Tables) {
    if t.reading.Afresh? then t.view
    else t.view.(agents := Copied(t.view.agents, t.copy.agents), credentials := Copied(t.view.credentials, t.copy.credentials))
  }

  /** What the transaction would leave of the rows it computes with. */
  ghost function Computed(t: Txn): (result: Outcome) {
    Step(Rows(t), t.call)
  }

  ghost predicate Effective(t: Txn) {
    Computed(t).tables != Rows(t)
  }

  /** The version column: a credential that is updated from a copy must still be as it was when it was
      loaded.  No transaction that authenticates an agent updates the agent. */
  ghost predicate VersionsMatch(s: Tables, t: Txn) {
    forall c | t.reading.AsLoaded? && c in t.copy.credentials && c in Rows(t).credentials
               && c in Computed(t).tables.credentials && Computed(t).tables.credentials[c] != Rows(t).credentials[c] ::
      c in s.credentials && s.credentials[c] == t.copy.credentials[c]
  }

  /** Identifiers drawn are new, and the unique indexes on tokens and installations have nothing against the
      commit.  That the other indexes have nothing against it either is proved. */
  ghost predicate Insertable(s: Tables, t: Txn) {
    && Unused(s, t.call.drawn)
    && (t.call.request.RequestToken? ==> t.call.request.token !in s.tokens)
    && (t.call.request.RequestRegistration? ==>
          InstallationFree(s, if AgentOf(t).Some? then AgentOf(t).value else t.call.drawn.agent, t.call.request.installation))
  }

  ghost predicate Enabled(w: World, e: Event) {
    match e
    case Begin(txn, call, _) => txn !in w.running && Authenticated(w.tables, call)
    case Run(txn) =>
      && txn in w.running && NextOf(w.running[txn]).Some?
      && RowThere(w.tables, w.running[txn], NextOf(w.running[txn]).value)
      && forall l | l in Wanted(w.tables, w.running[txn], NextOf(w.running[txn]).value) && l in w.locks :: w.locks[l] == txn
    case Commit(txn) =>
      && txn in w.running && NextOf(w.running[txn]).None?
      && (Effective(w.running[txn]) ==> Insertable(w.tables, w.running[txn]) && VersionsMatch(w.tables, w.running[txn]))
    case Abort(txn) => txn in w.running
  }

  function Released(w: World, txn: nat): (next: World) {
    w.(running := w.running - {txn}, locks := map l | l in w.locks && w.locks[l] != txn :: w.locks[l])
  }

  ghost function Locked(locks: map<Lock, nat>, wanted: set<Lock>, txn: nat): (after: map<Lock, nat>) {
    map l | l in locks.Keys + wanted :: if l in wanted then txn else locks[l]
  }

  ghost function Next(w: World, e: Event): (next: World)
    requires Enabled(w, e)
  {
    match e
    case Begin(txn, call, reading) => w.(running := w.running[txn := Txn(call, reading, Loaded(w.tables, call.request), {}, NOTHING)])
    case Run(txn) =>
      var t := w.running[txn];
      var statement := NextOf(t).value;
      World(w.tables, w.running[txn := t.(done := t.done + {statement}, view := Viewed(w.tables, t, statement))],
            Locked(w.locks, Wanted(w.tables, t, statement), txn))
    case Commit(txn) => Released(w, txn).(tables := Written(w.tables, Rows(w.running[txn]), Computed(w.running[txn]).tables))
    case Abort(txn) => Released(w, txn)
  }

  ghost predicate PossibleRun(w: World, events: seq<Event>)
    decreases |events|
  {
    events != [] ==> Enabled(w, events[0]) && PossibleRun(Next(w, events[0]), events[1..])
  }

  ghost function Play(w: World, events: seq<Event>): (end: World)
    requires PossibleRun(w, events)
    decreases |events|
  {
    if events == [] then w else Play(Next(w, events[0]), events[1..])
  }

  /* The invariant: what a transaction has read under a lock is still so. */

  ghost function Held(w: World, txn: nat): (locks: set<Lock>) {
    set l | l in w.locks && w.locks[l] == txn
  }

  ghost predicate TokenKept(s: Tables, t: Txn, held: set<Lock>) {
    if LockToken in t.done then
      && TokenOf(t.call.request).Some? && TokenOf(t.call.request).value in s.tokens
      && TokenRow(TokenOf(t.call.request).value) in held
      && t.view.tokens == map[TokenOf(t.call.request).value := s.tokens[TokenOf(t.call.request).value]]
    else t.view.tokens == map[]
  }

  ghost predicate RecordKept(s: Tables, t: Txn, held: set<Lock>) {
    && (LockScope in t.done ==> ScopeOf(t.call.request).Some? && ScopeLock(ScopeOf(t.call.request).value) in held)
    && if ReadRecord in t.done then LockScope in t.done && t.view.records == Only(s.records, {ScopeOf(t.call.request).value})
       else t.view.records == map[]
  }

  ghost predicate AgentKept(s: Tables, t: Txn, held: set<Lock>) {
    if LockAgent in t.done then
      && AgentOf(t).Some? && AgentOf(t).value in s.agents
      && if t.call.request.RequestToken? then t.view.agents.Keys == {AgentOf(t).value}
         else AgentRow(AgentOf(t).value) in held && t.view.agents == map[AgentOf(t).value := s.agents[AgentOf(t).value]]
    else t.view.agents == map[]
  }

  ghost predicate RotationsKept(s: Tables, t: Txn, held: set<Lock>) {
    if LockRotations in t.done then
      && (forall r | r in t.view.rotations :: RotationRow(r) in held && r in s.rotations && s.rotations[r] == t.view.rotations[r])
      && if t.call.request.RequestActivation? then t.view.rotations.Keys == {t.call.request.rotation}
         else
           && AgentOf(t).Some? && (forall r | r in t.view.rotations :: WaitingFor(s, AgentOf(t).value, r))
           && (LockAgent in t.done ==> forall r | WaitingFor(s, AgentOf(t).value, r) :: r in t.view.rotations)
    else t.view.rotations == map[]
  }

  ghost predicate CredentialsKept(s: Tables, t: Txn, held: set<Lock>) {
    if LockCredentials in t.done then
      if Expiring(t) then
        && (forall c | c in t.view.credentials :: CredentialRow(c) in held && c in s.credentials && s.credentials[c] == t.view.credentials[c])
        && (forall r | r in t.view.rotations :: t.view.rotations[r].pending in t.view.credentials)
        && (forall c | c in t.view.credentials :: exists r :: r in t.view.rotations && t.view.rotations[r].pending == c)
      else
        && AgentOf(t).Some? && LockAgent in t.done && CredentialsSeen(s, t.view, AgentOf(t).value)
        && (forall c | c in t.view.credentials && MayChange(t, c, t.view.credentials[c]) :: CredentialRow(c) in held)
        && (forall c | c in t.view.credentials && CredentialRow(c) in held :: s.credentials[c] == t.view.credentials[c])
    else t.view.credentials == map[]
  }

  /** Statements come in the order of the program. */
  ghost predicate InOrder(t: Txn) {
    match t.call.request
    case RequestRotation(_, _, _) =>
      && LockToken !in t.done
      && (LockAgent in t.done ==> ReadRecord in t.done && !Known(t))
      && (LockRotations in t.done ==> ReadRecord in t.done && (LockAgent in t.done || Known(t)))
      && (LockCredentials in t.done ==> LockRotations in t.done)
    case RequestActivation(_, _, _, _) =>
      && LockToken !in t.done
      && (LockAgent in t.done ==> ReadRecord in t.done && !Known(t))
      && (LockRotations in t.done ==> LockAgent in t.done) && (LockCredentials in t.done ==> LockRotations in t.done)
    case RequestRegistration(_, _, _, _, _) =>
      && LockRotations !in t.done && (LockScope in t.done ==> LockToken in t.done)
      && (LockAgent in t.done ==> ReadRecord in t.done && !Known(t)) && (LockCredentials in t.done ==> LockAgent in t.done)
    case RequestCredentialRevocation(_, _) => t.done <= {LockAgent, LockCredentials} && (LockCredentials in t.done ==> LockAgent in t.done)
    case RequestAgentRevocation(_) =>
      && t.done <= {LockAgent, LockCredentials, LockRotations}
      && (LockCredentials in t.done ==> LockAgent in t.done) && (LockRotations in t.done ==> LockAgent in t.done)
    case RequestToken(_, _, _) => t.done <= {LockAgent}
    case RequestTokenRevocation(_) => t.done <= {LockToken}
  }

  ghost predicate OwnCredential(s: Tables, q: Request) {
    q.RequestRotation? ==> q.active in s.credentials && s.credentials[q.active].agent == q.agent
  }

  ghost predicate TxnOk(s: Tables, t: Txn, held: set<Lock>) {
    && InOrder(t) && OwnCredential(s, t.call.request)
    && TokenKept(s, t, held) && RecordKept(s, t, held) && AgentKept(s, t, held) && RotationsKept(s, t, held) && CredentialsKept(s, t, held)
  }

  /** What stays true of the rows that authentication loaded, whatever commits before they are locked. */
  ghost predicate CopyOk(s: Tables, t: Txn) {
    match t.call.request
    case RequestRotation(agent, active, _) =>
      && t.copy.agents.Keys == {agent} && t.copy.agents[agent].active && t.copy.credentials.Keys == {active}
      && var copy := t.copy.credentials[active];
      && copy.phase == Active && copy.agent == agent
      && active in s.credentials && s.credentials[active].agent == agent && s.credentials[active].version == copy.version
      && s.credentials[active].phase != Pending
      && (forall r | r in s.rotations && s.rotations[r].phase == Waiting :: s.rotations[r].pending != active)
    case RequestActivation(agent, supplied, _, _) =>
      && t.copy.agents.Keys == {agent} && t.copy.agents[agent].active && t.copy.credentials.Keys == {supplied}
      && agent in s.agents && supplied in s.credentials && s.credentials[supplied].agent == agent
      && (s.credentials[supplied].phase == Pending ==> s.agents[agent].active)
    case _ => t.copy == NOTHING
  }

  ghost predicate WorldInv(w: World) {
    && Inv(w.tables)
    && (forall txn | txn in w.running :: TxnOk(w.tables, w.running[txn], Held(w, txn)))
    && (forall txn | txn in w.running :: CopyOk(w.tables, w.running[txn]))
  }

  /* What a commit changes is under its locks. */

  ghost predicate RecordsWithin(s: Tables, x: Tables, held: set<Lock>) {
    forall scope | ScopeLock(scope) !in held :: (scope in x.records <==> scope in s.records) && (scope in s.records ==> x.records[scope] == s.records[scope])
  }

  ghost predicate TokensWithin(s: Tables, x: Tables, held: set<Lock>) {
    forall k | k in s.tokens :: k in x.tokens && (TokenRow(k) !in held ==> x.tokens[k] == s.tokens[k])
  }

  ghost predicate AgentsWithin(s: Tables, x: Tables, held: set<Lock>) {
    forall a | a in s.agents :: a in x.agents && (AgentRow(a) !in held ==> x.agents[a] == s.agents[a])
  }

  ghost predicate RotationsWithin(s: Tables, x: Tables, held: set<Lock>) {
    && (forall r | r in s.rotations :: r in x.rotations && (RotationRow(r) !in held ==> x.rotations[r] == s.rotations[r])
          && x.rotations[r].agent == s.rotations[r].agent && (x.rotations[r].phase == Waiting ==> s.rotations[r].phase == Waiting))
    && (forall r | r in x.rotations && r !in s.rotations :: AgentRow(x.rotations[r].agent) in held || x.rotations[r].agent !in s.agents)
  }

  ghost predicate CredentialsWithin(s: Tables, x: Tables, held: set<Lock>) {
    && (forall c | c in s.credentials :: c in x.credentials && CredentialWithin(s.credentials[c], x.credentials[c], c, held))
    && (forall c | c in x.credentials && c !in s.credentials :: AgentRow(x.credentials[c].agent) in held || x.credentials[c].agent !in s.agents)
  }

  /** Without its agent's lock a credential only expires, and only with its own. */
  predicate CredentialWithin(was: Credential, becomes: Credential, c: nat, held: set<Lock>) {
    && becomes.agent == was.agent
    && (becomes != was ==> CredentialRow(c) in held && (AgentRow(was.agent) in held || (was.phase == Pending && becomes == was.(phase := Expired))))
  }

  ghost predicate Within(s: Tables, x: Tables, held: set<Lock>) {
    RecordsWithin(s, x, held) && TokensWithin(s, x, held) && AgentsWithin(s, x, held) && RotationsWithin(s, x, held) && CredentialsWithin(s, x, held)
  }

  lemma KeptByOthers(s: Tables, x: Tables, t: Txn, held: set<Lock>, others: set<Lock>)
    requires TxnOk(s, t, held) && Within(s, x, others) && held !! others
    ensures TxnOk(x, t, held)
  {
    assert t.call.request.RequestToken? ==> LockRotations !in t.done && LockCredentials !in t.done;
    hide InOrder;
    TokenAndRecordKept(s, x, t, held, others);
    AgentStaysKept(s, x, t, held, others);
    RotationsStayKept(s, x, t, held, others);
    CredentialsStayKept(s, x, t, held, others);
    hide TokenKept, RecordKept, AgentKept, RotationsKept, CredentialsKept;
  }

  lemma TokenAndRecordKept(s: Tables, x: Tables, t: Txn, held: set<Lock>, others: set<Lock>)
    requires TokenKept(s, t, held) && RecordKept(s, t, held) && TokensWithin(s, x, others) && RecordsWithin(s, x, others) && held !! others
    ensures TokenKept(x, t, held) && RecordKept(x, t, held)
  {
  }

  lemma AgentStaysKept(s: Tables, x: Tables, t: Txn, held: set<Lock>, others: set<Lock>)
    requires AgentKept(s, t, held) && AgentsWithin(s, x, others) && held !! others
    ensures AgentKept(x, t, held)
  {
  }

  lemma RotationsStayKept(s: Tables, x: Tables, t: Txn, held: set<Lock>, others: set<Lock>)
    requires AgentKept(s, t, held) && RotationsKept(s, t, held) && RotationsWithin(s, x, others) && held !! others
    requires t.call.request.RequestToken? ==> LockRotations !in t.done
    ensures RotationsKept(x, t, held)
  {
  }

  lemma CredentialsStayKept(s: Tables, x: Tables, t: Txn, held: set<Lock>, others: set<Lock>)
    requires AgentKept(s, t, held) && CredentialsKept(s, t, held) && CredentialsWithin(s, x, others) && held !! others
    requires t.call.request.RequestToken? ==> LockCredentials !in t.done
    ensures CredentialsKept(x, t, held)
  {
  }

  /* Each transaction stays within its locks, and comes to what it would at once. */

  /** What the transaction would leave of the rows as they were selected under its locks. */
  ghost function ComputedAfresh(t: Txn): (result: Outcome) {
    Step(t.view, t.call)
  }

  /** What a commit of rows read afresh amounts to. */
  ghost predicate Serial(s: Tables, t: Txn, held: set<Lock>) {
    && ComputedAfresh(t).reply == Step(s, t.call).reply && Written(s, t.view, ComputedAfresh(t).tables) == Step(s, t.call).tables
    && Within(s, Step(s, t.call).tables, held)
  }

  lemma GrantSerial(s: Tables, t: Txn, held: set<Lock>)
    requires Inv(s) && TxnOk(s, t, held) && t.call.request.RequestRotation? && NextOf(t).None? && !Known(t) && Insertable(s, t)
    ensures Serial(s, t, held)
  {
    var q := t.call.request;
    GrantReads(s, t, held);
    assert RotateScope(q.agent, q.key) !in s.records;
    assert ScopeLock(RotateScope(q.agent, q.key)) in held && AgentRow(q.agent) in held;
    assert Unused(s, t.call.drawn) && q.active in s.credentials && s.credentials[q.active].agent == q.agent;
    hide TxnOk, InOrder, Insertable;
    GrantOnPart(s, t.view, q.agent, q.active, q.key, t.call.drawn, t.call.now);
    hide Written, AgentRead;
    GrantWithin(s, q.agent, q.active, q.key, t.call.drawn, t.call.now, held);
    hide Within, CreateRotation;
  }

  /** Everything about the agent is as it was read, and its waiting rotation is locked. */
  lemma GrantReads(s: Tables, t: Txn, held: set<Lock>)
    requires TxnOk(s, t, held) && t.call.request.RequestRotation? && NextOf(t).None? && !Known(t) && Inv(s)
    ensures AgentRead(s, t.view, t.call.request.agent) && t.view.records == map[] && t.view.tokens == map[]
    ensures forall r | WaitingFor(s, t.call.request.agent, r) :: RotationRow(r) in held
    ensures forall c | c in s.credentials && s.credentials[c].agent == t.call.request.agent && s.credentials[c].phase == Pending :: CredentialRow(c) in held
    ensures ScopeLock(ScopeOf(t.call.request).value) in held && AgentRow(t.call.request.agent) in held
    ensures ScopeOf(t.call.request).value !in s.records
  {
    var agent, v := t.call.request.agent, t.view;
    hide Inv;
    forall c | c in v.credentials ensures c in s.credentials && v.credentials[c] == s.credentials[c] {
      assert CredentialSeen(v.credentials[c], s.credentials[c]);
    }
  }

  lemma GrantWithin(s: Tables, agent: nat, active: nat, key: nat, drawn: Drawn, now: nat, held: set<Lock>)
    requires Inv(s) && Unused(s, drawn) && ScopeLock(RotateScope(agent, key)) in held && AgentRow(agent) in held
    requires active in s.credentials && s.credentials[active].agent == agent
    requires forall r | WaitingFor(s, agent, r) :: RotationRow(r) in held
    requires forall c | c in s.credentials && s.credentials[c].agent == agent && s.credentials[c].phase == Pending :: CredentialRow(c) in held
    ensures Within(s, CreateRotation(s, agent, active, key, drawn, now).tables, held)
  {
    WaitingKnown(s, agent);
    hide Inv, Highest;
    var r := WaitingRotation(s, agent);
    ExpireWithin(s, agent, r, now, held);
    hide WaitingRotation;
    RotatingWithin(s, Expire(s, r, now), agent, active, key, drawn, now, held);
    NothingWithin(s, held);
    hide Within, Expire, Rotating, CreateRotation;
    CreateShape(s, agent, active, key, drawn, now);
  }

  lemma NothingWithin(s: Tables, held: set<Lock>)
    ensures Within(s, s, held)
  {
  }

  lemma ExpireWithin(s: Tables, agent: nat, r: Option<nat>, now: nat, held: set<Lock>)
    requires r.Some? ==>
               && WaitingFor(s, agent, r.value) && s.rotations[r.value].pending in s.credentials && RotationRow(r.value) in held
               && (s.credentials[s.rotations[r.value].pending].phase == Pending ==> CredentialRow(s.rotations[r.value].pending) in held)
    ensures var x := Expire(s, r, now); Within(s, x, held) && x == s.(rotations := x.rotations, credentials := x.credentials)
    ensures Expire(s, r, now).rotations.Keys == s.rotations.Keys && Expire(s, r, now).credentials.Keys == s.credentials.Keys
  {
  }

  lemma RotatingWithin(s: Tables, x: Tables, agent: nat, active: nat, key: nat, drawn: Drawn, now: nat, held: set<Lock>)
    requires Within(s, x, held) && x == s.(rotations := x.rotations, credentials := x.credentials)
    requires x.rotations.Keys == s.rotations.Keys && x.credentials.Keys == s.credentials.Keys
    requires Unused(s, drawn) && ScopeLock(RotateScope(agent, key)) in held && AgentRow(agent) in held
    ensures Within(s, Rotating(x, agent, active, key, drawn, now), held)
  {
    hide Highest;
  }

  lemma ExpirySerial(s: Tables, t: Txn, held: set<Lock>)
    requires Inv(s) && TxnOk(s, t, held) && t.call.request.RequestRotation? && NextOf(t).None? && Known(t)
    ensures ComputedAfresh(t).tables == t.view || Serial(s, t, held)
  {
    if Lapsed(t) {
      var q := t.call.request;
      ExpiryReads(s, t, held);
      assert RotationsOk(s);
      hide TxnOk, InOrder, Inv, RowsRead, RotationsOk, Written, Within, CreateRotation, NextOf;
      LapsedSerial(s, t.view, q.agent, q.active, q.key, t.call.drawn, t.call.now, held);
    } else {
      hide Inv, TxnOk;
    }
  }

  lemma LapsedSerial(s: Tables, v: Tables, agent: nat, active: nat, key: nat, drawn: Drawn, now: nat, held: set<Lock>)
    requires RotationsOk(s) && RowsRead(s, v) && v.agents == map[] && v.tokens == map[]
    requires forall r | r in v.rotations :: WaitingFor(s, agent, r) && v.rotations[r].pending in v.credentials && RotationRow(r) in held
    requires forall c | c in v.credentials :: CredentialRow(c) in held
    requires RotateScope(agent, key) in s.records && v.records == map[RotateScope(agent, key) := s.records[RotateScope(agent, key)]]
    requires CredentialState.Begin(v, RotateScope(agent, key), FINGERPRINT, true, now) == Refused(SecretReplayExpiredError)
    ensures var part, whole := CreateRotation(v, agent, active, key, drawn, now), CreateRotation(s, agent, active, key, drawn, now);
            part.tables == v || (part.reply == whole.reply && Written(s, v, part.tables) == whole.tables && Within(s, whole.tables, held))
  {
    ExpiryOnPart(s, v, agent, active, key, drawn, now);
    SameWaiting(s, v, agent);
    WaitingKnown(s, agent);
    assert CredentialState.Begin(s, RotateScope(agent, key), FINGERPRINT, true, now) == Refused(SecretReplayExpiredError);
    var r := WaitingRotation(v, agent);
    LapsedShape(s, agent, active, key, drawn, now);
    LapsedShape(v, agent, active, key, drawn, now);
    hide RotationsOk, Written, CreateRotation, CredentialState.Begin;
    if r.Some? {
      assert r.value in v.rotations && WaitingRotation(s, agent) == r && v.rotations[r.value] == s.rotations[r.value];
      hide WaitingRotation, RowsRead;
      ExpireWithin(s, agent, r, now, held);
      hide Within, Expire;
    }
  }

  lemma LapsedShape(s: Tables, agent: nat, active: nat, key: nat, drawn: Drawn, now: nat)
    requires CredentialState.Begin(s, RotateScope(agent, key), FINGERPRINT, true, now) == Refused(SecretReplayExpiredError)
    ensures CreateRotation(s, agent, active, key, drawn, now) ==
            Outcome(Expire(s, WaitingRotation(s, agent), now), Err(SecretReplayExpiredError))
  {
    hide CredentialState.Begin, Expire, WaitingRotation;
  }

  lemma ExpiryReads(s: Tables, t: Txn, held: set<Lock>)
    requires TxnOk(s, t, held) && t.call.request.RequestRotation? && NextOf(t).None? && Known(t) && Lapsed(t)
    ensures var v, scope := t.view, ScopeOf(t.call.request).value;
            && RowsRead(s, v) && v.agents == map[] && v.tokens == map[]
            && scope in s.records && v.records == map[scope := s.records[scope]]
            && (forall r | r in v.rotations :: WaitingFor(s, t.call.request.agent, r) && v.rotations[r].pending in v.credentials && RotationRow(r) in held)
            && (forall c | c in v.credentials :: CredentialRow(c) in held)
  {
  }

  lemma ActivationSerial(s: Tables, t: Txn, held: set<Lock>)
    requires Inv(s) && TxnOk(s, t, held) && t.call.request.RequestActivation? && NextOf(t).None?
    ensures ComputedAfresh(t).tables == t.view || Serial(s, t, held)
  {
    var q, v := t.call.request, t.view;
    if !Known(t) {
      ActivationReads(s, t, held);
      hide TxnOk, InOrder;
      ActivationOnPart(s, v, q.agent, q.supplied, q.rotation, q.key, t.call.now);
      if ComputedAfresh(t).tables != v {
        hide Inv, Written;
        ActivationEffect(v, q.agent, q.supplied, q.rotation, q.key, t.call.now);
        ActivationEffect(s, q.agent, q.supplied, q.rotation, q.key, t.call.now);
        hide CredentialsSeen, ActivateRotation;
        ActivatingWithin(s, q.agent, q.rotation, q.key, t.call.now, held);
        hide Within, Activating;
      }
    } else {
      hide Inv, TxnOk;
    }
  }

  lemma ActivationEffect(s: Tables, agent: nat, supplied: nat, rotation: nat, key: nat, now: nat)
    requires ActivateScope(agent, rotation, key) !in s.records
    ensures var result := ActivateRotation(s, agent, supplied, rotation, key, now);
            if result.reply.Ok? then
              && rotation in s.rotations && s.rotations[rotation].agent == agent && s.rotations[rotation].pending == supplied
              && supplied in s.credentials && s.rotations[rotation].previous in s.credentials
              && result.tables == Activating(s, agent, rotation, key, now)
            else result.tables == s
  {
    hide IndexBlocks, Activating;
  }

  lemma ActivationReads(s: Tables, t: Txn, held: set<Lock>)
    requires TxnOk(s, t, held) && t.call.request.RequestActivation? && NextOf(t).None? && !Known(t)
    ensures var q, v := t.call.request, t.view;
            && q.agent in s.agents && v.agents == map[q.agent := s.agents[q.agent]] && v.tokens == map[] && v.records == map[]
            && q.rotation in s.rotations && v.rotations == map[q.rotation := s.rotations[q.rotation]] && CredentialsSeen(s, v, q.agent)
            && (q.supplied in v.credentials ==> s.credentials[q.supplied] == v.credentials[q.supplied] && CredentialRow(q.supplied) in held)
            && (s.rotations[q.rotation].previous in v.credentials ==>
                  var p := s.rotations[q.rotation].previous; s.credentials[p] == v.credentials[p] && CredentialRow(p) in held)
            && ScopeOf(q).value !in s.records && ScopeLock(ScopeOf(q).value) in held && AgentRow(q.agent) in held && RotationRow(q.rotation) in held
  {
    var q, v := t.call.request, t.view;
    assert q.rotation in v.rotations && v.rotations[q.rotation] == s.rotations[q.rotation];
    assert forall r | r in v.rotations :: r == q.rotation;
    assert v.rotations == map[q.rotation := s.rotations[q.rotation]];
    assert q.supplied in v.credentials ==> MayChange(t, q.supplied, v.credentials[q.supplied]);
    var p := s.rotations[q.rotation].previous;
    assert p in v.credentials ==> MayChange(t, p, v.credentials[p]);
  }

  lemma ActivatingWithin(s: Tables, agent: nat, rotation: nat, key: nat, now: nat, held: set<Lock>)
    requires rotation in s.rotations && s.rotations[rotation].previous in s.credentials && s.rotations[rotation].pending in s.credentials
    requires var r := s.rotations[rotation];
             && CredentialRow(r.pending) in held && CredentialRow(r.previous) in held
             && s.credentials[r.pending].agent == agent && s.credentials[r.previous].agent == agent
             && r.agent == agent
    requires ScopeLock(ActivateScope(agent, rotation, key)) in held && AgentRow(agent) in held && RotationRow(rotation) in held
    ensures Within(s, Activating(s, agent, rotation, key, now), held)
  {
  }

  lemma RegistrationSerial(s: Tables, t: Txn, held: set<Lock>)
    requires Inv(s) && TxnOk(s, t, held) && t.call.request.RequestRegistration? && NextOf(t).None? && (ComputedAfresh(t).tables != t.view ==> Insertable(s, t))
    ensures ComputedAfresh(t).tables == t.view || Serial(s, t, held)
  {
    var q, v := t.call.request, t.view;
    if !Known(t) && ComputedAfresh(t).tables != t.view {
      RegistrationReads(s, t, held);
      var agent := if s.tokens[q.token].bound.Some? then s.tokens[q.token].bound.value else t.call.drawn.agent;
      hide TxnOk, InOrder;
      RegistrationOnPart(s, v, agent, q.token, q.installation, q.key, q.fingerprint, q.platformAllowed, t.call.drawn, t.call.now);
      hide Inv, Written, Highest;
      RegistrationWithin(s, agent, q, t.call.drawn, t.call.now, held);
      hide Within, Register;
    } else {
      hide Inv, TxnOk;
    }
  }

  lemma RegistrationReads(s: Tables, t: Txn, held: set<Lock>)
    requires Inv(s) && TxnOk(s, t, held) && t.call.request.RequestRegistration? && NextOf(t).None? && !Known(t) && Insertable(s, t)
    ensures var q, v := t.call.request, t.view;
            && Unused(s, t.call.drawn) && q.token in s.tokens && v.tokens == map[q.token := s.tokens[q.token]] && TokenRow(q.token) in held
            && v.records == map[] && v.rotations == map[] && ScopeOf(q).value !in s.records && ScopeLock(ScopeOf(q).value) in held
            && var bound := s.tokens[q.token].bound;
            && var agent := if bound.Some? then bound.value else t.call.drawn.agent;
            && v.agents == (if bound.Some? && agent in s.agents then map[agent := s.agents[agent]] else map[])
            && CredentialsSeen(s, v, agent) && InstallationFree(s, agent, q.installation)
            && (if agent in s.agents then AgentRow(agent) in held else forall c | c in s.credentials :: s.credentials[c].agent != agent)
            && (forall c | ActiveFor(s, agent, c) :: CredentialRow(c) in held)
  {
    var q, v := t.call.request, t.view;
    var bound := s.tokens[q.token].bound;
    if bound.Some? {
      forall c | ActiveFor(s, bound.value, c) ensures CredentialRow(c) in held {
        ActiveSeen(s, v, bound.value, c);
        assert MayChange(t, c, v.credentials[c]);
      }
      hide Inv;
    } else {
      assert forall c | c in s.credentials :: s.credentials[c].agent != t.call.drawn.agent;
      hide Inv;
    }
  }

  lemma RegistrationWithin(s: Tables, agent: nat, q: Request, drawn: Drawn, now: nat, held: set<Lock>)
    requires q.RequestRegistration? && q.token in s.tokens && TokenRow(q.token) in held && Unused(s, drawn)
    requires agent == if s.tokens[q.token].bound.Some? then s.tokens[q.token].bound.value else drawn.agent
    requires ScopeLock(RegisterScope(q.token, q.installation, q.key)) in held
    requires if agent in s.agents then AgentRow(agent) in held else forall c | c in s.credentials :: s.credentials[c].agent != agent
    requires (forall c | ActiveFor(s, agent, c) :: CredentialRow(c) in held)
    ensures Within(s, Register(s, q.token, q.installation, q.key, q.fingerprint, q.platformAllowed, drawn, now).tables, held)
  {
    NothingWithin(s, held);
    IssuedWithin(s, agent, q.token, RegisterScope(q.token, q.installation, q.key), q.fingerprint, q.installation, drawn, now, held);
    hide Within, Issued;
  }

  lemma IssuedWithin(s: Tables, agent: nat, token: nat, scope: Scope, fingerprint: nat, installation: nat, drawn: Drawn, now: nat, held: set<Lock>)
    requires token in s.tokens && TokenRow(token) in held && Unused(s, drawn) && ScopeLock(scope) in held
    requires if agent in s.agents then AgentRow(agent) in held else forall c | c in s.credentials :: s.credentials[c].agent != agent
    requires (forall c | ActiveFor(s, agent, c) :: CredentialRow(c) in held)
    ensures Within(s, Issued(Enrolled(s, agent, installation), agent, token, scope, fingerprint, drawn, now), held)
  {
    var x := Enrolled(s, agent, installation);
    var current := ActiveCredential(x, agent);
    assert current.Some? ==> ActiveFor(s, agent, current.value);
    hide Highest, ActiveCredential;
  }

  lemma AdministrationSerial(s: Tables, t: Txn, held: set<Lock>)
    requires Inv(s) && TxnOk(s, t, held) && NextOf(t).None? && (ComputedAfresh(t).tables != t.view ==> Insertable(s, t))
    requires ScopeOf(t.call.request).None?
    ensures ComputedAfresh(t).tables == t.view || Serial(s, t, held)
  {
    var q, v := t.call.request, t.view;
    if ComputedAfresh(t).tables != v {
      match q
      case RequestCredentialRevocation(_, _) => RevocationSerial(s, t, held);
      case RequestAgentRevocation(_) => AgentRevocationSerial(s, t, held);
      case RequestToken(_, _, _) => NewTokenSerial(s, t, held);
      case RequestTokenRevocation(_) => TokenSerial(s, t, held);
    }
  }

  lemma RevocationSerial(s: Tables, t: Txn, held: set<Lock>)
    requires TxnOk(s, t, held) && NextOf(t).None? && t.call.request.RequestCredentialRevocation? && ComputedAfresh(t).tables != t.view
    ensures Serial(s, t, held)
  {
    var q, v := t.call.request, t.view;
    assert q.credential in v.credentials;
    assert MayChange(t, q.credential, v.credentials[q.credential]);
    assert CredentialsSeen(s, v, q.agent) && AgentRow(q.agent) in held && CredentialRow(q.credential) in held;
    assert q.agent in s.agents && v.agents == map[q.agent := s.agents[q.agent]] && v.tokens == map[] && v.records == map[] && v.rotations == map[];
    assert s.credentials[q.credential] == v.credentials[q.credential];
    hide TxnOk, InOrder;
    CredentialRevocationOnPart(s, v, q.agent, q.credential);
    hide Written, CredentialsSeen;
    RevokedWithin(s, q.agent, q.credential, held);
    hide Within;
  }

  lemma RevokedWithin(s: Tables, agent: nat, credential: nat, held: set<Lock>)
    requires AgentRow(agent) in held && CredentialRow(credential) in held
    ensures Within(s, RevokeCredential(s, agent, credential).tables, held)
  {
  }

  lemma AgentRevocationSerial(s: Tables, t: Txn, held: set<Lock>)
    requires TxnOk(s, t, held) && NextOf(t).None? && t.call.request.RequestAgentRevocation?
    ensures Serial(s, t, held)
  {
    var q, v := t.call.request, t.view;
    AgentRevocationReads(s, t, held);
    hide TxnOk, InOrder;
    AgentRevocationOnPart(s, v, q.agent);
    hide Written, AgentRead;
    AgentRevokedWithin(s, q.agent, held);
    hide Within;
  }

  lemma AgentRevocationReads(s: Tables, t: Txn, held: set<Lock>)
    requires TxnOk(s, t, held) && NextOf(t).None? && t.call.request.RequestAgentRevocation?
    ensures var agent := t.call.request.agent;
            && AgentRead(s, t.view, agent) && t.view.tokens == map[] && t.view.records == map[] && AgentRow(agent) in held
            && (forall r | WaitingFor(s, agent, r) :: RotationRow(r) in held)
            && (forall c | c in s.credentials && s.credentials[c].agent == agent && s.credentials[c].phase in {Active, Pending} :: CredentialRow(c) in held)
  {
    var v := t.view;
    forall c | c in v.credentials ensures c in s.credentials && v.credentials[c] == s.credentials[c] {
      assert CredentialSeen(v.credentials[c], s.credentials[c]);
      assert v.credentials[c].phase == Pending ==> MayChange(t, c, v.credentials[c]);
    }
    forall c | c in s.credentials && s.credentials[c].agent == t.call.request.agent && s.credentials[c].phase in {Active, Pending}
      ensures CredentialRow(c) in held
    {
      assert c in v.credentials && MayChange(t, c, v.credentials[c]);
    }
  }

  lemma AgentRevokedWithin(s: Tables, agent: nat, held: set<Lock>)
    requires AgentRow(agent) in held && forall r | WaitingFor(s, agent, r) :: RotationRow(r) in held
    requires forall c | c in s.credentials && s.credentials[c].agent == agent && s.credentials[c].phase in {Active, Pending} :: CredentialRow(c) in held
    ensures Within(s, RevokeAgent(s, agent).tables, held)
  {
    assert forall r | r in s.rotations && s.rotations[r].agent == agent && s.rotations[r].phase == Waiting :: WaitingFor(s, agent, r);
  }

  lemma NewTokenSerial(s: Tables, t: Txn, held: set<Lock>)
    requires TxnOk(s, t, held) && NextOf(t).None? && t.call.request.RequestToken? && ComputedAfresh(t).tables != t.view && Insertable(s, t)
    ensures Serial(s, t, held)
  {
    var q, v := t.call.request, t.view;
    assert q.token !in s.tokens && v.tokens == map[] && v.credentials == map[] && v.rotations == map[] && v.records == map[];
    assert forall a | a in v.agents :: a in s.agents;
    assert q.bound.Some? ==> q.bound.value in v.agents;
    hide TxnOk, InOrder, Insertable, NextOf;
    NewTokenOnPart(s, v, q.token, q.bound, q.expires);
    hide Written;
    NewTokenWithin(s, q.token, q.bound, q.expires, held);
    hide Within, CreateToken;
  }

  lemma NewTokenWithin(s: Tables, token: nat, bound: Option<nat>, expires: nat, held: set<Lock>)
    ensures Within(s, CreateToken(s, token, bound, expires).tables, held)
  {
  }

  lemma TokenSerial(s: Tables, t: Txn, held: set<Lock>)
    requires TxnOk(s, t, held) && NextOf(t).None? && t.call.request.RequestTokenRevocation?
    ensures Serial(s, t, held)
  {
    TokenOnPart(s, t.view, t.call.request.token);
    hide Written;
  }

  /** On rows read afresh a transaction either writes nothing, or does what it would do at once when it
      commits. */
  lemma CommitSerial(s: Tables, t: Txn, held: set<Lock>)
    requires Inv(s) && TxnOk(s, t, held) && NextOf(t).None? && (ComputedAfresh(t).tables != t.view ==> Insertable(s, t))
    ensures if ComputedAfresh(t).tables != t.view then Serial(s, t, held) else Written(s, t.view, ComputedAfresh(t).tables) == s
  {
    ViewIsPart(s, t, held);
    if ComputedAfresh(t).tables == t.view {
      WrittenNothing(s, t.view);
    }
    hide Inv, TxnOk, Serial, Written, Insertable, Step;
    match t.call.request
    case RequestRotation(_, _, _) =>
      if Known(t) {
        ExpirySerial(s, t, held);
      } else if ComputedAfresh(t).tables != t.view {
        GrantSerial(s, t, held);
      }
    case RequestActivation(_, _, _, _) => ActivationSerial(s, t, held);
    case RequestRegistration(_, _, _, _, _) => RegistrationSerial(s, t, held);
    case _ => AdministrationSerial(s, t, held);
  }

  lemma ViewIsPart(s: Tables, t: Txn, held: set<Lock>)
    requires TxnOk(s, t, held)
    ensures t.view.agents.Keys <= s.agents.Keys && t.view.credentials.Keys <= s.credentials.Keys && t.view.rotations.Keys <= s.rotations.Keys
    ensures t.view.tokens.Keys <= s.tokens.Keys && t.view.records.Keys <= s.records.Keys
  {
  }

  /* A statement reads what is so, under the locks it takes. */

  function After(t: Txn, statement: Statement, view: Tables): (next: Txn) {
    t.(done := t.done + {statement}, view := view)
  }

  lemma StatementOk(s: Tables, t: Txn, held: set<Lock>, statement: Statement)
    requires Inv(s) && TxnOk(s, t, held) && NextOf(t) == Some(statement) && RowThere(s, t, statement)
    ensures TxnOk(s, After(t, statement, Viewed(s, t, statement)), held + Wanted(s, t, statement))
  {
    NextIsNew(t, statement);
    match statement
    case LockToken => hide Inv; LockTokenOk(s, t, held);
    case LockScope => hide Inv; ScopeStatementOk(s, t, held, statement);
    case ReadRecord => hide Inv; ScopeStatementOk(s, t, held, statement);
    case LockAgent => hide Inv; LockAgentOk(s, t, held);
    case LockRotations => hide Inv; LockRotationsOk(s, t, held);
    case LockCredentials =>
      if Expiring(t) {
        PendingsThere(s, t, held);
        hide Inv;
        ExpiringCredentialsOk(s, t, held);
      } else {
        hide Inv;
        LockCredentialsOk(s, t, held);
      }
  }

  lemma NextIsNew(t: Txn, statement: Statement)
    requires NextOf(t) == Some(statement)
    ensures statement !in t.done
  {
  }

  lemma LockTokenOk(s: Tables, t: Txn, held: set<Lock>)
    requires TxnOk(s, t, held) && NextOf(t) == Some(LockToken) && RowThere(s, t, LockToken)
    ensures TxnOk(s, After(t, LockToken, Viewed(s, t, LockToken)), held + Wanted(s, t, LockToken))
  {
  }

  lemma ScopeStatementOk(s: Tables, t: Txn, held: set<Lock>, statement: Statement)
    requires TxnOk(s, t, held) && NextOf(t) == Some(statement) && (statement.LockScope? || statement.ReadRecord?)
    ensures TxnOk(s, After(t, statement, Viewed(s, t, statement)), held + Wanted(s, t, statement))
  {
  }

  lemma LockAgentOk(s: Tables, t: Txn, held: set<Lock>)
    requires TxnOk(s, t, held) && NextOf(t) == Some(LockAgent) && RowThere(s, t, LockAgent)
    ensures TxnOk(s, After(t, LockAgent, Viewed(s, t, LockAgent)), held + Wanted(s, t, LockAgent))
  {
  }

  lemma LockRotationsOk(s: Tables, t: Txn, held: set<Lock>)
    requires TxnOk(s, t, held) && NextOf(t) == Some(LockRotations) && RowThere(s, t, LockRotations)
    ensures TxnOk(s, After(t, LockRotations, Viewed(s, t, LockRotations)), held + Wanted(s, t, LockRotations))
  {
  }

  lemma PendingsThere(s: Tables, t: Txn, held: set<Lock>)
    requires Inv(s) && TxnOk(s, t, held) && LockRotations in t.done
    ensures forall r | r in t.view.rotations :: t.view.rotations[r].pending in s.credentials
  {
    forall r | r in t.view.rotations ensures t.view.rotations[r].pending in s.credentials {
      assert RotationOk(s, r);
    }
  }

  lemma ExpiringCredentialsOk(s: Tables, t: Txn, held: set<Lock>)
    requires TxnOk(s, t, held) && NextOf(t) == Some(LockCredentials) && Expiring(t)
    requires forall r | r in t.view.rotations :: t.view.rotations[r].pending in s.credentials
    ensures TxnOk(s, After(t, LockCredentials, Viewed(s, t, LockCredentials)), held + Wanted(s, t, LockCredentials))
  {
  }

  lemma LockCredentialsOk(s: Tables, t: Txn, held: set<Lock>)
    requires TxnOk(s, t, held) && NextOf(t) == Some(LockCredentials) && !Expiring(t)
    ensures TxnOk(s, After(t, LockCredentials, Viewed(s, t, LockCredentials)), held + Wanted(s, t, LockCredentials))
  {
  }
}
