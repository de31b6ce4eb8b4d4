/** Credential rotation end to end: the client's durable identity and secrets, the server's tables, and
    a network that loses, delays and repeats requests and loses replies. */
module RotationProtocol {
  import opened Options
  import opened CredentialState
  import opened CredentialSafety
  import opened CredentialLifecycle

  /** rotation_state */
  datatype Progress = NoRotation | Requested | PendingStored | ActivationUncertain | LocallyActivated

  /** Keys of the secret store: credential.active.<id> and credential.pending.<id>. */
  datatype Ref = ActiveRef(id: nat) | PendingRef(id: nat)

  /** The identity row.  Each update of it is one durable write. */
  datatype Identity = Identity(
    progress: Progress,
    rotationKey: nat,
    activationKey: nat,
    active: nat,
    activeRef: Ref,
    pending: Option<nat>,
    rotation: Option<nat>,
    previous: Option<Ref>)

  /** Where the running rotate() is; a crash stops it anywhere. */
  datatype Running =
    | Stopped
    | ToRequest
    | AwaitRotation(attempt: nat)
    | GotRotation(rotation: nat, credential: nat)
    | SecretStored(rotation: nat, credential: nat)
    | ToActivate
    | ToSendActivation
    | AwaitActivation(attempt: nat)
    | GotActivation
    | ToForget
    | Forgotten

  datatype World = World(
    agent: nat,
    server: Tables,
    identity: Identity,
    secrets: map<Ref, nat>,
    running: Running,
    sent: map<nat, Request>,         // every request ever sent, by attempt
    replies: set<(nat, Reply)>,      // every reply ever produced
    now: nat)

  /* The client's program, one durable write or message at a time. */

  ghost predicate KeysFresh(w: World, key: nat, activationKey: nat) {
    && RotateScope(w.agent, key) !in w.server.records
    && (forall r :: ActivateScope(w.agent, r, activationKey) !in w.server.records)
    && (forall a | a in w.sent && w.sent[a].RequestRotation? :: w.sent[a].key != key)
    && (forall a | a in w.sent && w.sent[a].RequestActivation? :: w.sent[a].key != activationKey)
  }

  function Begun(w: World, key: nat, activationKey: nat): (next: World) {
    match w.identity.progress
    case NoRotation =>
      w.(identity := w.identity.(progress := Requested, rotationKey := key, activationKey := activationKey), running := ToRequest)
    case Requested => w.(running := ToRequest)
    case PendingStored | ActivationUncertain => w.(running := ToActivate)
    case LocallyActivated => w.(running := ToForget)
  }

  ghost predicate HoldsActive(w: World) {
    w.identity.activeRef in w.secrets && w.secrets[w.identity.activeRef] == w.identity.active
  }

  /** One step of rotate() that needs nothing from the network.  A secret that is missing or does not
      match its fingerprint raises. */
  ghost function Advanced(w: World, attempt: nat): (next: World) {
    var id := w.identity;
    match w.running
    case ToRequest =>
      if !HoldsActive(w) then w.(running := Stopped)
      else w.(running := AwaitRotation(attempt), sent := w.sent[attempt := RequestRotation(w.agent, id.active, id.rotationKey)])
    case GotRotation(rotation, credential) =>
      if PendingRef(credential) in w.secrets && w.secrets[PendingRef(credential)] != credential then w.(running := Stopped)
      else w.(running := SecretStored(rotation, credential), secrets := w.secrets[PendingRef(credential) := credential])
    case SecretStored(rotation, credential) =>
      w.(running := ToActivate, identity := id.(pending := Some(credential), rotation := Some(rotation), progress := PendingStored))
    case ToActivate =>
      if id.pending.None? || id.rotation.None? || PendingRef(id.pending.value) !in w.secrets
         || w.secrets[PendingRef(id.pending.value)] != id.pending.value then w.(running := Stopped)
      else w.(running := ToSendActivation, identity := id.(progress := ActivationUncertain))
    case ToSendActivation =>
      if id.pending.None? || id.rotation.None? then w.(running := Stopped)
      else w.(running := AwaitActivation(attempt),
              sent := w.sent[attempt := RequestActivation(w.agent, id.pending.value, id.rotation.value, id.activationKey)])
    case GotActivation =>
      if id.pending.None? then w.(running := Stopped)
      else w.(running := ToForget,
              identity := id.(previous := Some(id.activeRef), active := id.pending.value, activeRef := PendingRef(id.pending.value),
                              progress := LocallyActivated))
    case ToForget =>
      w.(running := Forgotten,
         secrets := if id.previous.Some? && id.previous.value != id.activeRef then w.secrets - {id.previous.value} else w.secrets)
    case Forgotten =>
      w.(running := Stopped, identity := id.(previous := None, pending := None, rotation := None, progress := NoRotation))
    case _ => w
  }

  /* The network and the server. */

  /** Serve a request of the client's: authenticate the credential it presents, then run the transaction. */
  ghost function Answered(w: World, request: Request, drawn: Drawn): (result: Outcome) {
    match request
    case RequestRotation(agent, active, key) =>
      if !Authenticates(w.server, active, false, w.now) then Outcome(w.server, Err(AuthenticationError))
      else CreateRotation(w.server, agent, active, key, drawn, w.now)
    case RequestActivation(agent, supplied, rotation, key) =>
      if !Authenticates(w.server, supplied, true, w.now) then Outcome(w.server, Err(AuthenticationError))
      else ActivateRotation(w.server, agent, supplied, rotation, key, w.now)
    case _ => Outcome(w.server, Err(AuthenticationError))
  }

  ghost function Delivered(w: World, attempt: nat, drawn: Drawn): (next: World)
    requires attempt in w.sent
  {
    var result := Answered(w, w.sent[attempt], drawn);
    w.(server := result.tables, replies := w.replies + {(attempt, result.reply)})
  }

  function Received(w: World, reply: Reply): (next: World) {
    match w.running
    case AwaitRotation(_) =>
      if reply.Ok? && reply.body.RotationBody? then w.(running := GotRotation(reply.body.rotation, reply.body.credential))
      else w.(running := Stopped)
    case AwaitActivation(_) => w.(running := if reply.Ok? then GotActivation else Stopped)
    case _ => w
  }

  datatype Event =
    | Start(key: nat, activationKey: nat)
    | Work(attempt: nat)
    | Deliver(attempt: nat, drawn: Drawn)     // any request ever sent, any number of times
    | Receive(attempt: nat, reply: Reply)
    | Crash                                    // or a timeout that raises
    | Pass(minutes: nat)

  ghost predicate Possible(w: World, e: Event) {
    match e
    case Start(key, activationKey) => w.running.Stopped? && KeysFresh(w, key, activationKey)
    case Work(attempt) =>
      w.running.ToRequest? || w.running.ToSendActivation? ==> attempt !in w.sent && forall reply :: (attempt, reply) !in w.replies
    case Deliver(attempt, drawn) => attempt in w.sent && Unused(w.server, drawn)
    case Receive(attempt, reply) =>
      (attempt, reply) in w.replies && (w.running == AwaitRotation(attempt) || w.running == AwaitActivation(attempt))
    case Crash => true
    case Pass(_) => true
  }

  ghost function Next(w: World, e: Event): (next: World)
    requires Possible(w, e)
  {
    match e
    case Start(key, activationKey) => Begun(w, key, activationKey)
    case Work(attempt) => Advanced(w, attempt)
    case Deliver(attempt, drawn) => Delivered(w, attempt, drawn)
    case Receive(_, reply) => Received(w, reply)
    case Crash => w.(running := Stopped)
    case Pass(minutes) => w.(now := w.now + minutes)
  }

  ghost predicate PossibleRun(w: World, events: seq<Event>)
    decreases |events|
  {
    events != [] ==> Possible(w, events[0]) && PossibleRun(Next(w, events[0]), events[1..])
  }

  ghost function Play(w: World, events: seq<Event>): (end: World)
    requires PossibleRun(w, events)
    decreases |events|
  {
    if events == [] then w else Play(Next(w, events[0]), events[1..])
  }

  /** A freshly enrolled agent that has never rotated. */
  ghost predicate Initial(w: World) {
    && Inv(w.server) && w.agent in w.server.agents && w.server.agents[w.agent].active
    && ActiveFor(w.server, w.agent, w.identity.active)
    && (forall r | r in w.server.rotations :: w.server.rotations[r].agent != w.agent)
    && w.identity.progress == NoRotation && w.identity.activeRef == ActiveRef(w.identity.active) && HoldsActive(w)
    && w.secrets.Keys == {w.identity.activeRef}
    && w.identity.pending.None? && w.identity.rotation.None? && w.identity.previous.None?
    && w.running.Stopped? && w.sent == map[] && w.replies == {}
  }

  /* The invariant. */

  ghost predicate NoneWaiting(w: World) {
    forall r :: !WaitingFor(w.server, w.agent, r)
  }

  /** The rotation of the client's current key is there and has not been activated. */
  ghost predicate Open(w: World, rotation: nat, credential: nat) {
    && rotation in w.server.rotations && credential in w.server.credentials
    && w.server.rotations[rotation].agent == w.agent
    && w.server.rotations[rotation].pending == credential && w.server.rotations[rotation].previous == w.identity.active
    && ActiveFor(w.server, w.agent, w.identity.active)
    && w.server.credentials[credential].agent == w.agent
    && (w.server.rotations[rotation].phase == Waiting ==>
          w.server.credentials[credential].phase == Pending && w.server.credentials[credential].expires == w.server.rotations[rotation].expires)
    && (w.server.rotations[rotation].phase == Waiting
        || (w.server.rotations[rotation].phase == TimedOut && w.server.rotations[rotation].expires <= w.now))
    && (forall r | WaitingFor(w.server, w.agent, r) :: r == rotation)
  }

  /** The rotation of the client's current key has been activated with the client's activation key. */
  ghost predicate Closed(w: World, rotation: nat, credential: nat) {
    && rotation in w.server.rotations && w.server.rotations[rotation].phase == CredentialState.Activated
    && ActiveFor(w.server, w.agent, credential) && NoneWaiting(w)
    && ActivateScope(w.agent, rotation, w.identity.activationKey) in w.server.records
  }

  /** The record of the client's current rotation key. */
  ghost predicate CurrentRecord(w: World, rotation: nat, credential: nat) {
    && RotateScope(w.agent, w.identity.rotationKey) in w.server.records
    && var record := w.server.records[RotateScope(w.agent, w.identity.rotationKey)];
    && record.fingerprint == FINGERPRINT && record.phase == Completed && record.body == Some(RotationBody(rotation, credential))
    && rotation in w.server.rotations && record.replayUntil == Some(w.server.rotations[rotation].expires)
  }

  ghost predicate ProgressFits(w: World) {
    var id := w.identity;
    match id.progress
    case NoRotation => ActiveFor(w.server, w.agent, id.active) && NoneWaiting(w)
    case Requested =>
      if RotateScope(w.agent, id.rotationKey) !in w.server.records then ActiveFor(w.server, w.agent, id.active) && NoneWaiting(w)
      else exists r, c :: RequestedAs(w, r, c)
    case PendingStored => id.pending.Some? && id.rotation.Some? && StoredAs(w, id.rotation.value, id.pending.value) && Open(w, id.rotation.value, id.pending.value)
    case ActivationUncertain =>
      && id.pending.Some? && id.rotation.Some? && StoredAs(w, id.rotation.value, id.pending.value)
      && (Open(w, id.rotation.value, id.pending.value) || Closed(w, id.rotation.value, id.pending.value))
    case LocallyActivated => ActiveFor(w.server, w.agent, id.active) && NoneWaiting(w) && id.previous.Some? && id.previous.value != id.activeRef
  }

  ghost predicate RequestedAs(w: World, rotation: nat, credential: nat) {
    CurrentRecord(w, rotation, credential) && Open(w, rotation, credential)
  }

  ghost predicate StoredAs(w: World, rotation: nat, credential: nat) {
    && CurrentRecord(w, rotation, credential) && credential != w.identity.active
    && PendingRef(credential) in w.secrets && w.secrets[PendingRef(credential)] == credential
  }

  ghost predicate SecretsFit(w: World) {
    && HoldsActive(w) && w.identity.activeRef in {ActiveRef(w.identity.active), PendingRef(w.identity.active)}
    && forall ref | ref in w.secrets :: w.secrets[ref] == ref.id
  }

  /** A request still in the network is the client's current one, or one whose scope has its record. */
  ghost predicate SentFit(w: World) {
    forall a | a in w.sent :: RequestFits(w, w.sent[a])
  }

  ghost predicate RequestFits(w: World, q: Request) {
    match q
    case RequestRotation(agent, active, key) =>
      && agent == w.agent
      && active in w.server.credentials && w.server.credentials[active].agent == w.agent
      && (RotateScope(w.agent, key) in w.server.records
          || (w.identity.progress == Requested && key == w.identity.rotationKey && active == w.identity.active))
    case RequestActivation(agent, supplied, rotation, key) =>
      && agent == w.agent
      && (ActivateScope(w.agent, rotation, key) in w.server.records
          || (w.identity.progress == ActivationUncertain && w.identity.rotation == Some(rotation) && w.identity.pending == Some(supplied)
              && key == w.identity.activationKey))
    case _ => false
  }

  /** A positive reply is the body on record. */
  ghost predicate RepliesFit(w: World) {
    forall p | p in w.replies :: p.0 in w.sent && ReplyFits(w, w.sent[p.0], p.1)
  }

  ghost predicate ReplyFits(w: World, q: Request, reply: Reply) {
    reply.Ok? ==>
      && ScopeOf(q).Some? && ScopeOf(q).value in w.server.records
      && w.server.records[ScopeOf(q).value].body == Some(reply.body)
  }

  ghost predicate RunningFits(w: World) {
    var id := w.identity;
    match w.running
    case Stopped => true
    case ToRequest => id.progress == Requested
    case AwaitRotation(attempt) =>
      id.progress == Requested && attempt in w.sent && w.sent[attempt] == RequestRotation(w.agent, id.active, id.rotationKey)
    case GotRotation(rotation, credential) => id.progress == Requested && CurrentRecord(w, rotation, credential)
    case SecretStored(rotation, credential) =>
      id.progress == Requested && CurrentRecord(w, rotation, credential)
      && PendingRef(credential) in w.secrets && w.secrets[PendingRef(credential)] == credential
    case ToActivate => id.progress == PendingStored || id.progress == ActivationUncertain
    case ToSendActivation => id.progress == ActivationUncertain
    case AwaitActivation(attempt) =>
      && id.progress == ActivationUncertain && id.pending.Some? && id.rotation.Some?
      && attempt in w.sent && w.sent[attempt] == RequestActivation(w.agent, id.pending.value, id.rotation.value, id.activationKey)
    case GotActivation =>
      && id.progress == ActivationUncertain && id.rotation.Some? && id.pending.Some?
      && Closed(w, id.rotation.value, id.pending.value)
    case ToForget => id.progress == LocallyActivated
    case Forgotten => id.progress == LocallyActivated && id.previous.Some? && id.previous.value !in w.secrets
  }

  ghost predicate WorldInv(w: World) {
    && Inv(w.server) && w.agent in w.server.agents && w.server.agents[w.agent].active
    && ProgressFits(w) && SecretsFit(w) && SentFit(w) && RepliesFit(w) && RunningFits(w)
  }

  lemma InitialWorld(w: World)
    requires Initial(w)
    ensures WorldInv(w)
  {
    hide Inv;
  }

  /* The client's own steps keep it. */

  lemma KeepStart(w: World, key: nat, activationKey: nat)
    requires WorldInv(w) && Possible(w, Start(key, activationKey))
    ensures WorldInv(Begun(w, key, activationKey))
  {
    hide Inv;
    var t := Begun(w, key, activationKey);
    if w.identity.progress == NoRotation {
      forall a | a in t.sent ensures RequestFits(t, t.sent[a]) {
        assert RequestFits(w, w.sent[a]);
      }
    } else {
      forall a | a in t.sent ensures RequestFits(t, t.sent[a]) {
        assert RequestFits(w, w.sent[a]);
      }
      if w.identity.progress == Requested && RotateScope(w.agent, w.identity.rotationKey) in w.server.records {
        var r, c :| RequestedAs(w, r, c);
        assert RequestedAs(t, r, c);
      }
    }
  }

  /** A step that leaves server, identity and secrets alone keeps everything said about them. */
  lemma SameStanding(w: World, t: World)
    requires ProgressFits(w) && SecretsFit(w)
    requires t.agent == w.agent && t.server == w.server && t.identity == w.identity && t.secrets == w.secrets && t.now >= w.now
    ensures ProgressFits(t) && SecretsFit(t)
  {
    if w.identity.progress == Requested && RotateScope(w.agent, w.identity.rotationKey) in w.server.records {
      var r, c :| RequestedAs(w, r, c);
      assert RequestedAs(t, r, c);
    }
  }

  lemma SameSent(w: World, t: World)
    requires SentFit(w) && RepliesFit(w)
    requires t.agent == w.agent && t.server == w.server && t.identity == w.identity && t.sent == w.sent && t.replies == w.replies
    ensures SentFit(t) && RepliesFit(t)
  {
    forall a | a in t.sent ensures RequestFits(t, t.sent[a]) {
      assert RequestFits(w, w.sent[a]);
    }
    forall p | p in t.replies ensures p.0 in t.sent && ReplyFits(t, t.sent[p.0], p.1) {
      assert ReplyFits(w, w.sent[p.0], p.1);
    }
  }

  lemma KeepQuiet(w: World, t: World)
    requires WorldInv(w)
    requires t.agent == w.agent && t.server == w.server && t.identity == w.identity && t.secrets == w.secrets && t.now >= w.now
    requires t.sent == w.sent && t.replies == w.replies && RunningFits(t)
    ensures WorldInv(t)
  {
    hide Inv, ProgressFits, SecretsFit, SentFit, RepliesFit, RunningFits;
    SameStanding(w, t);
    SameSent(w, t);
  }

  lemma KeepSend(w: World, t: World, attempt: nat, q: Request)
    requires WorldInv(w) && attempt !in w.sent && RequestFits(w, q)
    requires t == w.(sent := w.sent[attempt := q], running := t.running) && RunningFits(t)
    ensures WorldInv(t)
  {
    SameStanding(w, t);
    forall a | a in t.sent ensures RequestFits(t, t.sent[a]) {
      assert RequestFits(w, if a == attempt then q else w.sent[a]);
    }
    forall p | p in t.replies ensures p.0 in t.sent && ReplyFits(t, t.sent[p.0], p.1) {
      assert p.0 in w.sent && ReplyFits(w, w.sent[p.0], p.1);
    }
    hide Inv, ProgressFits, SecretsFit, RunningFits;
  }

  /** Sent requests stay in order when the identity moves on past a request that was answered. */
  lemma IdentityMoves(w: World, t: World)
    requires SentFit(w) && RepliesFit(w)
    requires t.agent == w.agent && t.server == w.server && t.sent == w.sent && t.replies == w.replies
    requires w.identity.progress == Requested && t.identity != w.identity ==> RotateScope(w.agent, w.identity.rotationKey) in w.server.records
    requires w.identity.progress == ActivationUncertain && t.identity.progress != ActivationUncertain ==>
               w.identity.rotation.Some? && ActivateScope(w.agent, w.identity.rotation.value, w.identity.activationKey) in w.server.records
    requires w.identity.progress == ActivationUncertain && t.identity.progress == ActivationUncertain ==> t.identity == w.identity
    ensures SentFit(t) && RepliesFit(t)
  {
    forall a | a in t.sent ensures RequestFits(t, t.sent[a]) {
      assert RequestFits(w, w.sent[a]);
    }
    forall p | p in t.replies ensures p.0 in t.sent && ReplyFits(t, t.sent[p.0], p.1) {
      assert ReplyFits(w, w.sent[p.0], p.1);
    }
  }

  lemma CurrentBody(w: World, rotation: nat, credential: nat)
    requires ProgressFits(w) && w.identity.progress == Requested && CurrentRecord(w, rotation, credential)
    ensures Open(w, rotation, credential)
  {
    var r, c :| RequestedAs(w, r, c);
  }

  lemma KeepRequest(w: World, attempt: nat)
    requires WorldInv(w) && Possible(w, Work(attempt)) && w.running.ToRequest?
    ensures WorldInv(Advanced(w, attempt))
  {
    assert ActiveFor(w.server, w.agent, w.identity.active) by {
      if RotateScope(w.agent, w.identity.rotationKey) in w.server.records {
        var r, c :| RequestedAs(w, r, c);
      }
    }
    hide Inv, ProgressFits, SentFit, RepliesFit;
    KeepSend(w, Advanced(w, attempt), attempt, RequestRotation(w.agent, w.identity.active, w.identity.rotationKey));
  }

  lemma KeepSecret(w: World, attempt: nat)
    requires WorldInv(w) && w.running.GotRotation?
    ensures WorldInv(Advanced(w, attempt))
  {
    hide Inv, SentFit, RepliesFit;
    var t := Advanced(w, attempt);
    var r, c := w.running.rotation, w.running.credential;
    CurrentBody(w, r, c);
    SameSent(w, t);
    assert RequestedAs(t, r, c);
    hide CurrentRecord, Open, RequestedAs;
  }

  lemma KeepStored(w: World, attempt: nat)
    requires WorldInv(w) && w.running.SecretStored?
    ensures WorldInv(Advanced(w, attempt))
  {
    var t := Advanced(w, attempt);
    var r, c := w.running.rotation, w.running.credential;
    CurrentBody(w, r, c);
    NotItself(w.server, r);
    hide Inv, SentFit, RepliesFit, ProgressFits;
    IdentityMoves(w, t);
    NowStored(w, t, r, c);
    hide Open, CurrentRecord;
  }

  lemma NowStored(w: World, t: World, r: nat, c: nat)
    requires CurrentRecord(w, r, c) && Open(w, r, c) && w.server.rotations[r].pending != w.server.rotations[r].previous
    requires PendingRef(c) in w.secrets && w.secrets[PendingRef(c)] == c
    requires t == w.(running := ToActivate, identity := w.identity.(pending := Some(c), rotation := Some(r), progress := PendingStored))
    ensures ProgressFits(t)
  {
  }

  lemma NotItself(s: Tables, r: nat)
    requires Inv(s) && r in s.rotations
    ensures s.rotations[r].pending != s.rotations[r].previous
  {
    assert RotationOk(s, r);
  }

  lemma KeepUncertain(w: World, attempt: nat)
    requires WorldInv(w) && w.running.ToActivate?
    ensures WorldInv(Advanced(w, attempt))
    ensures Advanced(w, attempt).running.ToSendActivation?
  {
    hide Inv, SentFit, RepliesFit;
    IdentityMoves(w, Advanced(w, attempt));
  }

  lemma KeepSendActivation(w: World, attempt: nat)
    requires WorldInv(w) && Possible(w, Work(attempt)) && w.running.ToSendActivation?
    ensures WorldInv(Advanced(w, attempt))
  {
    hide Inv, SentFit, RepliesFit;
    var id := w.identity;
    KeepSend(w, Advanced(w, attempt), attempt, RequestActivation(w.agent, id.pending.value, id.rotation.value, id.activationKey));
  }

  lemma KeepLocal(w: World, attempt: nat)
    requires WorldInv(w) && (w.running.GotActivation? || w.running.ToForget? || w.running.Forgotten?)
    ensures WorldInv(Advanced(w, attempt))
  {
    hide Inv, SentFit, RepliesFit;
    IdentityMoves(w, Advanced(w, attempt));
  }

  lemma KeepWork(w: World, attempt: nat)
    requires WorldInv(w) && Possible(w, Work(attempt))
    ensures WorldInv(Advanced(w, attempt))
  {
    hide WorldInv, Advanced;
    match w.running
    case ToRequest => KeepRequest(w, attempt);
    case GotRotation(_, _) => KeepSecret(w, attempt);
    case SecretStored(_, _) => KeepStored(w, attempt);
    case ToActivate => KeepUncertain(w, attempt);
    case ToSendActivation => KeepSendActivation(w, attempt);
    case GotActivation => KeepLocal(w, attempt);
    case ToForget => KeepLocal(w, attempt);
    case Forgotten => KeepLocal(w, attempt);
    case _ => NoWork(w, attempt);
  }

  lemma NoWork(w: World, attempt: nat)
    requires w.running.Stopped? || w.running.AwaitRotation? || w.running.AwaitActivation?
    ensures Advanced(w, attempt) == w
  {
  }

  lemma KeepReceived(w: World, attempt: nat, reply: Reply)
    requires WorldInv(w) && Possible(w, Receive(attempt, reply))
    ensures WorldInv(Received(w, reply))
  {
    hide Inv, SentFit, RepliesFit, SecretsFit, ProgressFits, ReplyFits, RunningFits;
    KnownReply(w, attempt, reply);
    if w.running.AwaitRotation? {
      RotationReceived(w, attempt, reply);
    } else {
      ActivationReceived(w, attempt, reply);
    }
    KeepQuiet(w, Received(w, reply));
  }

  lemma RotationReceived(w: World, attempt: nat, reply: Reply)
    requires ProgressFits(w) && RunningFits(w) && w.running == AwaitRotation(attempt) && attempt in w.sent && ReplyFits(w, w.sent[attempt], reply)
    ensures RunningFits(Received(w, reply))
  {
    if reply.Ok? {
      RotationAnswered(w, reply);
    }
    hide ProgressFits, ReplyFits;
  }

  lemma ActivationReceived(w: World, attempt: nat, reply: Reply)
    requires Inv(w.server) && ProgressFits(w) && RunningFits(w) && w.running == AwaitActivation(attempt)
    requires attempt in w.sent && ReplyFits(w, w.sent[attempt], reply)
    ensures RunningFits(Received(w, reply))
  {
    hide Inv, ReplyFits, ProgressFits;
    if reply.Ok? {
      ActivationAnswered(w, reply);
    }
  }

  lemma KnownReply(w: World, attempt: nat, reply: Reply)
    requires RepliesFit(w) && (attempt, reply) in w.replies
    ensures attempt in w.sent && ReplyFits(w, w.sent[attempt], reply)
  {
    assert (attempt, reply).0 in w.sent;
  }

  lemma RotationAnswered(w: World, reply: Reply)
    requires ProgressFits(w) && w.identity.progress == Requested && reply.Ok?
    requires ReplyFits(w, RequestRotation(w.agent, w.identity.active, w.identity.rotationKey), reply)
    ensures reply.body.RotationBody? && CurrentRecord(w, reply.body.rotation, reply.body.credential)
  {
    var r, c :| RequestedAs(w, r, c);
  }

  lemma ActivationAnswered(w: World, reply: Reply)
    requires Inv(w.server) && ProgressFits(w) && w.identity.progress == ActivationUncertain && reply.Ok?
    requires ReplyFits(w, RequestActivation(w.agent, w.identity.pending.value, w.identity.rotation.value, w.identity.activationKey), reply)
    ensures Closed(w, w.identity.rotation.value, w.identity.pending.value)
  {
    assert RecordOk(w.server, ActivateScope(w.agent, w.identity.rotation.value, w.identity.activationKey));
    hide Inv, RotationOk;
  }

  /* So do deliveries. */

  /** What every transaction does: keep the records there are, and whose credentials are whose. */
  ghost predicate Grows(s: Tables, t: Tables) {
    && (forall k | k in s.records :: k in t.records && t.records[k] == s.records[k])
    && (forall c | c in s.credentials :: c in t.credentials && t.credentials[c].agent == s.credentials[c].agent)
  }

  lemma NetworkGrows(w: World, t: World, attempt: nat, reply: Reply)
    requires SentFit(w) && RepliesFit(w) && attempt in w.sent && Grows(w.server, t.server)
    requires t == w.(server := t.server, replies := w.replies + {(attempt, reply)})
    requires ReplyFits(t, w.sent[attempt], reply)
    ensures SentFit(t) && RepliesFit(t)
  {
    forall a | a in t.sent ensures RequestFits(t, t.sent[a]) {
      assert RequestFits(w, w.sent[a]);
    }
    forall p | p in t.replies ensures p.0 in t.sent && ReplyFits(t, t.sent[p.0], p.1) {
      if p != (attempt, reply) {
        assert p in w.replies && ReplyFits(w, w.sent[p.0], p.1);
      }
    }
  }

  /** A delivery that changes nothing on the server answers with what is on record, or with an error. */
  lemma KeepReplay(w: World, attempt: nat, reply: Reply)
    requires WorldInv(w) && attempt in w.sent && ReplyFits(w, w.sent[attempt], reply)
    ensures WorldInv(w.(replies := w.replies + {(attempt, reply)}))
  {
    hide Inv, ProgressFits, SecretsFit, SentFit, RepliesFit, RunningFits;
    var t := w.(replies := w.replies + {(attempt, reply)});
    SameStanding(w, t);
    SameRunning(w, t);
    NetworkGrows(w, t, attempt, reply);
  }

  lemma SameRunning(w: World, t: World)
    requires RunningFits(w) && t == w.(replies := t.replies)
    ensures RunningFits(t)
  {
  }

  lemma KeepExpired(w: World, attempt: nat, reply: Reply)
    requires WorldInv(w) && attempt in w.sent && !reply.Ok?
    ensures WorldInv(w.(server := Expire(w.server, WaitingRotation(w.server, w.agent), w.now), replies := w.replies + {(attempt, reply)}))
  {
    var server := Expire(w.server, WaitingRotation(w.server, w.agent), w.now);
    var t := w.(server := server, replies := w.replies + {(attempt, reply)});
    hide Inv, ProgressFits, SecretsFit, SentFit, RepliesFit, RunningFits, Expire, WaitingRotation;
    KeepExpire(w.server, w.agent, w.now);
    ExpiredProgress(w, t);
    ExpiredGrows(w, t, attempt, reply);
    ExpiredRunning(w, t);
    ExpiredSecrets(w, t);
  }

  lemma ExpiredSecrets(w: World, t: World)
    requires SecretsFit(w)
    requires t == w.(server := Expire(w.server, WaitingRotation(w.server, w.agent), w.now), replies := t.replies)
    ensures SecretsFit(t) && t.server.agents == w.server.agents
  {
  }

  lemma ExpiredGrows(w: World, t: World, attempt: nat, reply: Reply)
    requires SentFit(w) && RepliesFit(w) && attempt in w.sent && !reply.Ok?
    requires t == w.(server := Expire(w.server, WaitingRotation(w.server, w.agent), w.now), replies := w.replies + {(attempt, reply)})
    ensures SentFit(t) && RepliesFit(t)
  {
    NetworkGrows(w, t, attempt, reply);
  }

  lemma ExpiredOpen(w: World, t: World, r: nat, c: nat)
    requires Open(w, r, c)
    requires t == w.(server := Expire(w.server, WaitingRotation(w.server, w.agent), w.now), replies := t.replies)
    ensures Open(t, r, c)
  {
    var waiting := WaitingRotation(w.server, w.agent);
    assert waiting.Some? ==> waiting.value == r;
    forall x | WaitingFor(t.server, w.agent, x) ensures x == r {
      assert WaitingFor(w.server, w.agent, x);
    }
  }

  lemma ExpiredRecord(w: World, t: World, r: nat, c: nat)
    requires CurrentRecord(w, r, c)
    requires t == w.(server := Expire(w.server, WaitingRotation(w.server, w.agent), w.now), replies := t.replies)
    ensures CurrentRecord(t, r, c)
  {
  }

  lemma NothingToExpire(w: World)
    requires NoneWaiting(w)
    ensures Expire(w.server, WaitingRotation(w.server, w.agent), w.now) == w.server
  {
    assert forall x :: !WaitingFor(w.server, w.agent, x);
  }

  lemma ExpiredProgress(w: World, t: World)
    requires ProgressFits(w)
    requires t == w.(server := Expire(w.server, WaitingRotation(w.server, w.agent), w.now), replies := t.replies)
    ensures ProgressFits(t)
  {
    var id := w.identity;
    if id.progress == Requested && RotateScope(w.agent, id.rotationKey) in w.server.records {
      var r, c :| RequestedAs(w, r, c);
      ExpiredOpen(w, t, r, c);
      ExpiredRecord(w, t, r, c);
      assert RequestedAs(t, r, c);
    } else if id.progress == PendingStored || (id.progress == ActivationUncertain && Open(w, id.rotation.value, id.pending.value)) {
      ExpiredOpen(w, t, id.rotation.value, id.pending.value);
      ExpiredRecord(w, t, id.rotation.value, id.pending.value);
      hide Open, CurrentRecord, Expire, WaitingRotation;
    } else {
      NothingToExpire(w);
      hide Expire, WaitingRotation;
    }
  }

  lemma ExpiredRunning(w: World, t: World)
    requires RunningFits(w)
    requires t == w.(server := Expire(w.server, WaitingRotation(w.server, w.agent), w.now), replies := t.replies)
    ensures RunningFits(t)
  {
    if w.running.GotRotation? || w.running.SecretStored? {
      ExpiredRecord(w, t, w.running.rotation, w.running.credential);
    } else if w.running.GotActivation? {
      NothingToExpire(w);
    }
    hide Expire, CurrentRecord;
  }

  lemma KeepRotated(w: World, attempt: nat, drawn: Drawn)
    requires WorldInv(w) && attempt in w.sent && w.sent[attempt].RequestRotation? && Unused(w.server, drawn)
    requires RotateScope(w.agent, w.sent[attempt].key) !in w.server.records
    requires ActiveFor(w.server, w.agent, w.sent[attempt].active)
    ensures w.sent[attempt].agent == w.agent && NoneWaiting(w)
    ensures var q := w.sent[attempt];
            WorldInv(w.(server := Rotating(w.server, w.agent, q.active, q.key, drawn, w.now),
                        replies := w.replies + {(attempt, Ok(RotationBody(drawn.rotation, drawn.credential)))}))
  {
    var q := w.sent[attempt];
    assert RequestFits(w, q);
    assert NoneWaiting(w);
    hide Inv, ProgressFits, SecretsFit, SentFit, RepliesFit, RunningFits, Rotating;
    var reply := Ok(RotationBody(drawn.rotation, drawn.credential));
    var t := w.(server := Rotating(w.server, w.agent, q.active, q.key, drawn, w.now), replies := w.replies + {(attempt, reply)});
    KeepRotating(w.server, w.agent, q.active, q.key, drawn, w.now);
    RotatedProgress(w, t, drawn);
    RotatedRunning(w, t, q, drawn);
    RotatedGrows(w, t, q, drawn);
    NetworkGrows(w, t, attempt, reply);
  }

  lemma RotatedProgress(w: World, t: World, drawn: Drawn)
    requires w.identity.progress == Requested && NoneWaiting(w) && Unused(w.server, drawn) && SecretsFit(w)
    requires ActiveFor(w.server, w.agent, w.identity.active)
    requires t == w.(server := Rotating(w.server, w.agent, w.identity.active, w.identity.rotationKey, drawn, w.now), replies := t.replies)
    ensures ProgressFits(t) && SecretsFit(t) && t.server.agents == w.server.agents
  {
    hide Highest;
    forall x | WaitingFor(t.server, w.agent, x) ensures x == drawn.rotation {
      assert x == drawn.rotation || WaitingFor(w.server, w.agent, x);
    }
    assert RequestedAs(t, drawn.rotation, drawn.credential);
  }

  lemma RotatedRunning(w: World, t: World, q: Request, drawn: Drawn)
    requires RunningFits(w) && w.identity.progress == Requested && RotateScope(w.agent, w.identity.rotationKey) !in w.server.records
    requires t == w.(server := t.server, replies := t.replies)
    ensures RunningFits(t)
  {
  }

  lemma RotatedGrows(w: World, t: World, q: Request, drawn: Drawn)
    requires q.RequestRotation? && RotateScope(w.agent, q.key) !in w.server.records && q.agent == w.agent && Unused(w.server, drawn)
    requires t == w.(server := Rotating(w.server, w.agent, q.active, q.key, drawn, w.now), replies := t.replies)
    ensures Grows(w.server, t.server) && ReplyFits(t, q, Ok(RotationBody(drawn.rotation, drawn.credential)))
  {
    hide Highest;
  }

  lemma KeepActivated(w: World, attempt: nat)
    requires WorldInv(w) && attempt in w.sent && w.sent[attempt].RequestActivation?
    requires var q := w.sent[attempt];
             && ActivateScope(w.agent, q.rotation, q.key) !in w.server.records
             && WaitingFor(w.server, w.agent, q.rotation) && w.server.rotations[q.rotation].pending == q.supplied
             && w.server.rotations[q.rotation].previous in w.server.credentials
             && q.supplied in w.server.credentials && w.server.credentials[q.supplied].phase == Pending
             && !IndexBlocks(w.server, w.agent, q.rotation)
    ensures var q := w.sent[attempt];
            WorldInv(w.(server := Activating(w.server, w.agent, q.rotation, q.key, w.now),
                        replies := w.replies + {(attempt, Ok(ActivationBody(q.rotation, q.supplied)))}))
  {
    var q := w.sent[attempt];
    assert RequestFits(w, q);
    hide Inv, ProgressFits, SecretsFit, SentFit, RepliesFit, RunningFits, Activating, IndexBlocks;
    var reply := Ok(ActivationBody(q.rotation, q.supplied));
    var t := w.(server := Activating(w.server, w.agent, q.rotation, q.key, w.now), replies := w.replies + {(attempt, reply)});
    KeepActivating(w.server, w.agent, q.rotation, q.key, w.now);
    ActivatedProgress(w, t);
    ActivatedRunning(w, t);
    ActivatedGrows(w, t, q);
    NetworkGrows(w, t, attempt, reply);
  }

  lemma ActivatedProgress(w: World, t: World)
    requires ProgressFits(w) && w.identity.progress == ActivationUncertain && w.identity.rotation.Some? && w.identity.pending.Some?
    requires var r, c := w.identity.rotation.value, w.identity.pending.value;
             && WaitingFor(w.server, w.agent, r) && w.server.rotations[r].pending == c && w.server.rotations[r].previous in w.server.credentials
             && c in w.server.credentials && w.server.credentials[c].phase == Pending
             && t == w.(server := Activating(w.server, w.agent, r, w.identity.activationKey, w.now), replies := t.replies)
    requires SecretsFit(w)
    ensures ProgressFits(t) && SecretsFit(t) && t.server.agents == w.server.agents
  {
    var r, c := w.identity.rotation.value, w.identity.pending.value;
    assert Open(w, r, c);
    forall x | WaitingFor(t.server, w.agent, x) ensures false {
      assert WaitingFor(w.server, w.agent, x);
    }
    assert Closed(t, r, c);
  }

  lemma ActivatedRunning(w: World, t: World)
    requires RunningFits(w) && w.identity.progress == ActivationUncertain && w.identity.rotation.Some? && w.identity.pending.Some?
    requires WaitingFor(w.server, w.agent, w.identity.rotation.value)
    requires t == w.(server := t.server, replies := t.replies)
    ensures RunningFits(t)
  {
  }

  lemma ActivatedGrows(w: World, t: World, q: Request)
    requires q.RequestActivation? && ActivateScope(w.agent, q.rotation, q.key) !in w.server.records && q.agent == w.agent
    requires q.rotation in w.server.rotations && w.server.rotations[q.rotation].pending == q.supplied
    requires w.server.rotations[q.rotation].previous in w.server.credentials && q.supplied in w.server.credentials
    requires t == w.(server := Activating(w.server, w.agent, q.rotation, q.key, w.now), replies := t.replies)
    ensures Grows(w.server, t.server) && ReplyFits(t, q, Ok(ActivationBody(q.rotation, q.supplied)))
  {
  }

  /** A rotation request whose record exists changes at most an expired waiting rotation. */
  lemma AnswerKnown(w: World, q: Request, drawn: Drawn)
    requires q.RequestRotation? && q.agent == w.agent && RotateScope(w.agent, q.key) in w.server.records
    ensures var result := Answered(w, q, drawn);
            || (result.tables == w.server && ReplyFits(w, q, result.reply))
            || (result.tables == Expire(w.server, WaitingRotation(w.server, w.agent), w.now) && !result.reply.Ok?)
  {
    hide Expire;
  }

  /** One whose record does not exist is granted whenever its credential authenticates. */
  lemma AnswerNew(w: World, q: Request, drawn: Drawn)
    requires Inv(w.server) && w.agent in w.server.agents && w.server.agents[w.agent].active && Unused(w.server, drawn)
    requires q.RequestRotation? && q.agent == w.agent && RotateScope(w.agent, q.key) !in w.server.records && NoneWaiting(w)
    requires ActiveFor(w.server, w.agent, q.active)
    ensures Answered(w, q, drawn) ==
            if w.server.credentials[q.active].expires <= w.now then Outcome(w.server, Err(AuthenticationError))
            else Outcome(Rotating(w.server, w.agent, q.active, q.key, drawn, w.now), Ok(RotationBody(drawn.rotation, drawn.credential)))
  {
    NothingToExpire(w);
    NothingPending(w.server, w.agent);
    hide Inv, Rotating, Expire;
  }

  lemma KeepRotationDelivered(w: World, attempt: nat, drawn: Drawn)
    requires WorldInv(w) && Possible(w, Deliver(attempt, drawn)) && w.sent[attempt].RequestRotation?
    ensures WorldInv(Delivered(w, attempt, drawn))
  {
    hide Inv, SecretsFit, RepliesFit, RunningFits, Rotating, Expire, Answered, ReplyFits, CurrentRecord, Open;
    var q := w.sent[attempt];
    var result := Answered(w, q, drawn);
    assert RequestFits(w, q);
    if RotateScope(w.agent, q.key) in w.server.records {
      AnswerKnown(w, q, drawn);
      hide WorldInv, SentFit, RequestFits;
      if result.tables == w.server && ReplyFits(w, q, result.reply) {
        KeepReplay(w, attempt, result.reply);
      } else {
        KeepExpired(w, attempt, result.reply);
      }
    } else {
      AnswerNew(w, q, drawn);
      hide WorldInv, SentFit, RequestFits, ProgressFits;
      if w.server.credentials[q.active].expires <= w.now {
        ErrorFits(w, q);
        KeepReplay(w, attempt, result.reply);
      } else {
        KeepRotated(w, attempt, drawn);
      }
    }
  }

  lemma ErrorFits(w: World, q: Request)
    ensures forall error :: ReplyFits(w, q, Err(error))
  {
  }

  lemma AnswerActivation(w: World, q: Request, drawn: Drawn)
    requires q.RequestActivation? && q.agent == w.agent
    ensures var result := Answered(w, q, drawn);
            || (result.tables == w.server && ReplyFits(w, q, result.reply))
            || (&& ActivateScope(w.agent, q.rotation, q.key) !in w.server.records
                && WaitingFor(w.server, w.agent, q.rotation) && w.server.rotations[q.rotation].pending == q.supplied
                && w.server.rotations[q.rotation].previous in w.server.credentials
                && q.supplied in w.server.credentials && w.server.credentials[q.supplied].phase == Pending
                && !IndexBlocks(w.server, w.agent, q.rotation)
                && result == Outcome(Activating(w.server, w.agent, q.rotation, q.key, w.now), Ok(ActivationBody(q.rotation, q.supplied))))
  {
    hide Activating, IndexBlocks;
  }

  lemma KeepActivationDelivered(w: World, attempt: nat, drawn: Drawn)
    requires WorldInv(w) && Possible(w, Deliver(attempt, drawn)) && w.sent[attempt].RequestActivation?
    ensures WorldInv(Delivered(w, attempt, drawn))
  {
    var q := w.sent[attempt];
    assert RequestFits(w, q);
    hide WorldInv, Activating, IndexBlocks, Answered, ReplyFits;
    AnswerActivation(w, q, drawn);
    var result := Answered(w, q, drawn);
    if result.tables == w.server && ReplyFits(w, q, result.reply) {
      KeepReplay(w, attempt, result.reply);
    } else {
      KeepActivated(w, attempt);
    }
  }

  lemma OnlyOurRequests(w: World, attempt: nat)
    requires SentFit(w) && attempt in w.sent
    ensures w.sent[attempt].RequestRotation? || w.sent[attempt].RequestActivation?
  {
    assert RequestFits(w, w.sent[attempt]);
  }

  /** Every event keeps the invariant. */
  lemma KeepNext(w: World, e: Event)
    requires WorldInv(w) && Possible(w, e)
    ensures WorldInv(Next(w, e))
  {
    hide Begun, Advanced, Delivered, Received, KeysFresh, SentFit, Inv, ProgressFits, SecretsFit, RepliesFit, RunningFits;
    match e
    case Start(key, activationKey) => KeepStart(w, key, activationKey);
    case Work(attempt) => KeepWork(w, attempt);
    case Deliver(attempt, drawn) =>
      OnlyOurRequests(w, attempt);
      hide WorldInv;
      if w.sent[attempt].RequestRotation? {
        KeepRotationDelivered(w, attempt, drawn);
      } else {
        KeepActivationDelivered(w, attempt, drawn);
      }
    case Receive(attempt, reply) => KeepReceived(w, attempt, reply);
    case Crash => KeepCrash(w);
    case Pass(minutes) => KeepPass(w, minutes);
  }

  lemma KeepCrash(w: World)
    requires WorldInv(w)
    ensures WorldInv(w.(running := Stopped))
  {
    hide Inv, ProgressFits, SecretsFit, SentFit, RepliesFit;
    KeepQuiet(w, w.(running := Stopped));
  }

  lemma KeepPass(w: World, minutes: nat)
    requires WorldInv(w)
    ensures WorldInv(w.(now := w.now + minutes))
  {
    hide Inv, ProgressFits, SecretsFit, SentFit, RepliesFit;
    KeepQuiet(w, w.(now := w.now + minutes));
  }

  lemma {:induction false} KeepPlay(w: World, events: seq<Event>)
    requires WorldInv(w) && PossibleRun(w, events)
    ensures WorldInv(Play(w, events))
    decreases |events|
  {
    hide WorldInv, Next, Possible;
    if events != [] {
      KeepNext(w, events[0]);
      KeepPlay(Next(w, events[0]), events[1..]);
    }
  }

  /** Whatever requests and replies are lost, late or repeated, wherever the client crashes, and however
      much time passes: the server's active credential is one whose secret the client holds, under its
      active or its pending reference. */
  lemma NeverLockedOut(w: World, events: seq<Event>)
    requires Initial(w) && PossibleRun(w, events)
    ensures var t := Play(w, events);
            && t.identity.activeRef in t.secrets
            && (ActiveFor(t.server, t.agent, t.secrets[t.identity.activeRef])
                || (t.identity.pending.Some? && PendingRef(t.identity.pending.value) in t.secrets
                    && ActiveFor(t.server, t.agent, t.secrets[PendingRef(t.identity.pending.value)])))
  {
    hide PossibleRun, Play, Initial;
    InitialWorld(w);
    KeepPlay(w, events);
    HeldByClient(Play(w, events));
  }

  lemma HeldByClient(w: World)
    requires WorldInv(w)
    ensures w.identity.activeRef in w.secrets
    ensures ActiveFor(w.server, w.agent, w.secrets[w.identity.activeRef])
            || (w.identity.pending.Some? && PendingRef(w.identity.pending.value) in w.secrets
                && ActiveFor(w.server, w.agent, w.secrets[PendingRef(w.identity.pending.value)]))
  {
    hide Inv, SentFit, RepliesFit, RunningFits;
    if w.identity.progress == Requested && RotateScope(w.agent, w.identity.rotationKey) in w.server.records {
      var r, c :| RequestedAs(w, r, c);
    }
  }

  /** Who is served at all: a rotation only for an active credential in time, an activation also for a pending
      one, and either only while the agent is active; anybody else gets nothing, not even a replay, and
      changes nothing. */
  lemma OnlyAuthenticatedServed(w: World, q: Request, drawn: Drawn)
    requires q.RequestRotation? || q.RequestActivation?
    ensures var presented := if q.RequestRotation? then q.active else q.supplied;
            var s := w.server;
            !(presented in s.credentials && w.now < s.credentials[presented].expires
              && s.credentials[presented].agent in s.agents && s.agents[s.credentials[presented].agent].active
              && (s.credentials[presented].phase == Active || (q.RequestActivation? && s.credentials[presented].phase == Pending))) ==>
              Answered(w, q, drawn) == Outcome(s, Err(AuthenticationError))
  {
  }
}
