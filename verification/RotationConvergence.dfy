/** One uninterrupted rotate(): when it completes the rotation, and when it never can again. */
module RotationConvergence {
  import opened Options
  import opened CredentialState
  import opened CredentialSafety
  import opened CredentialLifecycle
  import opened RotationProtocol

  /** What is drawn for one step: identifiers on the server, an attempt number in the network. */
  datatype Choice = Choice(attempt: nat, drawn: Drawn)

  ghost predicate ChoiceOk(w: World, c: Choice) {
    Possible(w, Work(c.attempt)) && Unused(w.server, c.drawn)
  }

  /** The next step of a rotate() that nothing interrupts: its requests arrive and so do their replies. */
  ghost function DriveStep(w: World, c: Choice): (next: World)
    requires w.running.AwaitRotation? || w.running.AwaitActivation? ==> w.running.attempt in w.sent
  {
    if w.running.AwaitRotation? || w.running.AwaitActivation? then
      Received(Delivered(w, w.running.attempt, c.drawn), Answered(w, w.sent[w.running.attempt], c.drawn).reply)
    else Advanced(w, c.attempt)
  }

  /** From a running rotate() to the end of it. */
  ghost predicate Drives(w: World, choices: seq<Choice>, t: World)
    requires WorldInv(w)
    decreases |choices|
  {
    if choices == [] then w.running.Stopped? && t == w
    else
      && !w.running.Stopped? && ChoiceOk(w, choices[0])
      && (DriveKeepsInv(w, choices[0]); Drives(DriveStep(w, choices[0]), choices[1..], t))
  }

  lemma DriveKeepsInv(w: World, c: Choice)
    requires WorldInv(w) && ChoiceOk(w, c)
    ensures w.running.AwaitRotation? || w.running.AwaitActivation? ==> w.running.attempt in w.sent
    ensures WorldInv(DriveStep(w, c))
  {
    hide Inv, ProgressFits, SecretsFit, SentFit, RepliesFit, Advanced, Delivered, Received, Answered;
    if w.running.AwaitRotation? || w.running.AwaitActivation? {
      assert w.running.attempt in w.sent;
      hide WorldInv;
      ExchangeKeepsInv(w, w.running.attempt, c);
    } else {
      hide WorldInv;
      KeepWork(w, c.attempt);
    }
  }

  lemma ExchangeKeepsInv(w: World, attempt: nat, c: Choice)
    requires WorldInv(w) && ChoiceOk(w, c) && attempt in w.sent
    requires w.running == AwaitRotation(attempt) || w.running == AwaitActivation(attempt)
    ensures WorldInv(Received(Delivered(w, attempt, c.drawn), Answered(w, w.sent[attempt], c.drawn).reply))
  {
    hide WorldInv, Received, Answered;
    KeepNext(w, Deliver(attempt, c.drawn));
    var reply := Answered(w, w.sent[attempt], c.drawn).reply;
    KeepReceived(Delivered(w, attempt, c.drawn), attempt, reply);
  }

  /** The active credential can still authenticate. */
  ghost predicate Usable(w: World) {
    w.identity.active in w.server.credentials && w.server.credentials[w.identity.active].expires > w.now
  }

  /** Nothing is on record for the rotation key, or its reply can still be replayed. */
  ghost predicate Obtainable(w: World) {
    var scope := RotateScope(w.agent, w.identity.rotationKey);
    scope in w.server.records ==> w.server.records[scope].replayUntil.Some? && w.server.records[scope].replayUntil.value > w.now
  }

  /** The rotation still waits and has not expired, or it is activated and its credential has not. */
  ghost predicate Activatable(w: World, rotation: nat, credential: nat) {
    && rotation in w.server.rotations && credential in w.server.credentials
    && if w.server.rotations[rotation].phase == RotationPhase.Activated then w.server.credentials[credential].expires > w.now
       else w.server.rotations[rotation].expires > w.now
  }

  /** The condition under which one uninterrupted rotate() completes. */
  ghost predicate CanFinish(w: World) {
    match w.identity.progress
    case NoRotation => Usable(w)
    case Requested => Usable(w) && Obtainable(w)
    case PendingStored | ActivationUncertain =>
      w.identity.rotation.Some? && w.identity.pending.Some? && Activatable(w, w.identity.rotation.value, w.identity.pending.value)
    case LocallyActivated => true
  }

  /** The same condition, at every point of a running rotate(). */
  ghost predicate Fine(w: World) {
    match w.running
    case Stopped => w.identity.progress == NoRotation
    case ToRequest | AwaitRotation(_) => Usable(w) && Obtainable(w)
    case GotRotation(r, c) => Activatable(w, r, c)
    case SecretStored(r, c) => Activatable(w, r, c)
    case ToActivate | ToSendActivation | AwaitActivation(_) =>
      w.identity.rotation.Some? && w.identity.pending.Some? && Activatable(w, w.identity.rotation.value, w.identity.pending.value)
    case GotActivation | ToForget | Forgotten => true
  }

  /** The reference that rotation is to retire. */
  ghost function Retiring(w: World): Option<Ref> {
    if w.identity.progress == LocallyActivated then w.identity.previous else Some(w.identity.activeRef)
  }

  /** How many steps a running rotate() has left at most. */
  function StepsLeft(running: Running): nat {
    match running
    case Stopped => 0
    case ToRequest => 10
    case AwaitRotation(_) => 9
    case GotRotation(_, _) => 8
    case SecretStored(_, _) => 7
    case ToActivate => 6
    case ToSendActivation => 5
    case AwaitActivation(_) => 4
    case GotActivation => 3
    case ToForget => 2
    case Forgotten => 1
  }

  ghost predicate StepAgrees(w: World, t: World) {
    && StepsLeft(t.running) < StepsLeft(w.running)
    && (Fine(t) <==> Fine(w))
    && (Fine(w) && !t.running.Stopped? ==> Retiring(t) == Retiring(w))
    && (Fine(w) && t.running.Stopped? ==> Retiring(w).Some? && Retiring(w).value !in t.secrets)
  }

  lemma RequestStep(w: World, c: Choice)
    requires WorldInv(w) && w.running.ToRequest?
    ensures StepAgrees(w, Advanced(w, c.attempt))
  {
    hide Inv, ProgressFits, SentFit, RepliesFit;
  }

  lemma RotationExchange(w: World, c: Choice)
    requires WorldInv(w) && Unused(w.server, c.drawn) && w.running.AwaitRotation?
    ensures w.running.attempt in w.sent && StepAgrees(w, DriveStep(w, c))
  {
    if RotateScope(w.agent, w.identity.rotationKey) in w.server.records {
      var r, d :| RequestedAs(w, r, d);
      hide Inv, ProgressFits, SecretsFit, SentFit, RepliesFit, StepAgrees, DriveStep;
      KnownExchange(w, c, r, d);
    } else {
      assert ActiveFor(w.server, w.agent, w.identity.active) && NoneWaiting(w);
      hide Inv, ProgressFits, SecretsFit, SentFit, RepliesFit, StepAgrees, DriveStep;
      NewExchange(w, c);
    }
  }

  lemma NewExchange(w: World, c: Choice)
    requires Inv(w.server) && w.agent in w.server.agents && w.server.agents[w.agent].active && Unused(w.server, c.drawn)
    requires w.running.AwaitRotation? && w.running.attempt in w.sent && w.identity.progress == Requested && NoneWaiting(w)
    requires w.sent[w.running.attempt] == RequestRotation(w.agent, w.identity.active, w.identity.rotationKey)
    requires RotateScope(w.agent, w.identity.rotationKey) !in w.server.records && ActiveFor(w.server, w.agent, w.identity.active)
    ensures StepAgrees(w, DriveStep(w, c))
  {
    AnswerNew(w, w.sent[w.running.attempt], c.drawn);
    hide Inv, Highest, Answered;
  }

  lemma KnownExchange(w: World, c: Choice, r: nat, d: nat)
    requires WorldInv(w) && w.running.AwaitRotation? && w.running.attempt in w.sent && RequestedAs(w, r, d)
    requires w.sent[w.running.attempt] == RequestRotation(w.agent, w.identity.active, w.identity.rotationKey)
    ensures StepAgrees(w, DriveStep(w, c))
  {
    hide Inv, ProgressFits, SecretsFit, SentFit, RepliesFit;
  }

  lemma SecretStep(w: World, c: Choice)
    requires WorldInv(w) && (w.running.GotRotation? || w.running.SecretStored?)
    ensures StepAgrees(w, Advanced(w, c.attempt))
  {
    hide Inv, ProgressFits, SentFit, RepliesFit;
  }

  lemma PendingStep(w: World, c: Choice)
    requires WorldInv(w) && (w.running.ToActivate? || w.running.ToSendActivation?)
    ensures StepAgrees(w, Advanced(w, c.attempt))
  {
    hide Inv, SentFit, RepliesFit;
  }

  lemma ActivationExchange(w: World, c: Choice)
    requires WorldInv(w) && Unused(w.server, c.drawn) && w.running.AwaitActivation?
    ensures w.running.attempt in w.sent && StepAgrees(w, DriveStep(w, c))
  {
    var r, d := w.identity.rotation.value, w.identity.pending.value;
    var scope := ActivateScope(w.agent, r, w.identity.activationKey);
    ActivationStands(w);
    assert CredentialsOk(w.server);
    hide Inv, ProgressFits, SecretsFit, SentFit, RepliesFit, RecordOk, Open, Closed, DriveStep, StepAgrees, ChoiceOk;
    if scope in w.server.records {
      ClosedExchange(w, c, r, d);
    } else {
      OpenExchange(w, c, r, d);
    }
  }

  lemma ActivationStands(w: World)
    requires Inv(w.server) && ProgressFits(w) && w.identity.progress == ActivationUncertain
    ensures var r, d := w.identity.rotation.value, w.identity.pending.value;
            var scope := ActivateScope(w.agent, r, w.identity.activationKey);
            if scope in w.server.records then
              Closed(w, r, d) && var record := w.server.records[scope];
              record.fingerprint == FINGERPRINT && record.phase == Completed && record.body.Some?
            else Open(w, r, d)
  {
    var scope := ActivateScope(w.agent, w.identity.rotation.value, w.identity.activationKey);
    assert scope in w.server.records ==> RecordOk(w.server, scope);
    hide Inv;
  }

  lemma ClosedExchange(w: World, c: Choice, r: nat, d: nat)
    requires w.running.AwaitActivation? && w.running.attempt in w.sent && w.identity.progress == ActivationUncertain
    requires w.identity.rotation == Some(r) && w.identity.pending == Some(d)
    requires w.sent[w.running.attempt] == RequestActivation(w.agent, d, r, w.identity.activationKey)
    requires Closed(w, r, d) && w.agent in w.server.agents && w.server.agents[w.agent].active
    requires var record := w.server.records[ActivateScope(w.agent, r, w.identity.activationKey)];
             record.fingerprint == FINGERPRINT && record.phase == Completed && record.body.Some?
    ensures StepAgrees(w, DriveStep(w, c))
  {
  }

  lemma OpenExchange(w: World, c: Choice, r: nat, d: nat)
    requires w.running.AwaitActivation? && w.running.attempt in w.sent && w.identity.progress == ActivationUncertain
    requires w.identity.rotation == Some(r) && w.identity.pending == Some(d)
    requires w.sent[w.running.attempt] == RequestActivation(w.agent, d, r, w.identity.activationKey)
    requires Open(w, r, d) && w.agent in w.server.agents && w.server.agents[w.agent].active
    requires ActivateScope(w.agent, r, w.identity.activationKey) !in w.server.records
    requires CredentialsOk(w.server)
    ensures StepAgrees(w, DriveStep(w, c))
  {
  }

  lemma LocalStep(w: World, c: Choice)
    requires WorldInv(w) && (w.running.GotActivation? || w.running.ToForget? || w.running.Forgotten?)
    ensures StepAgrees(w, Advanced(w, c.attempt))
  {
    hide Inv, SentFit, RepliesFit;
  }

  lemma DriveAgrees(w: World, c: Choice)
    requires WorldInv(w) && ChoiceOk(w, c) && !w.running.Stopped?
    ensures w.running.AwaitRotation? || w.running.AwaitActivation? ==> w.running.attempt in w.sent
    ensures StepAgrees(w, DriveStep(w, c))
  {
    hide WorldInv, StepAgrees, Advanced, Delivered, Received, Answered, KeysFresh;
    match w.running
    case ToRequest => RequestStep(w, c);
    case AwaitRotation(_) => RotationExchange(w, c);
    case GotRotation(_, _) => SecretStep(w, c);
    case SecretStored(_, _) => SecretStep(w, c);
    case ToActivate => PendingStep(w, c);
    case ToSendActivation => PendingStep(w, c);
    case AwaitActivation(_) => ActivationExchange(w, c);
    case _ => LocalStep(w, c);
  }

  lemma {:induction false} DriveEnds(w: World, choices: seq<Choice>, t: World)
    requires WorldInv(w) && Drives(w, choices, t) && !w.running.Stopped?
    ensures WorldInv(t) && t.running.Stopped? && |choices| <= StepsLeft(w.running)
    ensures t.identity.progress == NoRotation <==> Fine(w)
    ensures Fine(w) ==> Retiring(w).Some? && Retiring(w).value !in t.secrets
    decreases |choices|
  {
    hide WorldInv, DriveStep, ChoiceOk, Fine, Retiring;
    DriveKeepsInv(w, choices[0]);
    DriveAgrees(w, choices[0]);
    var next := DriveStep(w, choices[0]);
    if next.running.Stopped? {
      assert choices[1..] == [] && t == next;
      StoppedFine(next);
    } else {
      DriveEnds(next, choices[1..], t);
    }
  }

  lemma StoppedFine(w: World)
    requires w.running.Stopped?
    ensures Fine(w) <==> w.identity.progress == NoRotation
  {
  }

  lemma StartFine(w: World, key: nat, activationKey: nat)
    requires WorldInv(w) && Possible(w, Start(key, activationKey))
    ensures Fine(Begun(w, key, activationKey)) <==> CanFinish(w)
    ensures Retiring(Begun(w, key, activationKey)) == Retiring(w) && !Begun(w, key, activationKey).running.Stopped?
  {
    hide Inv, SentFit, RepliesFit;
  }

  /** From wherever the client was stopped, one uninterrupted rotate() ends within ten steps, and it ends
      with no rotation in progress exactly when the guards can still pass: the active credential, the
      replay window and the rotation have not expired.  Then the client's active credential is the
      server's, its secret is held, and the secret it replaces is gone. */
  lemma UninterruptedRotate(w: World, key: nat, activationKey: nat, choices: seq<Choice>, t: World)
    requires WorldInv(w) && Possible(w, Start(key, activationKey))
    requires WorldInv(Begun(w, key, activationKey)) && Drives(Begun(w, key, activationKey), choices, t)
    ensures t.identity.progress == NoRotation <==> CanFinish(w)
    ensures CanFinish(w) ==>
              && ActiveFor(t.server, t.agent, t.identity.active)
              && t.identity.activeRef in t.secrets && t.secrets[t.identity.activeRef] == t.identity.active
              && Retiring(w).Some? && Retiring(w).value !in t.secrets
              && (forall r :: !WaitingFor(t.server, t.agent, r))
  {
    hide WorldInv, Drives, CanFinish, Fine, Begun, Possible;
    StartFine(w, key, activationKey);
    DriveEnds(Begun(w, key, activationKey), choices, t);
    AtRest(t);
  }

  lemma AtRest(w: World)
    requires WorldInv(w)
    ensures w.identity.progress == NoRotation ==>
              && ActiveFor(w.server, w.agent, w.identity.active)
              && w.identity.activeRef in w.secrets && w.secrets[w.identity.activeRef] == w.identity.active
              && (forall r :: !WaitingFor(w.server, w.agent, r))
  {
    hide Inv, SentFit, RepliesFit, RunningFits;
  }

  /* When it never can again. */

  /** The reply to the client's rotation request can no longer be replayed. */
  ghost predicate Stranded(w: World) {
    && WorldInv(w) && w.identity.progress == Requested
    && RotateScope(w.agent, w.identity.rotationKey) in w.server.records && !Obtainable(w)
    && (w.running.Stopped? || w.running.ToRequest? || w.running.AwaitRotation?)
    && (w.running.AwaitRotation? ==> forall p | p in w.replies && p.0 == w.running.attempt :: !p.1.Ok?)
  }

  lemma StrandedStays(w: World, e: Event)
    requires Stranded(w) && Possible(w, e)
    ensures Stranded(Next(w, e)) && Next(w, e).identity == w.identity
  {
    KeepNext(w, e);
    assert RecordOk(w.server, RotateScope(w.agent, w.identity.rotationKey));
    hide WorldInv, RecordOk, Advanced, Delivered, KeysFresh;
    match e
    case Deliver(attempt, drawn) => StrandedDelivery(w, attempt, drawn);
    case Work(attempt) => StrandedWork(w, attempt);
    case _ => StrandedQuietly(w, e);
  }

  /** Starting again, a reply, a crash or the passing of time. */
  lemma StrandedQuietly(w: World, e: Event)
    requires Stranded(w) && Possible(w, e) && !e.Deliver? && !e.Work?
    ensures var t := Next(w, e);
            && t.identity == w.identity && t.server == w.server && t.replies == w.replies && t.agent == w.agent && t.now >= w.now
            && (t.running == w.running || t.running.Stopped? || t.running.ToRequest?)
  {
    hide WorldInv, KeysFresh;
  }

  lemma StrandedWork(w: World, attempt: nat)
    requires Stranded(w) && Possible(w, Work(attempt))
    ensures var t := Advanced(w, attempt);
            && t.identity == w.identity && t.server == w.server && t.replies == w.replies && t.agent == w.agent && t.now == w.now
            && (t.running.Stopped? || t.running == w.running
                || (t.running == AwaitRotation(attempt) && forall p | p in w.replies :: p.0 != attempt))
  {
    hide WorldInv;
    if w.running.ToRequest? {
      forall p | p in w.replies ensures p.0 != attempt {
        assert (p.0, p.1) in w.replies;
      }
    }
  }

  lemma AnswerKeepsRecord(w: World, q: Request, drawn: Drawn, scope: Scope)
    requires scope in w.server.records && (q.RequestRotation? || q.RequestActivation?)
    ensures var t := Answered(w, q, drawn).tables; scope in t.records && t.records[scope] == w.server.records[scope]
  {
    RecordStays(w.server, Call(q, drawn, w.now), scope);
    hide CreateRotation, ActivateRotation;
  }

  lemma RefusedForGood(w: World, drawn: Drawn)
    requires RotateScope(w.agent, w.identity.rotationKey) in w.server.records && !Obtainable(w)
    requires RecordOk(w.server, RotateScope(w.agent, w.identity.rotationKey))
    ensures !Answered(w, RequestRotation(w.agent, w.identity.active, w.identity.rotationKey), drawn).reply.Ok?
  {
    hide Expire;
  }

  lemma StrandedDelivery(w: World, attempt: nat, drawn: Drawn)
    requires Stranded(w) && Possible(w, Deliver(attempt, drawn))
    requires RecordOk(w.server, RotateScope(w.agent, w.identity.rotationKey))
    ensures var t := Delivered(w, attempt, drawn);
            && t.identity == w.identity && t.running == w.running && t.agent == w.agent && t.now == w.now
            && RotateScope(w.agent, w.identity.rotationKey) in t.server.records && !Obtainable(t)
            && (w.running == AwaitRotation(attempt) ==> forall p | p in t.replies && p.0 == attempt :: !p.1.Ok?)
            && (w.running != AwaitRotation(attempt) ==> forall p | p in t.replies && p.0 != attempt :: p in w.replies)
  {
    OnlyOurRequests(w, attempt);
    assert w.running == AwaitRotation(attempt) ==> w.sent[attempt] == RequestRotation(w.agent, w.identity.active, w.identity.rotationKey);
    hide WorldInv, Answered, RecordOk;
    AnswerKeepsRecord(w, w.sent[attempt], drawn, RotateScope(w.agent, w.identity.rotationKey));
    RefusedForGood(w, drawn);
  }

  /** Once the replay window of a rotation request is over and its reply was never received, no number of
      retries ever completes that rotation, and the client never asks for another: it keeps the
      credential it has until an administrator steps in. */
  lemma {:induction false} StrandedForever(w: World, events: seq<Event>)
    requires Stranded(w) && PossibleRun(w, events)
    ensures Play(w, events).identity == w.identity && Stranded(Play(w, events))
    decreases |events|
  {
    hide Stranded, Next, Possible;
    if events != [] {
      StrandedStays(w, events[0]);
      StrandedForever(Next(w, events[0]), events[1..]);
    }
  }

  /** The events of a rotation whose reply never arrives: asked for, granted, not heard of, and not asked
      for again until the window is over. */
  function LostReply(key: nat, activationKey: nat, attempt: nat, drawn: Drawn): (events: seq<Event>) {
    [Start(key, activationKey), Work(attempt), Deliver(attempt, drawn), Crash, Pass(WINDOW)]
  }

  /** Every freshly enrolled agent whose credential is not expired can get there. */
  lemma LostReplyStrands(w: World, key: nat, activationKey: nat, attempt: nat, drawn: Drawn)
    requires Initial(w) && Possible(w, Start(key, activationKey)) && Unused(w.server, drawn) && Usable(w)
    ensures PossibleRun(w, LostReply(key, activationKey, attempt, drawn))
    ensures Stranded(Play(w, LostReply(key, activationKey, attempt, drawn)))
  {
    hide WorldInv, Stranded, Next, Possible, Initial;
    InitialWorld(w);
    var a := Next(w, Start(key, activationKey));
    KeepNext(w, Start(key, activationKey));
    Asked(w, key, activationKey, attempt);
    var b := Next(a, Work(attempt));
    KeepNext(a, Work(attempt));
    Granted(w, b, key, attempt, drawn);
    var c := Next(b, Deliver(attempt, drawn));
    KeepNext(b, Deliver(attempt, drawn));
    Interrupted(c);
    var d := Next(c, Crash);
    KeepNext(c, Crash);
    var e := Next(d, Pass(WINDOW));
    KeepNext(d, Pass(WINDOW));
    TooLate(c, e, key);
    FiveEvents(w, Start(key, activationKey), Work(attempt), Deliver(attempt, drawn), Crash, Pass(WINDOW));
  }

  /** A new rotation is begun and its request sent. */
  lemma Asked(w: World, key: nat, activationKey: nat, attempt: nat)
    requires Initial(w) && Possible(w, Start(key, activationKey)) && Usable(w)
    ensures Possible(Next(w, Start(key, activationKey)), Work(attempt))
    ensures var b := Next(Next(w, Start(key, activationKey)), Work(attempt));
            && b.server == w.server && b.agent == w.agent && attempt in b.sent && b.sent[attempt] == RequestRotation(b.agent, b.identity.active, key)
            && RotateScope(b.agent, key) !in b.server.records && b.identity.rotationKey == key && b.identity.progress == Requested
            && NoneWaiting(b) && ActiveFor(b.server, b.agent, b.identity.active) && Usable(b)
  {
    hide Inv;
  }

  lemma Interrupted(c: World)
    ensures Possible(c, Crash)
    ensures var d := Next(c, Crash);
            d == c.(running := Stopped) && Possible(d, Pass(WINDOW)) && Next(d, Pass(WINDOW)) == d.(now := d.now + WINDOW)
  {
  }

  lemma FiveEvents(w: World, p: Event, q: Event, r: Event, t: Event, u: Event)
    requires Possible(w, p) && Possible(Next(w, p), q) && Possible(Next(Next(w, p), q), r)
    requires Possible(Next(Next(Next(w, p), q), r), t) && Possible(Next(Next(Next(Next(w, p), q), r), t), u)
    ensures PossibleRun(w, [p, q, r, t, u]) && Play(w, [p, q, r, t, u]) == Next(Next(Next(Next(Next(w, p), q), r), t), u)
  {
    hide Next, Possible;
    var a := Next(w, p);
    var b := Next(a, q);
    var c := Next(b, r);
    var d := Next(c, t);
    assert [p, q, r, t, u][1..] == [q, r, t, u] && [q, r, t, u][1..] == [r, t, u] && [r, t, u][1..] == [t, u] && [t, u][1..] == [u] && [u][1..] == [];
    var e := Next(d, u);
    assert PossibleRun(e, []) && Play(e, []) == e;
    assert PossibleRun(d, [u]) && Play(d, [u]) == Next(d, u);
    assert PossibleRun(c, [t, u]) && Play(c, [t, u]) == Next(d, u);
    assert PossibleRun(b, [r, t, u]) && Play(b, [r, t, u]) == Next(d, u);
    assert PossibleRun(a, [q, r, t, u]) && Play(a, [q, r, t, u]) == Next(d, u);
  }

  /** The request is granted; the record says until when its reply can be replayed. */
  lemma Granted(w: World, b: World, key: nat, attempt: nat, drawn: Drawn)
    requires WorldInv(b) && Unused(w.server, drawn) && NoneWaiting(b) && ActiveFor(b.server, b.agent, b.identity.active) && Usable(b)
    requires b.server == w.server && b.agent == w.agent && attempt in b.sent && b.sent[attempt] == RequestRotation(b.agent, b.identity.active, key)
    requires RotateScope(b.agent, key) !in b.server.records && b.identity.rotationKey == key && b.identity.progress == Requested
    ensures Possible(b, Deliver(attempt, drawn))
    ensures var c := Next(b, Deliver(attempt, drawn));
            && c.identity == b.identity && c.now == b.now && c.agent == b.agent
            && RotateScope(c.agent, key) in c.server.records && c.server.records[RotateScope(c.agent, key)].replayUntil == Some(c.now + WINDOW)
  {
    AnswerNew(b, b.sent[attempt], drawn);
    hide Inv, WorldInv, Highest, Answered;
  }

  lemma TooLate(c: World, e: World, key: nat)
    requires WorldInv(e) && e == c.(running := Stopped, now := c.now + WINDOW)
    requires c.identity.progress == Requested && c.identity.rotationKey == key && RotateScope(c.agent, key) in c.server.records
    requires c.server.records[RotateScope(c.agent, key)].replayUntil == Some(c.now + WINDOW)
    ensures Stranded(e)
  {
    hide WorldInv;
  }

  /** An agent that has just been enrolled. */
  lemma SomeInitial() returns (w: World)
    ensures Initial(w) && Possible(w, Start(6, 7)) && Usable(w) && Unused(w.server, Drawn(2, 12, 21))
  {
    var server := Tables(map[1 := Agent(true, 5)], map[11 := Credential(1, 1, Active, 1000)], map[], map[], map[]);
    var ref := ActiveRef(11);
    w := World(1, server, Identity(NoRotation, 0, 0, 11, ref, None, None, None), map[ref := 11], Stopped, map[], {}, 0);
    EmptyKeys(w);
    hide Possible;
  }

  /** So the stranded state is reached from an initial one. */
  lemma StrandedReached()
    ensures exists w, events :: Initial(w) && PossibleRun(w, events) && Stranded(Play(w, events))
  {
    hide Possible, PossibleRun, Play, Stranded, Initial;
    var w := SomeInitial();
    LostReplyStrands(w, 6, 7, 0, Drawn(2, 12, 21));
    assert Stranded(Play(w, LostReply(6, 7, 0, Drawn(2, 12, 21))));
  }

  lemma EmptyKeys(w: World)
    requires w.running.Stopped? && w.server.records == map[] && w.sent == map[]
    ensures Possible(w, Start(6, 7))
  {
  }
}
