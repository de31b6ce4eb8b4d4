/** The client's rotate(), statement by statement, against the server's service: every call, however it
    is cut short, is a run of the rotation protocol, and one that nothing cuts short completes exactly
    when the protocol can. */
module IdentityManager {
  import opened Options
  import opened CredentialState
  import opened CredentialSafety
  import opened CredentialService
  import opened RotationProtocol
  import opened RotationConvergence

  lemma {:induction false} PlayAppend(w: World, events: seq<Event>, e: Event)
    requires PossibleRun(w, events) && Possible(Play(w, events), e)
    ensures PossibleRun(w, events + [e]) && Play(w, events + [e]) == Next(Play(w, events), e)
    decreases |events|
  {
    hide Possible, Next;
    if events == [] {
      assert [] + [e] == [e] && [e][1..] == [];
    } else {
      assert (events + [e])[1..] == events[1..] + [e];
      PlayAppend(Next(w, events[0]), events[1..], e);
    }
  }

  /** One request and its reply: the attempt number, what the server draws, and what the network loses. */
  datatype Exchange = Exchange(attempt: nat, drawn: Drawn, arrives: bool, answered: bool)

  /** How a part of rotate() ends: it goes on, it raises an error of its own, or it is cut short by a crash
      or a lost message. */
  datatype Ending = Went | Raised | Cut

  /** How many of its durable writes, in their order, a part of rotate() made. */
  function WritesMade(ending: Ending, power: nat, all: nat): nat {
    match ending
    case Went => all
    case Raised => 0
    case Cut => power
  }

  class Manager {
    const agent: nat
    var progress: Progress
    var rotationKey: nat
    var activationKey: nat
    var active: nat
    var activeRef: Ref
    var pending: Option<nat>
    var rotation: Option<nat>
    var previous: Option<Ref>
    var secrets: map<Ref, nat>
    var now: nat
    /** How many durable writes the client makes before it crashes. */
    var power: nat
    ghost var running: Running
    ghost var sent: map<nat, Request>
    ghost var replies: set<(nat, Reply)>
    ghost var origin: World
    ghost var history: seq<Event>

    ghost function Id(): Identity
      reads this
    {
      Identity(progress, rotationKey, activationKey, active, activeRef, pending, rotation, previous)
    }

    ghost function Now(service: Service): World
      reads this, service
    {
      World(agent, service.Store(), Id(), secrets, running, sent, replies, now)
    }

    /** The world is one that the protocol reaches from a freshly enrolled agent. */
    ghost predicate Valid(service: Service)
      reads this, service
    {
      Initial(origin) && PossibleRun(origin, history) && Now(service) == Play(origin, history)
    }

    lemma Invariant(service: Service)
      requires Valid(service)
      ensures WorldInv(Now(service))
    {
      hide Initial, PossibleRun, Play, WorldInv;
      InitialWorld(origin);
      KeepPlay(origin, history);
    }

    lemma Serviceable(service: Service)
      requires Valid(service)
      ensures Inv(service.Store())
    {
      Invariant(service);
    }

    constructor (agent: nat, credential: nat, service: Service)
      requires Inv(service.Store()) && agent in service.agents && service.agents[agent].active
      requires ActiveFor(service.Store(), agent, credential)
      requires forall r | r in service.rotations :: service.rotations[r].agent != agent
      ensures Valid(service) && progress == NoRotation && active == credential && running.Stopped?
    {
      this.agent, progress, rotationKey, activationKey := agent, NoRotation, 0, 0;
      active, activeRef, pending, rotation, previous := credential, ActiveRef(credential), None, None, None;
      secrets, now, power := map[ActiveRef(credential) := credential], 0, 0;
      running, sent, replies, history := Stopped, map[], {}, [];
      origin := World(agent, service.Store(),
                      Identity(NoRotation, 0, 0, credential, ActiveRef(credential), None, None, None),
                      map[ActiveRef(credential) := credential], Stopped, map[], {}, 0);
    }

    /** The next call has power of its own. */
    method Resume(service: Service, budget: nat)
      requires Valid(service) && this as object != service
      modifies `power
      ensures Valid(service) && Now(service) == old(Now(service)) && power == budget
    {
      power := budget;
    }

    /** The event of this step is added to the history. */
    ghost method Record(service: Service, e: Event, was: World)
      requires Initial(origin) && PossibleRun(origin, history) && was == Play(origin, history)
      requires Possible(was, e) && Now(service) == Next(was, e)
      modifies `history
      ensures Valid(service) && Now(service) == old(Now(service))
    {
      hide Initial, Possible, Next;
      PlayAppend(origin, history, e);
      history := history + [e];
    }

    /* The world around the client. */

    method Tick(service: Service, minutes: nat)
      requires Valid(service) && this as object != service
      modifies this
      ensures Valid(service) && now == old(now) + minutes && service.Store() == old(service.Store())
    {
      hide Initial, PossibleRun, Play;
      ghost var was := Now(service);
      now := now + minutes;
      Record(service, Pass(minutes), was);
    }

    /** A request arrives, once or again, with or without anybody waiting for the answer. */
    method Arrive(service: Service, attempt: nat, request: Request, drawn: Drawn) returns (reply: Reply)
      requires Valid(service) && this as object != service
      requires attempt in sent && sent[attempt] == request && Unused(service.Store(), drawn)
      modifies `replies, `history, service
      ensures Valid(service) && Now(service) == Delivered(old(Now(service)), attempt, drawn)
      ensures reply == Answered(old(Now(service)), request, drawn).reply && replies == old(replies) + {(attempt, reply)}
    {
      hide Initial, PossibleRun, Play, Authenticates, CredentialState.CreateRotation, CredentialState.ActivateRotation, Inv;
      Serviceable(service);
      ghost var was := Now(service);
      match request {
        case RequestRotation(a, credential, key) =>
          SentIsOurs(service, attempt);
          if Authenticates(service.Store(), credential, false, now) {
            reply := service.CreateRotation(a, credential, key, drawn, now);
          } else {
            reply := Err(AuthenticationError);
          }
        case RequestActivation(a, credential, r, key) =>
          if Authenticates(service.Store(), credential, true, now) {
            reply := service.ActivateRotation(a, credential, r, key, now);
          } else {
            reply := Err(AuthenticationError);
          }
        case _ => reply := Err(AuthenticationError);
      }
      replies := replies + {(attempt, reply)};
      Record(service, Deliver(attempt, drawn), was);
    }

    lemma SentIsOurs(service: Service, attempt: nat)
      requires Valid(service) && attempt in sent && sent[attempt].RequestRotation?
      ensures var q := sent[attempt]; q.active in service.credentials && service.credentials[q.active].agent == q.agent
    {
      Invariant(service);
      assert RequestFits(Now(service), sent[attempt]);
    }

    /* rotate() */

    /** One durable write of the client, unless it crashes first. */
    method Alive(service: Service) returns (alive: bool)
      requires Valid(service) && this as object != service
      modifies `power, `running, `history
      ensures Valid(service)
      ensures if alive then old(power) > 0 && power == old(power) - 1 && Now(service) == old(Now(service))
              else old(power) == 0 && running.Stopped?
    {
      hide Initial, PossibleRun, Play;
      if power == 0 {
        ghost var was := Now(service);
        running := Stopped;
        Record(service, Crash, was);
        return false;
      }
      power := power - 1;
      return true;
    }

    /** A message or a reply of the exchange is lost: waiting for it ends in a timeout. */
    method Lose(service: Service)
      requires Valid(service) && this as object != service
      modifies `running, `history
      ensures Valid(service) && running.Stopped?
    {
      hide Initial, PossibleRun, Play;
      ghost var was := Now(service);
      running := Stopped;
      Record(service, Crash, was);
    }

    /** What is drawn for an exchange has not been used before. */
    ghost predicate Unspent(service: Service, x: Exchange)
      reads this, service
    {
      x.attempt !in sent && (forall reply :: (x.attempt, reply) !in replies) && Unused(service.Store(), x.drawn)
    }

    /** Wait for the reply to a request that has been sent. */
    method Await(service: Service, x: Exchange, request: Request) returns (uninterrupted: bool, reply: Reply)
      requires Valid(service) && this as object != service
      requires running == AwaitRotation(x.attempt) || running == AwaitActivation(x.attempt)
      requires x.attempt in sent && sent[x.attempt] == request && Unused(service.Store(), x.drawn)
      modifies `running, `replies, `history, service
      ensures Valid(service)
      ensures if uninterrupted then
                && (Fine(Now(service)) <==> old(Fine(Now(service))))
                && (running.Stopped? <==> !reply.Ok? || (old(running.AwaitRotation?) && !reply.body.RotationBody?))
                && (!running.Stopped? ==>
                      running == if old(running.AwaitRotation?) then GotRotation(reply.body.rotation, reply.body.credential) else GotActivation)
              else running.Stopped? && !(x.arrives && x.answered)
      ensures SpentOnly(old(Now(service)), Now(service), x)
    {
      hide Initial, PossibleRun, Play, WorldInv, Inv, Fine, Answered;
      ghost var w, c := Now(service), Choice(x.attempt, x.drawn);
      Invariant(service);
      ExchangeAgrees(w, c);
      if !x.arrives {
        Lose(service);
        return false, Err(AuthenticationError);
      }
      reply := Arrive(service, x.attempt, request, x.drawn);
      AnswerKeys(w, request, x.drawn);
      if !x.answered {
        Lose(service);
        return false, reply;
      }
      ghost var arrived := Now(service);
      if running.AwaitRotation? {
        running := if reply.Ok? && reply.body.RotationBody? then GotRotation(reply.body.rotation, reply.body.credential) else Stopped;
      } else {
        running := if reply.Ok? then GotActivation else Stopped;
      }
      Record(service, Receive(x.attempt, reply), arrived);
      return true, reply;
    }

    /** A part of rotate() kept the condition for completing, as far as it was not cut short. */
    ghost predicate Agrees(service: Service, was: World, ending: Ending)
      requires WorldInv(was)
      reads this, service
    {
      && Valid(service)
      && (ending != Cut ==> (Fine(Now(service)) <==> Fine(was)))
      && (ending != Went ==> running.Stopped?)
    }

    method Send(service: Service, x: Exchange, request: Request, ghost waiting: Running)
      requires Valid(service) && this as object != service && Unspent(service, x)
      requires Advanced(Now(service), x.attempt) == Now(service).(running := waiting, sent := sent[x.attempt := request])
      modifies `running, `sent, `history
      ensures Valid(service) && running == waiting && sent == old(sent)[x.attempt := request]
      ensures Now(service) == Advanced(old(Now(service)), x.attempt)
    {
      hide Initial, PossibleRun, Play, Advanced;
      ghost var w := Now(service);
      running, sent := waiting, sent[x.attempt := request];
      Record(service, Work(x.attempt), w);
    }

    /** The next step of rotate() raises: a secret is missing or is not the one expected. */
    method Raise(service: Service)
      requires Valid(service) && this as object != service
      requires Advanced(Now(service), 0) == Now(service).(running := Stopped)
      requires !running.ToRequest? && !running.ToSendActivation?
      modifies `running, `history
      ensures Valid(service) && Now(service) == Advanced(old(Now(service)), 0)
    {
      hide Initial, PossibleRun, Play, Advanced;
      ghost var w := Now(service);
      running := Stopped;
      Record(service, Work(0), w);
    }

    /** Send the rotation request with the active credential, and wait. */
    method RequestRotation(service: Service, x: Exchange) returns (ending: Ending, granted: Body)
      requires Valid(service) && this as object != service && running.ToRequest? && Unspent(service, x)
      modifies `running, `sent, `replies, `history, service
      ensures old(WorldInv(Now(service))) && Agrees(service, old(Now(service)), ending)
      ensures ending.Went? ==> granted.RotationBody? && running == GotRotation(granted.rotation, granted.credential)
      ensures ending.Cut? ==> !(x.arrives && x.answered)
      ensures SpentOnly(old(Now(service)), Now(service), x)
    {
      hide Initial, PossibleRun, Play, WorldInv, Fine, KeysFresh, Unused;
      ghost var w := Now(service);
      Invariant(service);
      RequestAgrees(w, x.attempt);
      granted := RotationBody(0, 0);
      if activeRef !in secrets || secrets[activeRef] != active {
        running := Stopped;
        Record(service, Work(x.attempt), w);
        return Raised, granted;
      }
      var request := Request.RequestRotation(agent, active, rotationKey);
      Send(service, x, request, AwaitRotation(x.attempt));
      var uninterrupted, reply := Await(service, x, request);
      if !uninterrupted {
        return Cut, granted;
      }
      if !reply.Ok? || !reply.body.RotationBody? {
        return Raised, granted;
      }
      return Went, reply.body;
    }

    /** Store the pending secret, unless the reference holds a different value, and then the pending
        credential's identity: a crash between the two leaves the secret without the identity, never the
        identity without the secret. */
    method StorePending(service: Service, rotationId: nat, credential: nat) returns (ending: Ending)
      requires Valid(service) && this as object != service && running == GotRotation(rotationId, credential)
      modifies `secrets, `pending, `rotation, `progress, `running, `power, `history
      ensures old(WorldInv(Now(service))) && Agrees(service, old(Now(service)), ending)
      ensures ending.Went? ==> running.ToActivate? && progress == PendingStored && power == old(power) - 2
      ensures ending.Cut? ==> old(power) < 2
      ensures ending.Raised? ==> PendingRef(credential) in secrets && secrets[PendingRef(credential)] != credential
      ensures var n := WritesMade(ending, old(power), 2);
              && secrets == (if n >= 1 then old(secrets)[PendingRef(credential) := credential] else old(secrets))
              && Id() == if n == 2 then old(Id()).(pending := Some(credential), rotation := Some(rotationId), progress := PendingStored) else old(Id())
    {
      hide Initial, PossibleRun, Play, WorldInv, Fine;
      Invariant(service);
      ghost var w := Now(service);
      LocalAgrees(w);
      var alive := Alive(service);
      if !alive { return Cut; }
      if PendingRef(credential) in secrets && secrets[PendingRef(credential)] != credential {
        Raise(service);
        return Raised;
      }
      PutPending(service, rotationId, credential);
      ending := StoreIdentity(service, rotationId, credential);
    }

    method PutPending(service: Service, rotationId: nat, credential: nat)
      requires Valid(service) && this as object != service && running == GotRotation(rotationId, credential)
      requires PendingRef(credential) in secrets ==> secrets[PendingRef(credential)] == credential
      modifies `secrets, `running, `history
      ensures Valid(service) && running == SecretStored(rotationId, credential) && Now(service) == Advanced(old(Now(service)), 0)
      ensures secrets == old(secrets)[PendingRef(credential) := credential]
    {
      hide Initial, PossibleRun, Play;
      ghost var w := Now(service);
      secrets := secrets[PendingRef(credential) := credential];
      running := SecretStored(rotationId, credential);
      Record(service, Work(0), w);
    }

    method StoreIdentity(service: Service, rotationId: nat, credential: nat) returns (ending: Ending)
      requires Valid(service) && this as object != service && running == SecretStored(rotationId, credential)
      modifies `pending, `rotation, `progress, `running, `power, `history
      ensures old(WorldInv(Now(service))) && Agrees(service, old(Now(service)), ending)
      ensures if ending.Went? then running.ToActivate? && progress == PendingStored && power == old(power) - 1 else ending.Cut? && old(power) == 0
      ensures Id() == if ending.Went? then old(Id()).(pending := Some(credential), rotation := Some(rotationId), progress := PendingStored) else old(Id())
    {
      hide Initial, PossibleRun, Play, WorldInv, Fine;
      Invariant(service);
      ghost var w := Now(service);
      LocalAgrees(w);
      var alive := Alive(service);
      if !alive { return Cut; }
      PutIdentity(service, rotationId, credential);
      return Went;
    }

    method PutIdentity(service: Service, rotationId: nat, credential: nat)
      requires Valid(service) && this as object != service && running == SecretStored(rotationId, credential)
      modifies `pending, `rotation, `progress, `running, `history
      ensures Valid(service) && running.ToActivate? && progress == PendingStored && Now(service) == Advanced(old(Now(service)), 0)
      ensures Id() == old(Id()).(pending := Some(credential), rotation := Some(rotationId), progress := PendingStored)
    {
      hide Initial, PossibleRun, Play;
      ghost var w := Now(service);
      pending := Some(credential);
      rotation := Some(rotationId);
      progress := PendingStored;
      running := ToActivate;
      Record(service, Work(0), w);
    }

    /** Read the pending secret back, mark the activation uncertain, send it and wait; then switch over. */
    method Activate(service: Service, x: Exchange) returns (ending: Ending)
      requires Valid(service) && this as object != service && running.ToActivate? && Unspent(service, x)
      modifies this, service
      ensures old(WorldInv(Now(service))) && Agrees(service, old(Now(service)), ending)
      ensures ending.Went? ==> running.ToForget? && power == old(power) - 2
      ensures ending.Cut? ==> old(power) < 2 || !(x.arrives && x.answered)
    {
      hide Initial, PossibleRun, Play, WorldInv, Fine, Unused;
      Invariant(service);
      ghost var w := Now(service);
      LocalAgrees(w);
      if pending.None? || rotation.None? || PendingRef(pending.value) !in secrets || secrets[PendingRef(pending.value)] != pending.value {
        Raise(service);
        return Raised;
      }
      var alive := Alive(service);
      if !alive { return Cut; }
      MarkUncertain(service);
      ending := ConfirmActivation(service, x, pending.value, rotation.value);
    }

    method ConfirmActivation(service: Service, x: Exchange, credential: nat, rotationId: nat) returns (ending: Ending)
      requires Valid(service) && this as object != service && running.ToSendActivation? && Unspent(service, x)
      requires pending == Some(credential) && rotation == Some(rotationId)
      modifies this, service
      ensures old(WorldInv(Now(service))) && Agrees(service, old(Now(service)), ending)
      ensures ending.Went? ==> running.ToForget? && power == old(power) - 1
      ensures ending.Cut? ==> old(power) < 1 || !(x.arrives && x.answered)
    {
      hide Initial, PossibleRun, Play, WorldInv, Fine, Unused, Advanced;
      ending := SendActivation(service, x, credential, rotationId);
      if ending.Went? {
        ending := SwitchOver(service);
      }
    }

    method MarkUncertain(service: Service)
      requires Valid(service) && this as object != service && running.ToActivate? && pending.Some? && rotation.Some?
      requires PendingRef(pending.value) in secrets && secrets[PendingRef(pending.value)] == pending.value
      modifies `progress, `running, `history
      ensures Valid(service) && running.ToSendActivation? && Now(service) == Advanced(old(Now(service)), 0)
    {
      hide Initial, PossibleRun, Play;
      ghost var w := Now(service);
      progress, running := ActivationUncertain, ToSendActivation;
      Record(service, Work(0), w);
    }

    method SendActivation(service: Service, x: Exchange, credential: nat, rotationId: nat) returns (ending: Ending)
      requires Valid(service) && this as object != service && running.ToSendActivation? && Unspent(service, x)
      requires pending == Some(credential) && rotation == Some(rotationId)
      modifies `running, `sent, `replies, `history, service
      ensures old(WorldInv(Now(service))) && Agrees(service, old(Now(service)), ending)
      ensures ending.Went? ==> running.GotActivation?
      ensures ending.Cut? ==> !(x.arrives && x.answered)
    {
      hide Initial, PossibleRun, Play, WorldInv, Fine, Unused, SpentOnly;
      Invariant(service);
      ghost var w := Now(service);
      SendAgrees(w, x.attempt);
      var request := RequestActivation(agent, credential, rotationId, activationKey);
      Send(service, x, request, AwaitActivation(x.attempt));
      var uninterrupted, reply := Await(service, x, request);
      if !uninterrupted {
        return Cut;
      }
      return if reply.Ok? then Went else Raised;
    }

    method SwitchOver(service: Service) returns (ending: Ending)
      requires Valid(service) && this as object != service && running.GotActivation?
      modifies `previous, `active, `activeRef, `progress, `running, `power, `history
      ensures old(WorldInv(Now(service))) && Agrees(service, old(Now(service)), ending)
      ensures if ending.Went? then running.ToForget? && power == old(power) - 1 else ending.Cut? && old(power) == 0
    {
      hide Initial, PossibleRun, Play, WorldInv, Fine;
      Invariant(service);
      ghost var w := Now(service);
      LocalAgrees(w);
      HasPending(w);
      var alive := Alive(service);
      if !alive { return Cut; }
      TakePending(service);
      return Went;
    }

    method TakePending(service: Service)
      requires Valid(service) && this as object != service && running.GotActivation? && pending.Some?
      modifies `previous, `active, `activeRef, `progress, `running, `history
      ensures Valid(service) && running.ToForget? && Now(service) == Advanced(old(Now(service)), 0)
    {
      hide Initial, PossibleRun, Play;
      ghost var w := Now(service);
      previous, active, activeRef, progress := Some(activeRef), pending.value, PendingRef(pending.value), LocallyActivated;
      running := ToForget;
      Record(service, Work(0), w);
    }

    /** `_finalize_activated`: delete the previous secret, then forget the rotation: a crash between the two
        leaves an identity that still names the secret to delete, never a secret nothing names. */
    method Finalize(service: Service) returns (ending: Ending)
      requires Valid(service) && this as object != service && running.ToForget?
      modifies this
      ensures Valid(service) && running.Stopped?
      ensures if ending.Went? then progress == NoRotation else ending.Cut? && old(power) < 2
      ensures var n := WritesMade(ending, old(power), 2);
              && secrets == (if n >= 1 then old(WithoutPrevious()) else old(secrets))
              && Id() == if n == 2 then old(Id()).(previous := None, pending := None, rotation := None, progress := NoRotation) else old(Id())
    {
      var alive := Alive(service);
      if !alive { return Cut; }
      DeletePrevious(service);
      alive := Alive(service);
      if !alive { return Cut; }
      Forget(service);
      return Went;
    }

    /** The secrets without the previous credential's, unless it is the active one. */
    ghost function WithoutPrevious(): map<Ref, nat>
      reads this
    {
      if previous.Some? && previous.value != activeRef then secrets - {previous.value} else secrets
    }

    method DeletePrevious(service: Service)
      requires Valid(service) && this as object != service && running.ToForget?
      modifies `secrets, `running, `history
      ensures Valid(service) && running.Forgotten? && secrets == old(WithoutPrevious())
    {
      hide Initial, PossibleRun, Play, WorldInv;
      ghost var w := Now(service);
      if previous.Some? && previous.value != activeRef {
        secrets := secrets - {previous.value};
      }
      running := Forgotten;
      Record(service, Work(0), w);
    }

    method Forget(service: Service)
      requires Valid(service) && this as object != service && running.Forgotten?
      modifies `previous, `pending, `rotation, `progress, `running, `history
      ensures Valid(service) && running.Stopped? && progress == NoRotation
      ensures Id() == old(Id()).(previous := None, pending := None, rotation := None, progress := NoRotation)
    {
      hide Initial, PossibleRun, Play, WorldInv;
      ghost var w := Now(service);
      previous, pending, rotation, progress := None, None, None, NoRotation;
      running := Stopped;
      Record(service, Work(0), w);
    }

    /** From `requested` to `pending_stored`. */
    method Obtain(service: Service, first: Exchange, second: Exchange) returns (ending: Ending)
      requires Valid(service) && this as object != service && running.ToRequest?
      requires Unspent(service, first) && Unspent(service, second)
      requires first.attempt != second.attempt && first.drawn.credential != second.drawn.credential && first.drawn.rotation != second.drawn.rotation
      modifies this, service
      ensures old(WorldInv(Now(service))) && Agrees(service, old(Now(service)), ending)
      ensures ending.Went? ==> running.ToActivate? && Unspent(service, second) && progress == PendingStored && power == old(power) - 2
      ensures ending.Cut? ==> old(power) < 2 || !(first.arrives && first.answered)
    {
      hide Initial, PossibleRun, Play, WorldInv, Fine;
      Invariant(service);
      var granted;
      ending, granted := RequestRotation(service, first);
      if ending.Went? {
        ending := StorePending(service, granted.rotation, granted.credential);
      }
    }

    /** Start, or take up where the stored state says: the first durable write of a new rotation. */
    method Begin(service: Service, key: nat, activation: nat) returns (alive: bool)
      requires Valid(service) && this as object != service && running.Stopped? && KeysFresh(Now(service), key, activation)
      modifies `progress, `rotationKey, `activationKey, `running, `power, `history
      ensures Valid(service)
      ensures if alive then Now(service) == Begun(old(Now(service)), key, activation) && power >= old(power) - 1
              else old(power) == 0 && running.Stopped?
    {
      hide Initial, PossibleRun, Play, WorldInv;
      ghost var w := Now(service);
      alive := true;
      if progress == NoRotation {
        alive := Alive(service);
        if !alive { return; }
        rotationKey, activationKey, progress := key, activation, Requested;
      }
      running := match progress
        case Requested => ToRequest
        case LocallyActivated => ToForget
        case _ => ToActivate;
      Record(service, Start(key, activation), w);
    }

    /** One call of rotate(), with up to two exchanges.  However it ends it leaves a state the protocol can
        reach; if it has the power for its seven writes and no message is lost, it is not cut short; and
        unless it is cut short, it completes exactly when the protocol can. */
    method Rotate(service: Service, key: nat, activation: nat, first: Exchange, second: Exchange) returns (ending: Ending)
      requires Valid(service) && this as object != service && running.Stopped? && KeysFresh(Now(service), key, activation)
      requires Unspent(service, first) && Unspent(service, second)
      requires first.attempt != second.attempt && first.drawn.credential != second.drawn.credential && first.drawn.rotation != second.drawn.rotation
      modifies this, service
      ensures Valid(service) && running.Stopped?
      ensures ending.Cut? ==> old(power) < 7 || !(first.arrives && first.answered && second.arrives && second.answered)
      ensures !ending.Cut? ==> (progress == NoRotation <==> old(CanFinish(Now(service))))
    {
      hide Initial, PossibleRun, Play, WorldInv, Fine, CanFinish, KeysFresh, Unused;
      ghost var w := Now(service);
      Invariant(service);
      StartFine(w, key, activation);
      var alive := Begin(service, key, activation);
      if !alive { return Cut; }
      ending := Went;
      if progress == Requested {
        ending := Obtain(service, first, second);
      }
      if ending.Went? && progress != LocallyActivated {
        ending := Activate(service, second);
      }
      FinishedIffFine(service);
      if ending.Went? {
        ending := Finalize(service);
      }
    }

    lemma FinishedIffFine(service: Service)
      ensures running.Stopped? ==> (Fine(Now(service)) <==> progress == NoRotation)
      ensures running.ToForget? ==> Fine(Now(service))
    {
    }
  }

  /** A local step of rotate() agrees with where it came from. */
  lemma LocalAgrees(w: World)
    requires WorldInv(w)
    requires w.running.GotRotation? || w.running.SecretStored? || w.running.ToActivate? || w.running.GotActivation?
    ensures Fine(Advanced(w, 0)) <==> Fine(w)
  {
    hide WorldInv, Fine, Advanced;
    DriveLocally(w, Choice(0, Drawn(0, 0, 0)));
  }

  lemma DriveLocally(w: World, c: Choice)
    requires WorldInv(w)
    requires w.running.GotRotation? || w.running.SecretStored? || w.running.ToActivate? || w.running.GotActivation?
    ensures StepAgrees(w, Advanced(w, c.attempt))
  {
    hide WorldInv, StepAgrees, Advanced;
    match w.running
    case GotRotation(_, _) => SecretStep(w, c);
    case SecretStored(_, _) => SecretStep(w, c);
    case ToActivate => PendingStep(w, c);
    case _ => LocalStep(w, c);
  }

  lemma SendAgrees(w: World, attempt: nat)
    requires WorldInv(w) && w.running.ToSendActivation?
    ensures Fine(Advanced(w, attempt)) <==> Fine(w)
  {
    hide WorldInv, Fine, Advanced;
    PendingStep(w, Choice(attempt, Drawn(0, 0, 0)));
  }

  lemma HasPending(w: World)
    requires WorldInv(w) && w.running.GotActivation?
    ensures w.identity.pending.Some?
  {
    hide Inv, ProgressFits, SecretsFit, SentFit, RepliesFit;
  }

  lemma RequestAgrees(w: World, attempt: nat)
    requires WorldInv(w) && w.running.ToRequest?
    ensures Fine(Advanced(w, attempt)) <==> Fine(w)
  {
    hide WorldInv, Fine;
    RequestStep(w, Choice(attempt, Drawn(0, 0, 0)));
  }

  /** Only this exchange's attempt and identifiers were used. */
  ghost predicate SpentOnly(w: World, t: World, x: Exchange) {
    && t.sent.Keys <= w.sent.Keys + {x.attempt}
    && (forall p | p in t.replies :: p in w.replies || p.0 == x.attempt)
    && t.server.agents.Keys == w.server.agents.Keys
    && t.server.credentials.Keys <= w.server.credentials.Keys + {x.drawn.credential}
    && t.server.rotations.Keys <= w.server.rotations.Keys + {x.drawn.rotation}
  }

  lemma ExchangeAgrees(w: World, c: Choice)
    requires WorldInv(w) && (w.running.AwaitRotation? || w.running.AwaitActivation?) && Unused(w.server, c.drawn)
    ensures w.running.attempt in w.sent && (w.sent[w.running.attempt].RequestRotation? || w.sent[w.running.attempt].RequestActivation?)
    ensures Fine(Received(Delivered(w, w.running.attempt, c.drawn), Answered(w, w.sent[w.running.attempt], c.drawn).reply)) <==> Fine(w)
  {
    if w.running.AwaitRotation? {
      hide WorldInv, Fine;
      RotationExchange(w, c);
    } else {
      hide WorldInv, Fine;
      ActivationExchange(w, c);
    }
    OnlyOurs(w, w.running.attempt);
  }

  lemma OnlyOurs(w: World, attempt: nat)
    requires WorldInv(w) && attempt in w.sent
    ensures w.sent[attempt].RequestRotation? || w.sent[attempt].RequestActivation?
  {
    OnlyOurRequests(w, attempt);
  }

  lemma AnswerKeys(w: World, q: Request, drawn: Drawn)
    requires WorldInv(w) && (q.RequestRotation? || q.RequestActivation?)
    ensures var t := Answered(w, q, drawn).tables;
            && t.agents.Keys == w.server.agents.Keys
            && t.credentials.Keys <= w.server.credentials.Keys + {drawn.credential}
            && t.rotations.Keys <= w.server.rotations.Keys + {drawn.rotation}
  {
    hide WorldInv;
    if q.RequestRotation? {
      CreateKeys(w, q, drawn);
    } else {
      ActivateKeys(w, q, drawn);
    }
  }

  lemma ActivateKeys(w: World, q: Request, drawn: Drawn)
    requires q.RequestActivation?
    ensures var t := Answered(w, q, drawn).tables;
            && t.agents.Keys == w.server.agents.Keys && t.credentials.Keys == w.server.credentials.Keys && t.rotations.Keys == w.server.rotations.Keys
  {
    hide IndexBlocks;
  }

  lemma CreateKeys(w: World, q: Request, drawn: Drawn)
    requires q.RequestRotation?
    ensures var t := Answered(w, q, drawn).tables;
            && t.agents.Keys == w.server.agents.Keys
            && t.credentials.Keys <= w.server.credentials.Keys + {drawn.credential}
            && t.rotations.Keys <= w.server.rotations.Keys + {drawn.rotation}
  {
    hide Highest, WaitingRotation;
  }
}
