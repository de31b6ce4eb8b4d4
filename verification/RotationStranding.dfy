/** A rotation that one uninterrupted call could not complete is never completed by any number of calls. */
module RotationStranding {
  import opened Options
  import opened CredentialState
  import opened CredentialSafety
  import opened CredentialLifecycle
  import opened RotationProtocol
  import opened RotationConvergence

  ghost predicate Unanswered(w: World, attempt: nat) {
    forall p | p in w.replies && p.0 == attempt :: !p.1.Ok?
  }

  /** The guards can no longer pass, and nothing on its way tells the client otherwise. */
  ghost predicate Hopeless(w: World) {
    && WorldInv(w) && !CanFinish(w)
    && match w.running
       case AwaitRotation(attempt) => Unanswered(w, attempt)
       case AwaitActivation(attempt) => Unanswered(w, attempt)
       case Stopped => true
       case ToRequest => true
       case ToActivate => true
       case ToSendActivation => true
       case _ => false
  }

  lemma StoppedHopeless(w: World)
    requires WorldInv(w) && w.running.Stopped? && !CanFinish(w)
    ensures Hopeless(w)
  {
    hide WorldInv, CanFinish;
  }

  /** What any request leaves of what the guards look at: a rotation's expiry, an activation only before it,
      and the expiry of a credential that is past pending. */
  ghost predicate GuardsKept(s: Tables, t: Tables, now: nat) {
    && (forall c | c in s.credentials && s.credentials[c].phase != Pending :: c in t.credentials && t.credentials[c].expires == s.credentials[c].expires)
    && (forall r | r in s.rotations :: r in t.rotations && t.rotations[r].expires == s.rotations[r].expires
          && (t.rotations[r].phase == RotationPhase.Activated ==> s.rotations[r].phase == RotationPhase.Activated || s.rotations[r].expires > now)
          && (s.rotations[r].phase == RotationPhase.Activated ==> t.rotations[r].phase == RotationPhase.Activated))
    && (forall k | k in s.records :: k in t.records && t.records[k] == s.records[k])
  }

  lemma AnswerKeepsGuards(w: World, q: Request, drawn: Drawn)
    requires RequestFits(w, q) && Unused(w.server, drawn)
    ensures GuardsKept(w.server, Answered(w, q, drawn).tables, w.now)
  {
    if q.RequestRotation? {
      CreateShape(w.server, q.agent, q.active, q.key, drawn, w.now);
      ExpireKeepsGuards(w.server, w.agent, w.now, q.active, q.key, drawn);
      forall k | k in w.server.records ensures k in Answered(w, q, drawn).tables.records && Answered(w, q, drawn).tables.records[k] == w.server.records[k] {
        AnswerKeepsRecord(w, q, drawn, k);
      }
      hide CreateRotation, Expire, Rotating, WaitingRotation, RequestFits;
    } else {
      hide IndexBlocks;
    }
  }

  ghost predicate RowsKept(s: Tables, t: Tables, now: nat) {
    GuardsKept(s, t.(records := s.records), now)
  }

  lemma ExpireKeepsGuards(s: Tables, agent: nat, now: nat, active: nat, key: nat, drawn: Drawn)
    requires Unused(s, drawn)
    ensures var x := Expire(s, WaitingRotation(s, agent), now);
            RowsKept(s, s, now) && RowsKept(s, x, now) && RowsKept(s, Rotating(x, agent, active, key, drawn, now), now)
  {
    hide Highest;
  }

  /** The request the client waits for is refused. */
  lemma RotationRefused(w: World, drawn: Drawn)
    requires WorldInv(w) && w.identity.progress == Requested && !CanFinish(w)
    ensures !Answered(w, RequestRotation(w.agent, w.identity.active, w.identity.rotationKey), drawn).reply.Ok?
  {
    var scope := RotateScope(w.agent, w.identity.rotationKey);
    assert scope in w.server.records ==> RecordOk(w.server, scope);
    if !Obtainable(w) {
      hide WorldInv, RecordOk;
      assert scope in w.server.records;
      RefusedAfterWindow(w, drawn);
    } else {
      hide WorldInv, CreateRotation, Obtainable;
    }
  }

  lemma RefusedAfterWindow(w: World, drawn: Drawn)
    requires RotateScope(w.agent, w.identity.rotationKey) in w.server.records && !Obtainable(w)
    ensures !Answered(w, RequestRotation(w.agent, w.identity.active, w.identity.rotationKey), drawn).reply.Ok?
  {
    hide Expire;
  }

  lemma ActivationRefused(w: World, drawn: Drawn)
    requires WorldInv(w) && w.identity.progress == ActivationUncertain && !CanFinish(w)
    ensures w.identity.pending.Some? && w.identity.rotation.Some?
    ensures !Answered(w, RequestActivation(w.agent, w.identity.pending.value, w.identity.rotation.value, w.identity.activationKey), drawn).reply.Ok?
  {
    ActivationStands(w);
    var r, d := w.identity.rotation.value, w.identity.pending.value;
    assert ActivateScope(w.agent, r, w.identity.activationKey) in w.server.records ==> Closed(w, r, d);
    hide WorldInv, IndexBlocks;
  }

  lemma DeliveryStays(w: World, attempt: nat, drawn: Drawn)
    requires Hopeless(w) && Possible(w, Deliver(attempt, drawn))
    ensures Hopeless(Next(w, Deliver(attempt, drawn)))
    ensures Next(w, Deliver(attempt, drawn)).identity == w.identity
  {
    var t := Next(w, Deliver(attempt, drawn));
    DeliveryShape(w, attempt, drawn);
    hide WorldInv, CanFinish, GuardsKept, Answered, RequestFits, Possible, Next, Unanswered;
    KeepNext(w, Deliver(attempt, drawn));
    FitsIn(w, attempt);
    AnswerKeepsGuards(w, w.sent[attempt], drawn);
    if w.running == AwaitRotation(attempt) || w.running == AwaitActivation(attempt) {
      AwaitedRefused(w, attempt, drawn);
    }
    StillHopeless(w, t);
    StillUnanswered(w, t, attempt, Answered(w, w.sent[attempt], drawn).reply);
  }

  lemma DeliveryShape(w: World, attempt: nat, drawn: Drawn)
    requires Possible(w, Deliver(attempt, drawn))
    ensures attempt in w.sent && Unused(w.server, drawn)
    ensures var o := Answered(w, w.sent[attempt], drawn);
            Next(w, Deliver(attempt, drawn)) == w.(server := o.tables, replies := w.replies + {(attempt, o.reply)})
  {
    hide Answered;
  }

  lemma StillUnanswered(w: World, t: World, attempt: nat, reply: Reply)
    requires Hopeless(w) && t.replies == w.replies + {(attempt, reply)} && t.running == w.running
    requires (w.running == AwaitRotation(attempt) || w.running == AwaitActivation(attempt)) ==> !reply.Ok?
    requires WorldInv(t) && !CanFinish(t)
    ensures Hopeless(t)
  {
    hide WorldInv, CanFinish;
  }

  lemma FitsIn(w: World, attempt: nat)
    requires WorldInv(w) && attempt in w.sent
    ensures RequestFits(w, w.sent[attempt])
  {
    hide Inv, ProgressFits, SecretsFit, RepliesFit, RunningFits, RequestFits;
  }

  lemma AwaitedRefused(w: World, attempt: nat, drawn: Drawn)
    requires WorldInv(w) && !CanFinish(w) && attempt in w.sent && (w.running == AwaitRotation(attempt) || w.running == AwaitActivation(attempt))
    ensures !Answered(w, w.sent[attempt], drawn).reply.Ok?
  {
    Awaiting(w, attempt);
    hide WorldInv, CanFinish, Answered;
    if w.running == AwaitRotation(attempt) {
      RotationRefused(w, drawn);
    } else {
      ActivationRefused(w, drawn);
    }
  }

  lemma Awaiting(w: World, attempt: nat)
    requires WorldInv(w)
    ensures w.running == AwaitRotation(attempt) ==>
              w.identity.progress == Requested && attempt in w.sent && w.sent[attempt] == RequestRotation(w.agent, w.identity.active, w.identity.rotationKey)
    ensures w.running == AwaitActivation(attempt) ==>
              && w.identity.progress == ActivationUncertain && w.identity.pending.Some? && w.identity.rotation.Some? && attempt in w.sent
              && w.sent[attempt] == RequestActivation(w.agent, w.identity.pending.value, w.identity.rotation.value, w.identity.activationKey)
  {
    hide Inv, ProgressFits, SecretsFit, SentFit, RepliesFit;
  }

  lemma StillHopeless(w: World, t: World)
    requires WorldInv(w) && !CanFinish(w) && t.identity == w.identity && t.agent == w.agent && t.now >= w.now
    requires GuardsKept(w.server, t.server, w.now)
    ensures !CanFinish(t)
  {
    if w.identity.progress == Requested && RotateScope(w.agent, w.identity.rotationKey) in w.server.records {
      var r, c :| RequestedAs(w, r, c);
    }
    hide Inv, SecretsFit, SentFit, RepliesFit, RunningFits;
  }

  /** A step of the client's own that needs nothing from the network. */
  lemma WorkStays(w: World, attempt: nat)
    requires Hopeless(w) && Possible(w, Work(attempt))
    ensures Hopeless(Next(w, Work(attempt)))
    ensures var t := Next(w, Work(attempt));
            && t.identity == w.identity.(progress := t.identity.progress) && (t.identity.progress == NoRotation ==> w.identity.progress == NoRotation)
  {
    var t := Next(w, Work(attempt));
    Ran(w);
    WorkShape(w, attempt);
    hide WorldInv, CanFinish, Next, Possible, Unanswered;
    KeepNext(w, Work(attempt));
    SameGuards(w, t);
    SameReplies(w, t);
  }

  lemma SameReplies(w: World, t: World)
    requires t.replies == w.replies
    ensures forall attempt :: Unanswered(t, attempt) <==> Unanswered(w, attempt)
  {
  }

  /** Where the client is while a rotation is hopeless. */
  lemma Ran(w: World)
    requires Hopeless(w)
    ensures w.running.ToRequest? ==> w.identity.progress == Requested
    ensures w.running.ToActivate? ==> w.identity.progress == PendingStored || w.identity.progress == ActivationUncertain
    ensures w.running.ToSendActivation? ==> w.identity.progress == ActivationUncertain
  {
    hide Inv, ProgressFits, SecretsFit, SentFit, RepliesFit, CanFinish;
  }

  lemma WorkShape(w: World, attempt: nat)
    requires Possible(w, Work(attempt)) && (w.running.Stopped? || w.running.ToRequest? || w.running.ToActivate? || w.running.ToSendActivation? || w.running.AwaitRotation? || w.running.AwaitActivation?)
    ensures var t := Next(w, Work(attempt));
            && t.server == w.server && t.agent == w.agent && t.now == w.now && t.replies == w.replies
            && t.identity == w.identity.(progress := t.identity.progress)
            && (t.identity == w.identity || (w.running.ToActivate? && t.identity.progress == ActivationUncertain))
            && (t.running == w.running || t.running.Stopped? || t.running.ToSendActivation?
                || ((t.running == AwaitRotation(attempt) || t.running == AwaitActivation(attempt)) && Unanswered(w, attempt)))
  {
    if w.running.ToRequest? || w.running.ToSendActivation? {
      forall p | p in w.replies ensures p.0 != attempt {
        assert (p.0, p.1) in w.replies;
      }
    }
  }

  /** The guards look at nothing that the client's own steps change. */
  lemma SameGuards(w: World, t: World)
    requires !CanFinish(w) && t.server == w.server && t.agent == w.agent && t.now >= w.now
    requires t.identity == w.identity.(progress := t.identity.progress)
    requires t.identity == w.identity || (w.identity.progress in {PendingStored, ActivationUncertain} && t.identity.progress == ActivationUncertain)
    ensures !CanFinish(t)
  {
  }

  lemma QuietStays(w: World, e: Event)
    requires Hopeless(w) && Possible(w, e) && !e.Deliver? && !e.Work?
    ensures Hopeless(Next(w, e))
    ensures var t := Next(w, e);
            && t.identity.active == w.identity.active && t.identity.activeRef == w.identity.activeRef
            && (w.identity.progress != NoRotation ==> t.identity == w.identity)
  {
    KeepNext(w, e);
    hide WorldInv;
    if e.Start? {
      StartStays(w, e.key, e.activationKey);
    } else {
      hide KeysFresh;
      SameGuards(w, Next(w, e));
      hide CanFinish;
    }
  }

  lemma StartStays(w: World, key: nat, activationKey: nat)
    requires !CanFinish(w) && w.running.Stopped? && Possible(w, Start(key, activationKey))
    ensures var t := Next(w, Start(key, activationKey));
            && !CanFinish(t) && (t.running.ToRequest? || t.running.ToActivate?)
            && t.identity.active == w.identity.active && t.identity.activeRef == w.identity.activeRef
            && (w.identity.progress != NoRotation ==> t.identity == w.identity)
  {
  }

  lemma HopelessStays(w: World, e: Event)
    requires Hopeless(w) && Possible(w, e)
    ensures Hopeless(Next(w, e))
    ensures var t := Next(w, e);
            && t.identity.active == w.identity.active && t.identity.activeRef == w.identity.activeRef
            && (w.identity.progress != NoRotation ==> t.identity == w.identity.(progress := t.identity.progress) && t.identity.progress != NoRotation)
  {
    hide Hopeless;
    match e
    case Deliver(attempt, drawn) => DeliveryStays(w, attempt, drawn);
    case Work(attempt) => WorkStays(w, attempt);
    case _ => QuietStays(w, e);
  }

  /** Where one uninterrupted rotate() could not complete, nothing ever does, however often it is called and
      whatever the network delivers: the client keeps the credential it has, and once it has begun a rotation
      it never gets back to asking for another. */
  lemma {:induction false} NeverCompletes(w: World, events: seq<Event>)
    requires WorldInv(w) && PossibleRun(w, events) && Hopeless(w)
    ensures Hopeless(Play(w, events))
    ensures var t := Play(w, events);
            && t.identity.active == w.identity.active && t.identity.activeRef == w.identity.activeRef
            && (w.identity.progress != NoRotation ==> t.identity == w.identity.(progress := t.identity.progress) && t.identity.progress != NoRotation)
    decreases |events|
  {
    hide Hopeless, WorldInv, Next, Possible;
    if events != [] {
      HopelessStays(w, events[0]);
      KeepNext(w, events[0]);
      NeverCompletes(Next(w, events[0]), events[1..]);
    }
  }

  /** A rotation is completed by some run if and only if one uninterrupted call could complete it now; this is
      the half that says no. */
  lemma NoRunCompletes(w: World, events: seq<Event>)
    requires WorldInv(w) && w.running.Stopped? && !CanFinish(w) && PossibleRun(w, events)
    ensures !(Play(w, events).identity.progress == NoRotation && Play(w, events).identity.active != w.identity.active)
    ensures w.identity.progress != NoRotation ==> Play(w, events).identity.progress != NoRotation
  {
    StoppedHopeless(w);
    hide WorldInv, CanFinish, Hopeless;
    NeverCompletes(w, events);
  }

  /* It happens after the reply was heard, too. */

  /** The events of a rotation whose pending credential is stored and then not activated in time. */
  function NotActivated(key: nat, activationKey: nat, attempt: nat, drawn: Drawn): (events: seq<Event>) {
    [Start(key, activationKey), Work(attempt), Deliver(attempt, drawn), Receive(attempt, Ok(RotationBody(drawn.rotation, drawn.credential))),
     Work(0), Work(0), Crash, Pass(WINDOW)]
  }

  ghost predicate PendingForGood(w: World) {
    Hopeless(w) && w.identity.progress == PendingStored
  }

  /** Every freshly enrolled agent whose credential is not expired can get there. */
  lemma NotActivatedStrands(w: World, key: nat, activationKey: nat, attempt: nat, drawn: Drawn)
    requires Initial(w) && Possible(w, Start(key, activationKey)) && Unused(w.server, drawn) && Usable(w)
    ensures PossibleRun(w, NotActivated(key, activationKey, attempt, drawn))
    ensures PendingForGood(Play(w, NotActivated(key, activationKey, attempt, drawn)))
  {
    hide WorldInv, Hopeless, Next, Possible, Initial;
    InitialWorld(w);
    KeepNext(w, Start(key, activationKey));
    Asked(w, key, activationKey, attempt);
    OneSecret(w, key, activationKey, attempt);
    var a := Next(w, Start(key, activationKey));
    var b := Next(a, Work(attempt));
    KeepNext(a, Work(attempt));
    Granted(w, b, key, attempt, drawn);
    Heard(b, key, attempt, drawn);
    var c := Next(b, Deliver(attempt, drawn));
    KeepNext(b, Deliver(attempt, drawn));
    var receive := Receive(attempt, Ok(RotationBody(drawn.rotation, drawn.credential)));
    var d := Next(c, receive);
    KeepNext(c, receive);
    Stores(d, drawn);
    var e := Next(d, Work(0));
    KeepNext(d, Work(0));
    var f := Next(e, Work(0));
    KeepNext(e, Work(0));
    Interrupted(f);
    var g := Next(f, Crash);
    KeepNext(f, Crash);
    KeepNext(g, Pass(WINDOW));
    TooLateToActivate(f, Next(g, Pass(WINDOW)), drawn);
    FiveEvents(w, Start(key, activationKey), Work(attempt), Deliver(attempt, drawn), receive, Work(0));
    ThreeEvents(e, Work(0), Crash, Pass(WINDOW));
    PlayConcat(w, [Start(key, activationKey), Work(attempt), Deliver(attempt, drawn), receive, Work(0)], [Work(0), Crash, Pass(WINDOW)]);
    assert NotActivated(key, activationKey, attempt, drawn) ==
           [Start(key, activationKey), Work(attempt), Deliver(attempt, drawn), receive, Work(0)] + [Work(0), Crash, Pass(WINDOW)];
  }

  lemma ThreeEvents(w: World, p: Event, q: Event, r: Event)
    requires Possible(w, p) && Possible(Next(w, p), q) && Possible(Next(Next(w, p), q), r)
    ensures PossibleRun(w, [p, q, r]) && Play(w, [p, q, r]) == Next(Next(Next(w, p), q), r)
  {
    hide Next, Possible;
    var a := Next(w, p);
    var b := Next(a, q);
    var c := Next(b, r);
    assert [p, q, r][1..] == [q, r] && [q, r][1..] == [r] && [r][1..] == [];
    assert PossibleRun(c, []) && Play(c, []) == c;
    assert PossibleRun(b, [r]) && Play(b, [r]) == c;
    assert PossibleRun(a, [q, r]) && Play(a, [q, r]) == c;
  }

  lemma {:induction false} PlayConcat(w: World, a: seq<Event>, b: seq<Event>)
    requires PossibleRun(w, a) && PossibleRun(Play(w, a), b)
    ensures PossibleRun(w, a + b) && Play(w, a + b) == Play(Play(w, a), b)
    decreases |a|
  {
    hide Next, Possible;
    if a == [] {
      assert a + b == b;
    } else {
      assert (a + b)[1..] == a[1..] + b;
      PlayConcat(Next(w, a[0]), a[1..], b);
    }
  }

  /** The client waits for the reply and holds one secret. */
  lemma OneSecret(w: World, key: nat, activationKey: nat, attempt: nat)
    requires Initial(w) && Possible(w, Start(key, activationKey)) && Possible(Next(w, Start(key, activationKey)), Work(attempt))
    ensures var b := Next(Next(w, Start(key, activationKey)), Work(attempt));
            b.running == AwaitRotation(attempt) && forall ref | ref in b.secrets :: ref.ActiveRef?
  {
    hide Inv;
  }

  /** The reply arrives. */
  lemma Heard(b: World, key: nat, attempt: nat, drawn: Drawn)
    requires WorldInv(b) && Unused(b.server, drawn) && NoneWaiting(b) && ActiveFor(b.server, b.agent, b.identity.active) && Usable(b)
    requires attempt in b.sent && b.sent[attempt] == RequestRotation(b.agent, b.identity.active, key) && b.running == AwaitRotation(attempt)
    requires RotateScope(b.agent, key) !in b.server.records && b.identity.rotationKey == key && b.identity.progress == Requested
    ensures Possible(b, Deliver(attempt, drawn))
    ensures var c, receive := Next(b, Deliver(attempt, drawn)), Receive(attempt, Ok(RotationBody(drawn.rotation, drawn.credential)));
            && Possible(c, receive)
            && var d := Next(c, receive);
            && d.running == GotRotation(drawn.rotation, drawn.credential) && d.secrets == b.secrets && d.now == b.now
            && drawn.rotation in d.server.rotations && d.server.rotations[drawn.rotation].phase == Waiting
            && d.server.rotations[drawn.rotation].expires == d.now + WINDOW
  {
    AnswerNew(b, b.sent[attempt], drawn);
    hide Inv, WorldInv, Highest, Answered;
  }

  /** The secret is stored, and then the identity. */
  lemma Stores(d: World, drawn: Drawn)
    requires d.running == GotRotation(drawn.rotation, drawn.credential) && forall ref | ref in d.secrets :: ref.ActiveRef?
    ensures Possible(d, Work(0)) && Possible(Next(d, Work(0)), Work(0))
    ensures var f := Next(Next(d, Work(0)), Work(0));
            && f.identity.progress == PendingStored && f.identity.rotation == Some(drawn.rotation) && f.identity.pending == Some(drawn.credential)
            && f.server == d.server && f.now == d.now
  {
  }

  lemma TooLateToActivate(f: World, h: World, drawn: Drawn)
    requires WorldInv(h) && h == f.(running := Stopped, now := f.now + WINDOW)
    requires f.identity.progress == PendingStored && f.identity.rotation == Some(drawn.rotation)
    requires drawn.rotation in f.server.rotations && f.server.rotations[drawn.rotation].phase == Waiting && f.server.rotations[drawn.rotation].expires == f.now + WINDOW
    ensures PendingForGood(h)
  {
    hide WorldInv;
  }

  lemma PendingForGoodReached()
    ensures exists w, events :: Initial(w) && PossibleRun(w, events) && PendingForGood(Play(w, events))
  {
    hide Possible, PossibleRun, Play, PendingForGood, Initial;
    var w := SomeInitial();
    NotActivatedStrands(w, 6, 7, 0, Drawn(2, 12, 21));
    assert PendingForGood(Play(w, NotActivated(6, 7, 0, Drawn(2, 12, 21))));
  }
}
