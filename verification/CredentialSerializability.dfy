/** What every interleaving keeps, when it comes to the same transactions one after another, and what
    becomes of it when it does not. */
module CredentialSerializability {
  import opened Options
  import opened CredentialState
  import opened CredentialSafety
  import opened CredentialLifecycle
  import opened CredentialLaws
  import opened CredentialLocality
  import opened CredentialInterleaving
  import opened CredentialCopies

  /* Every event keeps the invariant. */

  lemma HeldApart(w: World, a: nat, b: nat)
    requires a != b
    ensures Held(w, a) !! Held(w, b)
  {
  }

  lemma AbortKeepsInv(w: World, txn: nat)
    requires WorldInv(w) && txn in w.running
    ensures WorldInv(Released(w, txn))
  {
    hide Inv, TxnOk, CopyOk;
    forall other | other in w.running && other != txn ensures Held(Released(w, txn), other) == Held(w, other) {
    }
  }

  /** A commit keeps everything in order.  One without effect changes nothing; one with an effect is that of
      the whole transaction on what is committed by then, except that a rotation is if and only if what
      authentication saw of the agent and the presented credential is still so. */
  lemma CommitKeepsInv(w: World, txn: nat)
    requires WorldInv(w) && Enabled(w, Commit(txn))
    ensures WorldInv(Next(w, Commit(txn)))
    ensures var s, t, x := w.tables, w.running[txn], Next(w, Commit(txn)).tables;
            if !Effective(t) then x == s
            else
              && Admissible(s, t.call) && Ages(s, x)
              && (x == Step(s, t.call).tables <==> (Grants(t) ==> StillGood(s, t.call.request)))
              && (x == Step(s, t.call).tables ==> Computed(t).reply == Step(s, t.call).reply)
              && (Grants(t) ==> x == Granted(s, t.call))
  {
    var s, t, held := w.tables, w.running[txn], Held(w, txn);
    assert TxnOk(s, t, held) && CopyOk(s, t);
    CommitOutcome(s, t, held);
    assert OwnCredential(s, t.call.request);
    hide Inv, TxnOk, CopyOk, Written, Step, StillGood, Rows, Computed, Granted;
    AbortKeepsInv(w, txn);
    if Effective(t) {
      assert Admissible(s, t.call);
      OthersStay(w, txn, Next(w, Commit(txn)).tables);
    }
    hide Within, Held, Ages;
  }

  lemma OthersStay(w: World, txn: nat, tables: Tables)
    requires WorldInv(w) && txn in w.running && Inv(tables) && Within(w.tables, tables, Held(w, txn)) && Ages(w.tables, tables)
    ensures WorldInv(Released(w, txn).(tables := tables))
  {
    var x := Released(w, txn).(tables := tables);
    hide Inv, TxnOk, CopyOk, Within, Ages;
    forall other | other in x.running
      ensures TxnOk(x.tables, x.running[other], Held(x, other)) && CopyOk(x.tables, x.running[other])
    {
      HeldApart(w, other, txn);
      assert Held(x, other) == Held(w, other);
      KeptByOthers(w.tables, tables, w.running[other], Held(w, other), Held(w, txn));
      CopyKept(w.tables, tables, w.running[other]);
    }
    hide Held;
  }

  lemma BeginKeepsInv(w: World, txn: nat, call: Call, reading: Reading)
    requires WorldInv(w) && Enabled(w, Begin(txn, call, reading))
    ensures WorldInv(Next(w, Begin(txn, call, reading)))
  {
    var x := Next(w, Begin(txn, call, reading));
    var t := Txn(call, reading, Loaded(w.tables, call.request), {}, NOTHING);
    LoadedOk(w.tables, call, reading);
    assert TxnOk(w.tables, t, Held(x, txn)) by { hide Inv; }
    hide Inv, TxnOk, CopyOk, Authenticated;
    forall other | other in w.running ensures Held(x, other) == Held(w, other) {
    }
  }

  lemma RunKeepsInv(w: World, txn: nat)
    requires WorldInv(w) && Enabled(w, Run(txn))
    ensures WorldInv(Next(w, Run(txn)))
  {
    var s, t, x := w.tables, w.running[txn], Next(w, Run(txn));
    var statement := NextOf(t).value;
    assert TxnOk(s, t, Held(w, txn)) && CopyOk(s, t) && Inv(s);
    LocksTaken(w, x, txn, Wanted(s, t, statement));
    hide Inv, TxnOk, CopyOk, RowThere, Viewed, Wanted, Held, WorldInv;
    CopyOfNext(s, t, statement);
    StatementOk(s, t, Held(w, txn), statement);
    ReplaceTxn(w, x, txn, After(t, statement, Viewed(s, t, statement)));
  }

  lemma LocksTaken(w: World, x: World, txn: nat, wanted: set<Lock>)
    requires x.locks == Locked(w.locks, wanted, txn) && forall l | l in wanted && l in w.locks :: w.locks[l] == txn
    ensures Held(x, txn) == Held(w, txn) + wanted
    ensures forall other | other != txn :: Held(x, other) == Held(w, other)
  {
    forall other | other != txn ensures Held(x, other) == Held(w, other) {
    }
  }

  lemma ReplaceTxn(w: World, x: World, txn: nat, t: Txn)
    requires WorldInv(w) && x.tables == w.tables && x.running == w.running[txn := t]
    requires TxnOk(w.tables, t, Held(x, txn)) && CopyOk(w.tables, t)
    requires forall other | other != txn :: Held(x, other) == Held(w, other)
    ensures WorldInv(x)
  {
    hide Inv, TxnOk, CopyOk, Held;
  }

  /** A statement leaves the copies alone. */
  lemma CopyOfNext(s: Tables, t: Txn, statement: Statement)
    requires CopyOk(s, t)
    ensures CopyOk(s, After(t, statement, Viewed(s, t, statement)))
  {
  }

  lemma NextKeepsInv(w: World, e: Event)
    requires WorldInv(w) && Enabled(w, e)
    ensures WorldInv(Next(w, e))
  {
    hide WorldInv, Next, Enabled;
    match e
    case Begin(txn, call, reading) => BeginKeepsInv(w, txn, call, reading);
    case Run(txn) => RunKeepsInv(w, txn);
    case Commit(txn) => CommitKeepsInv(w, txn);
    case Abort(txn) => AbortOnly(w, txn);
  }

  lemma AbortOnly(w: World, txn: nat)
    requires WorldInv(w) && Enabled(w, Abort(txn))
    ensures WorldInv(Next(w, Abort(txn)))
  {
    hide WorldInv, Released;
    AbortKeepsInv(w, txn);
  }

  /* What follows. */

  /** The transactions that had an effect, in the order in which they committed. */
  ghost function Committed(w: World, events: seq<Event>): (calls: seq<Call>)
    requires PossibleRun(w, events)
    decreases |events|
  {
    if events == [] then []
    else (if events[0].Commit? && Effective(w.running[events[0].txn]) then [w.running[events[0].txn].call] else [])
         + Committed(Next(w, events[0]), events[1..])
  }

  lemma OtherEvents(w: World, e: Event)
    requires Enabled(w, e) && !e.Commit?
    ensures Next(w, e).tables == w.tables
  {
  }

  /** Every rotation that is granted is granted while what authentication saw is still so. */
  ghost predicate Sound(w: World, events: seq<Event>)
    requires PossibleRun(w, events)
    decreases |events|
  {
    events != [] ==>
      && (events[0].Commit? ==> var t := w.running[events[0].txn]; Effective(t) && Grants(t) ==> StillGood(w.tables, t.call.request))
      && Sound(Next(w, events[0]), events[1..])
  }

  ghost predicate AllAfresh(w: World, events: seq<Event>) {
    && (forall txn | txn in w.running :: w.running[txn].reading.Afresh?)
    && (forall i | 0 <= i < |events| && events[i].Begin? :: events[i].reading.Afresh?)
  }

  /** So it is where rows are read afresh under their locks. */
  lemma {:induction false} AfreshIsSound(w: World, events: seq<Event>)
    requires WorldInv(w) && PossibleRun(w, events) && AllAfresh(w, events)
    ensures Sound(w, events)
    decreases |events|
  {
    assert events != [] && events[0].Commit? ==> events[0].txn in w.running;
    hide WorldInv, Enabled, Effective, Grants, StillGood;
    if events != [] {
      var e := events[0];
      if e.Commit? && Effective(w.running[e.txn]) && Grants(w.running[e.txn]) {
        AfreshStillGood(w, e.txn);
      }
      NextKeepsInv(w, e);
      StaysAfresh(w, e, events[1..]);
      hide Next;
      AfreshIsSound(Next(w, e), events[1..]);
    }
  }

  lemma StaysAfresh(w: World, e: Event, rest: seq<Event>)
    requires Enabled(w, e) && AllAfresh(w, rest) && (e.Begin? ==> e.reading.Afresh?)
    ensures AllAfresh(Next(w, e), rest)
  {
  }

  lemma AfreshStillGood(w: World, txn: nat)
    requires WorldInv(w) && Enabled(w, Commit(txn)) && Effective(w.running[txn]) && Grants(w.running[txn]) && w.running[txn].reading.Afresh?
    ensures StillGood(w.tables, w.running[txn].call.request)
  {
    assert TxnOk(w.tables, w.running[txn], Held(w, txn)) && CopyOk(w.tables, w.running[txn]);
    GrantCopied(w.tables, w.running[txn], Held(w, txn));
  }

  /** However the statements interleave, as long as no rotation outlives what authentication saw, what is
      committed is what the same transactions leave one after another, whole, in the order in which they
      committed. */
  lemma {:induction false} Serializable(w: World, events: seq<Event>)
    requires WorldInv(w) && PossibleRun(w, events) && Sound(w, events)
    ensures WorldInv(Play(w, events))
    ensures LegalCalls(w.tables, Committed(w, events)) && Served(w.tables, Committed(w, events)) == Play(w, events).tables
    decreases |events|
  {
    hide WorldInv, Next, Enabled, Effective, Step, Admissible, StillGood;
    if events != [] {
      var e, x := events[0], Next(w, events[0]);
      NextKeepsInv(w, e);
      Serializable(x, events[1..]);
      var rest := Committed(x, events[1..]);
      assert [] + rest == rest;
      if e.Commit? {
        CommitEffect(w, e.txn);
        var call := w.running[e.txn].call;
        assert ([call] + rest)[0] == call && ([call] + rest)[1..] == rest;
      } else {
        OtherEvents(w, e);
      }
    }
  }

  /** And where every locked select reads afresh that is always so. */
  lemma SerializableAfresh(w: World, events: seq<Event>)
    requires WorldInv(w) && PossibleRun(w, events) && AllAfresh(w, events)
    ensures LegalCalls(w.tables, Committed(w, events)) && Served(w.tables, Committed(w, events)) == Play(w, events).tables
  {
    hide WorldInv, Next, Enabled;
    AfreshIsSound(w, events);
    Serializable(w, events);
  }

  lemma CommitEffect(w: World, txn: nat)
    requires WorldInv(w) && Enabled(w, Commit(txn))
    ensures txn in w.running
    ensures var s, t, x := w.tables, w.running[txn], Next(w, Commit(txn)).tables;
            if !Effective(t) then x == s
            else
              && Admissible(s, t.call) && Ages(s, x)
              && (x == Step(s, t.call).tables <==> (Grants(t) ==> StillGood(s, t.call.request)))
              && (Grants(t) ==> Inv(s) && x == Granted(s, t.call))
  {
    assert Inv(w.tables);
    hide WorldInv, Next, Effective, Step, Admissible, Inv, Ages, Granted, StillGood;
    CommitKeepsInv(w, txn);
  }

  /** Transactions begin on the tables of some earlier run. */
  function Idle(s: Tables): (w: World) {
    World(s, map[], map[])
  }

  /** So everything proved of the tables after any sequence of whole transactions holds of them after any
      such interleaving. */
  lemma InterleavedReachable(s: Tables, events: seq<Event>)
    requires Reachable(s) && PossibleRun(Idle(s), events) && Sound(Idle(s), events)
    ensures Reachable(Play(Idle(s), events).tables)
  {
    ReachableInv(s);
    assert WorldInv(Idle(s));
    hide WorldInv, Inv, Next, Enabled, Step, Admissible, Sound;
    Serializable(Idle(s), events);
    var calls :| LegalCalls(NOTHING, calls) && Served(NOTHING, calls) == s;
    CallsConcat(NOTHING, calls, Committed(Idle(s), events));
    assert LegalCalls(NOTHING, calls + Committed(Idle(s), events));
  }

  lemma {:induction false} CallsConcat(s: Tables, a: seq<Call>, b: seq<Call>)
    requires LegalCalls(s, a) && LegalCalls(Served(s, a), b)
    ensures LegalCalls(s, a + b) && Served(s, a + b) == Served(Served(s, a), b)
    decreases |a|
  {
    hide Step, Admissible;
    if a == [] {
      assert a + b == b;
    } else {
      assert (a + b)[1..] == a[1..] + b;
      CallsConcat(Step(s, a[0]).tables, a[1..], b);
    }
  }

  /** This commit is the one that enters the scope's record: the transaction had found none. */
  ghost predicate Enters(w: World, e: Event, scope: Scope) {
    && e.Commit? && e.txn in w.running && ScopeOf(w.running[e.txn].call.request) == Some(scope)
    && scope !in w.running[e.txn].view.records && scope in Computed(w.running[e.txn]).tables.records
  }

  ghost function EntryCount(w: World, events: seq<Event>, scope: Scope): (n: nat)
    requires PossibleRun(w, events)
    decreases |events|
  {
    if events == [] then 0 else (if Enters(w, events[0], scope) then 1 else 0) + EntryCount(Next(w, events[0]), events[1..], scope)
  }

  lemma EntryCommits(w: World, e: Event, scope: Scope)
    requires WorldInv(w) && Enabled(w, e)
    ensures scope in w.tables.records ==> !Enters(w, e, scope) && scope in Next(w, e).tables.records
    ensures Enters(w, e, scope) ==> scope in Next(w, e).tables.records
  {
    if e.Commit? {
      var t := w.running[e.txn];
      assert TxnOk(w.tables, t, Held(w, e.txn));
      assert Enters(w, e, scope) ==> Effective(t);
      if ScopeOf(t.call.request) == Some(scope) && scope !in t.view.records {
        ReadBeforeEntering(w.tables, t, Held(w, e.txn), scope);
      }
      hide WorldInv, TxnOk, Next, Step, Enabled, Held;
      CommitEffect(w, e.txn);
      if scope in w.tables.records && Effective(t) {
        RecordStays(w.tables, t.call, scope);
      }
      if Enters(w, e, scope) {
        EnteredByBody(w, e.txn, scope);
      }
    } else {
      hide WorldInv;
      OtherEvents(w, e);
    }
  }

  /** Whoever enters a record has read, under the scope's lock, that there was none. */
  lemma ReadBeforeEntering(s: Tables, t: Txn, held: set<Lock>, scope: Scope)
    requires TxnOk(s, t, held) && NextOf(t).None? && ScopeOf(t.call.request) == Some(scope) && scope !in t.view.records
    ensures scope !in s.records
  {
  }

  lemma EnteredByBody(w: World, txn: nat, scope: Scope)
    requires WorldInv(w) && Enabled(w, Commit(txn)) && Enters(w, Commit(txn), scope)
    ensures scope in Next(w, Commit(txn)).tables.records
  {
    hide WorldInv, Step;
  }

  /** Exactly-once effects at the granularity of statements: whatever runs beside it, each scope's effect is
      committed at most once. */
  lemma {:induction false} AtMostOneEntry(w: World, events: seq<Event>, scope: Scope)
    requires WorldInv(w) && PossibleRun(w, events)
    ensures EntryCount(w, events, scope) <= if scope in w.tables.records then 0 else 1
    decreases |events|
  {
    hide WorldInv, Next, Enabled, Enters;
    if events != [] {
      NextKeepsInv(w, events[0]);
      EntryCommits(w, events[0], scope);
      AtMostOneEntry(Next(w, events[0]), events[1..], scope);
    }
  }

  /** This commit mints a credential by the token. */
  ghost predicate MintsNow(w: World, e: Event, token: nat) {
    && e.Commit? && e.txn in w.running && Effective(w.running[e.txn])
    && w.running[e.txn].call.request.RequestRegistration? && w.running[e.txn].call.request.token == token
  }

  ghost function MintsIn(w: World, events: seq<Event>, token: nat): (n: nat)
    requires PossibleRun(w, events)
    decreases |events|
  {
    if events == [] then 0 else (if MintsNow(w, events[0], token) then 1 else 0) + MintsIn(Next(w, events[0]), events[1..], token)
  }

  ghost predicate Used(s: Tables, token: nat) {
    token in s.tokens && s.tokens[token].uses > 0
  }

  lemma MintUses(w: World, e: Event, token: nat)
    requires WorldInv(w) && Enabled(w, e)
    ensures Used(w.tables, token) ==> !MintsNow(w, e, token) && Used(Next(w, e).tables, token)
    ensures MintsNow(w, e, token) ==> Used(Next(w, e).tables, token)
  {
    hide WorldInv;
    if e.Commit? {
      CommitUses(w, e.txn, token);
    } else {
      OtherEvents(w, e);
    }
  }

  lemma CommitUses(w: World, txn: nat, token: nat)
    requires WorldInv(w) && Enabled(w, Commit(txn))
    ensures Used(w.tables, token) ==> !MintsNow(w, Commit(txn), token) && Used(Next(w, Commit(txn)).tables, token)
    ensures MintsNow(w, Commit(txn), token) ==> Used(Next(w, Commit(txn)).tables, token)
  {
    assert Inv(w.tables) && txn in w.running;
    var s, t := w.tables, w.running[txn];
    hide WorldInv, TxnOk, Next, Step, Enabled, Held, Inv;
    CommitEffect(w, txn);
    hide Effective;
    if MintsNow(w, Commit(txn), token) {
      NoEffectKnown(w, txn);
      hide Mints;
      MintUsesToken(s, t.call, token);
    } else if Used(s, token) && Effective(t) {
      UsesStay(s, t, Next(w, Commit(txn)).tables, token);
    }
  }

  lemma UsesStay(s: Tables, t: Txn, x: Tables, token: nat)
    requires Inv(s) && Used(s, token)
    requires (x == Step(s, t.call).tables <==> (Grants(t) ==> StillGood(s, t.call.request))) && (Grants(t) ==> x == Granted(s, t.call))
    ensures Used(x, token)
  {
    hide Inv, Step, StillGood;
    if !Grants(t) {
      TokenStays(s, t.call, token);
    }
  }

  /** What has an effect here has one on everything. */
  lemma NoEffectKnown(w: World, txn: nat)
    requires WorldInv(w) && Enabled(w, Commit(txn)) && Effective(w.running[txn])
    ensures w.running[txn].call.request.RequestRegistration? ==> Mints(w.tables, w.running[txn].call, w.running[txn].call.request.token)
  {
    var s, t := w.tables, w.running[txn];
    if t.call.request.RequestRegistration? {
      var scope := ScopeOf(t.call.request).value;
      assert TxnOk(s, t, Held(w, txn));
      EffectiveIsNew(t);
      ReadBeforeEntering(s, t, Held(w, txn), scope);
      assert Enters(w, Commit(txn), scope);
      EnteredByBody(w, txn, scope);
      hide WorldInv, TxnOk, Next, Step, Enabled, Held, Computed;
      CommitEffect(w, txn);
    }
  }

  lemma EffectiveIsNew(t: Txn)
    requires t.call.request.RequestRegistration? && Effective(t)
    ensures ScopeOf(t.call.request).value !in t.view.records && ScopeOf(t.call.request).value in Computed(t).tables.records
  {
    hide Highest;
  }

  /** One enrollment token mints at most one credential, however registrations with it, under whatever keys,
      run into each other. */
  lemma {:induction false} OneMintPerToken(w: World, events: seq<Event>, token: nat)
    requires WorldInv(w) && PossibleRun(w, events)
    ensures MintsIn(w, events, token) <= if Used(w.tables, token) then 0 else 1
    decreases |events|
  {
    hide WorldInv, Next, Enabled, MintsNow, Used;
    if events != [] {
      NextKeepsInv(w, events[0]);
      MintUses(w, events[0], token);
      OneMintPerToken(Next(w, events[0]), events[1..], token);
    }
  }

  lemma RevokedMintsNothing(w: World, e: Event, token: nat)
    requires WorldInv(w) && Enabled(w, e) && TokenRevoked(w.tables, token)
    ensures !MintsNow(w, e, token) && TokenRevoked(Next(w, e).tables, token)
  {
    hide WorldInv;
    if e.Commit? {
      RevokedAtCommit(w, e.txn, token);
    } else {
      OtherEvents(w, e);
    }
  }

  lemma RevokedAtCommit(w: World, txn: nat, token: nat)
    requires WorldInv(w) && Enabled(w, Commit(txn)) && TokenRevoked(w.tables, token)
    ensures !MintsNow(w, Commit(txn), token) && TokenRevoked(Next(w, Commit(txn)).tables, token)
  {
    assert Inv(w.tables) && txn in w.running;
    var s, t := w.tables, w.running[txn];
    hide WorldInv, TxnOk, Next, Step, Enabled, Held, Inv;
    CommitEffect(w, txn);
    hide Effective, Mints, TokenRevoked;
    if Effective(t) {
      NoEffectKnown(w, txn);
      MintsNothing(s, t.call, token);
      StaysRevokedAt(s, t, Next(w, Commit(txn)).tables, token);
    }
  }

  lemma StaysRevokedAt(s: Tables, t: Txn, x: Tables, token: nat)
    requires Inv(s) && TokenRevoked(s, token)
    requires (x == Step(s, t.call).tables <==> (Grants(t) ==> StillGood(s, t.call.request))) && (Grants(t) ==> x == Granted(s, t.call))
    ensures TokenRevoked(x, token)
  {
    hide Inv, Step, StillGood;
    if !Grants(t) {
      TokenStaysRevoked(s, t.call, token);
    }
  }

  /** Once the revocation of a token has committed, no registration with it mints a credential, not even one
      that had begun before. */
  lemma {:induction false} NoMintAfterRevocation(w: World, events: seq<Event>, token: nat)
    requires WorldInv(w) && PossibleRun(w, events) && token in w.tables.tokens && w.tables.tokens[token].revoked
    ensures MintsIn(w, events, token) == 0
    decreases |events|
  {
    assert TokenRevoked(w.tables, token);
    if events != [] {
      NextKeepsInv(w, events[0]);
      RevokedMintsNothing(w, events[0], token);
      hide WorldInv, Next, Enabled, MintsNow;
      NoMintAfterRevocation(Next(w, events[0]), events[1..], token);
    }
  }

  /** A call in a scope whose record is there by the time it commits gets the first body, or an expiry error
      once a secret's replay window is over, or a conflict if its fingerprint is another. */
  lemma FirstBodyReplayed(w: World, txn: nat, scope: Scope)
    requires WorldInv(w) && Enabled(w, Commit(txn)) && ScopeOf(w.running[txn].call.request) == Some(scope) && scope in w.tables.records
    ensures var record, t := w.tables.records[scope], w.running[txn];
            && record.body.Some? && (!scope.ActivateScope? ==> record.replayUntil.Some?)
            && if FingerprintOf(t.call.request) != record.fingerprint then Computed(t).reply == Err(IdempotencyConflictError)
               else if scope.ActivateScope? || t.call.now < record.replayUntil.value then Computed(t).reply == Ok(record.body.value)
               else Computed(t).reply == Err(SecretReplayExpiredError)
  {
    var t := w.running[txn];
    assert TxnOk(w.tables, t, Held(w, txn)) && RecordOk(w.tables, scope);
    RecordIsRead(w.tables, t, Held(w, txn), scope);
    RecordComplete(w.tables, scope);
    hide WorldInv, TxnOk, Held, Inv, Highest, RecordOk, Step, Enabled;
    ReplayedBody(Rows(t), t.call, scope);
  }

  lemma RecordComplete(s: Tables, scope: Scope)
    requires scope in s.records && RecordOk(s, scope)
    ensures s.records[scope].phase == Completed && s.records[scope].body.Some? && (!scope.ActivateScope? ==> s.records[scope].replayUntil.Some?)
  {
  }

  lemma RecordIsRead(s: Tables, t: Txn, held: set<Lock>, scope: Scope)
    requires TxnOk(s, t, held) && NextOf(t).None? && ScopeOf(t.call.request) == Some(scope) && scope in s.records
    ensures scope in Rows(t).records && Rows(t).records[scope] == s.records[scope]
    ensures scope.RegisterScope? ==> scope.token in Rows(t).tokens
  {
  }

  /* What holds whichever way rows loaded before are read. */

  lemma {:induction false} PlayKeepsInv(w: World, events: seq<Event>)
    requires WorldInv(w) && PossibleRun(w, events)
    ensures WorldInv(Play(w, events))
    decreases |events|
  {
    hide WorldInv, Next, Enabled;
    if events != [] {
      NextKeepsInv(w, events[0]);
      PlayKeepsInv(Next(w, events[0]), events[1..]);
    }
  }

  /** In every interleaving each agent has at most one active and one pending credential, and all its
      versions are different. */
  lemma OneActiveOnePending(w: World, events: seq<Event>, c: nat, d: nat)
    requires WorldInv(w) && PossibleRun(w, events)
    requires var s := Play(w, events).tables; c in s.credentials && d in s.credentials && s.credentials[c].agent == s.credentials[d].agent
    ensures var s := Play(w, events).tables;
            && (s.credentials[c].phase == s.credentials[d].phase == Active ==> c == d)
            && (s.credentials[c].phase == s.credentials[d].phase == Pending ==> c == d)
            && (s.credentials[c].version == s.credentials[d].version ==> c == d)
  {
    PlayKeepsInv(w, events);
    assert CredentialsOk(Play(w, events).tables);
    hide WorldInv, Play, PossibleRun;
  }

  /** In every interleaving a revoked or expired credential stays one. */
  lemma {:induction false} NeverUsableInterleaved(w: World, events: seq<Event>, c: nat)
    requires WorldInv(w) && PossibleRun(w, events) && c in w.tables.credentials && w.tables.credentials[c].phase in {Revoked, Expired}
    ensures c in Play(w, events).tables.credentials && Play(w, events).tables.credentials[c].phase in {Revoked, Expired}
    decreases |events|
  {
    hide WorldInv, Next, Enabled, Effective, Step, StillGood, Granted;
    if events != [] {
      NextKeepsInv(w, events[0]);
      if events[0].Commit? {
        CommitEffect(w, events[0].txn);
      } else {
        OtherEvents(w, events[0]);
      }
      NeverUsableInterleaved(Next(w, events[0]), events[1..], c);
    }
  }
}
