/** TaskRunner.run and TaskRunner.cancel, statement by statement, as one runner of the world that
    TaskSafety reasons about. */
module TaskRunner {
  import opened Options
  import opened TaskStore
  import opened TaskSafety
  import opened TaskCancellation
  import opened TaskOutcome

  /** The points of run() between its steps at which somebody may call cancel(). */
  datatype Moment =
    | AfterClaim        // before the token is registered
    | BeforeInvoke
    | DuringExecute
    | BeforeCheck
    | DuringCleanup

  /** A cancellation at these moments reaches the token before the state it decides about is expected. */
  predicate TooEarly(cancels: set<Moment>) {
    BeforeInvoke in cancels || DuringExecute in cancels || BeforeCheck in cancels
  }

  /** While a runner executes a task, nobody else does. */
  lemma OnlyHolder(w: World, runner: nat)
    requires WorldInv(w) && runner in w.runners && !w.runners[runner].pc.Fetched?
    ensures forall a | a in w.runners && a != runner && w.runners[a].task == w.runners[runner].task :: w.runners[a].pc.Fetched?
  {
    OthersFetched(w, runner);
  }

  /** How a claimed run that nothing kills has ended. */
  predicate EndedIn(s: Tables, t: nat, c: Choice, cancels: set<Moment>, state: Option<TaskState>) {
    && t in s.inbox
    && if TimesOut(c.outcome) || !TooEarly(cancels) then
         && state.Some? && StateFits(state.value, c.outcome, c.cleanedUp) && s.inbox[t].state == state.value
         && c.result in s.results && s.results[c.result] == t
         && s.inbox[t].key in s.effects && s.effects[s.inbox[t].key].terminal == Some((state.value, c.result))
       else
         state == None && s.inbox[t].state.Running? && c.result !in s.results
  }

  lemma EndsWithResult(s: Tables, t: nat, c: Choice, cancels: set<Moment>, final: TaskState)
    requires t in s.inbox && s.inbox[t].key in s.effects && (TimesOut(c.outcome) || !TooEarly(cancels))
    requires final == if c.cleanedUp then FinalOf(c.outcome) else Failed
    ensures EndedIn(Finished(s, t, final, c.result), t, c, cancels, Some(final))
  {
  }

  class Runners {
    const store: SQLiteStore
    /** The registered tokens by task, and whether they are cancelled. */
    var cancellations: map<nat, bool>
    /** How many more steps a run takes before it is killed. */
    var power: nat
    ghost var runners: map<nat, Runner>
    ghost var invoked: seq<nat>
    ghost var history: seq<Event>

    ghost function Now(): World
      reads this, store
    {
      World(store.Now(), runners, invoked)
    }

    ghost predicate Valid()
      reads this, store
    {
      this as object != store && PossibleRun(BEGIN, history) && Now() == Play(BEGIN, history) && TokensKept()
    }

    /** A runner's token is the one registered for its task. */
    ghost predicate TokensKept()
      reads this
    {
      forall a | a in runners && HasToken(runners[a].pc) :: Registered(runners[a])
    }

    ghost predicate Registered(r: Runner)
      reads this
    {
      r.task in cancellations && cancellations[r.task] == r.token
    }

    lemma Invariant()
      requires Valid()
      ensures WorldInv(Now())
    {
      hide WorldInv, PossibleRun, Play;
      BeginInv();
      PlayKeepsInv(BEGIN, history);
    }

    constructor ()
      ensures Valid() && fresh(store) && Now() == BEGIN
    {
      store := new SQLiteStore();
      power, cancellations, runners, invoked, history := 0, map[], map[], [], [];
    }

    ghost method Record(e: Event, was: World)
      requires this as object != store && PossibleRun(BEGIN, history) && was == Play(BEGIN, history) && TokensKept()
      requires Possible(was, e) && Now() == Next(was, e)
      modifies `history
      ensures Valid() && Now() == old(Now())
    {
      hide Possible, Next;
      PlayAppend(BEGIN, history, e);
      history := history + [e];
    }

    /** A task arrives. */
    method Ingest(task: Task) returns (answer: Answer)
      requires Valid()
      modifies `history, store
      ensures Valid() && (store.Now(), answer) == Ingested(old(store.Now()), task)
    {
      hide PossibleRun, Play;
      ghost var was := Now();
      answer := store.IngestTask(task);
      Record(Event.Ingest(task), was);
    }

    /** The process starts again: no runner survives, and unfinished tasks are interrupted. */
    method Restart(budget: nat) returns (interrupted: nat)
      requires Valid()
      modifies this, store
      ensures Valid() && store.Now() == Recovered(old(store.Now())) && runners == map[] && power == budget
    {
      hide PossibleRun, Play;
      ghost var was := Now();
      interrupted := store.RecoverInterrupted();
      runners, power, cancellations := map[], budget, map[];
      Record(Event.Restart, was);
    }

    /** The run is killed here if its power is used up. */
    method Alive(runner: nat) returns (alive: bool)
      requires Valid() && runner in runners
      modifies `power, `runners, `history
      ensures Valid()
      ensures if alive then old(power) > 0 && power == old(power) - 1 && runners == old(runners)
              else old(power) == 0 && power == 0 && runners == old(runners) - {runner}
    {
      hide PossibleRun, Play;
      if power == 0 {
        ghost var was := Now();
        runners := runners - {runner};
        Record(Die(runner), was);
        return false;
      }
      power := power - 1;
      return true;
    }

    /** From the checks to the claim.  A refused task is moved out of the queue; a task somebody else has
        claimed is left to them. */
    method Claim(runner: nat, t: nat, c: Choice) returns (claimed: bool, state: Option<TaskState>)
      requires Valid() && runner in runners && runners[runner] == Runner(t, Fetched, false) && Possible(Now(), Work(runner, c))
      modifies `runners, `history, store
      ensures Valid() && Now() == Ran(old(Now()), runner, c)
      ensures claimed <==> c.refused.None? && Claimable(old(store.Now()), t)
      ensures state == if c.refused.Some? then (if CanMove(old(store.Now()), t, Queued, c.refused.value) then c.refused else None) else Some(Interrupted)
    {
      hide PossibleRun, Play;
      ghost var was := Now();
      claimed := false;
      if c.refused.Some? {
        var moved := store.Transition(t, Queued, c.refused.value);
        state := if moved then c.refused else None;
      } else {
        claimed := store.ClaimTask(t);
        state := Some(Interrupted);
      }
      runners := if claimed then runners[runner := Runner(t, HasClaim, false)] else runners - {runner};
      Record(Work(runner, c), was);
    }

    /** One transition of a task in execution, from the state it is known to be in. */
    method Move(runner: nat, t: nat, current: TaskState, target: TaskState, ghost next: Runner, c: Choice)
      requires Valid() && runner in runners && runners[runner].task == t && Possible(Now(), Work(runner, c))
      requires CanMove(store.Now(), t, current, target) && (HasToken(next.pc) ==> Registered(next)) && next.task == t
      requires Ran(Now(), runner, c) == Now().(store := Moved(store.Now(), t, target), runners := runners[runner := next])
      modifies `runners, `history, store
      ensures Valid() && runners == old(runners)[runner := next] && store.Now() == Moved(old(store.Now()), t, target)
    {
      hide PossibleRun, Play, Ran;
      ghost var was := Now();
      var moved := store.Transition(t, current, target);
      runners := runners[runner := next];
      Record(Work(runner, c), was);
    }

    /** mark_invoked, and then the plugin's execute begins. */
    method Invoke(runner: nat, t: nat, c: Choice)
      requires Valid() && runner in runners && runners[runner] == Runner(t, Started, runners[runner].token) && Possible(Now(), Work(runner, c))
      requires CanMark(store.Now(), t)
      modifies `runners, `invoked, `history, store
      ensures Valid() && runners == old(runners)[runner := old(runners)[runner].(pc := Executing)]
      ensures store.Now() == Marked(old(store.Now()), t) && invoked == old(invoked) + [t]
    {
      hide PossibleRun, Play;
      ghost var was := Now();
      var marked := store.MarkInvoked(t);
      runners := runners[runner := runners[runner].(pc := MarkedInvoked)];
      Record(Work(runner, c), was);
      ghost var markedWorld := Now();
      runners, invoked := runners[runner := runners[runner].(pc := Executing)], invoked + [t];
      Record(Work(runner, c), markedWorld);
    }

    /** cancel(): the token registered for the task, if there is one, is cancelled; the store is not told. */
    method Cancel(t: nat)
      requires Valid()
      modifies `cancellations, `runners, `history
      ensures Valid() && runners.Keys == old(runners).Keys
      ensures cancellations == if t in old(cancellations) then old(cancellations)[t := true] else old(cancellations)
      ensures forall a | a in runners ::
                runners[a] == if old(runners)[a].task == t && HasToken(old(runners)[a].pc) then old(runners)[a].(token := true) else old(runners)[a]
    {
      hide PossibleRun, Play, WorldInv;
      if t !in cancellations {
        return;
      }
      Invariant();
      ghost var was := Now();
      cancellations := cancellations[t := true];
      if a :| a in runners && runners[a].task == t && HasToken(runners[a].pc) {
        OnlyHolder(was, a);
        runners := runners[a := runners[a].(token := true)];
        Record(CancelToken(a), was);
      }
    }

    /** A cancellation that falls at this moment, if one does. */
    method Heed(runner: nat, t: nat, cancels: set<Moment>, moment: Moment)
      requires Valid() && runner in runners && runners[runner].task == t && !runners[runner].pc.Fetched?
      modifies `cancellations, `runners, `history
      ensures Valid()
      ensures runners == if moment in cancels && HasToken(old(runners)[runner].pc)
                         then old(runners)[runner := old(runners)[runner].(token := true)] else old(runners)
    {
      hide PossibleRun, Play, WorldInv;
      Invariant();
      OnlyHolder(Now(), runner);
      if moment in cancels {
        Cancel(t);
      }
    }

    /** The plugin's outcome: a timeout or a cancelled loop cancels the token and moves the stored state
        to cancel_requested. */
    method Observe(runner: nat, t: nat, c: Choice)
      requires Valid() && runner in runners && runners[runner] == Runner(t, Executing, runners[runner].token) && Possible(Now(), Work(runner, c))
      requires t in store.inbox && store.inbox[t].state.Running?
      modifies `cancellations, `runners, `history, store
      ensures Valid()
      ensures var late := TimesOut(c.outcome);
              && runners == old(runners)[runner := Runner(t, AfterExecute(FinalOf(c.outcome)), late || old(runners)[runner].token)]
              && store.Now() == if late then Moved(old(store.Now()), t, CancelRequested) else old(store.Now())
    {
      hide PossibleRun, Play, WorldInv;
      Invariant();
      ghost var was := Now();
      OnlyHolder(was, runner);
      if TimesOut(c.outcome) {
        cancellations := cancellations[t := true];
        runners := runners[runner := Runner(t, Interrupting(FinalOf(c.outcome)), true)];
        Record(Work(runner, c), was);
        Move(runner, t, Running, CancelRequested, Runner(t, AfterExecute(FinalOf(c.outcome)), true), c);
      } else {
        runners := runners[runner := runners[runner].(pc := AfterExecute(FinalOf(c.outcome)))];
        Record(Work(runner, c), was);
      }
    }

    /** The token decides which state is expected before cleaning up; if another is stored, this raises. */
    method Check(runner: nat, t: nat, c: Choice) returns (passed: bool)
      requires Valid() && runner in runners && runners[runner] == Runner(t, AfterExecute(FinalOf(c.outcome)), runners[runner].token)
      requires Possible(Now(), Work(runner, c)) && t in store.inbox
      modifies `runners, `history, store
      ensures Valid()
      ensures passed <==> old(store.inbox)[t].state == if old(runners)[runner].token then CancelRequested else Running
      ensures if passed then
                && runners == old(runners)[runner := old(runners)[runner].(pc := Cleaning(FinalOf(c.outcome)))]
                && store.Now() == Moved(old(store.Now()), t, CleaningUp)
              else runners == old(runners) - {runner} && store.Now() == old(store.Now())
    {
      hide PossibleRun, Play, WorldInv;
      ghost var was := Now();
      assert Registered(runners[runner]);
      var current := if cancellations[t] then CancelRequested else Running;
      passed := store.Transition(t, current, CleaningUp);
      runners := if passed then runners[runner := runners[runner].(pc := Cleaning(FinalOf(c.outcome)))] else runners - {runner};
      Record(Work(runner, c), was);
    }

    /** Cleanup, and then the result in one transaction with the terminal state. */
    method Finish(runner: nat, t: nat, c: Choice, cancels: set<Moment>) returns (final: TaskState)
      requires Valid() && runner in runners && runners[runner] == Runner(t, Cleaning(FinalOf(c.outcome)), runners[runner].token)
      requires Possible(Now(), Work(runner, c)) && t in store.inbox && store.inbox[t].state.CleaningUp?
      modifies `cancellations, `runners, `history, store
      ensures Valid() && runners == old(runners) - {runner}
      ensures final == if c.cleanedUp then FinalOf(c.outcome) else Failed
      ensures store.Now() == Finished(old(store.Now()), t, final, c.result)
    {
      hide PossibleRun, Play, WorldInv, TokensKept;
      Heed(runner, t, cancels, DuringCleanup);
      final := CleanUp(runner, t, c);
      Deliver(runner, t, c, final);
    }

    method CleanUp(runner: nat, t: nat, c: Choice) returns (final: TaskState)
      requires Valid() && runner in runners && runners[runner] == Runner(t, Cleaning(FinalOf(c.outcome)), runners[runner].token)
      requires Possible(Now(), Work(runner, c))
      modifies `runners, `history
      ensures Valid() && runners == old(runners)[runner := Runner(t, Finishing(final), old(runners)[runner].token)]
      ensures final == if c.cleanedUp then FinalOf(c.outcome) else Failed
    {
      hide PossibleRun, Play, WorldInv;
      ghost var was := Now();
      final := FinalOf(c.outcome);
      if !c.cleanedUp {
        final := Failed;
      }
      runners := runners[runner := runners[runner].(pc := Finishing(final))];
      Record(Work(runner, c), was);
    }

    method Deliver(runner: nat, t: nat, c: Choice, final: TaskState)
      requires Valid() && runner in runners && runners[runner] == Runner(t, Finishing(final), runners[runner].token) && WithResult(final)
      requires Possible(Now(), Work(runner, c)) && t in store.inbox && store.inbox[t].state.CleaningUp?
      modifies `cancellations, `runners, `history, store
      ensures Valid() && runners == old(runners) - {runner}
      ensures store.Now() == Finished(old(store.Now()), t, final, c.result)
    {
      hide PossibleRun, Play, WorldInv;
      ghost var was := Now();
      Invariant();
      OnlyHolder(was, runner);
      var finished := store.FinishWithResult(t, CleaningUp, final, c.result);
      runners := runners - {runner};
      cancellations := cancellations - {t};
      Record(Work(runner, c), was);
    }

    /** One call of run() by a new runner, for a task read from the queue, with cancel() called for the
        task at any of these moments.  A claimed run that is not killed ends with its result if and only
        if no cancellation came too early or the plugin timed out or was cancelled by the loop; otherwise
        it raises and leaves the task running. */
    method Run(runner: nat, t: nat, c: Choice, cancels: set<Moment>) returns (state: Option<TaskState>)
      requires Valid() && runner !in runners && t in store.inbox && c.result !in store.results
      requires c.refused.Some? ==> c.refused.value.Skipped? || c.refused.value.Blocked? || c.refused.value.Rejected?
      modifies this, store
      ensures Valid() && runners == old(runners)
      ensures invoked == old(invoked) || (invoked == old(invoked) + [t] && c.refused.None? && Claimable(old(store.Now()), t))
      ensures old(power) >= 5 && c.refused.None? && Claimable(old(store.Now()), t) ==>
                invoked == old(invoked) + [t] && Ended(t, c, cancels, state)
      ensures c.refused.None? && !Claimable(old(store.Now()), t) ==> store.Now() == old(store.Now())
      ensures old(power) >= 1 && c.refused.Some? ==>
                if old(store.inbox)[t].state.Queued? then state == c.refused && t in store.inbox && store.inbox[t].state == c.refused.value
                else state == None && store.Now() == old(store.Now())
    {
      hide PossibleRun, Play, Ran, WorldInv, Ended;
      ghost var others, was := runners, Now();
      runners := runners[runner := Runner(t, Fetched, false)];
      Record(Fetch(runner, t), was);
      assert runners - {runner} == others;
      var alive := Alive(runner);
      if !alive { return None; }
      var claimed;
      RanFetched(Now(), runner, c);
      claimed, state := Claim(runner, t, c);
      if !claimed {
        return;
      }
      assert runners - {runner} == others;
      state := Execute(runner, t, c, cancels);
    }

    predicate Ended(t: nat, c: Choice, cancels: set<Moment>, state: Option<TaskState>)
      reads this, store
    {
      EndedIn(store.Now(), t, c, cancels, state)
    }

    /** From the claim to the end. */
    method Execute(runner: nat, t: nat, c: Choice, cancels: set<Moment>) returns (state: Option<TaskState>)
      requires Valid() && runner in runners && runners[runner] == Runner(t, HasClaim, false) && Possible(Now(), Work(runner, c))
      requires t in store.inbox && store.inbox[t].state.Preparing? && CanMark(store.Now(), t)
      modifies this, store
      ensures Valid() && runners == old(runners) - {runner}
      ensures invoked == old(invoked) || invoked == old(invoked) + [t]
      ensures old(power) >= 4 ==> invoked == old(invoked) + [t] && Ended(t, c, cancels, state)
    {
      hide PossibleRun, Play, WorldInv, TokensKept, Ended;
      state := None;
      Heed(runner, t, cancels, AfterClaim);
      var alive := Alive(runner);
      if !alive { return; }
      StartRunning(runner, t, c);
      Heed(runner, t, cancels, BeforeInvoke);
      alive := Alive(runner);
      if !alive { return; }
      Invoke(runner, t, c);
      state := Conclude(runner, t, c, cancels);
    }

    /** To running, and the token is registered. */
    method StartRunning(runner: nat, t: nat, c: Choice)
      requires Valid() && runner in runners && runners[runner] == Runner(t, HasClaim, false) && Possible(Now(), Work(runner, c))
      requires t in store.inbox && store.inbox[t].state.Preparing?
      modifies `cancellations, `runners, `history, store
      ensures Valid() && runners == old(runners)[runner := Runner(t, Started, false)] && store.Now() == Moved(old(store.Now()), t, Running)
    {
      hide PossibleRun, Play, WorldInv;
      Invariant();
      OnlyHolder(Now(), runner);
      ghost var was := Now();
      var moved := store.Transition(t, Preparing, Running);
      runners := runners[runner := Runner(t, Started, false)];
      cancellations := cancellations[t := false];
      Record(Work(runner, c), was);
    }

    /** From the plugin's call to the end. */
    method Conclude(runner: nat, t: nat, c: Choice, cancels: set<Moment>) returns (state: Option<TaskState>)
      requires Valid() && runner in runners && runners[runner] == Runner(t, Executing, BeforeInvoke in cancels) && Possible(Now(), Work(runner, c))
      requires t in store.inbox && store.inbox[t].state.Running?
      modifies `cancellations, `power, `runners, `history, store
      ensures Valid() && runners == old(runners) - {runner}
      ensures old(power) >= 2 ==> Ended(t, c, cancels, state)
    {
      hide PossibleRun, Play, WorldInv, TokensKept, Ended;
      state := None;
      Heed(runner, t, cancels, DuringExecute);
      var alive := Alive(runner);
      if !alive { return; }
      Observe(runner, t, c);
      Heed(runner, t, cancels, BeforeCheck);
      alive := Alive(runner);
      if !alive { return; }
      state := Settle(runner, t, c, cancels);
    }

    /** The check, cleanup and the result. */
    method Settle(runner: nat, t: nat, c: Choice, cancels: set<Moment>) returns (state: Option<TaskState>)
      requires Valid() && runner in runners && Possible(Now(), Work(runner, c)) && t in store.inbox
      requires runners[runner] == Runner(t, AfterExecute(FinalOf(c.outcome)), TimesOut(c.outcome) || TooEarly(cancels))
      requires store.inbox[t].state == if TimesOut(c.outcome) then CancelRequested else Running
      modifies `cancellations, `runners, `history, store
      ensures Valid() && runners == old(runners) - {runner} && Ended(t, c, cancels, state)
    {
      Invariant();
      KeyHasEffect(Now(), t);
      hide PossibleRun, Play, WorldInv, TokensKept, StateFits, FinalOf;
      state := None;
      var passed := Check(runner, t, c);
      if passed {
        ghost var s := store.Now();
        assert s.inbox[t].key in s.effects;
        hide Finished, Moved;
        var final := Finish(runner, t, c, cancels);
        state := Some(final);
        EndsWithResult(s, t, c, cancels, final);
      }
    }
  }

  lemma KeyHasEffect(w: World, t: nat)
    requires WorldInv(w) && t in w.store.inbox
    ensures w.store.inbox[t].key in w.store.effects
  {
    assert RowOk(w.store, t);
  }

  lemma RanFetched(w: World, runner: nat, c: Choice)
    requires runner in w.runners && w.runners[runner].pc.Fetched?
    ensures var t, x := w.runners[runner].task, Ran(w, runner, c);
            && x.invoked == w.invoked
            && (c.refused.None? && Claimable(w.store, t) ==>
                  x == w.(store := Claimed(w.store, t), runners := w.runners[runner := w.runners[runner].(pc := HasClaim)]))
            && (!(c.refused.None? && Claimable(w.store, t)) ==> x.runners == w.runners - {runner})
            && (c.refused.None? && !Claimable(w.store, t) ==> x.store == w.store)
            && (c.refused.Some? ==> x.store == if CanMove(w.store, t, Queued, c.refused.value) then Moved(w.store, t, c.refused.value) else w.store)
  {
  }
}
