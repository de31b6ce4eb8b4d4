/** Which result a run ends with: what the plugin did, and whether it could be cleaned up. */
module TaskOutcome {
  import opened Options
  import opened TaskStore
  import opened TaskSafety
  import opened TaskCancellation

  /** Completed if the plugin succeeded, cancelled if the loop was cancelled, each only if the cleanup
      succeeded; failed in every other case. */
  predicate StateFits(state: TaskState, outcome: PluginOutcome, cleanedUp: bool) {
    && (state.Completed? <==> outcome.Succeeded? && cleanedUp)
    && (state.Cancelled? <==> outcome.LoopCancelled? && cleanedUp)
    && (state.Failed? <==> outcome.ReportedFailure? || outcome.Raised? || outcome.TimedOut? || !cleanedUp)
  }

  /** What the plugin will have done when the run is over, if it gets that far. */
  ghost function OutcomeIn(w: World, events: seq<Event>, runner: nat): (outcome: Option<PluginOutcome>)
    requires PossibleRun(w, events)
    decreases |events|
  {
    if events == [] || runner !in w.runners then None
    else if events[0].Work? && events[0].runner == runner && w.runners[runner].pc.Executing? then Some(events[0].choice.outcome)
    else OutcomeIn(Next(w, events[0]), events[1..], runner)
  }

  ghost predicate CleanedIn(w: World, events: seq<Event>, runner: nat)
    requires PossibleRun(w, events)
    decreases |events|
  {
    && events != [] && runner in w.runners
    && if events[0].Work? && events[0].runner == runner && w.runners[runner].pc.Cleaning? then events[0].choice.cleanedUp
       else CleanedIn(Next(w, events[0]), events[1..], runner)
  }

  /** The state the task will be in, if the run ends with a result. */
  ghost predicate Foreseen(w: World, events: seq<Event>, runner: nat, state: TaskState)
    requires PossibleRun(w, events) && runner in w.runners
  {
    var cleanedUp := CleanedIn(w, events, runner);
    match w.runners[runner].pc
    case Interrupting(final) => state == if cleanedUp then final else Failed
    case AfterExecute(final) => state == if cleanedUp then final else Failed
    case Cleaning(final) => state == if cleanedUp then final else Failed
    case Finishing(final) => state == final
    case _ => OutcomeIn(w, events, runner).Some? && StateFits(state, OutcomeIn(w, events, runner).value, cleanedUp)
  }

  /** Where one step of the run itself takes it. */
  lemma OwnMove(w: World, runner: nat, c: Choice)
    requires WorldInv(w) && Possible(w, Work(runner, c)) && runner in w.runners && !w.runners[runner].pc.Fetched?
    ensures var x, t, pc := Next(w, Work(runner, c)), w.runners[runner].task, w.runners[runner].pc;
            if runner in x.runners then
              && x.runners[runner].task == t
              && match pc
                 case Executing =>
                   x.runners[runner].pc == if TimesOut(c.outcome) then Interrupting(FinalOf(c.outcome)) else AfterExecute(FinalOf(c.outcome))
                 case Interrupting(final) => x.runners[runner].pc == AfterExecute(final)
                 case AfterExecute(final) => x.runners[runner].pc == Cleaning(final)
                 case Cleaning(final) => x.runners[runner].pc == Finishing(if c.cleanedUp then final else Failed)
                 case Finishing(_) => false
                 case _ => x.runners[runner].pc.Started? || x.runners[runner].pc.MarkedInvoked? || x.runners[runner].pc.Executing?
            else
              Stranded(x, t) || (pc.Finishing? && t in x.store.inbox && x.store.inbox[t].state == pc.final && Terminal(pc.final))
  {
    OwnTask(w, runner);
    assert RunnersOk(w);
    OthersFetched(w, runner);
    hide WorldInv;
  }

  lemma OwnForesight(w: World, events: seq<Event>, runner: nat, state: TaskState)
    requires WorldInv(w) && events != [] && PossibleRun(w, events) && runner in w.runners && !w.runners[runner].pc.Fetched?
    requires events[0].Work? && events[0].runner == runner
    ensures var x, t := Next(w, events[0]), w.runners[runner].task;
            if runner in x.runners then
              && x.runners[runner].task == t && !x.runners[runner].pc.Fetched?
              && (Foreseen(x, events[1..], runner, state) && WithResult(state) ==> Foreseen(w, events, runner, state))
            else
              Stranded(x, t) || (t in x.store.inbox && Terminal(x.store.inbox[t].state) && Foreseen(w, events, runner, x.store.inbox[t].state))
  {
    OwnMove(w, runner, events[0].choice);
    NothingDecided(w, events, runner);
    hide WorldInv, Next, Possible, Stranded, OutcomeIn, CleanedIn, PossibleRun;
    if runner in Next(w, events[0]).runners && w.runners[runner].pc.Executing? {
      OutcomeForesight(w, events, runner, state);
    }
  }

  /** The step that decides the outcome. */
  lemma OutcomeForesight(w: World, events: seq<Event>, runner: nat, state: TaskState)
    requires events != [] && PossibleRun(w, events) && runner in w.runners && w.runners[runner].pc.Executing?
    requires events[0].Work? && events[0].runner == runner && runner in Next(w, events[0]).runners
    requires var pc, final := Next(w, events[0]).runners[runner].pc, FinalOf(events[0].choice.outcome);
             pc == Interrupting(final) || pc == AfterExecute(final)
    requires OutcomeIn(w, events, runner) == Some(events[0].choice.outcome)
    requires CleanedIn(w, events, runner) <==> CleanedIn(Next(w, events[0]), events[1..], runner)
    ensures Foreseen(Next(w, events[0]), events[1..], runner, state) && WithResult(state) ==> Foreseen(w, events, runner, state)
  {
    hide Next, Possible, OutcomeIn, CleanedIn, PossibleRun;
  }

  lemma OthersMove(w: World, e: Event, runner: nat)
    requires WorldInv(w) && Possible(w, e) && runner in w.runners && !w.runners[runner].pc.Fetched?
    requires !e.Restart? && e != Die(runner) && !(e.Work? && e.runner == runner)
    ensures var x := Next(w, e);
            runner in x.runners && x.runners[runner].task == w.runners[runner].task && x.runners[runner].pc == w.runners[runner].pc
  {
    if e != CancelToken(runner) {
      assert e.Fetch? ==> e.runner != runner;
      OthersKeep(w, e, runner);
      hide WorldInv, Next, Possible;
    } else {
      hide WorldInv;
    }
  }

  lemma OtherForesight(w: World, events: seq<Event>, runner: nat, state: TaskState)
    requires WorldInv(w) && events != [] && PossibleRun(w, events) && runner in w.runners && !w.runners[runner].pc.Fetched?
    requires !events[0].Restart? && events[0] != Die(runner) && !(events[0].Work? && events[0].runner == runner)
    ensures var x := Next(w, events[0]);
            && runner in x.runners && x.runners[runner].task == w.runners[runner].task && x.runners[runner].pc == w.runners[runner].pc
            && (Foreseen(x, events[1..], runner, state) <==> Foreseen(w, events, runner, state))
  {
    OthersMove(w, events[0], runner);
    NothingDecided(w, events, runner);
    hide WorldInv, Next, Possible, StateFits, OutcomeIn, CleanedIn, PossibleRun;
  }

  /** An event that is not a decisive step of the run leaves both open. */
  lemma NothingDecided(w: World, events: seq<Event>, runner: nat)
    requires events != [] && PossibleRun(w, events) && runner in w.runners
    ensures !(events[0].Work? && events[0].runner == runner && w.runners[runner].pc.Executing?) ==>
              OutcomeIn(w, events, runner) == OutcomeIn(Next(w, events[0]), events[1..], runner)
    ensures !(events[0].Work? && events[0].runner == runner && w.runners[runner].pc.Cleaning?) ==>
              (CleanedIn(w, events, runner) <==> CleanedIn(Next(w, events[0]), events[1..], runner))
    ensures events[0].Work? && events[0].runner == runner && w.runners[runner].pc.Executing? ==>
              OutcomeIn(w, events, runner) == Some(events[0].choice.outcome)
    ensures events[0].Work? && events[0].runner == runner && w.runners[runner].pc.Cleaning? ==>
              (CleanedIn(w, events, runner) <==> events[0].choice.cleanedUp)
  {
    hide Next, Possible;
  }

  lemma KilledStrands(w: World, runner: nat)
    requires WorldInv(w) && runner in w.runners && !w.runners[runner].pc.Fetched?
    ensures Stranded(Next(w, Die(runner)), w.runners[runner].task)
  {
    OwnTask(w, runner);
    assert RunnersOk(w);
    OthersFetched(w, runner);
    hide WorldInv;
  }

  lemma StrandedHasNone(w: World, events: seq<Event>, t: nat)
    requires WorldInv(w) && Stranded(w, t) && PossibleRun(w, events)
    ensures !HasResult(Play(w, events), t)
  {
    hide WorldInv, Next, Possible, Stranded;
    StrandedUntilRestart(w, events, t);
  }

  lemma RestartHasNone(w: World, events: seq<Event>, t: nat)
    requires WorldInv(w) && PossibleRun(w, events) && t in w.store.inbox && w.store.inbox[t].state.Interrupted?
    ensures !HasResult(Play(w, events), t)
  {
    hide WorldInv, Next, Possible;
    TerminalForever(w, events, t);
    PlayKeepsInv(w, events);
    NoResult(Play(w, events), t);
  }

  lemma {:induction false} ForeseenHolds(w: World, events: seq<Event>, runner: nat)
    requires WorldInv(w) && PossibleRun(w, events) && runner in w.runners && !w.runners[runner].pc.Fetched?
    requires HasResult(Play(w, events), w.runners[runner].task)
    ensures var x, t := Play(w, events), w.runners[runner].task;
            t in x.store.inbox && WithResult(x.store.inbox[t].state) && Foreseen(w, events, runner, x.store.inbox[t].state)
    decreases |events|
  {
    var t := w.runners[runner].task;
    OwnTask(w, runner);
    hide WorldInv, RunnerOk, HasResult;
    if events == [] {
      NotYet(w, t);
    } else {
      var e, rest := events[0], events[1..];
      NextKeepsInv(w, e);
      if e.Restart? {
        Interrupted(w, t);
        RestartHasNone(Next(w, e), rest, t);
      } else if e == Die(runner) {
        KilledStrands(w, runner);
        StrandedHasNone(Next(w, e), rest, t);
      } else {
        Goes(w, events, runner);
      }
    }
  }

  lemma Goes(w: World, events: seq<Event>, runner: nat)
    requires WorldInv(w) && PossibleRun(w, events) && events != [] && runner in w.runners && !w.runners[runner].pc.Fetched?
    requires !events[0].Restart? && events[0] != Die(runner) && WorldInv(Next(w, events[0]))
    requires HasResult(Play(w, events), w.runners[runner].task)
    ensures var x, t := Play(w, events), w.runners[runner].task;
            t in x.store.inbox && WithResult(x.store.inbox[t].state) && Foreseen(w, events, runner, x.store.inbox[t].state)
    decreases |events|, 0
  {
    var e, rest, t, x := events[0], events[1..], w.runners[runner].task, Next(w, events[0]);
    hide WorldInv, Next, Possible, HasResult, Foreseen, Stranded;
    var state := Stored(Play(x, rest), t);
    if e.Work? && e.runner == runner {
      OwnForesight(w, events, runner, state);
    } else {
      OtherForesight(w, events, runner, state);
    }
    if runner in x.runners {
      ForeseenHolds(x, rest, runner);
    } else if Stranded(x, t) {
      StrandedHasNone(x, rest, t);
    } else {
      TerminalForever(x, rest, t);
      PlayKeepsInv(x, rest);
      ResultState(Play(x, rest), t);
    }
  }

  lemma NotYet(w: World, t: nat)
    requires WorldInv(w) && t in w.store.inbox && Unfinished(w.store.inbox[t].state)
    ensures !HasResult(w, t)
  {
    NoResult(w, t);
  }

  lemma Interrupted(w: World, t: nat)
    requires t in w.store.inbox && Unfinished(w.store.inbox[t].state)
    ensures var x := Next(w, Restart); t in x.store.inbox && x.store.inbox[t].state.Interrupted?
  {
  }

  lemma ResultState(x: World, t: nat)
    requires WorldInv(x) && t in x.store.inbox && HasResult(x, t)
    ensures WithResult(x.store.inbox[t].state)
  {
    if !WithResult(x.store.inbox[t].state) {
      NoResult(x, t);
    }
  }

  /** In every run of the world, whatever runs beside it, a claimed run that ends with a result has had its
      plugin's outcome and its cleanup, and leaves its task - and the effect of its key - completed exactly
      if the plugin succeeded and was cleaned up, cancelled exactly if the loop was cancelled and it was
      cleaned up, and failed in every other case. */
  lemma ResultSaysOutcome(w: World, events: seq<Event>, runner: nat)
    requires Reached(w) && PossibleRun(w, events) && runner in w.runners
    requires w.runners[runner].pc.HasClaim? && HasResult(Play(w, events), w.runners[runner].task)
    ensures var x, t, outcome, cleanedUp := Play(w, events), w.runners[runner].task, OutcomeIn(w, events, runner), CleanedIn(w, events, runner);
            && t in x.store.inbox && outcome.Some?
            && var state := x.store.inbox[t].state;
            && (state.Completed? <==> outcome.value.Succeeded? && cleanedUp)
            && (state.Cancelled? <==> outcome.value.LoopCancelled? && cleanedUp)
            && (state.Failed? <==> outcome.value.ReportedFailure? || outcome.value.Raised? || outcome.value.TimedOut? || !cleanedUp)
            && x.store.inbox[t].key in x.store.effects
            && x.store.effects[x.store.inbox[t].key].terminal.Some?
            && x.store.effects[x.store.inbox[t].key].terminal.value.0 == state
  {
    ReachedInv(w);
    hide WorldInv, Next, Possible;
    ForeseenHolds(w, events, runner);
    PlayKeepsInv(w, events);
    EffectAgrees(Play(w, events), w.runners[runner].task);
  }

  lemma EffectAgrees(x: World, t: nat)
    requires WorldInv(x) && t in x.store.inbox && WithResult(x.store.inbox[t].state)
    ensures x.store.inbox[t].key in x.store.effects && x.store.effects[x.store.inbox[t].key].terminal.Some?
    ensures x.store.effects[x.store.inbox[t].key].terminal.value.0 == x.store.inbox[t].state
  {
    assert RowOk(x.store, t);
  }
}
