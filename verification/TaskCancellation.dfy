/** When a claimed run ends with a result, and what becomes of the task when it does not.

    The stored state only follows the token where run() itself cancels it, on a timeout or a cancelled
    loop; a token cancelled from outside makes the next transition expect a state nobody stored. */
module TaskCancellation {
  import opened Options
  import opened TaskStore
  import opened TaskSafety

  predicate TimesOut(outcome: PluginOutcome) {
    outcome.TimedOut? || outcome.LoopCancelled?
  }

  /** Nobody kills the run: the process does not restart, nothing else raises out of it, and its
      identifier is not given to another run. */
  predicate LeftAlone(events: seq<Event>, runner: nat) {
    forall i | 0 <= i < |events| :: !events[i].Restart? && events[i] != Die(runner) && !(events[i].Fetch? && events[i].runner == runner)
  }

  /** cancel() reaches the run's token before the check. */
  ghost predicate Touched(w: World, events: seq<Event>, runner: nat)
    requires PossibleRun(w, events)
    decreases |events|
  {
    && events != [] && runner in w.runners && !w.runners[runner].pc.Cleaning? && !w.runners[runner].pc.Finishing?
    && ((events[0] == CancelToken(runner) && HasToken(w.runners[runner].pc)) || Touched(Next(w, events[0]), events[1..], runner))
  }

  /** The run's plugin times out, or the loop cancels it. */
  ghost predicate Late(w: World, events: seq<Event>, runner: nat)
    requires PossibleRun(w, events)
    decreases |events|
  {
    && events != [] && runner in w.runners
    && if events[0].Work? && events[0].runner == runner && w.runners[runner].pc.Executing? then TimesOut(events[0].choice.outcome)
       else Late(Next(w, events[0]), events[1..], runner)
  }

  /** Whether a run that is at some point of its execution will end with a result. */
  ghost predicate Promised(w: World, events: seq<Event>, runner: nat)
    requires PossibleRun(w, events) && runner in w.runners
  {
    var r := w.runners[runner];
    var token := r.token || Touched(w, events, runner);
    match r.pc
    case Interrupting(_) => token
    case AfterExecute(_) => token <==> Stored(w, r.task).CancelRequested?
    case Cleaning(_) => true
    case Finishing(_) => true
    case _ => !token || Late(w, events, runner)
  }

  function Stored(w: World, t: nat): (state: TaskState) {
    if t in w.store.inbox then w.store.inbox[t].state else Received
  }

  /** Unfinished, and nobody is executing it. */
  ghost predicate Stranded(w: World, t: nat) {
    && t in w.store.inbox && Unfinished(w.store.inbox[t].state)
    && forall a | a in w.runners && w.runners[a].task == t :: w.runners[a].pc.Fetched?
  }

  /** A token is not cancelled before it is registered, and is cancelled where the stored state says so. */
  ghost predicate TokenOk(w: World, r: Runner) {
    && (!HasToken(r.pc) ==> !r.token)
    && (r.pc.Interrupting? || (r.pc.AfterExecute? && Stored(w, r.task).CancelRequested?) ==> r.token)
  }

  ghost predicate TokensOk(w: World) {
    forall a | a in w.runners :: TokenOk(w, w.runners[a])
  }

  /* What the events of others leave alone. */

  ghost predicate Keeps(w: World, x: World, t: nat) {
    t in w.store.inbox && t in x.store.inbox && x.store.inbox[t].state == w.store.inbox[t].state
  }

  /** Only a task that is queued can be touched by a runner that has not claimed it. */
  lemma OtherRunner(w: World, other: nat, c: Choice, t: nat)
    requires WorldInv(w) && Possible(w, Work(other, c)) && t in w.store.inbox && Unfinished(w.store.inbox[t].state)
    requires w.runners[other].task != t || w.runners[other].pc.Fetched?
    ensures var x := Ran(w, other, c);
            && Keeps(w, x, t) && (other in x.runners && x.runners[other].task == t ==> x.runners[other].pc.Fetched?)
            && (forall a | a in w.runners && a != other :: a in x.runners && x.runners[a] == w.runners[a])
            && (forall a | a in x.runners :: a in w.runners && x.runners[a].task == w.runners[a].task)
  {
    hide WorldInv;
  }

  /** An event that is not about this run and not a restart changes neither its runner nor its task. */
  lemma OthersKeep(w: World, e: Event, runner: nat)
    requires WorldInv(w) && Possible(w, e) && runner in w.runners && !w.runners[runner].pc.Fetched?
    requires !e.Restart? && e != Die(runner) && e != CancelToken(runner) && !((e.Work? || e.Fetch?) && e.runner == runner)
    ensures var x := Next(w, e);
            runner in x.runners && x.runners[runner] == w.runners[runner] && Keeps(w, x, w.runners[runner].task)
  {
    OwnTask(w, runner);
    if e.Work? {
      assert RunnersOk(w);
      OthersFetched(w, runner);
      hide WorldInv, Ran;
      OtherRunner(w, e.runner, e.choice, w.runners[runner].task);
    } else {
      hide WorldInv;
    }
  }

  /** A task in execution is unfinished, and in the state its runner knows. */
  lemma OwnTask(w: World, runner: nat)
    requires WorldInv(w) && runner in w.runners && !w.runners[runner].pc.Fetched?
    ensures w.runners[runner].task in w.store.inbox && Unfinished(w.store.inbox[w.runners[runner].task].state)
    ensures RunnerOk(w, w.runners[runner])
  {
    assert RunnerOk(w, w.runners[runner]);
  }

  /* A stranded task. */

  lemma StrandedStep(w: World, e: Event, t: nat)
    requires WorldInv(w) && Possible(w, e) && Stranded(w, t) && !e.Restart?
    ensures Stranded(Next(w, e), t) && Keeps(w, Next(w, e), t)
  {
    if e.Work? {
      hide WorldInv, Ran;
      OtherRunner(w, e.runner, e.choice, t);
    } else {
      hide WorldInv;
    }
  }

  lemma NoResult(w: World, t: nat)
    requires WorldInv(w) && t in w.store.inbox && !WithResult(w.store.inbox[t].state)
    ensures forall r | r in w.store.results :: w.store.results[r] != t
  {
    assert RowOk(w.store, t);
  }

  /** A stranded task stays as it is, without a result, until the process restarts; then it is
      interrupted, and never has a result either. */
  lemma {:induction false} StrandedUntilRestart(w: World, events: seq<Event>, t: nat)
    requires WorldInv(w) && Stranded(w, t) && PossibleRun(w, events)
    ensures var x := Play(w, events);
            && t in x.store.inbox
            && x.store.inbox[t].state == (if Restart in events then Interrupted else w.store.inbox[t].state)
            && forall r | r in x.store.results :: x.store.results[r] != t
    decreases |events|
  {
    hide WorldInv, Next, Possible, Stranded;
    if events == [] {
      StrandedRow(w, t);
      NoResult(w, t);
    } else {
      assert events == [events[0]] + events[1..];
      var x := Next(w, events[0]);
      NextKeepsInv(w, events[0]);
      if events[0].Restart? {
        RestartInterrupts(w, t);
        TerminalForever(x, events[1..], t);
        PlayKeepsInv(x, events[1..]);
        NoResult(Play(x, events[1..]), t);
      } else {
        StrandedStep(w, events[0], t);
        StrandedUntilRestart(x, events[1..], t);
      }
    }
  }

  lemma {:induction false} StaysStranded(w: World, events: seq<Event>, t: nat)
    requires WorldInv(w) && Stranded(w, t) && PossibleRun(w, events)
    requires forall i | 0 <= i < |events| :: !events[i].Restart?
    ensures Stranded(Play(w, events), t) && Keeps(w, Play(w, events), t)
    decreases |events|
  {
    hide WorldInv, Next, Possible;
    if events != [] {
      NextKeepsInv(w, events[0]);
      StrandedStep(w, events[0], t);
      StaysStranded(Next(w, events[0]), events[1..], t);
    }
  }

  lemma StrandedRow(w: World, t: nat)
    requires Stranded(w, t)
    ensures t in w.store.inbox && !WithResult(w.store.inbox[t].state)
  {
  }

  lemma RestartInterrupts(w: World, t: nat)
    requires Stranded(w, t)
    ensures t in Next(w, Restart).store.inbox && Next(w, Restart).store.inbox[t].state == Interrupted
  {
  }

  /* A run that is left to finish. */

  /** A run is over: its task has its result, or it is stranded where the check failed. */
  ghost predicate Over(x: World, t: nat, finished: bool) {
    && t in x.store.inbox
    && if finished then WithResult(x.store.inbox[t].state)
       else x.store.inbox[t].state.Running? && Stranded(x, t)
  }

  lemma OverForGood(w: World, events: seq<Event>, t: nat, finished: bool)
    requires WorldInv(w) && PossibleRun(w, events) && Over(w, t, finished)
    requires forall i | 0 <= i < |events| :: !events[i].Restart?
    ensures Over(Play(w, events), t, finished)
  {
    hide WorldInv, Next, Possible, Stranded;
    if finished {
      TerminalForever(w, events, t);
    } else {
      StaysStranded(w, events, t);
    }
  }

  /** One step of the run itself: it is over, rightly, or what was promised still is. */
  lemma OwnStep(w: World, events: seq<Event>, runner: nat)
    requires WorldInv(w) && events != [] && PossibleRun(w, events) && runner in w.runners && !w.runners[runner].pc.Fetched?
    requires events[0].Work? && events[0].runner == runner && TokenOk(w, w.runners[runner])
    ensures var x := Next(w, events[0]);
            if runner in x.runners then
              && x.runners[runner].task == w.runners[runner].task && !x.runners[runner].pc.Fetched?
              && (Promised(x, events[1..], runner) <==> Promised(w, events, runner))
            else
              Over(x, w.runners[runner].task, Promised(w, events, runner))
  {
    OwnTask(w, runner);
    assert RunnersOk(w);
    OthersFetched(w, runner);
    hide WorldInv;
    var x, r := Next(w, events[0]), w.runners[runner];
    if runner !in x.runners {
      assert !Touched(x, events[1..], runner);
      assert r.pc.Finishing? || r.pc.AfterExecute?;
      if r.pc.AfterExecute? {
        assert x.store == w.store;
        assert Promised(w, events, runner) <==> (r.token <==> Stored(w, r.task).CancelRequested?);
        assert Stranded(x, r.task);
      }
    } else {
      assert !r.pc.Cleaning? && !r.pc.Finishing? ==> (Touched(w, events, runner) <==> Touched(x, events[1..], runner));
      assert !r.pc.Executing? ==> (Late(w, events, runner) <==> Late(x, events[1..], runner));
      if r.pc.Executing? {
        assert Late(w, events, runner) <==> TimesOut(events[0].choice.outcome);
        assert !TimesOut(events[0].choice.outcome) ==> Stored(x, r.task).Running?;
        assert TimesOut(events[0].choice.outcome) ==> x.runners[runner].token;
      } else if r.pc.Interrupting? {
        assert Stored(x, r.task).CancelRequested?;
      }
    }
  }

  /** A step of somebody else, or a cancellation, leaves the promise as it is. */
  lemma OtherStep(w: World, events: seq<Event>, runner: nat)
    requires WorldInv(w) && events != [] && PossibleRun(w, events) && runner in w.runners && !w.runners[runner].pc.Fetched?
    requires LeftAlone(events, runner) && !(events[0].Work? && events[0].runner == runner)
    ensures var x := Next(w, events[0]);
            && runner in x.runners && x.runners[runner].task == w.runners[runner].task && x.runners[runner].pc == w.runners[runner].pc
            && (Promised(x, events[1..], runner) <==> Promised(w, events, runner))
  {
    var e := events[0];
    OwnTask(w, runner);
    if e != CancelToken(runner) {
      OthersKeep(w, e, runner);
      hide WorldInv, Next, Possible;
    } else {
      hide WorldInv;
    }
  }

  lemma NextKeepsTokens(w: World, e: Event)
    requires WorldInv(w) && TokensOk(w) && Possible(w, e)
    ensures TokensOk(Next(w, e))
  {
    hide WorldInv;
    var x := Next(w, e);
    forall a | a in x.runners ensures TokenOk(x, x.runners[a]) {
      if a in w.runners && !w.runners[a].pc.Fetched? && !e.Restart? && e != CancelToken(a) && !((e.Work? || e.Fetch?) && e.runner == a) && e != Die(a) {
        assert TokenOk(w, w.runners[a]);
        OthersKeep(w, e, a);
      } else {
        if a in w.runners {
          assert TokenOk(w, w.runners[a]);
          RunnerKnows(w, a);
        }
        OtherTokens(w, e, a);
      }
    }
  }

  lemma RunnerKnows(w: World, a: nat)
    requires WorldInv(w) && a in w.runners
    ensures RunnerOk(w, w.runners[a])
  {
  }

  /** The run's own events, and those while it has not claimed anything. */
  lemma OtherTokens(w: World, e: Event, a: nat)
    requires Possible(w, e) && a in Next(w, e).runners && (a in w.runners ==> TokenOk(w, w.runners[a]) && RunnerOk(w, w.runners[a]))
    requires a !in w.runners || w.runners[a].pc.Fetched? || e.Restart? || e == CancelToken(a) || ((e.Work? || e.Fetch?) && e.runner == a) || e == Die(a)
    ensures TokenOk(Next(w, e), Next(w, e).runners[a])
  {
  }

  lemma {:induction false} PlayKeepsTokens(w: World, events: seq<Event>)
    requires WorldInv(w) && TokensOk(w) && PossibleRun(w, events)
    ensures TokensOk(Play(w, events))
    decreases |events|
  {
    hide WorldInv, Next, Possible, TokensOk;
    if events != [] {
      NextKeepsInv(w, events[0]);
      NextKeepsTokens(w, events[0]);
      PlayKeepsTokens(Next(w, events[0]), events[1..]);
    }
  }

  lemma ReachedTokens(w: World)
    requires Reached(w)
    ensures WorldInv(w) && TokensOk(w)
  {
    hide WorldInv, Next, Possible;
    ReachedInv(w);
    var events :| PossibleRun(BEGIN, events) && Play(BEGIN, events) == w;
    BeginInv();
    PlayKeepsTokens(BEGIN, events);
  }

  /** A claimed run that nobody kills ends with a result if and only if its token was not cancelled
      before the check, or the plugin timed out or was cancelled by the loop; otherwise its task is
      stranded. */
  lemma {:induction false} PromiseKept(w: World, events: seq<Event>, runner: nat)
    requires WorldInv(w) && TokensOk(w) && PossibleRun(w, events) && LeftAlone(events, runner)
    requires runner in w.runners && !w.runners[runner].pc.Fetched?
    requires runner !in Play(w, events).runners
    ensures Over(Play(w, events), w.runners[runner].task, Promised(w, events, runner))
    decreases |events|
  {
    hide WorldInv, Next, Possible, Promised, Over, TokenOk;
    if events != [] {
      var x, rest := Next(w, events[0]), events[1..];
      NextKeepsInv(w, events[0]);
      NextKeepsTokens(w, events[0]);
      assert LeftAlone(rest, runner);
      if events[0].Work? && events[0].runner == runner {
        OwnStep(w, events, runner);
        if runner !in x.runners {
          OverForGood(x, rest, w.runners[runner].task, Promised(w, events, runner));
        } else {
          PromiseKept(x, rest, runner);
        }
      } else {
        OtherStep(w, events, runner);
        PromiseKept(x, rest, runner);
      }
    }
  }

  ghost predicate HasResult(w: World, t: nat) {
    exists r :: r in w.store.results && w.store.results[r] == t
  }

  lemma OverMeans(x: World, t: nat, finished: bool)
    requires WorldInv(x) && Over(x, t, finished)
    ensures t in x.store.inbox && (HasResult(x, t) <==> finished) && (WithResult(x.store.inbox[t].state) <==> finished)
    ensures !finished ==> x.store.inbox[t].state.Running? && Stranded(x, t)
  {
    if finished {
      assert RowOk(x.store, t);
      var r := x.store.effects[x.store.inbox[t].key].terminal.value.1;
      assert r in x.store.results && x.store.results[r] == t;
    } else {
      NoResult(x, t);
    }
  }

  /** From the claim on: if nobody kills it, a run ends with a result if and only if cancel() did not
      reach its token before the check, or its plugin timed out or the loop cancelled it.  Otherwise
      the task is left running with nobody to run it. */
  lemma ResultIffUntouched(w: World, events: seq<Event>, runner: nat)
    requires Reached(w) && PossibleRun(w, events) && LeftAlone(events, runner)
    requires runner in w.runners && w.runners[runner].pc.HasClaim? && runner !in Play(w, events).runners
    ensures var x, t := Play(w, events), w.runners[runner].task;
            && t in x.store.inbox
            && (HasResult(x, t) <==> !Touched(w, events, runner) || Late(w, events, runner))
            && (WithResult(x.store.inbox[t].state) <==> HasResult(x, t))
            && (!HasResult(x, t) ==> x.store.inbox[t].state.Running? && Stranded(x, t))
  {
    hide WorldInv, Next, Possible, Over, Stranded;
    ReachedTokens(w);
    assert TokenOk(w, w.runners[runner]);
    PromiseKept(w, events, runner);
    PlayKeepsInv(w, events);
    OverMeans(Play(w, events), w.runners[runner].task, Promised(w, events, runner));
  }

  lemma {:induction false} NotTouched(w: World, events: seq<Event>, runner: nat)
    requires PossibleRun(w, events) && CancelToken(runner) !in events
    ensures !Touched(w, events, runner)
    decreases |events|
  {
    hide Next, Possible;
    if events != [] && runner in w.runners {
      NotTouched(Next(w, events[0]), events[1..], runner);
    }
  }

  /** At the check, with no cancellation still to come, the token and the stored state decide: the run
      ends with a result if and only if they agree. */
  lemma ResultIffAgreed(w: World, events: seq<Event>, runner: nat)
    requires Reached(w) && PossibleRun(w, events) && LeftAlone(events, runner) && CancelToken(runner) !in events
    requires runner in w.runners && w.runners[runner].pc.AfterExecute? && runner !in Play(w, events).runners
    ensures var x, t := Play(w, events), w.runners[runner].task;
            && t in w.store.inbox && t in x.store.inbox
            && (HasResult(x, t) <==> (w.runners[runner].token <==> w.store.inbox[t].state.CancelRequested?))
            && (!HasResult(x, t) ==> x.store.inbox[t].state.Running? && Stranded(x, t))
  {
    hide WorldInv, Next, Possible, Over, Stranded;
    ReachedTokens(w);
    OwnTask(w, runner);
    PromiseKept(w, events, runner);
    NotTouched(w, events, runner);
    PlayKeepsInv(w, events);
    OverMeans(Play(w, events), w.runners[runner].task, Promised(w, events, runner));
  }

  /** The run's own three steps from the check, if the token and the stored state agree: cleaning up,
      and its result. */
  lemma AgreedRunsToResult(w: World, runner: nat, c: Choice)
    requires WorldInv(w) && Possible(w, Work(runner, c)) && w.runners[runner].pc.AfterExecute?
    requires w.runners[runner].token <==> Stored(w, w.runners[runner].task).CancelRequested?
    ensures var work := Work(runner, c);
            && PossibleRun(w, [work, work, work]) && runner !in Play(w, [work, work, work]).runners
            && c.result in Play(w, [work, work, work]).store.results
  {
    OwnTask(w, runner);
    hide WorldInv, RunnerOk;
    var work := Work(runner, c);
    var x := Next(w, work);
    CheckPasses(w, runner, c);
    var y := Next(x, work);
    CleanUpEnds(x, runner, c);
    hide Next, Possible;
    assert [work, work, work] == [work] + [work] + [work];
    assert [work][1..] == [] && PossibleRun(w, [work]) && Play(w, [work]) == x;
    PlayAppend(w, [work], work);
    PlayAppend(w, [work] + [work], work);
  }

  lemma CheckPasses(w: World, runner: nat, c: Choice)
    requires Possible(w, Work(runner, c)) && w.runners[runner].pc.AfterExecute? && RunnerOk(w, w.runners[runner])
    requires w.runners[runner].token <==> Stored(w, w.runners[runner].task).CancelRequested?
    ensures var x, r := Next(w, Work(runner, c)), w.runners[runner];
            && Possible(x, Work(runner, c)) && x.runners[runner] == r.(pc := Cleaning(r.pc.final))
            && Stored(x, r.task).CleaningUp? && WithResult(r.pc.final)
  {
  }

  lemma CleanUpEnds(x: World, runner: nat, c: Choice)
    requires Possible(x, Work(runner, c)) && x.runners[runner].pc.Cleaning? && Stored(x, x.runners[runner].task).CleaningUp?
    requires WithResult(x.runners[runner].pc.final)
    ensures var y := Next(x, Work(runner, c));
            && Possible(y, Work(runner, c)) && runner !in Next(y, Work(runner, c)).runners
            && c.result in Next(y, Work(runner, c)).store.results
  {
  }

  /* The stranded state is reached: the only task is claimed, its plugin is called, cancel() comes, and
     the plugin returns. */

  const ONLY: Task := Task(1, 2, 3, 4)
  const PLAIN: Choice := Choice(None, Succeeded, true, 5)

  lemma CancelledTaskStrands()
    ensures exists events :: PossibleRun(BEGIN, events) && Restart !in events
              && Stranded(Play(BEGIN, events), 1) && Play(BEGIN, events).store.inbox[1].state.Running?
  {
    hide Next, Possible, Stranded, PossibleRun, Play;
    var work := Work(7, PLAIN);
    var begun := [Ingest(ONLY), Fetch(7, 1), work, work, work, work];
    ExecutingNow(begun);
    var w := Play(BEGIN, begun);
    StrandedNow(w);
    PlayAppend(BEGIN, begun, CancelToken(7));
    var x := Next(w, CancelToken(7));
    PlayAppend(BEGIN, begun + [CancelToken(7)], work);
    var y := Next(x, work);
    PlayAppend(BEGIN, begun + [CancelToken(7)] + [work], work);
    var events := begun + [CancelToken(7)] + [work] + [work];
    assert Play(BEGIN, events) == Next(y, work) && Restart !in events;
  }

  ghost predicate OnlyExecuting(w: World) {
    && w.runners == map[7 := Runner(1, Executing, false)]
    && 1 in w.store.inbox && w.store.inbox[1].state.Running? && 5 !in w.store.results
  }

  lemma ExecutingNow(begun: seq<Event>)
    requires begun == [Ingest(ONLY), Fetch(7, 1), Work(7, PLAIN), Work(7, PLAIN), Work(7, PLAIN), Work(7, PLAIN)]
    ensures PossibleRun(BEGIN, begun) && OnlyExecuting(Play(BEGIN, begun))
  {
    var work := Work(7, PLAIN);
    var a := Next(BEGIN, Ingest(ONLY));
    var b := Next(a, Fetch(7, 1));
    FirstClaim();
    var c := Next(b, work);
    hide Next, Possible;
    ClaimedRuns(c);
    hide PossibleRun, Play, OnlyExecuting;
    ThreeMore(c, work);
    OneMore(b, work, [work, work, work]);
    OneMore(a, Fetch(7, 1), [work, work, work, work]);
    OneMore(BEGIN, Ingest(ONLY), [Fetch(7, 1), work, work, work, work]);
    assert [work] + [work, work, work] == [work, work, work, work];
    assert [Fetch(7, 1)] + [work, work, work, work] == [Fetch(7, 1), work, work, work, work];
    assert [Ingest(ONLY)] + [Fetch(7, 1), work, work, work, work] == begun;
  }

  lemma ThreeMore(c: World, e: Event)
    requires Possible(c, e) && Possible(Next(c, e), e) && Possible(Next(Next(c, e), e), e)
    ensures PossibleRun(c, [e, e, e]) && Play(c, [e, e, e]) == Next(Next(Next(c, e), e), e)
  {
    hide Next, Possible;
    EmptyRun(Next(Next(Next(c, e), e), e));
    OneMore(Next(Next(c, e), e), e, []);
    OneMore(Next(c, e), e, [e]);
    OneMore(c, e, [e, e]);
    assert [e] + [] == [e] && [e] + [e] == [e, e] && [e] + [e, e] == [e, e, e];
  }

  lemma FirstClaim()
    ensures var work := Work(7, PLAIN);
            && Possible(BEGIN, Ingest(ONLY)) && Possible(Next(BEGIN, Ingest(ONLY)), Fetch(7, 1))
            && var b := Next(Next(BEGIN, Ingest(ONLY)), Fetch(7, 1));
            && Possible(b, work)
            && var c := Next(b, work);
            && c.runners == map[7 := Runner(1, HasClaim, false)] && c.store.results == map[]
            && 1 in c.store.inbox && c.store.inbox[1].state.Preparing? && CanMark(c.store, 1)
  {
    var a := Next(BEGIN, Ingest(ONLY));
    assert a == World(Tables(map[1 := Row(2, 3, 4, Queued)], map[2 := Effect(3, 1, false, None)], map[], map[]), map[], []);
    var b := Next(a, Fetch(7, 1));
    assert b == a.(runners := map[7 := Runner(1, Fetched, false)]);
    assert Claimable(b.store, 1);
  }

  lemma ClaimedRuns(c: World)
    requires c.runners == map[7 := Runner(1, HasClaim, false)] && c.store.results == map[]
    requires 1 in c.store.inbox && c.store.inbox[1].state.Preparing? && CanMark(c.store, 1)
    ensures var work := Work(7, PLAIN);
            && Possible(c, work) && Possible(Next(c, work), work) && Possible(Next(Next(c, work), work), work)
            && OnlyExecuting(Next(Next(Next(c, work), work), work))
  {
    var work := Work(7, PLAIN);
    var d := Next(c, work);
    assert d.runners == map[7 := Runner(1, Started, false)];
    var e := Next(d, work);
    assert e.runners == map[7 := Runner(1, MarkedInvoked, false)];
    assert Next(e, work).runners == map[7 := Runner(1, Executing, false)];
  }

  lemma EmptyRun(w: World)
    ensures PossibleRun(w, []) && Play(w, []) == w
  {
  }

  lemma OneMore(w: World, e: Event, rest: seq<Event>)
    requires Possible(w, e) && PossibleRun(Next(w, e), rest)
    ensures PossibleRun(w, [e] + rest) && Play(w, [e] + rest) == Play(Next(w, e), rest)
  {
    hide Next, Possible;
    assert ([e] + rest)[1..] == rest;
  }

  lemma StrandedNow(w: World)
    requires OnlyExecuting(w)
    ensures var work := Work(7, PLAIN);
            && Possible(w, CancelToken(7)) && Possible(Next(w, CancelToken(7)), work)
            && var y := Next(Next(w, CancelToken(7)), work);
            && Possible(y, work) && Stranded(Next(y, work), 1) && Next(y, work).store.inbox[1].state.Running?
  {
  }
}
