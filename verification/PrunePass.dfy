/** Whole recovery passes over the active prune records, in any order and under an operation limit. */
module PrunePass {
  import opened OutboxState
  import opened OutboxInvariant
  import opened OutboxPlans
  import opened PruneRecovery

  /** The state after an undamaged active record has been dealt with. */
  ghost function Settled(s: State, o: nat): (t: State)
    requires Inv(s) && Recoverable(s, o)
    ensures LegalRun(s, RecoverPlan(s, o)) && t == Run(s, RecoverPlan(s, o)) && Inv(t)
    ensures t == if Wins(s, o) then Completed(s, o) else GivenUp(s, o)
  {
    RecoveryRuns(s, o);
    Run(s, RecoverPlan(s, o))
  }

  lemma RecoveryRuns(s: State, o: nat)
    requires Inv(s) && Recoverable(s, o)
    ensures LegalRun(s, RecoverPlan(s, o)) && Inv(Run(s, RecoverPlan(s, o)))
    ensures Run(s, RecoverPlan(s, o)) == if Wins(s, o) then Completed(s, o) else GivenUp(s, o)
  {
    if Wins(s, o) {
      WinnerRecovers(s, o);
    } else {
      LoserRecovers(s, o);
    }
    RunKeepsInv(s, RecoverPlan(s, o));
  }

  /** Only an operation that reaches file recovery counts against the pass's limit. */
  ghost predicate Counted(s: State, o: nat)
    requires o in s.journal
  {
    Prepared in s.journal[o] && ManualRecoveryRequired !in s.journal[o] && o !in s.retired
    && (SqliteUpdated in s.journal[o] ==> Quarantined in s.journal[o])
  }

  /** One pass over the records `os`, in that order.  A damaged record is reported and left alone; the
      pass stops at the first operation beyond its limit. */
  ghost function PassPlan(s: State, os: seq<nat>, limit: nat): (ws: seq<Write>)
    requires Inv(s) && Pending(s, os)
    decreases |os|
  {
    if os == [] then []
    else
      var o, rest := os[0], os[1..];
      if o in s.damaged then PassPlan(s, rest, limit)
      else if !Counted(s, o) then PendingAfter(s, os); RecoverPlan(s, o) + PassPlan(Settled(s, o), rest, limit)
      else if limit == 0 then []
      else PendingAfter(s, os); RecoverPlan(s, o) + PassPlan(Settled(s, o), rest, limit - 1)
  }

  /** `os` lists records that are still active, each once. */
  ghost predicate Pending(s: State, os: seq<nat>) {
    && (forall k | 0 <= k < |os| :: os[k] in s.active)
    && (forall j, k | 0 <= j < k < |os| :: os[j] != os[k])
  }

  lemma SettledFiles(s: State, o: nat)
    requires Inv(s) && Recoverable(s, o)
    ensures Settled(s, o).active == s.active - {o} && Settled(s, o).damaged == s.damaged
    ensures Settled(s, o).operations == s.operations
    ensures o in Settled(s, o).retired + Settled(s, o).conflicts
  {
  }

  lemma PendingAfter(s: State, os: seq<nat>)
    requires Inv(s) && os != [] && Pending(s, os) && Recoverable(s, os[0])
    ensures Pending(Settled(s, os[0]), os[1..])
  {
    hide Inv;
    SettledFiles(s, os[0]);
    RestPending(s.active, Settled(s, os[0]), os);
  }

  lemma RestPending(active: set<nat>, t: State, os: seq<nat>)
    requires os != [] && t.active == active - {os[0]}
    requires forall k | 0 <= k < |os| :: os[k] in active
    requires forall j, k | 0 <= j < k < |os| :: os[j] != os[k]
    ensures Pending(t, os[1..])
  {
  }

  lemma {:induction false} PassRuns(s: State, os: seq<nat>, limit: nat)
    requires Inv(s) && Pending(s, os)
    ensures LegalRun(s, PassPlan(s, os, limit)) && Inv(Run(s, PassPlan(s, os, limit)))
    decreases |os|
  {
    hide Inv, Settled, RecoverPlan;
    if os != [] {
      var o, rest := os[0], os[1..];
      ActiveIsKnown(s, o);
      if o in s.damaged {
        PassRuns(s, rest, limit);
      } else if !Counted(s, o) || limit > 0 {
        var next := if Counted(s, o) then limit - 1 else limit;
        PendingAfter(s, os);
        PassRuns(Settled(s, o), rest, next);
        RunAppend(s, RecoverPlan(s, o), PassPlan(Settled(s, o), rest, next));
      }
    }
  }

  /** The state one pass leaves. */
  ghost function PassState(s: State, os: seq<nat>, limit: nat): (t: State)
    requires Inv(s) && Pending(s, os)
    ensures LegalRun(s, PassPlan(s, os, limit)) && t == Run(s, PassPlan(s, os, limit)) && Inv(t)
  {
    PassRuns(s, os, limit);
    Run(s, PassPlan(s, os, limit))
  }

  lemma PassUnfolds(s: State, os: seq<nat>, limit: nat)
    requires Inv(s) && Pending(s, os) && os != []
    ensures os[0] in s.damaged ==> PassState(s, os, limit) == PassState(s, os[1..], limit)
    ensures os[0] !in s.damaged && !Counted(s, os[0]) ==>
              Pending(Settled(s, os[0]), os[1..]) && PassState(s, os, limit) == PassState(Settled(s, os[0]), os[1..], limit)
    ensures os[0] !in s.damaged && Counted(s, os[0]) && limit == 0 ==> PassState(s, os, limit) == s
    ensures os[0] !in s.damaged && Counted(s, os[0]) && limit > 0 ==>
              Pending(Settled(s, os[0]), os[1..]) && PassState(s, os, limit) == PassState(Settled(s, os[0]), os[1..], limit - 1)
  {
    hide Inv;
    var o, rest := os[0], os[1..];
    ActiveIsKnown(s, o);
    if o !in s.damaged && (!Counted(s, o) || limit > 0) {
      var next := if Counted(s, o) then limit - 1 else limit;
      PendingAfter(s, os);
      PassRuns(Settled(s, o), rest, next);
      RunAppend(s, RecoverPlan(s, o), PassPlan(Settled(s, o), rest, next));
    }
  }

  /** A pass never reopens or adds a record, and closes one for every operation its limit allows. */
  lemma {:induction false} PassProgress(s: State, os: seq<nat>, limit: nat)
    requires Inv(s) && Pending(s, os) && s.damaged == {}
    ensures PassState(s, os, limit).active <= s.active && PassState(s, os, limit).damaged == {}
    ensures |PassState(s, os, limit).active| <= |s.active| - if limit < |os| then limit else |os|
    decreases |os|
  {
    hide Inv;
    if os != [] {
      PassUnfolds(s, os, limit);
      var o, rest := os[0], os[1..];
      ActiveIsKnown(s, o);
      if !Counted(s, o) || limit > 0 {
        SettledFiles(s, o);
        PassProgress(Settled(s, o), rest, if Counted(s, o) then limit - 1 else limit);
      }
    } else {
      assert PassState(s, os, limit) == s;
    }
  }

  /** A listing of the active directory. */
  ghost predicate Listing(s: State, os: seq<nat>) {
    Pending(s, os) && forall o | o in s.active :: o in os
  }

  lemma {:induction false} ListingSize(active: set<nat>, os: seq<nat>)
    requires forall k | 0 <= k < |os| :: os[k] in active
    requires forall j, k | 0 <= j < k < |os| :: os[j] != os[k]
    requires forall o | o in active :: o in os
    ensures |os| == |active|
    decreases |os|
  {
    if os != [] {
      var rest := os[1..];
      assert forall k | 0 <= k < |rest| :: rest[k] == os[k + 1];
      forall o | o in active - {os[0]} ensures o in rest {
        var k :| 0 <= k < |os| && os[k] == o;
        assert rest[k - 1] == o;
      }
      ListingSize(active - {os[0]}, rest);
    }
  }

  /** Successive passes, each over a fresh listing and each limited to `limit` operations. */
  ghost predicate Passes(s: State, limit: nat, listings: seq<seq<nat>>, t: State)
    requires Inv(s)
    decreases |listings|
  {
    if listings == [] then t == s
    else Listing(s, listings[0]) && Passes(PassState(s, listings[0], limit), limit, listings[1..], t)
  }

  /** How many records k passes can close. */
  ghost function Capacity(k: nat, limit: nat): nat {
    if k == 0 then 0 else limit + Capacity(k - 1, limit)
  }

  lemma {:induction false} CapacityIsProduct(k: nat, limit: nat)
    ensures Capacity(k, limit) == k * limit
  {
    if k > 0 {
      CapacityIsProduct(k - 1, limit);
      assert k * limit == (k - 1) * limit + limit;
    }
  }

  lemma {:induction false} PassesClose(s: State, limit: nat, listings: seq<seq<nat>>, t: State)
    requires Inv(s) && s.damaged == {} && Passes(s, limit, listings, t) && |s.active| <= Capacity(|listings|, limit)
    ensures t.active == {}
    decreases |listings|
  {
    hide Inv, PassPlan;
    if listings != [] {
      OnePassNearer(s, listings[0], limit, |listings|);
      PassesClose(PassState(s, listings[0], limit), limit, listings[1..], t);
    }
  }

  lemma OnePassNearer(s: State, os: seq<nat>, limit: nat, k: nat)
    requires Inv(s) && s.damaged == {} && Listing(s, os) && k > 0 && |s.active| <= Capacity(k, limit)
    ensures |PassState(s, os, limit).active| <= Capacity(k - 1, limit) && PassState(s, os, limit).damaged == {}
  {
    hide Inv, PassPlan;
    ListingSize(s.active, os);
    PassProgress(s, os, limit);
  }

  /** n active records are drained by any k passes of limit L as soon as n <= k * L, that is by
      ceil(n / L) of them. */
  lemma PassesDrain(s: State, limit: nat, listings: seq<seq<nat>>, t: State)
    requires Inv(s) && s.damaged == {} && Passes(s, limit, listings, t) && |s.active| <= |listings| * limit
    ensures t.active == {}
  {
    CapacityIsProduct(|listings|, limit);
    PassesClose(s, limit, listings, t);
  }

  /** When nothing recoverable is active a pass writes nothing, so a second full pass changes nothing. */
  lemma {:induction false} SecondPassIdle(s: State, os: seq<nat>, limit: nat)
    requires Inv(s) && Pending(s, os) && s.active <= s.damaged
    ensures PassPlan(s, os, limit) == [] && PassState(s, os, limit) == s
    decreases |os|
  {
    hide Inv;
    if os != [] {
      PassUnfolds(s, os, limit);
      SecondPassIdle(s, os[1..], limit);
    }
  }

  /** A full pass closes every undamaged record it lists. */
  lemma {:induction false} FullPassCloses(s: State, os: seq<nat>, limit: nat)
    requires Inv(s) && Pending(s, os) && |os| <= limit
    ensures PassState(s, os, limit).damaged == s.damaged
    ensures forall o | o in PassState(s, os, limit).active :: o in s.active && (o in s.damaged || o !in os)
    decreases |os|
  {
    hide Inv;
    if os != [] {
      PassUnfolds(s, os, limit);
      var o, rest := os[0], os[1..];
      ActiveIsKnown(s, o);
      if o in s.damaged {
        FullPassCloses(s, rest, limit);
      } else {
        SettledFiles(s, o);
        FullPassCloses(Settled(s, o), rest, if Counted(s, o) then limit - 1 else limit);
      }
    }
  }

  /* How far a limited pass gets. */

  /** The record's prune was prepared and not given up, so recovering it may open its file. */
  ghost predicate OpensFiles(s: State, o: nat) {
    o in s.journal && Prepared in s.journal[o] && ManualRecoveryRequired !in s.journal[o]
  }

  /** How many of the listed undamaged records may open their file. */
  ghost function Opening(s: State, os: seq<nat>): (n: nat)
    ensures n <= |os|
    decreases |os|
  {
    if os == [] then 0 else (if os[0] !in s.damaged && OpensFiles(s, os[0]) then 1 else 0) + Opening(s, os[1..])
  }

  lemma {:induction false} OpeningSame(s: State, t: State, os: seq<nat>)
    requires t.damaged == s.damaged && forall k | 0 <= k < |os| :: OpensFiles(t, os[k]) <==> OpensFiles(s, os[k])
    ensures Opening(t, os) == Opening(s, os)
    decreases |os|
  {
    hide OpensFiles;
    if os != [] {
      OpeningSame(s, t, os[1..]);
    }
  }

  lemma {:induction false} OpeningGrows(s: State, os: seq<nat>, j: nat, k: nat)
    requires j <= k <= |os|
    ensures Opening(s, os[..j]) <= Opening(s, os[..k])
    decreases j
  {
    hide OpensFiles;
    if j > 0 {
      assert os[..j][1..] == os[1..][..j - 1] && os[..k][1..] == os[1..][..k - 1];
      OpeningGrows(s, os[1..], j - 1, k - 1);
    }
  }

  /** In order, an undamaged active record counts exactly if its journal says it may open its file. */
  lemma CountsByJournal(s: State, o: nat)
    requires Inv(s) && Recoverable(s, o)
    ensures o in s.journal && (Counted(s, o) <==> OpensFiles(s, o))
  {
    assert OperationOk(s, o);
  }

  lemma SettledOthers(s: State, o: nat)
    requires Inv(s) && Recoverable(s, o)
    ensures forall p | p != o :: OpensFiles(Settled(s, o), p) <==> OpensFiles(s, p)
  {
    hide Inv;
    ActiveIsKnown(s, o);
  }

  lemma FirstOpening(s: State, os: seq<nat>, k: nat)
    requires 0 < k <= |os|
    ensures Opening(s, os[..k]) == (if os[0] !in s.damaged && OpensFiles(s, os[0]) then 1 else 0) + Opening(s, os[1..][..k - 1])
  {
    assert os[..k][1..] == os[1..][..k - 1];
  }

  /** What a pass does with its first record. */
  lemma FirstOfPass(s: State, os: seq<nat>, limit: nat)
    requires Inv(s) && Pending(s, os) && os != []
    ensures var o, rest := os[0], os[1..];
            if o in s.damaged then Pending(s, rest) && PassState(s, os, limit) == PassState(s, rest, limit)
            else if OpensFiles(s, o) && limit == 0 then PassState(s, os, limit) == s
            else
              && Pending(Settled(s, o), rest) && Settled(s, o).active == s.active - {o} && Settled(s, o).damaged == s.damaged
              && (forall p | p != o :: OpensFiles(Settled(s, o), p) <==> OpensFiles(s, p))
              && PassState(s, os, limit) == PassState(Settled(s, o), rest, if OpensFiles(s, o) then limit - 1 else limit)
  {
    hide Inv, PassState, Settled, OpensFiles, Counted;
    PassUnfolds(s, os, limit);
    RestOfListing(s, os);
    if os[0] !in s.damaged {
      CountsByJournal(s, os[0]);
      SettledFiles(s, os[0]);
      SettledOthers(s, os[0]);
      PendingAfter(s, os);
    }
  }

  lemma RestOfListing(s: State, os: seq<nat>)
    requires os != [] && Pending(s, os)
    ensures Pending(s, os[1..]) && os[0] in s.active
  {
  }

  /** The reach of a pass, of all its records at once. */
  lemma ReachOfPass(s: State, os: seq<nat>, limit: nat)
    requires Inv(s) && Pending(s, os)
    ensures forall k | 0 <= k < |os| ::
              os[k] !in PassState(s, os, limit).active <==> os[k] !in s.damaged && Opening(s, os[..k + 1]) <= limit
  {
    hide Inv, PassState, Opening;
    forall k | 0 <= k < |os| ensures os[k] !in PassState(s, os, limit).active <==> os[k] !in s.damaged && Opening(s, os[..k + 1]) <= limit {
      PassReach(s, os, limit, k);
    }
  }

  /** A limited pass closes a listed record if and only if it is undamaged and no more than `limit` of the
      undamaged records up to it may open their files.  Records that may not cost nothing. */
  lemma {:induction false} PassReach(s: State, os: seq<nat>, limit: nat, k: nat)
    requires Inv(s) && Pending(s, os) && k < |os|
    ensures os[k] !in PassState(s, os, limit).active <==> os[k] !in s.damaged && Opening(s, os[..k + 1]) <= limit
    decreases |os|
  {
    hide Inv, PassState, Settled, OpensFiles;
    var o, rest := os[0], os[1..];
    FirstOfPass(s, os, limit);
    FirstOpening(s, os, k + 1);
    if o in s.damaged {
      if k == 0 {
        OthersStayActive(s, rest, limit);
      } else {
        PassReach(s, rest, limit, k - 1);
      }
    } else if !(OpensFiles(s, o) && limit == 0) {
      var t, left := Settled(s, o), if OpensFiles(s, o) then limit - 1 else limit;
      if k == 0 {
        OthersStayActive(t, rest, left);
      } else {
        PassReach(t, rest, left, k - 1);
        OpeningSame(s, t, rest[..k]);
      }
    }
  }

  /** No record is added or reopened, and none that is not listed is closed. */
  lemma {:induction false} OthersStayActive(s: State, os: seq<nat>, limit: nat)
    requires Inv(s) && Pending(s, os)
    ensures PassState(s, os, limit).active <= s.active
    ensures forall o | o in s.active && (o !in os || o in s.damaged) :: o in PassState(s, os, limit).active
    decreases |os|
  {
    hide Inv, Settled, OpensFiles;
    if os != [] {
      FirstOfPass(s, os, limit);
      var o, rest := os[0], os[1..];
      hide PassState;
      if o in s.damaged {
        OthersStayActive(s, rest, limit);
      } else if !(OpensFiles(s, o) && limit == 0) {
        OthersStayActive(Settled(s, o), rest, if OpensFiles(s, o) then limit - 1 else limit);
      }
    }
  }

  /** So a pass whose limit covers the records that may open their files closes everything undamaged it
      lists; any other closes exactly `limit` of those, with all undamaged records before the next one, and
      nothing from that one on. */
  lemma PassStops(s: State, os: seq<nat>, limit: nat) returns (stop: nat)
    requires Inv(s) && Pending(s, os)
    ensures stop <= |os| && Opening(s, os[..stop]) == if Opening(s, os) <= limit then Opening(s, os) else limit
    ensures Opening(s, os) <= limit ==> stop == |os|
    ensures Opening(s, os) > limit ==> stop < |os| && os[stop] !in s.damaged && OpensFiles(s, os[stop])
    ensures forall k | 0 <= k < |os| :: os[k] in PassState(s, os, limit).active <==> os[k] in s.damaged || k >= stop
  {
    hide Inv, PassState, OpensFiles;
    assert os[..|os|] == os;
    if Opening(s, os) <= limit {
      stop := |os|;
    } else {
      stop := NextBeyond(s, os, limit);
    }
    forall k | 0 <= k < |os| ensures os[k] in PassState(s, os, limit).active <==> os[k] in s.damaged || k >= stop {
      PassReach(s, os, limit, k);
      if k < stop {
        OpeningGrows(s, os, k + 1, stop);
      } else {
        OpeningGrows(s, os, stop + 1, k + 1);
      }
    }
  }

  /** The first record beyond the limit. */
  lemma {:induction false} NextBeyond(s: State, os: seq<nat>, limit: nat) returns (stop: nat)
    requires Opening(s, os) > limit
    ensures stop < |os| && Opening(s, os[..stop]) == limit && Opening(s, os[..stop + 1]) > limit
    ensures os[stop] !in s.damaged && OpensFiles(s, os[stop])
    decreases |os|
  {
    hide OpensFiles;
    if os[0] !in s.damaged && OpensFiles(s, os[0]) && limit == 0 {
      stop := 0;
      FirstOpening(s, os, 1);
    } else {
      stop := NextBeyond(s, os[1..], if os[0] !in s.damaged && OpensFiles(s, os[0]) then limit - 1 else limit);
      stop := stop + 1;
      FirstOpening(s, os, stop);
      FirstOpening(s, os, stop + 1);
    }
  }

  /* Overlapping prunes of one row. */

  /** A prune of row r has happened, or some recoverable record is bound to make it happen. */
  ghost predicate Pruning(s: State, r: nat) {
    r in s.rows && (s.rows[r].path.PruneQuarantine? || exists o :: Pushes(s, o, r))
  }

  ghost predicate Pushes(s: State, o: nat, r: nat) {
    && o in s.active && o in s.operations && o in s.journal
    && s.operations[o].artifact == r && Prepared in s.journal[o] && ManualRecoveryRequired !in s.journal[o]
  }

  lemma SettlingKeepsPruning(s: State, o: nat, r: nat)
    requires Inv(s) && Recoverable(s, o) && Pruning(s, r)
    ensures Pruning(Settled(s, o), r)
  {
    hide Inv;
    ActiveIsKnown(s, o);
    if !s.rows[r].path.PruneQuarantine? {
      var p :| Pushes(s, p, r);
      if p != o {
        OtherStillPushes(s, o, p, r);
      } else if !Wins(s, o) {
        var q :| q in s.operations && q != o && s.operations[q].artifact == r && s.operations[q].quarantine in s.outbox;
        HolderPushes(s, q, r);
        OtherStillPushes(s, o, q, r);
      }
    }
  }

  lemma OtherStillPushes(s: State, o: nat, p: nat, r: nat)
    requires Inv(s) && Recoverable(s, o) && p != o && Pushes(s, p, r)
    ensures Pushes(Settled(s, o), p, r)
  {
    hide Inv;
    ActiveIsKnown(s, o);
  }

  lemma HolderPushes(s: State, q: nat, r: nat)
    requires Inv(s) && q in s.operations && s.operations[q].artifact == r && s.operations[q].quarantine in s.outbox
    requires r in s.rows && !s.rows[r].path.PruneQuarantine?
    ensures Pushes(s, q, r)
  {
    assert OperationOk(s, q);
  }

  lemma SettlingAddsNoPruning(s: State, o: nat, r: nat)
    requires Inv(s) && Recoverable(s, o) && Pruning(Settled(s, o), r)
    ensures Pruning(s, r)
  {
    hide Inv;
    ActiveIsKnown(s, o);
    var t := Settled(s, o);
    if !t.rows[r].path.PruneQuarantine? {
      var p :| Pushes(t, p, r);
      assert p != o;
      assert Pushes(s, p, r);
    } else if !s.rows[r].path.PruneQuarantine? {
      assert Pushes(s, o, r);
    }
  }

  lemma {:induction false} PassPreservesPruning(s: State, os: seq<nat>, limit: nat, r: nat)
    requires Inv(s) && Pending(s, os)
    ensures Pruning(PassState(s, os, limit), r) <==> Pruning(s, r)
    decreases |os|
  {
    hide Inv, Pruning;
    if os != [] {
      PassUnfolds(s, os, limit);
      var o, rest := os[0], os[1..];
      ActiveIsKnown(s, o);
      if o in s.damaged {
        PassPreservesPruning(s, rest, limit, r);
      } else if !Counted(s, o) || limit > 0 {
        if Pruning(s, r) {
          SettlingKeepsPruning(s, o, r);
        }
        if Pruning(Settled(s, o), r) {
          SettlingAddsNoPruning(s, o, r);
        }
        PassPreservesPruning(Settled(s, o), rest, if Counted(s, o) then limit - 1 else limit, r);
      }
    }
  }

  /** Any number of unfinished operations may name one row.  Recovering all records in any order
      closes them all, leaves every row's file at its path, and prunes row r exactly when it was
      pruned before or some record for it was prepared and not given up. */
  lemma AnyOrderConverges(s: State, os: seq<nat>, limit: nat, r: nat)
    requires Inv(s) && s.damaged == {} && Listing(s, os) && |os| <= limit && r in s.rows
    ensures var t := PassState(s, os, limit);
            && t.active == {}
            && r in t.rows && t.rows[r].path in t.outbox && r in t.born && t.outbox[t.rows[r].path] == t.born[r]
            && (t.rows[r].path.PruneQuarantine? <==> Pruning(s, r))
  {
    hide PassPlan;
    var t := PassState(s, os, limit);
    FullPassCloses(s, os, limit);
    assert t.active == {};
    PassPreservesPruning(s, os, limit, r);
    PassKeepsRows(s, os, limit);
    assert RowOk(t, r);
  }

  lemma {:induction false} PassKeepsRows(s: State, os: seq<nat>, limit: nat)
    requires Inv(s) && Pending(s, os)
    ensures PassState(s, os, limit).rows.Keys == s.rows.Keys
    ensures PassState(s, os, limit).intents == s.intents && PassState(s, os, limit).strays == s.strays
    ensures PassState(s, os, limit).used == s.used
    decreases |os|
  {
    hide Inv;
    if os != [] {
      PassUnfolds(s, os, limit);
      var o, rest := os[0], os[1..];
      ActiveIsKnown(s, o);
      if o in s.damaged {
        PassKeepsRows(s, rest, limit);
      } else if !Counted(s, o) || limit > 0 {
        PassKeepsRows(Settled(s, o), rest, if Counted(s, o) then limit - 1 else limit);
      }
    }
  }
}
