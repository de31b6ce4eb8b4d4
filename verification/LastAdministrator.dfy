/** At least one active administrator: the transactions that disable users and move roles, interleaved
    statement by statement under the advisory lock and the row locks they take. */
module LastAdministrator {
  import opened Options

  datatype User = User(active: bool, administrator: bool)

  type Users = map<nat, User>

  ghost function ActiveAdministrators(users: Users): (admins: set<nat>) {
    set u | u in users && users[u].active && users[u].administrator
  }

  /* The services, each call alone. */

  datatype Result = Done | NotFound | LastAdministrator | Conflict

  class UserAdministration {
    var users: Users

    constructor ()
      ensures users == map[]
    {
      users := map[];
    }

    /** SELECT count(...) of active users with the administrator role */
    method CountActiveAdministrators() returns (count: nat)
      ensures count == |ActiveAdministrators(users)|
    {
      count := 0;
      var left := users.Keys;
      ghost var seen := {};
      while left != {}
        invariant left <= users.Keys && seen == ActiveAdministrators(users) - left && count == |seen|
        decreases left
      {
        var u :| u in left;
        left := left - {u};
        if users[u].active && users[u].administrator {
          count := count + 1;
          seen := seen + {u};
        }
      }
      assert ActiveAdministrators(users) - {} == ActiveAdministrators(users);
    }

    method DisableUser(user: nat) returns (result: Result)
      modifies this
      ensures result == Verdict(old(users), Disable, user)
      ensures users == if result.Done? then Effect(old(users), Disable, user) else old(users)
    {
      if user !in users {
        return NotFound;
      }
      if users[user].administrator {
        var count := CountActiveAdministrators();
        if count <= 1 {
          return LastAdministrator;
        }
      }
      users := users[user := users[user].(active := false)];
      return Done;
    }

    method AssignAdministrator(user: nat) returns (result: Result)
      modifies this
      ensures result == Verdict(old(users), Assign, user)
      ensures users == if result.Done? then Effect(old(users), Assign, user) else old(users)
    {
      if user !in users {
        return NotFound;
      }
      users := users[user := users[user].(administrator := true)];
      return Done;
    }

    method RemoveAdministrator(user: nat) returns (result: Result)
      modifies this
      ensures result == Verdict(old(users), Remove, user)
      ensures users == if result.Done? then Effect(old(users), Remove, user) else old(users)
    {
      if user !in users {
        return NotFound;
      }
      if users[user].active {
        var count := CountActiveAdministrators();
        if count <= 1 {
          return LastAdministrator;
        }
      }
      users := users[user := users[user].(administrator := false)];
      return Done;
    }

    method Bootstrap(user: nat) returns (result: Result)
      modifies this
      ensures result == Verdict(old(users), Boot, user)
      ensures users == if result.Done? then Effect(old(users), Boot, user) else old(users)
    {
      if user in users {
        if users[user].active && users[user].administrator {
          return Done;
        }
        return Conflict;
      }
      var count := CountActiveAdministrators();
      if count > 0 {
        return Conflict;
      }
      users := users[user := User(true, true)];
      return Done;
    }
  }

  /** What a call answers when nothing runs beside it. */
  ghost function Verdict(users: Users, kind: Kind, user: nat): (result: Result) {
    if kind.Boot? || kind.Create? then
      if user in users then (if kind.Boot? && users[user] == User(true, true) then Done else Conflict)
      else if CountPasses(kind, |ActiveAdministrators(users)|) then Done
      else Conflict
    else if user !in users then NotFound
    else if NeedsCount(kind, users[user]) && !CountPasses(kind, |ActiveAdministrators(users)|) then LastAdministrator
    else Done
  }

  /** Exactly when the two removals are refused.  For an active administrator that is when the call would
      leave nobody.  For anybody else nothing would be lost, and the call is refused all the same while
      one active administrator is left: disabling, if the user has the role; removing the role, if the
      user is active. */
  lemma RefusedWhenLast(users: Users, user: nat)
    requires user in users && ActiveAdministrators(users) != {}
    ensures user in ActiveAdministrators(users) ==>
              (Verdict(users, Disable, user).LastAdministrator? <==> ActiveAdministrators(Effect(users, Disable, user)) == {})
    ensures user in ActiveAdministrators(users) ==>
              (Verdict(users, Remove, user).LastAdministrator? <==> ActiveAdministrators(Effect(users, Remove, user)) == {})
    ensures user !in ActiveAdministrators(users) ==>
              && ActiveAdministrators(Effect(users, Disable, user)) == ActiveAdministrators(Effect(users, Remove, user)) == ActiveAdministrators(users)
              && (Verdict(users, Disable, user).LastAdministrator? <==> users[user].administrator && |ActiveAdministrators(users)| == 1)
              && (Verdict(users, Remove, user).LastAdministrator? <==> users[user].active && |ActiveAdministrators(users)| == 1)
  {
    if user in ActiveAdministrators(users) {
      WithoutOne(users, Effect(users, Disable, user), user);
      WithoutOne(users, Effect(users, Remove, user), user);
    } else {
      assert ActiveAdministrators(Effect(users, Disable, user)) == ActiveAdministrators(users);
      assert ActiveAdministrators(Effect(users, Remove, user)) == ActiveAdministrators(users);
    }
  }

  /** Both refusals of a call that would change nobody's standing do happen: beside one active
      administrator, of an inactive user who still has the role, and of an active one who does not. */
  lemma RefusedForNothing()
    ensures var users := map[0 := User(true, true), 1 := User(false, true), 2 := User(true, false)];
            && Verdict(users, Disable, 1).LastAdministrator? && Effect(users, Disable, 1) == users
            && Verdict(users, Remove, 2).LastAdministrator? && Effect(users, Remove, 2) == users
  {
    var users := map[0 := User(true, true), 1 := User(false, true), 2 := User(true, false)];
    assert ActiveAdministrators(users) == {0};
  }

  lemma WithoutOne(users: Users, after: Users, user: nat)
    requires user in ActiveAdministrators(users) && ActiveAdministrators(after) == ActiveAdministrators(users) - {user}
    ensures |ActiveAdministrators(after)| == |ActiveAdministrators(users)| - 1
    ensures ActiveAdministrators(after) == {} <==> |ActiveAdministrators(users)| <= 1
  {
    assert |ActiveAdministrators(after)| == 0 ==> ActiveAdministrators(after) == {};
  }

  /* The same transactions interleaved: each statement sees what is committed when it runs. */

  datatype Kind = Disable | Assign | Remove | Boot | Create

  /** What a transaction does next.  A row lock on the user is held from `Locked` on. */
  datatype Pc = Begun | Locked | Checked | Counted

  datatype Transaction = Transaction(kind: Kind, user: nat, pc: Pc)

  datatype World = World(
    users: Users,
    running: map<nat, Transaction>,
    advisory: Option<nat>,            // who holds ADMIN_LOCK_ID
    rows: map<nat, nat>)              // who holds the lock on a user's row

  /** assign_role does not take the advisory lock. */
  predicate TakesAdvisory(kind: Kind) {
    kind.Disable? || kind.Remove? || kind.Boot?
  }

  datatype Event =
    | Begin(txn: nat, kind: Kind, user: nat)
    | LockAdvisory(txn: nat)
    | LockRow(txn: nat)               // SELECT ... FOR UPDATE
    | Check(txn: nat)                 // read the roles; whether the count matters
    | Count(txn: nat)                 // count what is committed now
    | Commit(txn: nat)
    | Abort(txn: nat)

  /** Whether the statement can run now; a lock somebody else holds is waited for. */
  ghost predicate Enabled(w: World, e: Event) {
    match e
    case Begin(txn, _, _) => txn !in w.running
    case LockAdvisory(txn) =>
      txn in w.running && w.running[txn].pc.Begun? && TakesAdvisory(w.running[txn].kind) && w.advisory.None?
    case LockRow(txn) =>
      && txn in w.running && w.running[txn].pc.Begun?
      && (TakesAdvisory(w.running[txn].kind) ==> w.advisory == Some(txn))
      && w.running[txn].user !in w.rows && (w.running[txn].user in w.users || w.running[txn].kind.Boot? || w.running[txn].kind.Create?)
    case Check(txn) => txn in w.running && w.running[txn].pc.Locked?
    case Count(txn) =>
      && txn in w.running && w.running[txn].pc.Checked?
      && CountPasses(w.running[txn].kind, |ActiveAdministrators(w.users)|)
    case Commit(txn) => txn in w.running && w.running[txn].pc.Counted? && Applicable(w, w.running[txn])
    case Abort(txn) => txn in w.running
  }

  predicate CountPasses(kind: Kind, count: nat) {
    match kind
    case Disable => count > 1
    case Remove => count > 1
    case Boot => count == 0
    case _ => true
  }

  /** Whether the code asks for the count at all. */
  predicate NeedsCount(kind: Kind, row: User) {
    match kind
    case Disable => row.administrator
    case Remove => row.active
    case Boot => true
    case _ => false
  }

  /** The unique index on usernames guards the two insertions. */
  predicate Applicable(w: World, t: Transaction) {
    if t.kind.Boot? || t.kind.Create? then t.user !in w.users else t.user in w.users
  }

  function Effect(users: Users, kind: Kind, user: nat): (after: Users) {
    match kind
    case Boot => users[user := User(true, true)]
    case Create => users[user := User(true, false)]
    case _ =>
      if user !in users then users
      else if kind.Disable? then users[user := users[user].(active := false)]
      else if kind.Remove? then users[user := users[user].(administrator := false)]
      else users[user := users[user].(administrator := true)]
  }

  function Released(w: World, txn: nat): (next: World)
    requires txn in w.running
  {
    w.(running := w.running - {txn},
       advisory := if w.advisory == Some(txn) then None else w.advisory,
       rows := map u | u in w.rows && w.rows[u] != txn :: w.rows[u])
  }

  ghost function Next(w: World, e: Event): (next: World)
    requires Enabled(w, e)
  {
    match e
    case Begin(txn, kind, user) => w.(running := w.running[txn := Transaction(kind, user, Begun)])
    case LockAdvisory(txn) => w.(advisory := Some(txn))
    case LockRow(txn) =>
      w.(rows := w.rows[w.running[txn].user := txn], running := w.running[txn := w.running[txn].(pc := Locked)])
    case Check(txn) =>
      var t := w.running[txn];
      var needed := t.user !in w.users || NeedsCount(t.kind, w.users[t.user]);
      w.(running := w.running[txn := t.(pc := if needed then Checked else Counted)])
    case Count(txn) => w.(running := w.running[txn := w.running[txn].(pc := Counted)])
    case Commit(txn) => Released(w, txn).(users := Effect(w.users, w.running[txn].kind, w.running[txn].user))
    case Abort(txn) => Released(w, txn)
  }

  /* The invariant. */

  /** A transaction past its row lock holds its locks, and one that has counted is still right about it. */
  ghost predicate TransactionOk(w: World, txn: nat)
    requires txn in w.running
  {
    var t := w.running[txn];
    && (!t.pc.Begun? ==> t.user in w.rows && w.rows[t.user] == txn && (TakesAdvisory(t.kind) ==> w.advisory == Some(txn)))
    && (!t.pc.Begun? && !t.kind.Boot? && !t.kind.Create? ==> t.user in w.users)
    && (t.pc.Counted? && t.kind.Disable? ==> !w.users[t.user].administrator || |ActiveAdministrators(w.users)| > 1)
    && (t.pc.Counted? && t.kind.Remove? ==> !w.users[t.user].active || |ActiveAdministrators(w.users)| > 1)
  }

  ghost predicate WorldInv(w: World) {
    && (forall txn | txn in w.running :: TransactionOk(w, txn))
    && (w.advisory.Some? ==> w.advisory.value in w.running)
    && (forall u | u in w.rows :: w.rows[u] in w.running && w.running[w.rows[u]].user == u)
  }

  lemma {:induction false} SubsetSize(a: set<nat>, b: set<nat>)
    requires a <= b
    ensures |a| <= |b|
    decreases |a|
  {
    if a != {} {
      var x :| x in a;
      SubsetSize(a - {x}, b - {x});
    }
  }

  /** A commit that does not hold the advisory lock only adds administrators. */
  lemma AdditionsOnly(w: World, t: Transaction)
    requires !TakesAdvisory(t.kind) && Applicable(w, t)
    ensures ActiveAdministrators(w.users) <= ActiveAdministrators(Effect(w.users, t.kind, t.user))
    ensures |ActiveAdministrators(w.users)| <= |ActiveAdministrators(Effect(w.users, t.kind, t.user))|
  {
    assert ActiveAdministrators(w.users) <= ActiveAdministrators(Effect(w.users, t.kind, t.user));
    SubsetSize(ActiveAdministrators(w.users), ActiveAdministrators(Effect(w.users, t.kind, t.user)));
  }

  lemma CommitKeepsOther(w: World, txn: nat, other: nat)
    requires WorldInv(w) && Enabled(w, Commit(txn)) && other in w.running && other != txn
    ensures TransactionOk(Next(w, Commit(txn)), other)
  {
    var t, u, x := w.running[txn], w.running[other], Next(w, Commit(txn));
    assert TransactionOk(w, txn) && TransactionOk(w, other);
    if !u.pc.Begun? {
      assert u.user != t.user;
      if TakesAdvisory(u.kind) {
        AdditionsOnly(w, t);
      }
    }
    hide ActiveAdministrators;
  }

  lemma CommitKeepsInv(w: World, txn: nat)
    requires WorldInv(w) && Enabled(w, Commit(txn))
    ensures WorldInv(Next(w, Commit(txn)))
  {
    var x := Next(w, Commit(txn));
    forall other | other in x.running ensures TransactionOk(x, other) {
      CommitKeepsOther(w, txn, other);
    }
    assert TransactionOk(w, txn);
    hide TransactionOk, ActiveAdministrators, Effect;
  }

  lemma OtherStepKeepsInv(w: World, e: Event)
    requires WorldInv(w) && Enabled(w, e) && !e.Commit?
    ensures WorldInv(Next(w, e))
  {
    hide ActiveAdministrators, Effect;
    var x := Next(w, e);
    forall txn | txn in x.running ensures TransactionOk(x, txn) {
      if txn in w.running {
        assert TransactionOk(w, txn);
      }
    }
    hide TransactionOk;
  }

  lemma NextKeepsInv(w: World, e: Event)
    requires WorldInv(w) && Enabled(w, e)
    ensures WorldInv(Next(w, e))
  {
    hide WorldInv, Next;
    if e.Commit? {
      CommitKeepsInv(w, e.txn);
    } else {
      OtherStepKeepsInv(w, e);
    }
  }

  /** One statement of any transaction keeps an active administrator. */
  lemma NextKeepsAdministrator(w: World, e: Event)
    requires WorldInv(w) && Enabled(w, e) && ActiveAdministrators(w.users) != {}
    ensures ActiveAdministrators(Next(w, e).users) != {}
  {
    if e.Commit? {
      var t := w.running[e.txn];
      assert TransactionOk(w, e.txn);
      if !TakesAdvisory(t.kind) {
        AdditionsOnly(w, t);
      } else if t.kind.Boot? {
        assert t.user in ActiveAdministrators(Effect(w.users, t.kind, t.user));
      } else {
        EffectKeepsSome(w.users, t);
      }
    }
  }

  lemma EffectKeepsSome(users: Users, t: Transaction)
    requires t.user in users && (t.kind.Disable? || t.kind.Remove?) && ActiveAdministrators(users) != {}
    requires t.kind.Disable? ==> !users[t.user].administrator || |ActiveAdministrators(users)| > 1
    requires t.kind.Remove? ==> !users[t.user].active || |ActiveAdministrators(users)| > 1
    ensures ActiveAdministrators(Effect(users, t.kind, t.user)) != {}
  {
    assert ActiveAdministrators(Effect(users, t.kind, t.user)) == ActiveAdministrators(users) - {t.user};
    if t.user in ActiveAdministrators(users) {
      assert |ActiveAdministrators(users) - {t.user}| >= 1;
    } else {
      assert ActiveAdministrators(users) - {t.user} == ActiveAdministrators(users);
    }
  }

  ghost predicate PossibleRun(w: World, events: seq<Event>)
    decreases |events|
  {
    events != [] ==> Enabled(w, events[0]) && PossibleRun(Next(w, events[0]), events[1..])
  }

  ghost function Play(w: World, events: seq<Event>): (end: World)
    requires PossibleRun(w, events)
    decreases |events|
  {
    if events == [] then w else Play(Next(w, events[0]), events[1..])
  }

  lemma {:induction false} PlayKeepsAdministrator(w: World, events: seq<Event>)
    requires WorldInv(w) && PossibleRun(w, events) && ActiveAdministrators(w.users) != {}
    ensures ActiveAdministrators(Play(w, events).users) != {}
    decreases |events|
  {
    hide WorldInv, Next, Enabled, ActiveAdministrators;
    if events != [] {
      NextKeepsInv(w, events[0]);
      NextKeepsAdministrator(w, events[0]);
      PlayKeepsAdministrator(Next(w, events[0]), events[1..]);
    }
  }

  /** Once an active administrator is there, every interleaving of disabling, assigning, removing,
      creating and bootstrapping keeps one, although assigning does not take the shared lock. */
  lemma AlwaysAnAdministrator(users: Users, events: seq<Event>)
    requires ActiveAdministrators(users) != {} && PossibleRun(World(users, map[], None, map[]), events)
    ensures ActiveAdministrators(Play(World(users, map[], None, map[]), events).users) != {}
  {
    PlayKeepsAdministrator(World(users, map[], None, map[]), events);
  }

  /** What a commit does, in any interleaving: it changes one user only, disabling leaves the role, removing
      the role leaves the user active, an assignment or an insertion makes nobody else anything; the first
      administrator is active and has the role. */
  lemma CommitChangesOne(w: World, txn: nat)
    requires WorldInv(w) && Enabled(w, Commit(txn))
    ensures var t, x := w.running[txn], Next(w, Commit(txn)).users;
            && t.user in x && x == w.users[t.user := x[t.user]]
            && (t.kind.Disable? ==> t.user in w.users && !x[t.user].active && x[t.user].administrator == w.users[t.user].administrator)
            && (t.kind.Remove? ==> t.user in w.users && !x[t.user].administrator && x[t.user].active == w.users[t.user].active)
            && (t.kind.Assign? ==> t.user in w.users && x[t.user].administrator && x[t.user].active == w.users[t.user].active)
            && (t.kind.Boot? ==> t.user !in w.users && t.user in ActiveAdministrators(x))
            && (t.kind.Create? ==> t.user !in w.users && x[t.user].active && ActiveAdministrators(x) == ActiveAdministrators(w.users))
  {
    var t, x := w.running[txn], Next(w, Commit(txn)).users;
    if t.kind.Create? {
      assert ActiveAdministrators(x) == ActiveAdministrators(w.users);
    }
  }

  /** Alone, bootstrapping makes the user the first active administrator, and is refused once there is one,
      except for that very user, whom it leaves as he is. */
  lemma BootstrapMakesFirst(users: Users, user: nat)
    ensures Verdict(users, Boot, user).Done? <==>
              user in ActiveAdministrators(users) || (user !in users && ActiveAdministrators(users) == {})
    ensures Verdict(users, Boot, user).Done? ==>
              ActiveAdministrators(Effect(users, Boot, user)) == (if user in users then ActiveAdministrators(users) else {user})
  {
    if user in users {
      assert users[user] == User(true, true) ==> Effect(users, Boot, user) == users;
    } else {
      assert |ActiveAdministrators(users)| == 0 <==> ActiveAdministrators(users) == {};
      if ActiveAdministrators(users) == {} {
        assert ActiveAdministrators(Effect(users, Boot, user)) == {user};
      }
    }
  }

  /* A transaction with nobody beside it. */

  /** Whether its rule asks how many active administrators there are. */
  predicate Asks(users: Users, kind: Kind, user: nat) {
    match kind
    case Disable => user in users && users[user].administrator
    case Remove => user in users && users[user].active
    case Assign => false
    case Boot => true
    case Create => user !in users
  }

  /** Its statements: the advisory lock unless it only adds, the row, the check, the count if it asks, the
      commit. */
  function Statements(users: Users, kind: Kind, user: nat): (events: seq<Event>) {
    [Begin(0, kind, user)] + (if kind.Disable? || kind.Remove? || kind.Boot? then [LockAdvisory(0)] else [])
    + [LockRow(0), Check(0)] + (if Asks(users, kind, user) then [Count(0)] else []) + [Commit(0)]
  }

  /** Its statements go through to the commit exactly when the call is answered Done, and leave what the call
      leaves; the bootstrap of somebody who is an administrator already is Done without any of them. */
  lemma AloneAgrees(users: Users, kind: Kind, user: nat)
    ensures var w := World(users, map[], None, map[]);
            && (PossibleRun(w, Statements(users, kind, user)) <==> Verdict(users, kind, user).Done? && !(kind.Boot? && user in users))
            && (PossibleRun(w, Statements(users, kind, user)) ==>
                  Play(w, Statements(users, kind, user)) == World(Effect(users, kind, user), map[], None, map[]))
  {
    var w := World(users, map[], None, map[]);
    var advisory := kind.Disable? || kind.Remove? || kind.Boot?;
    var all := Statements(users, kind, user);
    var a := Next(w, Begin(0, kind, user));
    var b := a.(advisory := if advisory then Some(0) else None);
    var rest := [LockRow(0), Check(0)] + (if Asks(users, kind, user) then [Count(0)] else []) + [Commit(0)];
    assert all == [Begin(0, kind, user)] + ((if advisory then [LockAdvisory(0)] else []) + rest);
    if advisory {
      assert [LockAdvisory(0)] + rest == ([LockAdvisory(0)] + rest)[0..] && ([LockAdvisory(0)] + rest)[1..] == rest;
      assert Enabled(a, LockAdvisory(0)) && Next(a, LockAdvisory(0)) == b;
    } else {
      assert [] + rest == rest;
    }
    assert all[1..] == (if advisory then [LockAdvisory(0)] else []) + rest;
    RestAgrees(users, kind, user, b, rest);
    hide Next, Enabled, ActiveAdministrators;
  }

  lemma RestAgrees(users: Users, kind: Kind, user: nat, b: World, rest: seq<Event>)
    requires b == World(users, map[0 := Transaction(kind, user, Begun)], if kind.Disable? || kind.Remove? || kind.Boot? then Some(0) else None, map[])
    requires rest == [LockRow(0), Check(0)] + (if Asks(users, kind, user) then [Count(0)] else []) + [Commit(0)]
    ensures PossibleRun(b, rest) <==> Verdict(users, kind, user).Done? && !(kind.Boot? && user in users)
    ensures PossibleRun(b, rest) ==> Play(b, rest) == World(Effect(users, kind, user), map[], None, map[])
  {
    hide ActiveAdministrators;
    assert rest[1..] == [Check(0)] + (if Asks(users, kind, user) then [Count(0)] else []) + [Commit(0)];
    assert rest[1..][1..] == (if Asks(users, kind, user) then [Count(0)] else []) + [Commit(0)];
    if Enabled(b, LockRow(0)) {
      var c := Next(b, LockRow(0));
      var d := Next(c, Check(0));
      assert d.running == map[0 := Transaction(kind, user, if Asks(users, kind, user) then Checked else Counted)];
      assert PossibleRun(c, rest[1..]) <==> PossibleRun(d, rest[1..][1..]);
      assert PossibleRun(b, rest) <==> PossibleRun(d, rest[1..][1..]);
      assert PossibleRun(b, rest) ==> Play(b, rest) == Play(c, rest[1..]) == Play(d, rest[1..][1..]);
      if Asks(users, kind, user) {
        assert rest[1..][1..] == [Count(0), Commit(0)] && rest[1..][1..][1..] == [Commit(0)];
        if Enabled(d, Count(0)) {
          CommitAgrees(users, kind, user, Next(d, Count(0)));
        }
      } else {
        assert rest[1..][1..] == [Commit(0)];
        CommitAgrees(users, kind, user, d);
      }
    }
  }

  lemma CommitAgrees(users: Users, kind: Kind, user: nat, d: World)
    requires d.users == users && d.running == map[0 := Transaction(kind, user, Counted)] && d.rows == map[user := 0]
    requires d.advisory == None || d.advisory == Some(0)
    ensures PossibleRun(d, [Commit(0)]) <==> (if kind.Boot? || kind.Create? then user !in users else user in users)
    ensures PossibleRun(d, [Commit(0)]) ==> Play(d, [Commit(0)]) == World(Effect(users, kind, user), map[], None, map[])
  {
    assert [Commit(0)][1..] == [];
  }

  /* The first administrator. */

  /** A bootstrap that has counted is still right: nobody is an active administrator. */
  ghost predicate BootsRight(w: World) {
    && (forall txn | txn in w.running :: !w.running[txn].kind.Assign?)
    && (forall txn | txn in w.running && w.running[txn].kind.Boot? && w.running[txn].pc.Counted? :: ActiveAdministrators(w.users) == {})
  }

  lemma NextKeepsBootsRight(w: World, e: Event)
    requires WorldInv(w) && Enabled(w, e) && BootsRight(w) && !(e.Begin? && e.kind.Assign?)
    ensures BootsRight(Next(w, e))
    ensures e.Commit? && w.running[e.txn].kind.Boot? ==> ActiveAdministrators(w.users) == {} && ActiveAdministrators(Next(w, e).users) == {w.running[e.txn].user}
  {
    var x := Next(w, e);
    if e.Commit? {
      var t := w.running[e.txn];
      assert TransactionOk(w, e.txn);
      CommitChangesOne(w, e.txn);
      if t.kind.Boot? {
        assert ActiveAdministrators(x.users) == {t.user};
      }
      forall txn | txn in x.running && x.running[txn].kind.Boot? && x.running[txn].pc.Counted? ensures ActiveAdministrators(x.users) == {} {
        assert TransactionOk(w, txn);
        assert !TakesAdvisory(t.kind) by { assert w.advisory == Some(txn); }
      }
    } else if e.Count? {
      assert |ActiveAdministrators(w.users)| == 0 ==> ActiveAdministrators(w.users) == {};
    } else if e.Check? {
      assert TransactionOk(w, e.txn);
    }
  }

  lemma {:induction false} PlayKeepsBootsRight(w: World, events: seq<Event>)
    requires WorldInv(w) && BootsRight(w) && PossibleRun(w, events) && forall i | 0 <= i < |events| :: !(events[i].Begin? && events[i].kind.Assign?)
    ensures WorldInv(Play(w, events)) && BootsRight(Play(w, events))
    decreases |events|
  {
    hide WorldInv, BootsRight, Next, Enabled;
    if events != [] {
      NextKeepsInv(w, events[0]);
      NextKeepsBootsRight(w, events[0]);
      PlayKeepsBootsRight(Next(w, events[0]), events[1..]);
    }
  }

  /** In every interleaving without role assignments, however many bootstraps race, one only commits while
      nobody is an active administrator, and then its user is the only one. */
  lemma OneBootstrap(users: Users, events: seq<Event>, txn: nat)
    requires PossibleRun(World(users, map[], None, map[]), events)
    requires forall i | 0 <= i < |events| :: !(events[i].Begin? && events[i].kind.Assign?)
    ensures var w := Play(World(users, map[], None, map[]), events);
            Enabled(w, Commit(txn)) && w.running[txn].kind.Boot? ==>
              ActiveAdministrators(w.users) == {} && ActiveAdministrators(Next(w, Commit(txn)).users) == {w.running[txn].user}
  {
    PlayKeepsBootsRight(World(users, map[], None, map[]), events);
    var w := Play(World(users, map[], None, map[]), events);
    hide Play, PossibleRun;
    if Enabled(w, Commit(txn)) {
      NextKeepsBootsRight(w, Commit(txn));
    }
  }

  /** Creating a user needs a new name, giving the role an existing user, and neither asks for a count. */
  lemma AdditionsNeedNoCount(users: Users, user: nat)
    ensures Verdict(users, Create, user).Done? <==> user !in users
    ensures Verdict(users, Assign, user).Done? <==> user in users
    ensures !Verdict(users, Create, user).LastAdministrator? && !Verdict(users, Assign, user).LastAdministrator?
  {
  }
}
