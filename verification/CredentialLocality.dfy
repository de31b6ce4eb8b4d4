/** What a transaction computes from the rows it has read, written over what is committed by then: if
    those rows are still as they were read, the outcome is that of the whole transaction at once. */
module CredentialLocality {
  import opened Options
  import opened CredentialState
  import opened CredentialSafety

  function Only<K, V>(m: map<K, V>, keys: set<K>): (part: map<K, V>) {
    map k | k in m && k in keys :: m[k]
  }

  /** The committed rows, with those that a transaction added or changed written over them. */
  function Put<K, V(==)>(committed: map<K, V>, read: map<K, V>, written: map<K, V>): (after: map<K, V>) {
    map k | k in committed.Keys + written.Keys ::
      if k in written && (k !in committed || k !in read || written[k] != read[k]) then written[k] else committed[k]
  }

  function Written(s: Tables, read: Tables, written: Tables): (after: Tables) {
    Tables(Put(s.agents, read.agents, written.agents), Put(s.credentials, read.credentials, written.credentials),
           Put(s.rotations, read.rotations, written.rotations), Put(s.tokens, read.tokens, written.tokens),
           Put(s.records, read.records, written.records))
  }

  /** What was written over the rows as they were read is what everything amounts to now. */
  ghost predicate Fits<K, V>(committed: map<K, V>, read: map<K, V>, written: map<K, V>, target: map<K, V>) {
    && target.Keys == committed.Keys + written.Keys
    && (forall k | k in written :: target[k] == written[k])
    && (forall k | k in committed && k !in written :: target[k] == committed[k])
    && (forall k | k in read && k in committed && k in written && written[k] == read[k] :: committed[k] == read[k])
  }

  lemma PutOne<K, V>(committed: map<K, V>, read: map<K, V>, k: K, x: V)
    requires read.Keys <= committed.Keys && (k in read ==> read[k] == committed[k])
    ensures Put(committed, read, read[k := x]) == committed[k := x]
  {
  }

  lemma PutTwo<K, V>(committed: map<K, V>, read: map<K, V>, j: K, x: V, k: K, y: V)
    requires read.Keys <= committed.Keys && j != k && (j in read ==> read[j] == committed[j]) && (k in read ==> read[k] == committed[k])
    ensures Put(committed, read, read[j := x][k := y]) == committed[j := x][k := y]
  {
  }

  lemma PutNothing<K, V>(committed: map<K, V>, read: map<K, V>)
    requires read.Keys <= committed.Keys
    ensures Put(committed, read, read) == committed
  {
  }

  /** A table and the rows read of it, both changed alike and only among the rows read. */
  ghost predicate Alike<K, V>(committed: map<K, V>, read: map<K, V>, target: map<K, V>, written: map<K, V>) {
    && read.Keys <= committed.Keys && written.Keys == read.Keys && target.Keys == committed.Keys
    && (forall k | k in read :: committed[k] == read[k] && target[k] == written[k])
    && (forall k | k in committed && k !in read :: target[k] == committed[k])
  }

  lemma AlikeFits<K, V>(committed: map<K, V>, read: map<K, V>, target: map<K, V>, written: map<K, V>)
    requires Alike(committed, read, target, written)
    ensures Fits(committed, read, written, target)
  {
  }

  lemma InsertFits<K, V>(committed: map<K, V>, read: map<K, V>, target: map<K, V>, written: map<K, V>, k: K, x: V)
    requires Alike(committed, read, target, written) && k !in committed
    ensures Fits(committed, read, written[k := x], target[k := x])
  {
  }

  lemma UpdateAlike<K, V>(committed: map<K, V>, read: map<K, V>, target: map<K, V>, written: map<K, V>, k: K, x: V)
    requires Alike(committed, read, target, written) && k in read
    ensures Alike(committed, read, target[k := x], written[k := x])
  {
  }

  lemma WrittenFits(s: Tables, v: Tables, y: Tables, x: Tables)
    requires Fits(s.agents, v.agents, y.agents, x.agents) && Fits(s.credentials, v.credentials, y.credentials, x.credentials)
    requires Fits(s.rotations, v.rotations, y.rotations, x.rotations)
    requires Fits(s.tokens, v.tokens, y.tokens, x.tokens) && Fits(s.records, v.records, y.records, x.records)
    ensures Written(s, v, y) == x
  {
  }

  /** A transaction that writes nothing changes nothing. */
  lemma WrittenNothing(s: Tables, v: Tables)
    requires v.agents.Keys <= s.agents.Keys && v.credentials.Keys <= s.credentials.Keys && v.rotations.Keys <= s.rotations.Keys
    requires v.tokens.Keys <= s.tokens.Keys && v.records.Keys <= s.records.Keys
    ensures Written(s, v, v) == s
  {
  }

  /* Rotation. */

  /** The agent's row, its waiting rotation and its credentials are as they were read. */
  ghost predicate AgentRead(s: Tables, v: Tables, agent: nat) {
    && agent in s.agents && v.agents == map[agent := s.agents[agent]]
    && (forall r :: r in v.rotations <==> WaitingFor(s, agent, r))
    && (forall c :: c in v.credentials <==> c in s.credentials && s.credentials[c].agent == agent)
    && RowsRead(s, v)
  }

  ghost predicate RowsRead(s: Tables, v: Tables) {
    Alike(s.rotations, v.rotations, s.rotations, v.rotations) && Alike(s.credentials, v.credentials, s.credentials, v.credentials)
  }

  lemma SameWaiting(s: Tables, v: Tables, agent: nat)
    requires RotationsOk(s) && (forall r | r in v.rotations :: WaitingFor(s, agent, r) && v.rotations[r] == s.rotations[r])
    ensures WaitingRotation(v, agent).Some? ==> WaitingRotation(v, agent) == WaitingRotation(s, agent)
    ensures (forall r :: WaitingFor(s, agent, r) ==> r in v.rotations) ==> WaitingRotation(v, agent) == WaitingRotation(s, agent)
  {
    if WaitingRotation(v, agent).Some? {
      var r := WaitingRotation(v, agent).value;
      assert WaitingFor(s, agent, r);
      assert WaitingRotation(s, agent).Some?;
    } else if WaitingRotation(s, agent).Some? {
      var r := WaitingRotation(s, agent).value;
      assert r in v.rotations ==> WaitingFor(v, agent, r);
    }
  }

  lemma SameHighestOf(s: Tables, v: Tables, agent: nat)
    requires forall c :: c in v.credentials <==> c in s.credentials && s.credentials[c].agent == agent
    requires forall c | c in v.credentials :: v.credentials[c].agent == agent && v.credentials[c].version == s.credentials[c].version
    ensures Highest(v, agent) == Highest(s, agent)
  {
    var a, b := Highest(s, agent), Highest(v, agent);
    assert HighestAmong(s, agent, s.credentials.Keys, a) && HighestAmong(v, agent, v.credentials.Keys, b);
    hide Highest;
    if a != 0 {
      var c :| c in s.credentials.Keys && s.credentials[c].agent == agent && s.credentials[c].version == a;
      assert c in v.credentials.Keys;
    }
    if b != 0 {
      var c :| c in v.credentials.Keys && v.credentials[c].agent == agent && v.credentials[c].version == b;
      assert c in s.credentials.Keys;
    }
  }

  /** The rows read and everything, after the same change to the rows read. */
  ghost predicate ChangedAlike(s: Tables, v: Tables, x: Tables, y: Tables) {
    && y == v.(credentials := y.credentials, rotations := y.rotations) && x == s.(credentials := x.credentials, rotations := x.rotations)
    && Alike(s.credentials, v.credentials, x.credentials, y.credentials) && Alike(s.rotations, v.rotations, x.rotations, y.rotations)
  }

  /** Expiring a waiting rotation, on what was read and on everything. */
  lemma ExpireAlike(s: Tables, v: Tables, r: Option<nat>, now: nat)
    requires RowsRead(s, v) && (r.Some? ==> r.value in v.rotations && v.rotations[r.value].pending in v.credentials)
    ensures r.Some? ==> r.value in s.rotations
    ensures ChangedAlike(s, v, Expire(s, r, now), Expire(v, r, now))
  {
    if r.Some? {
      var p := v.rotations[r.value].pending;
      assert s.rotations[r.value] == v.rotations[r.value] && s.credentials[p] == v.credentials[p];
      UpdateAlike(s.rotations, v.rotations, s.rotations, v.rotations, r.value, v.rotations[r.value].(phase := TimedOut));
      UpdateAlike(s.credentials, v.credentials, s.credentials, v.credentials, p, v.credentials[p].(phase := Expired));
      hide Alike;
    }
  }

  lemma ExpireOnPart(s: Tables, v: Tables, agent: nat, r: Option<nat>, now: nat)
    requires AgentRead(s, v, agent)
    requires r.Some? ==> WaitingFor(s, agent, r.value) && s.rotations[r.value].pending in s.credentials && s.credentials[s.rotations[r.value].pending].agent == agent
    ensures r.Some? ==> r.value in v.rotations && r.value in s.rotations
    ensures ChangedAlike(s, v, Expire(s, r, now), Expire(v, r, now))
  {
    if r.Some? {
      WaitingIsRead(s, v, agent, r.value);
      CredentialIsRead(s, v, agent, s.rotations[r.value].pending);
    }
    assert r.Some? ==> v.rotations[r.value] == s.rotations[r.value];
    hide AgentRead, Alike, ChangedAlike;
    ExpireAlike(s, v, r, now);
  }

  lemma CredentialIsRead(s: Tables, v: Tables, agent: nat, c: nat)
    requires AgentRead(s, v, agent) && c in s.credentials && s.credentials[c].agent == agent
    ensures c in v.credentials && v.credentials[c] == s.credentials[c]
  {
  }

  lemma WaitingKnown(s: Tables, agent: nat)
    requires RotationsOk(s)
    ensures var r := WaitingRotation(s, agent);
            r.Some? ==> WaitingFor(s, agent, r.value) && s.rotations[r.value].pending in s.credentials && s.credentials[s.rotations[r.value].pending].agent == agent
  {
    var r := WaitingRotation(s, agent);
    assert r.Some? ==> RotationOk(s, r.value);
  }

  /** Nothing waits any more on either side, or the same rotation still does. */
  lemma StillWaiting(s: Tables, v: Tables, agent: nat, now: nat)
    requires Inv(s) && AgentRead(s, v, agent)
    ensures var r := WaitingRotation(s, agent);
            && WaitingRotation(v, agent) == r
            && (WaitingRotation(Expire(v, r, now), agent).Some? <==> WaitingRotation(Expire(s, r, now), agent).Some?)
  {
    SameWaiting(s, v, agent);
    WaitingKnown(s, agent);
    var r := WaitingRotation(s, agent);
    hide Inv;
    ExpireOnPart(s, v, agent, r, now);
    var x, y := Expire(s, r, now), Expire(v, r, now);
    hide Expire, AgentRead;
    if WaitingRotation(y, agent).Some? {
      assert WaitingFor(x, agent, WaitingRotation(y, agent).value);
    }
    if WaitingRotation(x, agent).Some? {
      var q := WaitingRotation(x, agent).value;
      assert WaitingFor(x, agent, q);
      assert WaitingFor(s, agent, q) by { ExpireOnlyEnds(s, r, now, q); }
      assert q in v.rotations by { WaitingIsRead(s, v, agent, q); }
      assert WaitingFor(y, agent, q);
    }
  }

  lemma WaitingIsRead(s: Tables, v: Tables, agent: nat, q: nat)
    requires AgentRead(s, v, agent) && WaitingFor(s, agent, q)
    ensures q in v.rotations
  {
  }

  lemma ExpireOnlyEnds(s: Tables, r: Option<nat>, now: nat, q: nat)
    requires (r.Some? ==> r.value in s.rotations) && q in Expire(s, r, now).rotations && Expire(s, r, now).rotations[q].phase == Waiting
    ensures q in s.rotations && s.rotations[q] == Expire(s, r, now).rotations[q]
  {
  }

  /** A rotation is granted, or refused, on the rows read as on everything. */
  lemma GrantOnPart(s: Tables, v: Tables, agent: nat, active: nat, key: nat, drawn: Drawn, now: nat)
    requires Inv(s) && Unused(s, drawn) && AgentRead(s, v, agent) && active in s.credentials && s.credentials[active].agent == agent
    requires v.records == map[] && v.tokens == map[] && RotateScope(agent, key) !in s.records
    ensures var part, whole := CreateRotation(v, agent, active, key, drawn, now), CreateRotation(s, agent, active, key, drawn, now);
            part.reply == whole.reply && Written(s, v, part.tables) == whole.tables
  {
    StillWaiting(s, v, agent, now);
    WaitingKnown(s, agent);
    var r := WaitingRotation(s, agent);
    ExpireOnPart(s, v, agent, r, now);
    var x, y := Expire(s, r, now), Expire(v, r, now);
    ExpireKeepsAgents(s, r, now);
    CredentialIsRead(s, v, agent, active);
    assert active in y.credentials && y.credentials[active] == x.credentials[active];
    hide Inv;
    PendingOnPart(s, v, x, y, agent);
    SameHighestAfter(s, v, x, y, agent);
    assert v.agents == map[agent := s.agents[agent]];
    hide Expire, Highest, WaitingRotation, AgentRead, ChangedAlike, Rotating, Unused, Written;
    NothingWritten(s, v, agent);
    GrantWritten(s, v, x, y, agent, active, key, drawn, now);
    GrantDecides(s, v, r, x, y, agent, active, key, drawn, now);
  }

  /** What a call of create_rotation comes to once its scope is new, by what it finds. */
  lemma GrantDecides(s: Tables, v: Tables, r: Option<nat>, x: Tables, y: Tables, agent: nat, active: nat, key: nat, drawn: Drawn, now: nat)
    requires agent in s.agents && v.agents == map[agent := s.agents[agent]]
    requires RotateScope(agent, key) !in s.records && RotateScope(agent, key) !in v.records
    requires r == WaitingRotation(s, agent) == WaitingRotation(v, agent) && x == Expire(s, r, now) && y == Expire(v, r, now)
    requires WaitingRotation(y, agent).Some? <==> WaitingRotation(x, agent).Some?
    requires active in x.credentials && active in y.credentials && y.credentials[active] == x.credentials[active]
    requires (exists c :: c in x.credentials && x.credentials[c].agent == agent && x.credentials[c].phase == Pending)
        <==> (exists c :: c in y.credentials && y.credentials[c].agent == agent && y.credentials[c].phase == Pending)
    requires Written(s, v, v) == s
    requires Written(s, v, Rotating(y, agent, active, key, drawn, now)) == Rotating(x, agent, active, key, drawn, now)
    ensures var part, whole := CreateRotation(v, agent, active, key, drawn, now), CreateRotation(s, agent, active, key, drawn, now);
            part.reply == whole.reply && Written(s, v, part.tables) == whole.tables
  {
    hide Expire, WaitingRotation, Rotating, Written;
  }

  lemma ExpireKeepsAgents(s: Tables, r: Option<nat>, now: nat)
    requires r.Some? ==> r.value in s.rotations
    ensures forall c | c in s.credentials :: c in Expire(s, r, now).credentials && Expire(s, r, now).credentials[c].agent == s.credentials[c].agent
  {
  }

  lemma NothingWritten(s: Tables, v: Tables, agent: nat)
    requires AgentRead(s, v, agent) && v.records == map[] && v.tokens == map[]
    ensures Written(s, v, v) == s
  {
    WrittenFits(s, v, v, s);
  }

  lemma PendingOnPart(s: Tables, v: Tables, x: Tables, y: Tables, agent: nat)
    requires AgentRead(s, v, agent) && ChangedAlike(s, v, x, y)
    requires forall c | c in s.credentials :: x.credentials[c].agent == s.credentials[c].agent
    ensures (exists c :: c in x.credentials && x.credentials[c].agent == agent && x.credentials[c].phase == Pending)
        <==> (exists c :: c in y.credentials && y.credentials[c].agent == agent && y.credentials[c].phase == Pending)
  {
    if c :| c in x.credentials && x.credentials[c].agent == agent && x.credentials[c].phase == Pending {
      assert c in y.credentials && y.credentials[c].agent == agent && y.credentials[c].phase == Pending;
    }
    if c :| c in y.credentials && y.credentials[c].agent == agent && y.credentials[c].phase == Pending {
      assert c in x.credentials && x.credentials[c].agent == agent && x.credentials[c].phase == Pending;
    }
  }

  lemma SameHighestAfter(s: Tables, v: Tables, x: Tables, y: Tables, agent: nat)
    requires AgentRead(s, v, agent) && ChangedAlike(s, v, x, y)
    requires forall c | c in s.credentials :: x.credentials[c].agent == s.credentials[c].agent
    ensures Highest(y, agent) == Highest(x, agent)
  {
    hide Highest;
    SameHighestOf(x, y, agent);
  }

  lemma GrantWritten(s: Tables, v: Tables, x: Tables, y: Tables, agent: nat, active: nat, key: nat, drawn: Drawn, now: nat)
    requires ChangedAlike(s, v, x, y) && Unused(s, drawn) && v.records == map[] && v.tokens == map[]
    requires RotateScope(agent, key) !in s.records && (forall a | a in v.agents :: a in s.agents && s.agents[a] == v.agents[a])
    requires Highest(y, agent) == Highest(x, agent)
    ensures Written(s, v, Rotating(y, agent, active, key, drawn, now)) == Rotating(x, agent, active, key, drawn, now)
  {
    var entry := Credential(agent, Highest(x, agent) + 1, Pending, now + WINDOW);
    var rotation := Rotation(agent, active, drawn.credential, Waiting, now + WINDOW);
    var scope, record := RotateScope(agent, key), CompletedRecord(FINGERPRINT, RotationBody(drawn.rotation, drawn.credential), true, now);
    var after, target := Rotating(y, agent, active, key, drawn, now), Rotating(x, agent, active, key, drawn, now);
    hide Highest;
    assert after == y.(credentials := y.credentials[drawn.credential := entry], rotations := y.rotations[drawn.rotation := rotation],
                       records := map[scope := record]);
    assert target == x.(credentials := x.credentials[drawn.credential := entry], rotations := x.rotations[drawn.rotation := rotation],
                        records := s.records[scope := record]);
    hide Rotating;
    InsertFits(s.credentials, v.credentials, x.credentials, y.credentials, drawn.credential, entry);
    InsertFits(s.rotations, v.rotations, x.rotations, y.rotations, drawn.rotation, rotation);
    assert Alike(s.records, v.records, s.records, v.records);
    InsertFits(s.records, v.records, s.records, v.records, scope, record);
    UntouchedFits(s.agents, v.agents);
    UntouchedFits(s.tokens, v.tokens);
    hide Alike, Fits, Written;
    WrittenFits(s, v, after, target);
  }

  lemma UntouchedFits<K, V>(committed: map<K, V>, read: map<K, V>)
    requires forall k | k in read :: k in committed && committed[k] == read[k]
    ensures Fits(committed, read, read, committed)
  {
  }

  /** A replay after its window: what it writes is the expiry of the waiting rotation it found, if it found
      one and that has expired. */
  lemma ExpiryOnPart(s: Tables, v: Tables, agent: nat, active: nat, key: nat, drawn: Drawn, now: nat)
    requires RotationsOk(s) && RowsRead(s, v) && v.agents == map[] && v.tokens == map[]
    requires forall r | r in v.rotations :: WaitingFor(s, agent, r) && v.rotations[r].pending in v.credentials
    requires RotateScope(agent, key) in s.records && v.records == map[RotateScope(agent, key) := s.records[RotateScope(agent, key)]]
    ensures var part, whole := CreateRotation(v, agent, active, key, drawn, now), CreateRotation(s, agent, active, key, drawn, now);
            part.tables == v || (part.reply == whole.reply && Written(s, v, part.tables) == whole.tables)
  {
    assert Begin(v, RotateScope(agent, key), FINGERPRINT, true, now) == Begin(s, RotateScope(agent, key), FINGERPRINT, true, now);
    SameWaiting(s, v, agent);
    var r := WaitingRotation(v, agent);
    if r.Some? {
      assert r.value in v.rotations;
      ExpireAlike(s, v, r, now);
      hide RotationsOk, Alike, RowsRead, WaitingRotation;
      ChangeWritten(s, v, Expire(s, r, now), Expire(v, r, now));
    } else {
      hide RotationsOk, Alike, RowsRead, WaitingRotation;
    }
  }

  lemma ChangeWritten(s: Tables, v: Tables, x: Tables, y: Tables)
    requires ChangedAlike(s, v, x, y)
    requires forall a | a in v.agents :: a in s.agents && s.agents[a] == v.agents[a]
    requires forall k | k in v.tokens :: k in s.tokens && s.tokens[k] == v.tokens[k]
    requires forall k | k in v.records :: k in s.records && s.records[k] == v.records[k]
    ensures Written(s, v, y) == x
  {
    UntouchedFits(s.agents, v.agents);
    UntouchedFits(s.tokens, v.tokens);
    UntouchedFits(s.records, v.records);
    AlikeFits(s.credentials, v.credentials, x.credentials, y.credentials);
    AlikeFits(s.rotations, v.rotations, x.rotations, y.rotations);
    hide Alike, Fits, Written;
    WrittenFits(s, v, y, x);
  }

  /* Activation. */

  /** The agent's credentials are those that were read, but for a pending one that has expired since. */
  ghost predicate CredentialsSeen(s: Tables, v: Tables, agent: nat) {
    && (forall c :: c in v.credentials <==> c in s.credentials && s.credentials[c].agent == agent)
    && (forall c | c in v.credentials :: CredentialSeen(v.credentials[c], s.credentials[c]))
  }

  predicate CredentialSeen(was: Credential, current: Credential) {
    current == was || (was.phase == Pending && current == was.(phase := Expired))
  }

  lemma ActiveSeen(s: Tables, v: Tables, agent: nat, c: nat)
    requires CredentialsSeen(s, v, agent)
    ensures ActiveFor(s, agent, c) <==> ActiveFor(v, agent, c)
    ensures ActiveFor(s, agent, c) ==> s.credentials[c] == v.credentials[c]
  {
    assert c in v.credentials ==> CredentialSeen(v.credentials[c], s.credentials[c]);
  }

  lemma ActivationOnPart(s: Tables, v: Tables, agent: nat, supplied: nat, rotation: nat, key: nat, now: nat)
    requires Inv(s) && agent in s.agents && v.agents == map[agent := s.agents[agent]] && v.tokens == map[] && v.records == map[]
    requires rotation in s.rotations && v.rotations == map[rotation := s.rotations[rotation]] && CredentialsSeen(s, v, agent)
    requires supplied in v.credentials ==> s.credentials[supplied] == v.credentials[supplied]
    requires var previous := s.rotations[rotation].previous; previous in v.credentials ==> s.credentials[previous] == v.credentials[previous]
    requires ActivateScope(agent, rotation, key) !in s.records
    ensures var part, whole := ActivateRotation(v, agent, supplied, rotation, key, now), ActivateRotation(s, agent, supplied, rotation, key, now);
            part.tables == v || (part.reply == whole.reply && Written(s, v, part.tables) == whole.tables)
  {
    var r := s.rotations[rotation];
    assert RotationOk(s, rotation);
    hide Inv;
    if ActivateRotation(v, agent, supplied, rotation, key, now).tables != v {
      forall c ensures ActiveFor(s, agent, c) <==> ActiveFor(v, agent, c) {
        ActiveSeen(s, v, agent, c);
      }
      assert IndexBlocks(v, agent, rotation) <==> IndexBlocks(s, agent, rotation);
      assert r.pending in v.credentials && r.previous in v.credentials;
      hide CredentialsSeen, IndexBlocks, ActiveFor;
      ActivatingWritten(s, v, agent, rotation, key, now);
      hide Activating;
    }
  }

  lemma ActivatingWritten(s: Tables, v: Tables, agent: nat, rotation: nat, key: nat, now: nat)
    requires agent in s.agents && v.agents == map[agent := s.agents[agent]] && v.tokens == map[] && v.records == map[]
    requires rotation in s.rotations && v.rotations == map[rotation := s.rotations[rotation]] && v.credentials.Keys <= s.credentials.Keys
    requires var r := s.rotations[rotation];
             && r.pending in v.credentials && r.previous in v.credentials && r.pending != r.previous
             && s.credentials[r.pending] == v.credentials[r.pending] && s.credentials[r.previous] == v.credentials[r.previous]
    ensures Written(s, v, Activating(v, agent, rotation, key, now)) == Activating(s, agent, rotation, key, now)
  {
    var r, scope := s.rotations[rotation], ActivateScope(agent, rotation, key);
    var record := CompletedRecord(FINGERPRINT, ActivationBody(rotation, r.pending), false, now);
    var revoked, activated := v.credentials[r.previous].(phase := Revoked), v.credentials[r.pending].(phase := Active, expires := now + CREDENTIAL_LIFE);
    assert Activating(v, agent, rotation, key, now) ==
           v.(credentials := v.credentials[r.previous := revoked][r.pending := activated],
              rotations := v.rotations[rotation := r.(phase := Activated)], records := v.records[scope := record]);
    assert Activating(s, agent, rotation, key, now) ==
           s.(credentials := s.credentials[r.previous := revoked][r.pending := activated],
              rotations := s.rotations[rotation := r.(phase := Activated)], records := s.records[scope := record]);
    PutTwo(s.credentials, v.credentials, r.previous, revoked, r.pending, activated);
    PutOne(s.rotations, v.rotations, rotation, r.(phase := Activated));
    PutOne(s.records, v.records, scope, record);
    PutNothing(s.agents, v.agents);
    PutNothing(s.tokens, v.tokens);
    hide Put, Activating;
  }

  /* Administration. */

  lemma CredentialRevocationOnPart(s: Tables, v: Tables, agent: nat, credential: nat)
    requires CredentialsSeen(s, v, agent) && (credential in v.credentials ==> s.credentials[credential] == v.credentials[credential])
    requires agent in s.agents && v.agents == map[agent := s.agents[agent]] && v.tokens == map[] && v.records == map[] && v.rotations == map[]
    ensures var part, whole := RevokeCredential(v, agent, credential), RevokeCredential(s, agent, credential);
            part.tables == v || (part.reply == whole.reply && Written(s, v, part.tables) == whole.tables)
  {
    if RevokeCredential(v, agent, credential).tables != v {
      var after, target := RevokeCredential(v, agent, credential).tables, RevokeCredential(s, agent, credential).tables;
      assert Put(s.credentials, v.credentials, after.credentials) == target.credentials;
      assert Put(s.agents, v.agents, after.agents) == target.agents;
      assert Put(s.rotations, v.rotations, after.rotations) == target.rotations;
      assert Put(s.records, v.records, after.records) == target.records;
      assert Put(s.tokens, v.tokens, after.tokens) == target.tokens;
    }
  }

  lemma AgentRevocationOnPart(s: Tables, v: Tables, agent: nat)
    requires AgentRead(s, v, agent) && v.tokens == map[] && v.records == map[]
    ensures var part, whole := RevokeAgent(v, agent), RevokeAgent(s, agent);
            part.reply == whole.reply && Written(s, v, part.tables) == whole.tables
  {
    var after, target := RevokeAgent(v, agent).tables, RevokeAgent(s, agent).tables;
    assert agent in v.agents;
    assert Alike(s.credentials, v.credentials, target.credentials, after.credentials);
    assert Alike(s.rotations, v.rotations, target.rotations, after.rotations);
    AlikeFits(s.credentials, v.credentials, target.credentials, after.credentials);
    AlikeFits(s.rotations, v.rotations, target.rotations, after.rotations);
    assert Fits(s.agents, v.agents, after.agents, target.agents);
    UntouchedFits(s.tokens, v.tokens);
    UntouchedFits(s.records, v.records);
    hide AgentRead, Alike, Fits, Written;
    WrittenFits(s, v, after, target);
  }

  lemma TokenOnPart(s: Tables, v: Tables, token: nat)
    requires token in s.tokens && v.tokens == map[token := s.tokens[token]]
    requires v.agents == map[] && v.credentials == map[] && v.rotations == map[] && v.records == map[]
    ensures var part, whole := RevokeToken(v, token), RevokeToken(s, token);
            part.reply == whole.reply && Written(s, v, part.tables) == whole.tables
  {
    PutOne(s.tokens, v.tokens, token, s.tokens[token].(revoked := true));
    PutNothing(s.agents, v.agents);
    PutNothing(s.credentials, v.credentials);
    PutNothing(s.rotations, v.rotations);
    PutNothing(s.records, v.records);
    hide Put;
  }

  lemma NewTokenOnPart(s: Tables, v: Tables, token: nat, bound: Option<nat>, expires: nat)
    requires token !in s.tokens && v.tokens == map[] && v.credentials == map[] && v.rotations == map[] && v.records == map[]
    requires (forall a | a in v.agents :: a in s.agents) && (bound.Some? ==> bound.value in v.agents)
    ensures var part, whole := CreateToken(v, token, bound, expires), CreateToken(s, token, bound, expires);
            part.reply == whole.reply && Written(s, v, part.tables) == whole.tables
  {
    var after, target := CreateToken(v, token, bound, expires).tables, CreateToken(s, token, bound, expires).tables;
    assert Put(s.tokens, v.tokens, after.tokens) == target.tokens;
    assert Put(s.agents, v.agents, after.agents) == target.agents;
  }

  /* Enrollment. */

  /** The index on installations has nothing against it. */
  ghost predicate InstallationFree(s: Tables, agent: nat, installation: nat) {
    forall b | b in s.agents && b != agent :: s.agents[b].installation != installation
  }

  lemma SameActive(s: Tables, v: Tables, agent: nat)
    requires CredentialsOk(s) && CredentialsSeen(s, v, agent)
    ensures ActiveCredential(v, agent) == ActiveCredential(s, agent)
    ensures Highest(v, agent) == Highest(s, agent)
  {
    forall c ensures ActiveFor(s, agent, c) <==> ActiveFor(v, agent, c) {
      ActiveSeen(s, v, agent, c);
    }
    if ActiveCredential(s, agent).Some? {
      assert ActiveFor(v, agent, ActiveCredential(s, agent).value);
    }
    if ActiveCredential(v, agent).Some? {
      assert ActiveFor(s, agent, ActiveCredential(v, agent).value);
    }
    forall c | c in v.credentials ensures v.credentials[c].agent == agent && v.credentials[c].version == s.credentials[c].version {
      assert CredentialSeen(v.credentials[c], s.credentials[c]);
    }
    hide ActiveCredential, CredentialsOk;
    SameHighestOf(s, v, agent);
  }

  lemma RegistrationOnPart(s: Tables, v: Tables, agent: nat, token: nat, installation: nat, key: nat, fingerprint: nat, platformAllowed: bool,
                           drawn: Drawn, now: nat)
    requires Inv(s) && Unused(s, drawn) && token in s.tokens && v.tokens == map[token := s.tokens[token]]
    requires agent == if s.tokens[token].bound.Some? then s.tokens[token].bound.value else drawn.agent
    requires v.agents == if s.tokens[token].bound.Some? && agent in s.agents then map[agent := s.agents[agent]] else map[]
    requires v.records == map[] && v.rotations == map[] && CredentialsSeen(s, v, agent)
    requires RegisterScope(token, installation, key) !in s.records && InstallationFree(s, agent, installation)
    ensures var part, whole := Register(v, token, installation, key, fingerprint, platformAllowed, drawn, now),
                               Register(s, token, installation, key, fingerprint, platformAllowed, drawn, now);
            part.tables == v || (part.reply == whole.reply && Written(s, v, part.tables) == whole.tables)
  {
    if Register(v, token, installation, key, fingerprint, platformAllowed, drawn, now).tables != v {
      var scope := RegisterScope(token, installation, key);
      assert agent != drawn.agent ==> agent in s.agents;
      IssuedWritten(s, v, agent, token, scope, fingerprint, installation, drawn, now);
      hide Inv, Issued, CredentialsSeen, Written;
    }
  }

  lemma IssuedWritten(s: Tables, v: Tables, agent: nat, token: nat, scope: Scope, fingerprint: nat, installation: nat, drawn: Drawn, now: nat)
    requires CredentialsOk(s) && drawn.credential !in s.credentials && token in s.tokens && v.tokens == map[token := s.tokens[token]]
    requires (forall a | a in v.agents :: a == agent && a in s.agents && s.agents[a] == v.agents[a]) && v.records == map[] && v.rotations == map[]
    requires CredentialsSeen(s, v, agent)
    ensures var after, target := Enrolled(v, agent, installation), Enrolled(s, agent, installation);
            Written(s, v, Issued(after, agent, token, scope, fingerprint, drawn, now)) == Issued(target, agent, token, scope, fingerprint, drawn, now)
  {
    var y, x := Enrolled(v, agent, installation), Enrolled(s, agent, installation);
    SameActive(s, v, agent);
    SameActiveElsewhere(v, y, agent);
    SameActiveElsewhere(s, x, agent);
    var current := ActiveCredential(x, agent);
    if current.Some? {
      ActiveSeen(s, v, agent, current.value);
    }
    var entry := Credential(agent, Highest(x, agent) + 1, Active, now + CREDENTIAL_LIFE);
    var used := s.tokens[token].(uses := s.tokens[token].uses + 1);
    var record := CompletedRecord(fingerprint, RegistrationBody(agent, drawn.credential), true, now);
    IssuedShape(v, y, agent, token, scope, fingerprint, installation, drawn, now, current, entry, used, record);
    IssuedShape(s, x, agent, token, scope, fingerprint, installation, drawn, now, current, entry, used, record);
    IssuedCredentialsWritten(s, v, agent, current, entry, drawn.credential);
    hide CredentialsOk, Highest, ActiveCredential, Issued, CredentialsSeen, Enrolled;
    PutOne(s.tokens, v.tokens, token, used);
    PutOne(s.agents, v.agents, agent, Agent(true, installation));
    PutOne(s.records, v.records, scope, record);
    PutNothing(s.rotations, v.rotations);
    hide Put;
  }

  function AfterIssue(credentials: map<nat, Credential>, current: Option<nat>, c: nat, entry: Credential): (after: map<nat, Credential>)
    requires current.Some? ==> current.value in credentials
  {
    (if current.Some? then credentials[current.value := credentials[current.value].(phase := Revoked)] else credentials)[c := entry]
  }

  lemma IssuedShape(s: Tables, x: Tables, agent: nat, token: nat, scope: Scope, fingerprint: nat, installation: nat, drawn: Drawn, now: nat,
                    current: Option<nat>, entry: Credential, used: Token, record: Record)
    requires x == Enrolled(s, agent, installation) && token in s.tokens && current == ActiveCredential(x, agent)
    requires entry == Credential(agent, Highest(x, agent) + 1, Active, now + CREDENTIAL_LIFE)
    requires used == s.tokens[token].(uses := s.tokens[token].uses + 1) && record == CompletedRecord(fingerprint, RegistrationBody(agent, drawn.credential), true, now)
    ensures current.Some? ==> current.value in s.credentials
    ensures Issued(x, agent, token, scope, fingerprint, drawn, now) ==
            s.(agents := s.agents[agent := Agent(true, installation)], credentials := AfterIssue(s.credentials, current, drawn.credential, entry),
               tokens := s.tokens[token := used], records := s.records[scope := record])
  {
    hide Highest;
  }

  /** Queries on credentials do not look at the agents. */
  lemma SameActiveElsewhere(s: Tables, t: Tables, agent: nat)
    requires t.credentials == s.credentials && forall c, d | ActiveFor(s, agent, c) && ActiveFor(s, agent, d) :: c == d
    ensures ActiveCredential(t, agent) == ActiveCredential(s, agent) && Highest(t, agent) == Highest(s, agent)
  {
    forall c ensures ActiveFor(s, agent, c) <==> ActiveFor(t, agent, c) {
    }
    if ActiveCredential(s, agent).Some? {
      assert ActiveFor(t, agent, ActiveCredential(s, agent).value);
    }
    if ActiveCredential(t, agent).Some? {
      assert ActiveFor(s, agent, ActiveCredential(t, agent).value);
    }
    hide ActiveCredential;
    HighestIsOne(s, t, agent);
  }

  lemma HighestIsOne(s: Tables, t: Tables, agent: nat)
    requires t.credentials == s.credentials
    ensures Highest(t, agent) == Highest(s, agent)
  {
    var a, b := Highest(s, agent), Highest(t, agent);
    assert HighestAmong(s, agent, s.credentials.Keys, a) && HighestAmong(t, agent, t.credentials.Keys, b);
  }

  lemma IssuedCredentialsWritten(s: Tables, v: Tables, agent: nat, current: Option<nat>, entry: Credential, c: nat)
    requires CredentialsSeen(s, v, agent) && c !in s.credentials
    requires current.Some? ==> current.value in v.credentials && current.value in s.credentials && s.credentials[current.value] == v.credentials[current.value]
    ensures Put(s.credentials, v.credentials, AfterIssue(v.credentials, current, c, entry)) == AfterIssue(s.credentials, current, c, entry)
  {
  }
}
