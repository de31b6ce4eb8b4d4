/** Heartbeats and capability manifests: what the agent has persisted against what the server has stored,
    over lost requests, lost replies, crashes and restarts.  Nothing is delivered late. */
module PresenceProtocol {
  import opened Options

  /** A manifest document.  A digest stands for the document it was computed from. */
  datatype Manifest = Manifest(id: nat, sequence: int, content: nat)

  /** A heartbeat payload; `digest` is the manifest digest it claims. */
  datatype Beat = Beat(boot: nat, sequence: int, reported: int, manifest: nat, digest: Manifest)

  datatype Presence = Presence(boot: nat, sequence: int, beat: Beat)

  datatype Server = Server(manifests: map<nat, Manifest>, presence: Option<Presence>)

  /** runtime_state and the agent's manifest table: the pending one and the latest confirmed one, with the
      digest the server answered. */
  datatype Client = Client(
    boot: Option<nat>,
    beatAcked: int,
    beat: Option<Beat>,
    manifestAcked: int,
    pending: Option<Manifest>,
    confirmed: Option<(Manifest, Manifest)>)

  datatype Answer = Published(digest: Manifest) | Accepted(sequence: int) | SequenceConflict | ManifestConflict | ClockSkew

  const SKEW: int := 300                // seconds

  /* The server. */

  /** A time the agent gives is close enough to the server's. */
  predicate Near(time: int, now: nat) {
    now - SKEW <= time <= now + SKEW
  }

  predicate SameSequence(s: Server, m: Manifest, k: nat) {
    k in s.manifests && s.manifests[k].sequence == m.sequence
  }

  /** `publish_manifest` */
  ghost function AfterPublish(s: Server, m: Manifest): (after: (Server, Answer)) {
    if k :| SameSequence(s, m, k) then (s, if s.manifests[k] == m then Published(m) else SequenceConflict)
    else if m.id in s.manifests then (s, ManifestConflict)
    else (s.(manifests := s.manifests[m.id := m]), Published(m))
  }


  /** `_presence` */
  function AfterBeat(s: Server, beat: Beat, now: nat): (after: (Server, Answer)) {
    if !Near(beat.reported, now) then (s, ClockSkew)
    else if beat.manifest !in s.manifests || s.manifests[beat.manifest] != beat.digest then (s, ManifestConflict)
    else if s.presence.Some? && s.presence.value.boot == beat.boot && beat.sequence < s.presence.value.sequence then (s, SequenceConflict)
    else if s.presence.Some? && s.presence.value.boot == beat.boot && beat.sequence == s.presence.value.sequence then
      (s, if s.presence.value.beat == beat then Accepted(beat.sequence) else SequenceConflict)
    else (s.(presence := Some(Presence(beat.boot, beat.sequence, beat))), Accepted(beat.sequence))
  }

  class ProtocolService {
    var manifests: map<nat, Manifest>
    var presence: Option<Presence>

    function Now(): Server
      reads this
    {
      Server(manifests, presence)
    }

    constructor ()
      ensures Now() == Server(map[], None)
    {
      manifests, presence := map[], None;
    }

    /** Every request carries a timestamp, which authentication compares first. */
    method PublishManifest(m: Manifest, timestamp: int, now: nat) returns (answer: Answer)
      requires OneEach(Now())
      modifies `manifests
      ensures (Now(), answer) == if Near(timestamp, now) then AfterPublish(old(Now()), m) else (old(Now()), ClockSkew)
    {
      if !Near(timestamp, now) {
        return ClockSkew;
      }
      if k :| k in manifests && manifests[k].sequence == m.sequence {
        assert SameSequence(Now(), m, k);
        return if manifests[k] != m then SequenceConflict else Published(m);
      }
      assert forall k :: !SameSequence(Now(), m, k);
      if m.id in manifests {
        return ManifestConflict;
      }
      manifests := manifests[m.id := m];
      return Published(m);
    }

    method Heartbeat(beat: Beat, timestamp: int, now: nat) returns (answer: Answer)
      modifies `presence
      ensures (Now(), answer) == if Near(timestamp, now) then AfterBeat(old(Now()), beat, now) else (old(Now()), ClockSkew)
    {
      if !Near(timestamp, now) || !Near(beat.reported, now) {
        return ClockSkew;
      }
      if beat.manifest !in manifests || manifests[beat.manifest] != beat.digest {
        return ManifestConflict;
      }
      if presence.Some? && presence.value.boot == beat.boot {
        if beat.sequence < presence.value.sequence {
          return SequenceConflict;
        }
        if beat.sequence == presence.value.sequence {
          return if presence.value.beat != beat then SequenceConflict else Accepted(presence.value.sequence);
        }
      }
      presence := Some(Presence(beat.boot, beat.sequence, beat));
      return Accepted(beat.sequence);
    }
  }

  /** Sequences are unique among the stored manifests. */
  ghost predicate OneEach(s: Server) {
    && (forall k | k in s.manifests :: s.manifests[k].id == k)
    && (forall j, k | j in s.manifests && k in s.manifests && s.manifests[j].sequence == s.manifests[k].sequence :: j == k)
  }

  /* The agent against the server. */

  /** `now` is the server's clock, in seconds, and the agent's is `offset` ahead of it. */
  datatype World = World(client: Client, server: Server, now: nat, offset: int)

  function Begin(offset: int): (w: World) {
    World(Client(None, -1, None, -1, None, None), Server(map[], None), 0, offset)
  }

  /** What becomes of one request: lost on the way, answered but the answer lost, or answered. */
  datatype Fate = RequestLost | ReplyLost | Answered

  datatype Event =
    | StartRuntime(boot: nat)
    | PersistManifest(id: nat, content: nat)
    | Publish(fate: Fate)
    | PersistBeat
    | Send(fate: Fate)
    | Pass(seconds: nat)
    | SetClock(offset: int)         // the agent's clock is put right, or wrong

  /** A crash is not an event of its own: it may fall between any two. */
  ghost predicate Possible(w: World, e: Event) {
    match e
    case StartRuntime(_) => true
    case PersistManifest(id, _) => w.client.boot.Some? && w.client.pending.None? && id !in w.server.manifests
    case Publish(_) => w.client.pending.Some?
    case PersistBeat => w.client.boot.Some? && w.client.beat.None? && w.client.confirmed.Some?
    case Send(_) => w.client.beat.Some?
    case Pass(_) => true
    case SetClock(_) => true
  }

  function NewBeat(c: Client, clock: int): Beat
    requires c.boot.Some? && c.confirmed.Some?
  {
    Beat(c.boot.value, c.beatAcked + 1, clock, c.confirmed.value.0.id, c.confirmed.value.1)
  }

  /** A request with a timestamp taken now is let through. */
  predicate Admitted(w: World) {
    Near(w.now + w.offset, w.now)
  }

  ghost function Next(w: World, e: Event): (next: World)
    requires Possible(w, e)
  {
    var c := w.client;
    match e
    case StartRuntime(boot) => w.(client := c.(boot := Some(boot)))
    case PersistManifest(id, content) => w.(client := c.(pending := Some(Manifest(id, c.manifestAcked + 1, content))))
    case Publish(fate) =>
      if fate.RequestLost? || !Admitted(w) then w
      else
        var (server, answer) := AfterPublish(w.server, c.pending.value);
        var heard := fate.Answered? && answer.Published?;
        w.(server := server,
           client := if heard then c.(confirmed := Some((c.pending.value, answer.digest)), manifestAcked := c.pending.value.sequence, pending := None)
                     else c)
    case PersistBeat => w.(client := c.(beat := Some(NewBeat(c, w.now + w.offset))))
    case Send(fate) =>
      if fate.RequestLost? || !Admitted(w) then w
      else
        var (server, answer) := AfterBeat(w.server, c.beat.value, w.now);
        var heard := fate.Answered? && answer == Accepted(c.beat.value.sequence);
        w.(server := server, client := if heard then c.(beatAcked := c.beat.value.sequence, beat := None) else c)
    case Pass(seconds) => w.(now := w.now + seconds)
    case SetClock(offset) => w.(offset := offset)
  }

  ghost predicate PossibleRun(w: World, events: seq<Event>)
    decreases |events|
  {
    events != [] ==> Possible(w, events[0]) && PossibleRun(Next(w, events[0]), events[1..])
  }

  ghost function Play(w: World, events: seq<Event>): (end: World)
    requires PossibleRun(w, events)
    decreases |events|
  {
    if events == [] then w else Play(Next(w, events[0]), events[1..])
  }

  ghost predicate ManifestsAgree(w: World) {
    var c, s := w.client, w.server;
    && OneEach(s) && c.manifestAcked >= -1
    && (c.confirmed.Some? <==> c.manifestAcked >= 0)
    && (c.confirmed.Some? ==>
          var m := c.confirmed.value.0; m.sequence == c.manifestAcked && c.confirmed.value.1 == m && m.id in s.manifests && s.manifests[m.id] == m)
    && (c.pending.Some? ==> c.pending.value.sequence == c.manifestAcked + 1)
    && (c.pending.Some? && c.pending.value.id in s.manifests ==> s.manifests[c.pending.value.id] == c.pending.value)
    && (forall k | k in s.manifests :: s.manifests[k].sequence <= c.manifestAcked || c.pending == Some(s.manifests[k]))
  }

  ghost predicate BeatsAgree(w: World) {
    var c, s := w.client, w.server;
    && c.beatAcked >= -1
    && (c.beat.Some? ==> c.beat.value.sequence == c.beatAcked + 1 && c.beat.value.manifest in s.manifests && s.manifests[c.beat.value.manifest] == c.beat.value.digest)
    && (s.presence.None? ==> c.beatAcked == -1)
    && (s.presence.Some? ==>
          var p := s.presence.value;
          && p.sequence == p.beat.sequence && p.boot == p.beat.boot
          && (p.sequence == c.beatAcked || c.beat == Some(p.beat)))
  }

  ghost predicate WorldInv(w: World) {
    ManifestsAgree(w) && BeatsAgree(w)
  }

  lemma PublishKeepsInv(w: World, fate: Fate)
    requires WorldInv(w) && Possible(w, Publish(fate))
    ensures WorldInv(Next(w, Publish(fate)))
    ensures AfterPublish(w.server, w.client.pending.value).1 == Published(w.client.pending.value)
  {
    PendingIsFree(w);
  }

  /** The pending manifest is either not on the server yet, or it is there as it is. */
  lemma PendingIsFree(w: World)
    requires ManifestsAgree(w) && w.client.pending.Some?
    ensures forall k | SameSequence(w.server, w.client.pending.value, k) :: w.server.manifests[k] == w.client.pending.value
    ensures w.client.pending.value.id in w.server.manifests ==> SameSequence(w.server, w.client.pending.value, w.client.pending.value.id)
  {
  }

  /** Every event keeps the invariant. */
  lemma NextKeepsInv(w: World, e: Event)
    requires WorldInv(w) && Possible(w, e)
    ensures WorldInv(Next(w, e))
  {
    if e.Publish? {
      hide WorldInv, AfterPublish, AfterBeat;
      PublishKeepsInv(w, e.fate);
    } else {
      hide AfterPublish;
    }
  }

  lemma {:induction false} PlayKeepsInv(w: World, events: seq<Event>)
    requires WorldInv(w) && PossibleRun(w, events)
    ensures WorldInv(Play(w, events))
    decreases |events|
  {
    hide WorldInv, Next, Possible;
    if events != [] {
      NextKeepsInv(w, events[0]);
      PlayKeepsInv(Next(w, events[0]), events[1..]);
    }
  }

  lemma Agreement(offset: int, events: seq<Event>)
    requires PossibleRun(Begin(offset), events)
    ensures WorldInv(Play(Begin(offset), events))
  {
    PlayKeepsInv(Begin(offset), events);
  }

  /** Whatever was lost and wherever the agent crashed or restarted, the sequence the server has stored is
      the agent's acknowledged one or the next; in the latter case the agent still has that heartbeat to
      retry. */
  lemma SequencesAgree(offset: int, events: seq<Event>)
    requires PossibleRun(Begin(offset), events)
    ensures var w := Play(Begin(offset), events);
            if w.server.presence.None? then w.client.beatAcked == -1
            else
              var stored := w.server.presence.value.sequence;
              stored == w.client.beatAcked || (stored == w.client.beatAcked + 1 && w.client.beat == Some(w.server.presence.value.beat))
  {
    Agreement(offset, events);
    hide Play, PossibleRun;
  }

  /** No heartbeat, first or retried, meets a sequence or manifest conflict: it is accepted under its own
      sequence, unless the payload's clock is no longer close to the server's. */
  lemma HeartbeatsNeverConflict(offset: int, events: seq<Event>)
    requires PossibleRun(Begin(offset), events) && Play(Begin(offset), events).client.beat.Some?
    ensures var w := Play(Begin(offset), events);
            var beat := w.client.beat.value;
            AfterBeat(w.server, beat, w.now).1 == if Near(beat.reported, w.now) then Accepted(beat.sequence) else ClockSkew
    ensures var w := Play(Begin(offset), events);
            var beat := w.client.beat.value;
            beat.manifest in w.server.manifests && w.server.manifests[beat.manifest] == beat.digest
  {
    Agreement(offset, events);
    hide Play, PossibleRun;
  }

  /** No manifest, first or retried, meets a conflict, and the latest confirmed one is on the server under
      its identifier and digest. */
  lemma ManifestsNeverConflict(offset: int, events: seq<Event>)
    requires PossibleRun(Begin(offset), events)
    ensures var w := Play(Begin(offset), events);
            w.client.pending.Some? ==> AfterPublish(w.server, w.client.pending.value).1 == Published(w.client.pending.value)
    ensures var w := Play(Begin(offset), events);
            w.client.confirmed.Some? ==>
              var (m, digest) := w.client.confirmed.value; m.id in w.server.manifests && w.server.manifests[m.id] == m == digest
  {
    Agreement(offset, events);
    var w := Play(Begin(offset), events);
    hide Play, PossibleRun;
    if w.client.pending.Some? {
      PublishKeepsInv(w, Answered);
    }
  }

  predicate Settled(w: World, t: World)
    requires w.client.beat.Some?
  {
    t.client.beat.None? && t.server.presence.Some? && t.server.presence.value.sequence == t.client.beatAcked == w.client.beat.value.sequence
  }

  /** An uninterrupted retry settles - client and server then agree on the sequence and nothing is
      pending - exactly when the agent's clock is close to the server's, and so is, still or already, the
      time the payload reports. */
  lemma RetrySettles(offset: int, events: seq<Event>)
    requires PossibleRun(Begin(offset), events) && Play(Begin(offset), events).client.beat.Some?
    ensures var w := Play(Begin(offset), events);
            Settled(w, Next(w, Send(Answered))) <==> Near(w.client.beat.value.reported, w.now) && Near(w.now + w.offset, w.now)
  {
    HeartbeatsNeverConflict(offset, events);
    Agreement(offset, events);
    hide Play, PossibleRun;
  }

  /** A new heartbeat that is sent at once settles exactly when the two clocks are close. */
  lemma NewBeatSettles(offset: int, events: seq<Event>)
    requires PossibleRun(Begin(offset), events) && Possible(Play(Begin(offset), events), PersistBeat)
    ensures var w := Next(Play(Begin(offset), events), PersistBeat);
            Possible(w, Send(Answered)) && (Settled(w, Next(w, Send(Answered))) <==> -SKEW <= w.offset <= SKEW)
  {
    Agreement(offset, events);
    var v := Play(Begin(offset), events);
    hide Play, PossibleRun;
    NextKeepsInv(v, PersistBeat);
  }

  /** The pending heartbeat is too old for the server. */
  ghost predicate Stale(w: World) {
    w.client.beat.Some? && w.now > w.client.beat.value.reported + SKEW
  }

  /** A pending heartbeat that is not too old settles once the agent's clock is right: at once, or when
      the server's clock has caught up with it. */
  lemma FreshSettles(offset: int, events: seq<Event>, seconds: nat)
    requires PossibleRun(Begin(offset), events) && Play(Begin(offset), events).client.beat.Some?
    requires var w := Play(Begin(offset), events); Admitted(w) && Near(w.client.beat.value.reported - seconds, w.now)
    ensures var w := Play(Begin(offset), events);
            !Stale(w) && Settled(w, Next(Next(w, Pass(seconds)), Send(Answered)))
  {
    Agreement(offset, events);
    hide Play, PossibleRun;
  }

  /** Once a pending heartbeat is too old it stays pending for good, whatever becomes of the clocks:
      every retry is refused, no newer heartbeat is made, and the server's presence never changes again. */
  lemma {:induction false} StaleForever(w: World, events: seq<Event>)
    requires Stale(w) && PossibleRun(w, events)
    ensures Stale(Play(w, events)) && Play(w, events).client.beat == w.client.beat
    ensures Play(w, events).server.presence == w.server.presence
    decreases |events|
  {
    if events != [] {
      StaleStays(w, events[0]);
      StaleForever(Next(w, events[0]), events[1..]);
    }
  }

  lemma StaleStays(w: World, e: Event)
    requires Stale(w) && Possible(w, e)
    ensures Stale(Next(w, e)) && Next(w, e).client.beat == w.client.beat && Next(w, e).server.presence == w.server.presence
  {
  }

  /** It happens, with any clock that is let through at all: the agent starts, has its manifest confirmed,
      persists a heartbeat, and is not back for too long. */
  lemma StaleReached(offset: int, pause: nat)
    requires -SKEW <= offset <= SKEW && pause > offset + SKEW
    ensures exists events :: PossibleRun(Begin(offset), events) && Stale(Play(Begin(offset), events))
  {
    var m := Manifest(2, 0, 3);
    var events := [StartRuntime(1), PersistManifest(2, 3), Publish(Answered), PersistBeat, Pass(pause)];
    var a := Next(Begin(offset), events[0]);
    var b := Next(a, events[1]);
    assert b.client.pending == Some(m);
    var c := Next(b, events[2]);
    assert c.client.confirmed == Some((m, m)) by {
      assert forall k :: !SameSequence(b.server, m, k);
    }
    var d := Next(c, events[3]);
    var e := Next(d, events[4]);
    hide AfterPublish;
    assert events[1..] == [events[1], events[2], events[3], events[4]] && events[1..][1..] == [events[2], events[3], events[4]];
    assert [events[2], events[3], events[4]][1..] == [events[3], events[4]] && [events[3], events[4]][1..] == [events[4]] && [events[4]][1..] == [];
    assert PossibleRun(d, [events[4]]) && Play(d, [events[4]]) == e;
    assert PossibleRun(c, [events[3], events[4]]) && Play(c, [events[3], events[4]]) == e;
    assert PossibleRun(b, [events[2], events[3], events[4]]) && Play(b, [events[2], events[3], events[4]]) == e;
    assert PossibleRun(a, events[1..]) && Play(a, events[1..]) == e;
    assert PossibleRun(Begin(offset), events) && Play(Begin(offset), events) == e;
  }

  /* What the server lets through, whoever sends it. */

  /** A heartbeat is accepted if and only if its time is close, the manifest it names is stored under its
      digest, and it is the next from a new boot, a later one of the stored boot, or the stored one again. */
  lemma AcceptedIff(s: Server, beat: Beat, now: nat)
    ensures AfterBeat(s, beat, now).1.Accepted? <==>
              && now - SKEW <= beat.reported <= now + SKEW
              && beat.manifest in s.manifests && s.manifests[beat.manifest] == beat.digest
              && (s.presence.None? || s.presence.value.boot != beat.boot || s.presence.value.sequence < beat.sequence
                  || (s.presence.value.sequence == beat.sequence && s.presence.value.beat == beat))
    ensures AfterBeat(s, beat, now).1.Accepted? ==> AfterBeat(s, beat, now).1.sequence == beat.sequence
  {
  }

  /** What is stored only ever changes to an accepted heartbeat, and within one boot only to a later one. */
  lemma PresenceMovesOn(s: Server, beat: Beat, now: nat)
    ensures var (t, answer) := AfterBeat(s, beat, now);
            && t.manifests == s.manifests
            && (t.presence != s.presence ==> answer.Accepted? && t.presence == Some(Presence(beat.boot, beat.sequence, beat)))
            && (answer.Accepted? ==> t.presence.Some? && t.presence.value.boot == beat.boot && t.presence.value.sequence == beat.sequence)
            && (s.presence.Some? ==> t.presence.Some?)
            && (s.presence.Some? && t.presence != s.presence && t.presence.value.boot == s.presence.value.boot ==>
                  t.presence.value.sequence > s.presence.value.sequence)
  {
  }

  /** One heartbeat after the other, from whomever. */
  function AfterBeats(s: Server, beats: seq<(Beat, nat)>): (t: Server)
    decreases |beats|
  {
    if beats == [] then s else AfterBeats(AfterBeat(s, beats[0].0, beats[0].1).0, beats[1..])
  }

  /** While one boot reports, its stored sequence never falls. */
  lemma {:induction false} SequenceNeverFalls(s: Server, beats: seq<(Beat, nat)>)
    requires s.presence.Some? && forall k | 0 <= k < |beats| :: beats[k].0.boot == s.presence.value.boot
    ensures var t := AfterBeats(s, beats);
            t.presence.Some? && t.presence.value.boot == s.presence.value.boot && t.presence.value.sequence >= s.presence.value.sequence
    decreases |beats|
  {
    if beats != [] {
      PresenceMovesOn(s, beats[0].0, beats[0].1);
      hide AfterBeat;
      SequenceNeverFalls(AfterBeat(s, beats[0].0, beats[0].1).0, beats[1..]);
    }
  }

  /** A manifest is published if and only if its sequence is new with a new identifier, or is this very
      manifest's; and what is stored is never replaced. */
  lemma PublishedIff(s: Server, m: Manifest)
    requires OneEach(s)
    ensures var (t, answer) := AfterPublish(s, m);
            && (answer.Published? <==>
                  (m.id in s.manifests && s.manifests[m.id] == m)
                  || (m.id !in s.manifests && forall k | k in s.manifests :: s.manifests[k].sequence != m.sequence))
            && (answer.Published? ==> answer.digest == m && m.id in t.manifests && t.manifests[m.id] == m)
            && t.presence == s.presence && (forall k | k in s.manifests :: k in t.manifests && t.manifests[k] == s.manifests[k])
            && t.manifests.Keys == s.manifests.Keys + if answer.Published? then {m.id} else {}
  {
    if m.id in s.manifests && s.manifests[m.id] == m {
      assert SameSequence(s, m, m.id);
    } else if k :| SameSequence(s, m, k) {
      assert s.manifests[k].sequence == m.sequence;
    } else {
      forall k | k in s.manifests ensures s.manifests[k].sequence != m.sequence {
        assert !SameSequence(s, m, k);
      }
    }
  }

  /** An uninterrupted publication of the pending manifest is confirmed exactly if the request's timestamp is
      let through; otherwise it stays pending. */
  lemma PublishSettlesIff(w: World)
    requires WorldInv(w) && w.client.pending.Some?
    ensures var x := Next(w, Publish(Answered));
            if w.now - SKEW <= w.now + w.offset <= w.now + SKEW then
              && x.client.pending.None? && x.client.confirmed == Some((w.client.pending.value, w.client.pending.value))
              && x.client.manifestAcked == w.client.pending.value.sequence
              && w.client.pending.value.id in x.server.manifests && x.server.manifests[w.client.pending.value.id] == w.client.pending.value
            else x == w
  {
    PublishKeepsInv(w, Answered);
    PublishedIff(w.server, w.client.pending.value);
    hide AfterPublish, WorldInv;
  }
}
