/** ManifestService.ensure_published and HeartbeatService.send, statement by statement, against the
    server's service. */
module PresenceAgent {
  import opened Options
  import opened PresenceProtocol

  /** What one call of ensure_published amounts to. */
  function PublishSteps(c: Client, id: nat, content: nat, fate: Fate): (events: seq<Event>) {
    if c.pending.Some? then [Publish(fate)]
    else if c.boot.None? || (c.confirmed.Some? && c.confirmed.value.0.sequence == c.manifestAcked && c.confirmed.value.0.content == content) then []
    else [PersistManifest(id, content), Publish(fate)]
  }

  /** What one call of send amounts to. */
  function SendSteps(c: Client, fate: Fate): (events: seq<Event>) {
    if c.beat.Some? then [Send(fate)]
    else if c.boot.None? || c.confirmed.None? then []
    else [PersistBeat, Send(fate)]
  }

  lemma PlayOne(w: World, e: Event)
    requires Possible(w, e)
    ensures PossibleRun(w, [e]) && Play(w, [e]) == Next(w, e)
  {
    assert [e][1..] == [];
  }

  lemma PlayTwo(w: World, d: Event, e: Event)
    requires Possible(w, d) && Possible(Next(w, d), e)
    ensures PossibleRun(w, [d, e]) && Play(w, [d, e]) == Next(Next(w, d), e)
  {
    assert [d, e][1..] == [e];
    PlayOne(Next(w, d), e);
  }

  class Agent {
    var boot: Option<nat>
    var beatAcked: int
    var beat: Option<Beat>
    var manifestAcked: int
    var pending: Option<Manifest>
    var confirmed: Option<(Manifest, Manifest)>

    function Stored(): Client
      reads this
    {
      Client(boot, beatAcked, beat, manifestAcked, pending, confirmed)
    }

    ghost function Now(service: ProtocolService, now: nat, clock: int): World
      reads this, service
    {
      World(Stored(), service.Now(), now, clock - now)
    }

    constructor ()
      ensures Stored() == Begin(0).client
    {
      boot, beatAcked, beat, manifestAcked, pending, confirmed := None, -1, None, -1, None, None;
    }

    /** A new process: what was acknowledged and what is pending stays. */
    method StartRuntime(bootId: nat)
      modifies `boot
      ensures boot == Some(bootId)
    {
      boot := Some(bootId);
    }

    method PersistManifest(m: Manifest)
      modifies `pending
      ensures pending == Some(m)
    {
      pending := Some(m);
    }

    /** confirm_manifest: only the pending manifest can be confirmed. */
    method ConfirmManifest(id: nat, sequence: int, digest: Manifest) returns (confirmedNow: bool)
      modifies `pending, `confirmed, `manifestAcked
      ensures confirmedNow <==> old(pending).Some? && old(pending).value.id == id && old(pending).value.sequence == sequence
      ensures if confirmedNow then pending.None? && confirmed == Some((old(pending).value, digest)) && manifestAcked == sequence
              else pending == old(pending) && confirmed == old(confirmed) && manifestAcked == old(manifestAcked)
    {
      if pending.None? || pending.value.id != id || pending.value.sequence != sequence {
        return false;
      }
      confirmed, manifestAcked, pending := Some((pending.value, digest)), sequence, None;
      return true;
    }

    /** persist_heartbeat: never over a pending one. */
    method PersistHeartbeat(b: Beat) returns (persisted: bool)
      modifies `beat
      ensures persisted <==> old(beat).None? && boot.Some?
      ensures beat == if persisted then Some(b) else old(beat)
    {
      if boot.None? || beat.Some? {
        return false;
      }
      beat := Some(b);
      return true;
    }

    method ConfirmHeartbeat(sequence: int) returns (confirmedNow: bool)
      modifies `beat, `beatAcked
      ensures confirmedNow <==> old(beat).Some? && old(beat).value.sequence == sequence
      ensures if confirmedNow then beat.None? && beatAcked == sequence else beat == old(beat) && beatAcked == old(beatAcked)
    {
      if beat.None? || beat.value.sequence != sequence {
        return false;
      }
      beatAcked, beat := sequence, None;
      return true;
    }

    /** Publish the pending manifest, or a new one unless the confirmed one still describes the agent.
        Without a started runtime there is none to make, and this raises.  The confirmation never finds
        anything but what was sent. */
    method EnsurePublished(service: ProtocolService, id: nat, content: nat, fate: Fate, now: nat, clock: int) returns (done: bool)
      requires WorldInv(Now(service, now, clock)) && id !in service.manifests
      modifies this, service
      ensures var events := old(PublishSteps(Stored(), id, content, fate));
              PossibleRun(old(Now(service, now, clock)), events) && Now(service, now, clock) == Play(old(Now(service, now, clock)), events)
      ensures WorldInv(Now(service, now, clock))
      ensures done <==> if old(pending).None? && boot.None? then false else old(PublishSteps(Stored(), id, content, fate)) == [] || (fate.Answered? && Near(clock, now))
      ensures done && old(pending).None? ==> confirmed.Some? && confirmed.value.0.content == content && pending.None?
    {
      hide WorldInv, AfterPublish;
      ghost var w := Now(service, now, clock);
      if pending.None? {
        if boot.None? {
          NothingPlayed(w);
          return false;
        }
        if confirmed.Some? && confirmed.value.0.sequence == manifestAcked && confirmed.value.0.content == content {
          NothingPlayed(w);
          return true;
        }
        PersistManifest(Manifest(id, manifestAcked + 1, content));
        NextKeepsInv(w, Event.PersistManifest(id, content));
        PublishKeepsInv(Now(service, now, clock), fate);
        PlayTwo(w, Event.PersistManifest(id, content), Publish(fate));
      } else {
        PublishKeepsInv(w, fate);
        PlayOne(w, Publish(fate));
      }
      done := SendManifest(service, fate, now, clock);
    }

    method SendManifest(service: ProtocolService, fate: Fate, now: nat, clock: int) returns (done: bool)
      requires WorldInv(Now(service, now, clock)) && pending.Some?
      modifies `pending, `confirmed, `manifestAcked, service
      ensures old(Possible(Now(service, now, clock), Publish(fate))) && Now(service, now, clock) == Next(old(Now(service, now, clock)), Publish(fate))
      ensures done <==> fate.Answered? && Near(clock, now)
      ensures done ==> pending.None? && confirmed.Some? && confirmed.value.0 == old(pending).value
    {
      if fate.RequestLost? {
        return false;
      }
      var m := pending.value;
      PublishKeepsInv(Now(service, now, clock), fate);
      hide WorldInv, AfterPublish;
      ghost var w := Now(service, now, clock);
      OnePerSequence(w);
      var answer := service.PublishManifest(m, clock, now);
      if fate.ReplyLost? || !answer.Published? {
        return false;
      }
      done := ConfirmManifest(m.id, m.sequence, answer.digest);
    }

    /** Retry the pending heartbeat, or persist and send the next one. */
    method Send(service: ProtocolService, now: nat, clock: int, fate: Fate) returns (done: bool)
      requires WorldInv(Now(service, now, clock))
      modifies this, service
      ensures var events := old(SendSteps(Stored(), fate));
              PossibleRun(old(Now(service, now, clock)), events) && Now(service, now, clock) == Play(old(Now(service, now, clock)), events)
      ensures WorldInv(Now(service, now, clock))
      ensures done ==> beat.None? && service.presence.Some? && service.presence.value.sequence == beatAcked
    {
      hide WorldInv, AfterPublish, AfterBeat;
      ghost var w := Now(service, now, clock);
      if beat.None? {
        if boot.None? || confirmed.None? {
          NothingPlayed(w);
          return false;
        }
        var b := Beat(boot.value, beatAcked + 1, clock, confirmed.value.0.id, confirmed.value.1);
        var persisted := PersistHeartbeat(b);
        NextKeepsInv(w, PersistBeat);
        ghost var persistedWorld := Now(service, now, clock);
        NextKeepsInv(persistedWorld, Event.Send(fate));
        PlayTwo(w, PersistBeat, Event.Send(fate));
      } else {
        NextKeepsInv(w, Event.Send(fate));
        PlayOne(w, Event.Send(fate));
      }
      done := SendBeat(service, now, clock, fate);
    }

    method SendBeat(service: ProtocolService, now: nat, clock: int, fate: Fate) returns (done: bool)
      requires WorldInv(Now(service, now, clock)) && beat.Some?
      modifies `beat, `beatAcked, service
      ensures old(Possible(Now(service, now, clock), Event.Send(fate))) && Now(service, now, clock) == Next(old(Now(service, now, clock)), Event.Send(fate))
      ensures done ==> beat.None? && service.presence.Some? && service.presence.value.sequence == beatAcked
    {
      if fate.RequestLost? {
        return false;
      }
      var b := beat.value;
      var answer := service.Heartbeat(b, clock, now);
      if fate.ReplyLost? || !answer.Accepted? || answer.sequence != b.sequence {
        return false;
      }
      done := ConfirmHeartbeat(b.sequence);
    }
  }

  lemma OnePerSequence(w: World)
    requires WorldInv(w)
    ensures OneEach(w.server)
  {
  }

  lemma NothingPlayed(w: World)
    ensures PossibleRun(w, []) && Play(w, []) == w
  {
  }
}
