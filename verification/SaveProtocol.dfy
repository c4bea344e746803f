/**
 The save layer as a concurrent protocol: one actor per open save, a registry guarded by one
 mutex, sessions that come and go, a store whose writes may fail, and one shutdown. A step is
 one atomic action of one participant; any interleaving of steps is a run.
 */
module SaveProtocol {
  import opened Wrappers

  datatype Policy = Takeover | Refuse

  datatype Key = Keyed(fingerprint: string, slot: string) | Guest(guestId: string)

  /** The part of a pilot that Encode writes. */
  datatype Row = Row(body: string, inBelt: bool)

  /** A pilot in memory: a mining run and a scan are never part of the row. */
  datatype Pilot = Pilot(row: Row, runOpen: bool, scanning: bool)

  function Encode(p: Pilot): Row { p.row }

  type Disk = map<Key, Row>

  /** A failed write may still have reached the disk before the error came back. */
  datatype Write = Stored | Failed(landed: bool)

  datatype Actor = Actor(
    key: Key,
    pilot: Pilot,
    dirty: bool,
    session: Option<nat>,
    revision: nat,
    attached: bool,   // a session has been bound to it at least once
    stopCloses: nat,  // how often the stop channel was closed
    done: bool,
    finalErr: bool)

  /** closes counts how often the kick and snapshot channels were closed. */
  datatype Session = Session(actor: nat, released: bool, closes: nat)

  datatype Waiter = ByDetach(session: nat) | ByShutdown

  /** The registry mutex, with the operation that holds it across an actor's own steps. */
  datatype Lock =
    | Free
    | Binding(id: nat)                   // Attach, before the actor has run its closure
    | Stopping(id: nat, waiter: Waiter)  // stop closed, waiting for the actor to finish

  datatype Shutdown =
    | NotStarted
    | Flushing(queue: seq<nat>, kicked: bool, failed: bool)

  datatype System = System(
    policy: Policy,
    registry: map<Key, nat>,
    closing: bool,
    lock: Lock,
    actors: map<nat, Actor>,      // every actor ever started
    latest: map<Key, nat>,        // the newest actor of each key
    sessions: map<nat, Session>,
    disk: Disk,
    shutdown: Shutdown,
    sentOnClosed: bool)           // some snapshot went to a closed channel

  datatype Step =
    | AttachLookup(key: Key, id: nat, storeUp: bool, blank: Row, decoded: Row)
    | AttachBind(session: nat, seen: Row)
    | Detach(session: nat, resolved: Pilot, write: Write)
    | Release
    | CloseSession(session: nat)
    | Intent(session: nat, accepted: bool, after: Pilot)
    | SnapshotNow(session: nat)
    | Tick(id: nat, after: Pilot)
    | Autosave(id: nat, write: Write)
    | FinalFlush(id: nat, resolved: Pilot, write: Write)
    | BeginShutdown(queue: seq<nat>)
    | ShutdownKick(resolved: Pilot)
    | ShutdownStop

  // ---------------------------------------------------------------- the actor's own actions

  /** What persist leaves behind: the actor, the disk, and whether it reported an error. */
  datatype Persisted = Persisted(actor: Actor, disk: Disk, err: bool)

  function Persist(a: Actor, disk: Disk, w: Write): Persisted {
    if a.key.Guest? || !a.dirty then Persisted(a, disk, false)
    else if a.session.None? && a.pilot.runOpen then Persisted(a, disk, true)
    else match w
      case Stored => Persisted(a.(dirty := false), disk[a.key := Encode(a.pilot)], false)
      case Failed(landed) => Persisted(a, if landed then disk[a.key := Encode(a.pilot)] else disk, true)
  }

  /** The emergency autopilot, run when a keyed pilot is left with an open run. */
  function ResolveAbandoned(a: Actor, resolved: Pilot): Actor {
    if a.key.Keyed? && a.pilot.runOpen then a.(pilot := resolved, dirty := true) else a
  }

  function Snapshot(a: Actor): Actor { a.(revision := a.revision + 1) }

  predicate Ticking(a: Actor) {
    a.session.Some? && (a.pilot.row.inBelt || a.pilot.runOpen || a.pilot.scanning)
  }

  /** The closure that detach runs on the actor. */
  function DetachClosure(a: Actor, session: nat, resolved: Pilot, disk: Disk, w: Write): Persisted {
    Persist(if a.session == Some(session) then ResolveAbandoned(a, resolved).(session := None) else a, disk, w)
  }

  predicate StopsAfterDetach(a: Actor) { a.session.None? && (a.key.Guest? || !a.dirty) }

  /** The actor's last action, once its stop channel is closed. */
  function LastFlush(a: Actor, resolved: Pilot, disk: Disk, w: Write): Persisted {
    var p := Persist(ResolveAbandoned(a, resolved), disk, w);
    p.(actor := p.actor.(done := true, finalErr := p.err))
  }

  // ---------------------------------------------------------------- steps of the system

  /** Closing happens once, whoever asks again. */
  function Closed(x: Session): Session {
    if x.closes == 0 then x.(closes := 1) else x
  }

  function DeliverKick(s: System, session: nat): System
    requires session in s.sessions
  {
    s.(sessions := s.sessions[session := Closed(s.sessions[session])])
  }

  function Put(s: System, id: nat, p: Persisted): System {
    s.(actors := s.actors[id := p.actor], disk := p.disk)
  }

  function Without(registry: map<Key, nat>, key: Key, id: nat): map<Key, nat> {
    if key in registry && registry[key] == id then registry - {key} else registry
  }

  function Deregister(s: System, id: nat): System
    requires id in s.actors
  {
    s.(registry := Without(s.registry, s.actors[id].key, id))
  }

  predicate Enabled(s: System, step: Step) {
    match step
    case AttachLookup(_, id, _, _, _) => s.lock.Free? && id !in s.actors
    case AttachBind(session, _) => s.lock.Binding? && s.lock.id in s.actors && session !in s.sessions
                                   && (match s.actors[s.lock.id].session case Some(o) => o in s.sessions case None => true)
    case Detach(session, _, _) => s.lock.Free? && session in s.sessions && s.sessions[session].actor in s.actors
    case Release => s.lock.Stopping? && s.lock.id in s.actors && s.actors[s.lock.id].done
                    && (s.lock.waiter.ByDetach? ==> s.lock.waiter.session in s.sessions)
                    && (s.lock.waiter.ByShutdown? ==> s.shutdown.Flushing? && s.shutdown.queue != [])
    case CloseSession(session) => session in s.sessions && s.sessions[session].released
    case Intent(session, accepted, after) =>
      session in s.sessions && s.sessions[session].actor in s.actors &&
      var a := s.actors[s.sessions[session].actor];
      // A rejected action changes nothing that is saved.
      !accepted ==> Encode(after) == Encode(a.pilot) && after.runOpen == a.pilot.runOpen
    case SnapshotNow(session) => session in s.sessions && s.sessions[session].actor in s.actors
    case Tick(id, _) => id in s.actors && !s.actors[id].done && Ticking(s.actors[id])
                        && s.actors[id].session.value in s.sessions
    case Autosave(id, _) => id in s.actors && !s.actors[id].done
    case FinalFlush(id, _, _) => id in s.actors && !s.actors[id].done && s.actors[id].stopCloses > 0
    case BeginShutdown(queue) => s.lock.Free? && s.shutdown.NotStarted?
                                 && (forall k :: k in s.registry ==> s.registry[k] in queue)
                                 && (forall i :: 0 <= i < |queue| ==> queue[i] in s.registry.Values)
                                 && (forall i, j :: 0 <= i < j < |queue| ==> queue[i] != queue[j])
    case ShutdownKick(_) => s.shutdown.Flushing? && s.shutdown.queue != [] && !s.shutdown.kicked
                            && s.shutdown.queue[0] in s.actors
                            && (match s.actors[s.shutdown.queue[0]].session case Some(o) => o in s.sessions case None => true)
    case ShutdownStop => s.shutdown.Flushing? && s.shutdown.queue != [] && s.shutdown.kicked && s.lock.Free?
                         && s.shutdown.queue[0] in s.actors
  }

  /** A new actor takes over a key; the mutex stays held until it is bound. */
  function Start(s: System, key: Key, id: nat, row: Row, disk: Disk): System {
    s.(disk := disk,
       actors := s.actors[id := Actor(key, Pilot(row, false, false), false, None, 0, false, 0, false, false)],
       registry := s.registry[key := id],
       latest := s.latest[key := id],
       lock := Binding(id))
  }

  function ApplyAttachLookup(s: System, key: Key, id: nat, storeUp: bool, blank: Row, decoded: Row): System {
    if s.closing then s
    else if key.Guest? then if key in s.registry then s else Start(s, key, id, blank, s.disk)
    else if !storeUp then s
    else if key in s.registry then s.(lock := Binding(s.registry[key]))
    // The row is created when missing; a decoded save never holds a run or a scan.
    else Start(s, key, id, decoded, if key in s.disk then s.disk else s.disk[key := blank])
  }

  /** The actor after the closure that Attach runs on it, and whether the attach was accepted. */
  function Bound(a: Actor, policy: Policy, session: nat, seen: Row): (Actor, bool) {
    if a.done || (a.key.Keyed? && a.session.Some? && policy.Refuse?) then (a, false)
    else if a.key.Guest? then (a.(session := Some(session), attached := true), true)
    // A keyed pilot's last-seen time is written into the save, which makes it dirty.
    else (a.(session := Some(session), attached := true, pilot := a.pilot.(row := seen), dirty := true), true)
  }

  /** A takeover closes the channels of the owner it displaces. */
  function Displaced(sessions: map<nat, Session>, a: Actor, accepted: bool): map<nat, Session>
    requires a.session.Some? ==> a.session.value in sessions
  {
    if accepted && a.key.Keyed? && a.session.Some?
    then sessions[a.session.value := Closed(sessions[a.session.value])] else sessions
  }

  function ApplyAttachBind(s: System, session: nat, seen: Row): System
    requires Enabled(s, AttachBind(session, seen))
  {
    var id := s.lock.id;
    var a := s.actors[id];
    var (b, accepted) := Bound(a, s.policy, session, seen);
    var sessions := Displaced(s.sessions, a, accepted);
    s.(lock := Free,
       registry := if a.done && a.key.Keyed? then s.registry - {a.key} else s.registry,
       actors := s.actors[id := b],
       sessions := if accepted then sessions[session := Session(id, false, 0)] else sessions)
  }

  /** The actor after a detach: its closure has run and its stop channel is closed if nothing keeps it. */
  function Detached(a: Actor, session: nat, resolved: Pilot, disk: Disk, w: Write): (Persisted, bool) {
    if a.done then (Persisted(a, disk, false), false)
    else
      var p := DetachClosure(a, session, resolved, disk, w);
      if StopsAfterDetach(p.actor) then (p.(actor := p.actor.(stopCloses := p.actor.stopCloses + 1)), true)
      else (p, false)
  }

  function ApplyDetach(s: System, session: nat, resolved: Pilot, w: Write): System
    requires Enabled(s, Detach(session, resolved, w))
  {
    var x := s.sessions[session];
    var (p, stops) := Detached(s.actors[x.actor], session, resolved, s.disk, w);
    Put(s, x.actor, p)
    .(lock := if stops then Stopping(x.actor, ByDetach(session)) else s.lock,
      sessions := s.sessions[session := x.(released := !stops || x.released)])
  }

  function ApplyRelease(s: System): System
    requires Enabled(s, Release)
  {
    var id := s.lock.id;
    var s0 := Deregister(s, id).(lock := Free);
    match s.lock.waiter
    case ByDetach(session) => s0.(sessions := s.sessions[session := s.sessions[session].(released := true)])
    case ByShutdown =>
      s0.(shutdown := Flushing(s.shutdown.queue[1..], false, s.shutdown.failed || s.actors[id].finalErr))
  }

  function ApplyIntent(s: System, session: nat, accepted: bool, after: Pilot): System
    requires Enabled(s, Intent(session, accepted, after))
  {
    var id := s.sessions[session].actor;
    var a := s.actors[id];
    if a.done || a.session != Some(session) then s
    else s.(actors := s.actors[id := Snapshot(a.(pilot := after, dirty := a.dirty || accepted))])
  }

  function ApplySnapshotNow(s: System, session: nat): System
    requires Enabled(s, SnapshotNow(session))
  {
    var id := s.sessions[session].actor;
    var a := s.actors[id];
    if a.done || a.session != Some(session) then s else s.(actors := s.actors[id := Snapshot(a)])
  }

  function ApplyTick(s: System, id: nat, after: Pilot): System
    requires Enabled(s, Tick(id, after))
  {
    var a := s.actors[id];
    s.(actors := s.actors[id := Snapshot(a.(pilot := after, dirty := true))],
       sentOnClosed := s.sentOnClosed || s.sessions[a.session.value].closes > 0)
  }

  function ApplyShutdownKick(s: System, resolved: Pilot): System
    requires Enabled(s, ShutdownKick(resolved))
  {
    var id := s.shutdown.queue[0];
    var a := s.actors[id];
    var s0 := s.(shutdown := s.shutdown.(kicked := true));
    if a.done || a.session.None? then s0
    else DeliverKick(s0, a.session.value).(actors := s.actors[id := ResolveAbandoned(a, resolved).(session := None)])
  }

  function ApplyShutdownStop(s: System): System
    requires Enabled(s, ShutdownStop)
  {
    var id := s.shutdown.queue[0];
    var a := s.actors[id];
    s.(registry := if a.done then Without(s.registry, a.key, id) else s.registry,
       shutdown := if a.done then Flushing(s.shutdown.queue[1..], false, s.shutdown.failed || a.finalErr) else s.shutdown,
       actors := s.actors[id := if a.done then a else a.(stopCloses := a.stopCloses + 1)],
       lock := if a.done then s.lock else Stopping(id, ByShutdown))
  }

  function Apply(s: System, step: Step): System
    requires Enabled(s, step)
  {
    match step
    case AttachLookup(key, id, storeUp, blank, decoded) => ApplyAttachLookup(s, key, id, storeUp, blank, decoded)
    case AttachBind(session, seen) => ApplyAttachBind(s, session, seen)
    case Detach(session, resolved, w) => ApplyDetach(s, session, resolved, w)
    case Release => ApplyRelease(s)
    case CloseSession(session) => DeliverKick(s, session)
    case Intent(session, accepted, after) => ApplyIntent(s, session, accepted, after)
    case SnapshotNow(session) => ApplySnapshotNow(s, session)
    case Tick(id, after) => ApplyTick(s, id, after)
    case Autosave(id, w) => Put(s, id, Persist(s.actors[id], s.disk, w))
    case FinalFlush(id, resolved, w) => Put(s, id, LastFlush(s.actors[id], resolved, s.disk, w))
    case BeginShutdown(queue) => s.(closing := true, shutdown := Flushing(queue, false, false))
    case ShutdownKick(resolved) => ApplyShutdownKick(s, resolved)
    case ShutdownStop => ApplyShutdownStop(s)
  }

  function Init(policy: Policy, disk: Disk): System {
    System(policy, map[], false, Free, map[], map[], map[], disk, NotStarted, false)
  }

  ghost predicate Legal(s: System, steps: seq<Step>)
    decreases |steps|
  {
    steps == [] || (Enabled(s, steps[0]) && Legal(Apply(s, steps[0]), steps[1..]))
  }

  ghost function Exec(s: System, steps: seq<Step>): System
    requires Legal(s, steps)
    decreases |steps|
  {
    if steps == [] then s else Exec(Apply(s, steps[0]), steps[1..])
  }
}
