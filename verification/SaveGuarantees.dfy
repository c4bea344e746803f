/** What the save protocol promises over every interleaving, read off its invariant. */
module SaveGuarantees {
  import opened Wrappers
  import opened SaveProtocol
  import opened SaveSafety

  ghost predicate Reachable(s: System) {
    exists policy, disk, steps :: Legal(Init(policy, disk), steps) && Exec(Init(policy, disk), steps) == s
  }

  lemma ReachableOk(s: System)
    requires Reachable(s)
    ensures Inv(s)
  {
    hide Inv;
    var policy, disk, steps :| Legal(Init(policy, disk), steps) && Exec(Init(policy, disk), steps) == s;
    StartOk(policy, disk);
    RunKeeps(Init(policy, disk), steps);
  }

  /** At most one running actor per save, and it is the registered one. */
  lemma SingleWriter(s: System, i: nat, j: nat)
    requires Reachable(s) && i in s.actors && j in s.actors && !s.actors[i].done && !s.actors[j].done
    requires s.actors[i].key == s.actors[j].key
    ensures i == j && s.actors[i].key in s.registry && s.registry[s.actors[i].key] == i
  {
    ReachableOk(s);
    assert PlacedOk(s, i) && PlacedOk(s, j);
  }

  /** Once attached, a save that is not dirty is on disk; and one that is no longer loaded is on
      disk whatever happened, unless the shutdown has reported its flush as failed. */
  lemma NothingIsLost(s: System, key: Key)
    requires Reachable(s) && key.Keyed? && key in s.latest && s.latest[key] in s.actors
    ensures var a := s.actors[s.latest[key]];
            && a.key == key
            && (a.attached && !a.dirty ==> Durable(a, s.disk))
            && (key !in s.registry ==> Durable(a, s.disk) || (s.shutdown.Flushing? && s.shutdown.failed))
  {
    ReachableOk(s);
    var id := s.latest[key];
    assert ActorOk(s.actors[id], s.disk) && PlacedOk(s, id);
  }

  /** When shutdown has worked through its queue and reports no error, every save is on disk,
      every actor has finished, and no save was given up. */
  lemma ShutdownSavesAll(s: System)
    requires Reachable(s) && s.shutdown == Flushing([], false, false)
    ensures s.registry == map[]
    ensures forall id :: id in s.actors ==> s.actors[id].done && s.actors[id].session.None?
    ensures forall key :: key in s.latest && key.Keyed? ==>
              s.latest[key] in s.actors && Durable(s.actors[s.latest[key]], s.disk)
  {
    ReachableOk(s);
    forall id | id in s.actors ensures s.actors[id].done && s.actors[id].session.None? {
      assert ActorOk(s.actors[id], s.disk) && PlacedOk(s, id);
    }
    forall key | key in s.latest && key.Keyed?
      ensures s.latest[key] in s.actors && Durable(s.actors[s.latest[key]], s.disk)
    {
      NothingIsLost(s, key);
    }
  }

  /** No snapshot goes to a closed channel, no channel is closed twice, and no actor is stopped twice. */
  lemma ChannelsAreSafe(s: System)
    requires Reachable(s)
    ensures !s.sentOnClosed
    ensures forall x :: x in s.sessions ==> s.sessions[x].closes <= 1
    ensures forall id :: id in s.actors ==> s.actors[id].stopCloses <= 1
  {
    ReachableOk(s);
    forall id | id in s.actors ensures s.actors[id].stopCloses <= 1 {
      assert ActorOk(s.actors[id], s.disk);
    }
  }

  // ---------------------------------------------------------------- one step

  /** A pilot in memory changes only through its owner: the owner's intent, a tick watched by an
      owner, the autopilot for an owner that leaves, the last-seen stamp of a new owner, or the
      last attempt to end a run that the autopilot could not end. */
  lemma OnlyOwnersChangeState(s: System, step: Step, id: nat)
    requires Inv(s) && Enabled(s, step) && id in s.actors
    requires id in Apply(s, step).actors && Apply(s, step).actors[id].pilot != s.actors[id].pilot
    ensures var a, b := s.actors[id], Apply(s, step).actors[id];
            match step
            case Intent(x, _, _) => a.session == Some(x)
            case Detach(x, _, _) => a.session == Some(x) && b.session.None? && a.pilot.runOpen
            case Tick(i, _) => i == id && a.session.Some?
            case ShutdownKick(_) => a.session.Some? && b.session.None? && a.pilot.runOpen
            case AttachBind(x, seen) => b.session == Some(x) && b.pilot == a.pilot.(row := seen)
            case FinalFlush(i, _, _) => i == id && a.pilot.runOpen
            case _ => false
  {
    hide Inv, Displaced, Closed, Without, Legal, DeliverKick;
    if step.Release? || step.CloseSession? || step.BeginShutdown? || id != Touched(s, step) {
      UntouchedStays(s, step, id);
    }
  }

  /** The one actor whose record a step may write. */
  function Touched(s: System, step: Step): nat
    requires Enabled(s, step)
  {
    match step
    case AttachLookup(_, id, _, _, _) => id
    case AttachBind(_, _) => s.lock.id
    case Detach(x, _, _) => s.sessions[x].actor
    case Intent(x, _, _) => s.sessions[x].actor
    case SnapshotNow(x) => s.sessions[x].actor
    case Tick(id, _) => id
    case Autosave(id, _) => id
    case FinalFlush(id, _, _) => id
    case ShutdownKick(_) => s.shutdown.queue[0]
    case ShutdownStop => s.shutdown.queue[0]
    case _ => 0
  }

  lemma UntouchedStays(s: System, step: Step, id: nat)
    requires Enabled(s, step) && id in s.actors
    requires step.Release? || step.CloseSession? || step.BeginShutdown? || id != Touched(s, step)
    ensures id in Apply(s, step).actors && Apply(s, step).actors[id] == s.actors[id]
  {
    hide Persist, Bound, Displaced, Closed, Without, Detached, LastFlush, Snapshot, ResolveAbandoned, Legal;
  }

  /** The detach of a session that no longer owns its actor resolves nothing, stops nothing,
      evicts nobody, and at most writes the owner's save. */
  lemma StaleDetachIsHarmless(s: System, x: nat, resolved: Pilot, w: Write)
    requires Inv(s) && Enabled(s, Detach(x, resolved, w))
    requires var a := s.actors[s.sessions[x].actor]; a.session.Some? && a.session != Some(x)
    ensures var id := s.sessions[x].actor;
            var t := Apply(s, Detach(x, resolved, w));
            && id in t.actors
            && t.actors[id] == s.actors[id].(dirty := t.actors[id].dirty)
            && t.registry == s.registry && t.lock == s.lock
            && (t.disk == s.disk || (s.actors[id].dirty && t.disk == s.disk[s.actors[id].key := Encode(s.actors[id].pilot)]))
  {
    hide Inv;
  }

  /** A row appears or changes in two ways only: a missing save is created, or the registered
      actor of that very save writes its pilot, never with a run open and nobody attached. */
  lemma WritesAreTheOwners(s: System, step: Step, key: Key)
    requires Inv(s) && Enabled(s, step) && key in Apply(s, step).disk
    requires key in s.disk ==> Apply(s, step).disk[key] != s.disk[key]
    ensures key.Keyed?
    ensures if step.AttachLookup? then key !in s.disk && key == step.key
            else
              var t := Apply(s, step);
              key in s.registry && key in t.registry && t.registry[key] == s.registry[key] && t.registry[key] in t.actors &&
              var b := t.actors[t.registry[key]];
              t.disk[key] == Encode(b.pilot) && (b.session.Some? || !b.pilot.runOpen)
  {
    if step.Detach? || step.Autosave? || step.FinalFlush? {
      var id := Touched(s, step);
      assert PlacedOk(s, id);
      OwnWrites(s, step);
    } else if !step.AttachLookup? {
      OthersDoNotWrite(s, step);
    }
  }

  lemma OthersDoNotWrite(s: System, step: Step)
    requires Enabled(s, step) && !step.Detach? && !step.Autosave? && !step.FinalFlush? && !step.AttachLookup?
    ensures Apply(s, step).disk == s.disk
  {
    hide ApplyAttachBind, ApplyRelease, ApplyShutdownKick, ApplyShutdownStop;
    match step {
      case AttachBind(x, seen) => BindDoesNotWrite(s, x, seen);
      case Release => ReleaseDoesNotWrite(s);
      case ShutdownKick(resolved) => KickDoesNotWrite(s, resolved);
      case ShutdownStop => StopDoesNotWrite(s);
      case _ =>
    }
  }

  lemma BindDoesNotWrite(s: System, x: nat, seen: Row)
    requires Enabled(s, AttachBind(x, seen))
    ensures ApplyAttachBind(s, x, seen).disk == s.disk
  {}

  lemma ReleaseDoesNotWrite(s: System)
    requires Enabled(s, Release)
    ensures ApplyRelease(s).disk == s.disk
  {}

  lemma KickDoesNotWrite(s: System, resolved: Pilot)
    requires Enabled(s, ShutdownKick(resolved))
    ensures ApplyShutdownKick(s, resolved).disk == s.disk
  {}

  lemma StopDoesNotWrite(s: System)
    requires Enabled(s, ShutdownStop)
    ensures ApplyShutdownStop(s).disk == s.disk
  {}

  lemma PersistWrites(a: Actor, disk: Disk, w: Write)
    ensures var p := Persist(a, disk, w);
            && p.actor == a.(dirty := p.actor.dirty)
            && (p.disk == disk || (a.key.Keyed? && p.disk == disk[a.key := Encode(a.pilot)]
                                   && (a.session.Some? || !a.pilot.runOpen)))
  {
  }

  /** What one actor's own write leaves on disk. */
  ghost predicate OwnWrite(a: Actor, b: Actor, disk: Disk, disk': Disk) {
    && b.key == a.key
    && (disk' == disk || (!a.done && b.key.Keyed? && disk' == disk[b.key := Encode(b.pilot)]
                          && (b.session.Some? || !b.pilot.runOpen)))
  }

  lemma ActorWrites(a: Actor, disk: Disk, x: nat, resolved: Pilot, w: Write)
    ensures var (p, _) := Detached(a, x, resolved, disk, w); OwnWrite(a, p.actor, disk, p.disk)
    ensures !a.done ==> var p := LastFlush(a, resolved, disk, w); OwnWrite(a, p.actor, disk, p.disk)
    ensures !a.done ==> var p := Persist(a, disk, w); OwnWrite(a, p.actor, disk, p.disk)
  {
    hide Persist;
    PersistWrites(a, disk, w);
    PersistWrites(ResolveAbandoned(a, resolved), disk, w);
    PersistWrites(ResolveAbandoned(a, resolved).(session := None), disk, w);
  }

  lemma OwnWrites(s: System, step: Step)
    requires Enabled(s, step) && (step.Detach? || step.Autosave? || step.FinalFlush?)
    ensures var id, t := Touched(s, step), Apply(s, step);
            && id in t.actors && t.registry == s.registry
            && OwnWrite(s.actors[id], t.actors[id], s.disk, t.disk)
  {
    hide Persist, Detached, LastFlush, OwnWrite;
    ActorWrites(s.actors[Touched(s, step)], s.disk, if step.Detach? then step.session else 0,
                if step.Autosave? then s.actors[step.id].pilot else step.resolved, step.write);
  }

  lemma StaysRegistered(s: System, step: Step, key: Key)
    requires Enabled(s, step) && key in s.registry && !step.AttachBind? && !step.Release? && !step.ShutdownStop?
    ensures key in Apply(s, step).registry
  {
    hide Enabled, Persist, Detached, LastFlush, ResolveAbandoned, Snapshot, Closed;
  }

  /** A save leaves the registry only after its actor has finished; a keyed one only when it is
      clean, or when shutdown records its failed flush. */
  lemma LeavesOnlyClean(s: System, step: Step, key: Key)
    requires Inv(s) && Enabled(s, step) && key in s.registry && key !in Apply(s, step).registry
    ensures s.registry[key] in s.actors
    ensures var a := s.actors[s.registry[key]];
            && a.done && a.session.None?
            && (key.Keyed? && !a.dirty ==> Durable(a, s.disk))
            && (key.Keyed? && a.dirty ==> Apply(s, step).shutdown.Flushing? && Apply(s, step).shutdown.failed)
  {
    if !step.AttachBind? && !step.Release? && !step.ShutdownStop? {
      StaysRegistered(s, step, key);
    } else {
      assert ActorOk(s.actors[s.registry[key]], s.disk) && PlacedOk(s, s.registry[key]);
      hide ApplyAttachLookup, ApplyDetach, ApplyIntent, ApplyTick, ApplySnapshotNow, ApplyShutdownKick, Persist, LastFlush, Bound, Displaced;
    }
  }

  lemma QuietSteps(s: System, step: Step, id: nat)
    requires Inv(s) && Enabled(s, step) && id in s.actors && !step.Tick? && !step.Intent? && !step.SnapshotNow?
    ensures id in Apply(s, step).actors && Apply(s, step).actors[id].revision == s.actors[id].revision
  {
    assert ActorOk(s.actors[id], s.disk);
    hide Inv;
    if step.Release? || step.CloseSession? || step.BeginShutdown? || id != Touched(s, step) {
      UntouchedStays(s, step, id);
    }
  }

  /** Revisions of one actor never fall, and every snapshot it gives out has a new one. */
  lemma RevisionsGrow(s: System, step: Step, id: nat)
    requires Inv(s) && Enabled(s, step) && id in s.actors
    ensures id in Apply(s, step).actors
    ensures var r, r' := s.actors[id].revision, Apply(s, step).actors[id].revision;
            r' >= r &&
            (r' > r <==>
              || (step.Tick? && step.id == id)
              || ((step.Intent? || step.SnapshotNow?) && s.sessions[step.session].actor == id
                  && s.actors[id].session == Some(step.session)))
  {
    assert ActorOk(s.actors[id], s.disk);
    if !step.Tick? && !step.Intent? && !step.SnapshotNow? {
      QuietSteps(s, step, id);
    } else if id != Touched(s, step) {
      UntouchedStays(s, step, id);
    }
    hide Inv, ApplyAttachLookup, ApplyAttachBind, ApplyDetach, ApplyRelease, ApplyShutdownKick, ApplyShutdownStop, Persist, LastFlush;
  }

  /** Whoever holds the registry mutex can always go on until it is free. */
  lemma MutexIsReleased(s: System, x: nat) returns (steps: seq<Step>)
    requires Inv(s) && !s.lock.Free? && x !in s.sessions
    ensures |steps| <= 2 && Legal(s, steps) && Exec(s, steps).lock.Free?
  {
    if s.lock.Binding? {
      assert PlacedOk(s, s.lock.id);
      steps := [AttachBind(x, s.actors[s.lock.id].pilot.row)];
      assert steps[1..] == [];
    } else if s.actors[s.lock.id].done {
      steps := [Release];
      assert steps[1..] == [];
    } else {
      var flush := FinalFlush(s.lock.id, s.actors[s.lock.id].pilot, Stored);
      steps := [flush, Release];
      StepKeeps(s, flush);
      assert steps[1..] == [Release] && steps[1..][1..] == [];
    }
  }

  // ---------------------------------------------------------------- after closing

  /** Once the manager is closing, no attach ever succeeds again. */
  lemma {:induction false} ClosedForGood(s: System, steps: seq<Step>)
    requires Inv(s) && s.closing && Legal(s, steps)
    ensures Exec(s, steps).closing
    ensures Exec(s, steps).sessions.Keys == s.sessions.Keys && Exec(s, steps).actors.Keys == s.actors.Keys
    decreases |steps|
  {
    hide Inv;
    if steps != [] {
      StepKeeps(s, steps[0]);
      ClosedStep(s, steps[0]);
      ClosedForGood(Apply(s, steps[0]), steps[1..]);
    }
  }

  lemma ClosedStep(s: System, step: Step)
    requires Inv(s) && s.closing && Enabled(s, step)
    ensures var t := Apply(s, step); t.closing && t.sessions.Keys == s.sessions.Keys && t.actors.Keys == s.actors.Keys
  {
    assert !s.lock.Binding?;
    hide Inv;
  }

  // ---------------------------------------------------------------- the terminal

  datatype Shown = Shown(revision: nat, pilot: Pilot)

  /** The terminal drops a snapshot that is older than the one it shows. */
  function Show(shown: Shown, snap: Shown): Shown {
    if snap.revision < shown.revision then shown else snap
  }

  function ShowAll(shown: Shown, snaps: seq<Shown>): Shown
    decreases |snaps|
  {
    if snaps == [] then shown else ShowAll(Show(shown, snaps[0]), snaps[1..])
  }

  /** However delivery reorders an actor's snapshots, the terminal ends on the newest of them. */
  lemma {:induction false} ShowsNewest(shown: Shown, snaps: seq<Shown>)
    ensures var last := ShowAll(shown, snaps);
            && (last == shown || last in snaps)
            && shown.revision <= last.revision
            && (forall x :: x in snaps ==> x.revision <= last.revision)
    decreases |snaps|
  {
    if snaps != [] {
      ShowsNewest(Show(shown, snaps[0]), snaps[1..]);
      assert forall x :: x in snaps ==> x == snaps[0] || x in snaps[1..];
    }
  }
}
