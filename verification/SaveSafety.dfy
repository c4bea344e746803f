/** Invariants of the save protocol, kept by every step, and what they give over every run. */
module SaveSafety {
  import opened Wrappers
  import opened SaveProtocol

  /** The row on disk is the pilot in memory. */
  ghost predicate Durable(a: Actor, disk: Disk) {
    a.key in disk && disk[a.key] == Encode(a.pilot)
  }

  ghost predicate Registered(s: System, id: nat)
    requires id in s.actors
  {
    s.actors[id].key in s.registry && s.registry[s.actors[id].key] == id
  }

  ghost predicate Newest(s: System, id: nat)
    requires id in s.actors
  {
    s.actors[id].key in s.latest && s.latest[s.actors[id].key] == id
  }

  /** What holds of one actor by itself. */
  ghost predicate ActorOk(a: Actor, disk: Disk) {
    && a.stopCloses <= 1
    && (a.done ==> a.stopCloses == 1)
    && (a.stopCloses > 0 ==> a.session.None? && a.attached)
    && (a.key.Guest? ==> !a.finalErr)
    && (a.key.Keyed? && a.done ==> a.finalErr == a.dirty)
    && (!a.attached ==> a.session.None? && !a.dirty && !a.pilot.runOpen)
    && (a.key.Keyed? && a.session.None? && a.pilot.runOpen ==> a.dirty)
    && (a.key.Keyed? ==> a.key in disk)
  }

  /** What ties one actor to the registry, its owner, the mutex, the disk and the shutdown. */
  ghost predicate PlacedOk(s: System, id: nat)
    requires id in s.actors
  {
    var a := s.actors[id];
    && (a.session.Some? ==> a.session.value in s.sessions && s.sessions[a.session.value] == Session(id, false, 0))
    && (!a.done ==> Registered(s, id))
    && (a.stopCloses > 0 && !a.done ==> s.lock.Stopping? && s.lock.id == id)
    && (!a.attached ==> s.lock == Binding(id))
    && (a.key.Keyed? && Newest(s, id) && a.attached && !a.dirty ==> Durable(a, s.disk))
    && (a.key.Keyed? && a.done && a.dirty ==>
          s.shutdown.Flushing? && (s.shutdown.failed || s.lock == Stopping(id, ByShutdown)))
  }

  ghost predicate ActorsOk(s: System) {
    forall id {:trigger ActorOk(s.actors[id], s.disk)} {:trigger PlacedOk(s, id)} ::
      id in s.actors ==> ActorOk(s.actors[id], s.disk) && PlacedOk(s, id)
  }

  ghost predicate SessionsOk(s: System) {
    forall x :: x in s.sessions ==> s.sessions[x].actor in s.actors && s.sessions[x].closes <= 1
  }

  ghost predicate NewestOk(s: System) {
    forall k :: k in s.latest ==> s.latest[k] in s.actors && s.actors[s.latest[k]].key == k
  }

  ghost predicate RegistryOk(s: System)
    requires NewestOk(s)
  {
    forall k :: k in s.registry ==>
      && k in s.latest && s.registry[k] == s.latest[k]
      && (s.actors[s.latest[k]].done ==> s.lock.Stopping? && s.lock.id == s.latest[k])
      && (s.shutdown.Flushing? ==> s.latest[k] in s.shutdown.queue)
  }

  ghost predicate LockOk(s: System) {
    && (s.lock.Binding? ==>
          s.lock.id in s.actors && !s.closing && !s.actors[s.lock.id].done && s.actors[s.lock.id].stopCloses == 0)
    && (s.lock.Stopping? ==>
          && s.lock.id in s.actors
          && s.actors[s.lock.id].stopCloses == 1
          && Registered(s, s.lock.id)
          && (s.lock.waiter.ByDetach? ==>
                s.lock.waiter.session in s.sessions && s.sessions[s.lock.waiter.session].actor == s.lock.id &&
                (s.actors[s.lock.id].key.Keyed? ==> !s.actors[s.lock.id].dirty))
          && (s.lock.waiter.ByShutdown? ==>
                s.shutdown.Flushing? && s.shutdown.kicked && s.shutdown.queue != [] && s.shutdown.queue[0] == s.lock.id))
  }

  ghost predicate ShutdownOk(s: System) {
    && (s.closing <==> s.shutdown.Flushing?)
    && (s.shutdown.Flushing? ==>
          && (forall i :: 0 <= i < |s.shutdown.queue| ==> s.shutdown.queue[i] in s.actors)
          && (s.shutdown.kicked ==> s.shutdown.queue != [] && s.actors[s.shutdown.queue[0]].session.None?))
  }

  ghost predicate TablesOk(s: System) {
    SessionsOk(s) && NewestOk(s) && RegistryOk(s) && LockOk(s) && ShutdownOk(s)
  }

  ghost predicate Inv(s: System) {
    ActorsOk(s) && TablesOk(s) && !s.sentOnClosed
  }

  /** One actor changes while it stays where it is: same key, still running or still finished,
      bound to the same owner or to none. The disk may change under its own key only. */
  ghost predicate Local(s: System, id: nat, b: Actor, disk: Disk)
  {
    id in s.actors &&
    var a := s.actors[id];
    && !a.done && !b.done
    && b.key == a.key && b.stopCloses == a.stopCloses && b.attached == a.attached
    && (b.session == a.session || b.session.None?)
    && ActorOk(b, disk)
    && (b.key.Keyed? && b.attached && !b.dirty ==> Durable(b, disk))
    && (a.stopCloses > 0 && a.key.Keyed? && !a.dirty ==> !b.dirty)
    && (disk == s.disk || (a.key.Keyed? && disk == s.disk[a.key := Encode(b.pilot)]))
  }

  function Change(s: System, id: nat, b: Actor, disk: Disk): System {
    s.(actors := s.actors[id := b], disk := disk)
  }

  lemma LocalPlaced(s: System, id: nat, b: Actor, disk: Disk, i: nat)
    requires Inv(s) && Local(s, id, b, disk) && i in s.actors
    ensures ActorOk(Change(s, id, b, disk).actors[i], disk)
    ensures PlacedOk(Change(s, id, b, disk), i)
  {
    var t := Change(s, id, b, disk);
    assert ActorOk(s.actors[i], s.disk) && PlacedOk(s, i) && PlacedOk(s, id);
    if i != id {
      assert t.actors[i] == s.actors[i];
      assert Registered(s, id) && s.actors[id].key in s.latest;
      assert s.actors[i].key == s.actors[id].key ==> !Newest(s, i);
    }
  }

  lemma LocalActors(s: System, id: nat, b: Actor, disk: Disk)
    requires Inv(s) && Local(s, id, b, disk)
    ensures ActorsOk(Change(s, id, b, disk))
  {
    var t := Change(s, id, b, disk);
    forall i | i in t.actors
      ensures ActorOk(t.actors[i], t.disk) && PlacedOk(t, i)
    {
      LocalPlaced(s, id, b, disk, i);
    }
  }

  lemma LocalTables(s: System, id: nat, b: Actor, disk: Disk)
    requires TablesOk(s) && Local(s, id, b, disk)
    ensures TablesOk(Change(s, id, b, disk))
  {
    var t := Change(s, id, b, disk);
    assert SessionsOk(t);
    assert NewestOk(t);
    assert RegistryOk(t);
    assert LockOk(t);
    assert ShutdownOk(t);
  }

  lemma LocalChange(s: System, id: nat, b: Actor, disk: Disk)
    requires Inv(s) && Local(s, id, b, disk)
    ensures Inv(Change(s, id, b, disk))
  {
    LocalActors(s, id, b, disk);
    LocalTables(s, id, b, disk);
  }

  /** A session nobody is bound to may be closed or released. */
  lemma SessionChange(s: System, x: nat, y: Session)
    requires Inv(s) && x in s.sessions && y.actor == s.sessions[x].actor && y.closes <= 1
    requires s.actors[y.actor].session != Some(x)
    ensures Inv(s.(sessions := s.sessions[x := y]))
  {
    SessionActors(s, x, y);
    var t := s.(sessions := s.sessions[x := y]);
    assert TablesOk(t) by { assert NewestOk(t); }
  }

  lemma SessionActors(s: System, x: nat, y: Session)
    requires ActorsOk(s) && x in s.sessions && s.sessions[x].actor in s.actors
    requires s.actors[s.sessions[x].actor].session != Some(x)
    ensures ActorsOk(s.(sessions := s.sessions[x := y]))
  {
    var t := s.(sessions := s.sessions[x := y]);
    forall i | i in t.actors
      ensures ActorOk(t.actors[i], t.disk) && PlacedOk(t, i)
    {
      assert ActorOk(s.actors[i], s.disk) && PlacedOk(s, i);
    }
  }

  /** What the composed steps need to know of a session and its actor. */
  lemma TableFacts(s: System, x: nat)
    requires Inv(s) && x in s.sessions
    ensures var y := s.sessions[x];
            && y.actor in s.actors && y.closes <= 1
            && (s.actors[y.actor].done ==> s.actors[y.actor].session.None?)
            && (s.lock.Free? && !s.actors[y.actor].done ==> s.actors[y.actor].stopCloses == 0)
  {
    assert ActorOk(s.actors[s.sessions[x].actor], s.disk) && PlacedOk(s, s.sessions[x].actor);
  }

  lemma KickKeeps(s: System, x: nat)
    requires Inv(s) && x in s.sessions
    requires s.actors[s.sessions[x].actor].session != Some(x)
    ensures Inv(DeliverKick(s, x))
  {
    SessionChange(s, x, Closed(s.sessions[x]));
  }

  /** A running actor that stays as it is, up to losing its owner or a resolved run, is a local change. */
  lemma Staying(s: System, id: nat)
    requires Inv(s) && id in s.actors && !s.actors[id].done
    ensures Local(s, id, s.actors[id], s.disk) && Registered(s, id) && Newest(s, id)
  {
    assert ActorOk(s.actors[id], s.disk) && PlacedOk(s, id);
  }

  lemma LeavingIsLocal(s: System, id: nat, resolved: Pilot)
    requires Inv(s) && id in s.actors && !s.actors[id].done
    ensures Local(s, id, ResolveAbandoned(s.actors[id], resolved).(session := None), s.disk)
  {
    Staying(s, id);
  }

  /** Persisting after a local change is still a local change. */
  lemma PersistIsLocal(s: System, id: nat, b: Actor, w: Write)
    requires Local(s, id, b, s.disk)
    ensures var p := Persist(b, s.disk, w); Local(s, id, p.actor, p.disk) && p.err == (b.key.Keyed? && p.actor.dirty)
  {
  }

  lemma AutosaveKeeps(s: System, id: nat, w: Write)
    requires Inv(s) && Enabled(s, Autosave(id, w))
    ensures Inv(Apply(s, Autosave(id, w)))
  {
    var p := Persist(s.actors[id], s.disk, w);
    Staying(s, id);
    PersistIsLocal(s, id, s.actors[id], w);
    LocalChange(s, id, p.actor, p.disk);
  }

  lemma OwnerActionKeeps(s: System, step: Step)
    requires Inv(s) && Enabled(s, step) && (step.Intent? || step.SnapshotNow? || step.Tick?)
    ensures Inv(Apply(s, step))
  {
    var id := if step.Tick? then step.id else s.sessions[step.session].actor;
    var a := s.actors[id];
    assert ActorOk(a, s.disk) && PlacedOk(s, id);
    assert !a.done ==> Registered(s, id) && Newest(s, id);
    var t := Apply(s, step);
    if t != s {
      LocalChange(s, id, t.actors[id], s.disk);
      assert t == Change(s, id, t.actors[id], s.disk);
    }
  }

  lemma CloseKeeps(s: System, x: nat)
    requires Inv(s) && Enabled(s, CloseSession(x))
    ensures Inv(DeliverKick(s, x))
  {
    assert PlacedOk(s, s.sessions[x].actor);
    KickKeeps(s, x);
  }

  // ---------------------------------------------------------------- attach

  lemma LookupKeeps(s: System, key: Key, id: nat, storeUp: bool, blank: Row, decoded: Row)
    requires Inv(s) && s.lock.Free? && id !in s.actors
    ensures Inv(ApplyAttachLookup(s, key, id, storeUp, blank, decoded))
  {
    hide Inv;
    if s.closing || (key.Keyed? && !storeUp) || (key.Guest? && key in s.registry) {
    } else if key in s.registry {
      RegisteredRuns(s, key);
      LockTaken(s, s.registry[key]);
    } else {
      var disk := if key.Guest? || key in s.disk then s.disk else s.disk[key := blank];
      StartKeeps(s, key, id, if key.Guest? then blank else decoded, disk);
    }
  }

  lemma RegisteredRuns(s: System, key: Key)
    requires Inv(s) && s.lock.Free? && key in s.registry
    ensures var id := s.registry[key];
            id in s.actors && s.actors[id].key == key && !s.actors[id].done && s.actors[id].stopCloses == 0
  {
    assert PlacedOk(s, s.registry[key]);
  }

  /** Taking the mutex for an attach to an actor that is already running. */
  lemma LockTaken(s: System, id: nat)
    requires Inv(s) && s.lock.Free? && !s.closing && id in s.actors && !s.actors[id].done && s.actors[id].stopCloses == 0
    ensures Inv(s.(lock := Binding(id)))
  {
    var t := s.(lock := Binding(id));
    forall i | i in t.actors
      ensures ActorOk(t.actors[i], t.disk) && PlacedOk(t, i)
    {
      assert ActorOk(s.actors[i], s.disk) && PlacedOk(s, i);
    }
    assert NewestOk(t);
  }

  lemma StartKeeps(s: System, key: Key, id: nat, row: Row, disk: Disk)
    requires Inv(s) && s.lock.Free? && !s.closing && id !in s.actors && key !in s.registry
    requires disk == s.disk || (key !in s.disk && disk.Keys == s.disk.Keys + {key} && disk - {key} == s.disk)
    requires key.Keyed? ==> key in disk
    ensures Inv(Start(s, key, id, row, disk))
  {
    StartedActors(s, key, id, row, disk);
    StartedTables(s, key, id, row, disk);
  }

  lemma StartedActors(s: System, key: Key, id: nat, row: Row, disk: Disk)
    requires ActorsOk(s) && s.lock.Free? && id !in s.actors && key !in s.registry
    requires disk == s.disk || (key !in s.disk && disk.Keys == s.disk.Keys + {key} && disk - {key} == s.disk)
    requires key.Keyed? ==> key in disk
    ensures ActorsOk(Start(s, key, id, row, disk))
  {
    var t := Start(s, key, id, row, disk);
    forall i | i in t.actors
      ensures ActorOk(t.actors[i], t.disk) && PlacedOk(t, i)
    {
      if i != id {
        assert ActorOk(s.actors[i], s.disk) && PlacedOk(s, i);
        assert s.actors[i].key != key ==> s.actors[i].key in s.disk ==> disk[s.actors[i].key] == s.disk[s.actors[i].key] by {
          if s.actors[i].key != key && s.actors[i].key in s.disk { assert s.actors[i].key in disk - {key} || disk == s.disk; }
        }
        assert s.actors[i].key == key ==> !Newest(t, i);
      }
    }
  }

  lemma StartedTables(s: System, key: Key, id: nat, row: Row, disk: Disk)
    requires TablesOk(s) && s.lock.Free? && !s.closing && id !in s.actors && key !in s.registry
    ensures TablesOk(Start(s, key, id, row, disk))
  {
    var t := Start(s, key, id, row, disk);
    assert SessionsOk(t);
    assert NewestOk(t);
    assert RegistryOk(t);
    assert LockOk(t);
  }

  lemma BindKeeps(s: System, x: nat, seen: Row)
    requires Inv(s) && Enabled(s, AttachBind(x, seen))
    ensures Inv(ApplyAttachBind(s, x, seen))
  {
    hide Inv;
    var a := s.actors[s.lock.id];
    BindFacts(s);
    if a.key.Keyed? && a.session.Some? && s.policy.Refuse? {
      LockReleased(s);
      assert s.actors[s.lock.id := a] == s.actors;
    } else {
      AcceptKeeps(s, x, seen);
    }
  }

  /** A takeover is the old owner leaving, being closed, and the new owner arriving. */
  lemma AcceptKeeps(s: System, x: nat, seen: Row)
    requires Inv(s) && Enabled(s, AttachBind(x, seen)) && !s.actors[s.lock.id].done
    requires var a := s.actors[s.lock.id]; !(a.key.Keyed? && a.session.Some? && s.policy.Refuse?)
    ensures Inv(ApplyAttachBind(s, x, seen))
  {
    hide Inv;
    var id := s.lock.id;
    var a := s.actors[id];
    BindFacts(s);
    var b := if a.key.Keyed? then a.(session := None, pilot := a.pilot.(row := seen), dirty := true, attached := true)
             else a.(session := None, attached := true);
    BindVacates(s, b);
    var s1 := Change(s, id, b, s.disk).(lock := Free);
    if a.key.Keyed? && a.session.Some? { KickKeeps(s1, a.session.value); }
    var s2 := if a.key.Keyed? && a.session.Some? then DeliverKick(s1, a.session.value) else s1;
    BindOccupies(s2, id, x);
    var c := b.(session := Some(x));
    assert s2.actors[id := c] == s.actors[id := c];
    assert Bound(a, s.policy, x, seen) == (c, true);
  }

  lemma BindFacts(s: System)
    requires Inv(s) && s.lock.Binding?
    ensures s.lock.id in s.actors && !s.closing
    ensures var a := s.actors[s.lock.id];
            && !a.done && a.stopCloses == 0 && (a.session.Some? ==> a.attached)
            && (a.session.Some? ==> a.session.value in s.sessions && s.sessions[a.session.value] == Session(s.lock.id, false, 0))
            && (a.key.Keyed? ==> a.key in s.disk) && (a.key.Guest? ==> !a.finalErr)
  {
    assert ActorOk(s.actors[s.lock.id], s.disk) && PlacedOk(s, s.lock.id);
  }

  lemma LockReleased(s: System)
    requires Inv(s) && s.lock.Binding? && s.actors[s.lock.id].attached
    ensures Inv(s.(lock := Free))
  {
    var t := s.(lock := Free);
    forall i | i in t.actors
      ensures ActorOk(t.actors[i], t.disk) && PlacedOk(t, i)
    {
      assert ActorOk(s.actors[i], s.disk) && PlacedOk(s, i);
    }
    assert NewestOk(t);
  }

  /** The actor under the mutex becomes attached, with no owner yet, and the mutex is released. */
  lemma BindVacates(s: System, b: Actor)
    requires Inv(s) && s.lock.Binding? && ActorOk(b, s.disk)
    requires var a := s.actors[s.lock.id];
             b.key == a.key && b.attached && b.session.None? && !b.done && b.stopCloses == 0 && (b.key.Keyed? ==> b.dirty)
    ensures Inv(Change(s, s.lock.id, b, s.disk).(lock := Free))
  {
    var id := s.lock.id;
    var t := Change(s, id, b, s.disk).(lock := Free);
    forall i | i in t.actors
      ensures ActorOk(t.actors[i], t.disk) && PlacedOk(t, i)
    {
      assert ActorOk(s.actors[i], s.disk) && PlacedOk(s, i);
    }
    assert NewestOk(t);
    assert RegistryOk(t);
    assert ShutdownOk(t);
  }

  lemma BindOccupies(s: System, id: nat, x: nat)
    requires Inv(s) && s.lock.Free? && !s.closing && id in s.actors && x !in s.sessions
    requires !s.actors[id].done && s.actors[id].stopCloses == 0 && s.actors[id].attached && s.actors[id].session.None?
    requires s.actors[id].key.Keyed? ==> s.actors[id].dirty
    ensures Inv(s.(actors := s.actors[id := s.actors[id].(session := Some(x))], sessions := s.sessions[x := Session(id, false, 0)]))
  {
    var b := s.actors[id].(session := Some(x));
    var t := s.(actors := s.actors[id := b], sessions := s.sessions[x := Session(id, false, 0)]);
    forall i | i in t.actors
      ensures ActorOk(t.actors[i], t.disk) && PlacedOk(t, i)
    {
      assert ActorOk(s.actors[i], s.disk) && PlacedOk(s, i);
    }
    assert NewestOk(t);
    assert RegistryOk(t);
    assert ShutdownOk(t);
  }

  // ---------------------------------------------------------------- detach and stop

  lemma DetachKeeps(s: System, x: nat, resolved: Pilot, w: Write)
    requires Inv(s) && Enabled(s, Detach(x, resolved, w))
    ensures Inv(ApplyDetach(s, x, resolved, w))
  {
    hide Inv;
    var y := s.sessions[x];
    TableFacts(s, x);
    if s.actors[y.actor].done {
      SessionChange(s, x, y.(released := true));
      assert s.actors[y.actor := s.actors[y.actor]] == s.actors;
    } else {
      var a := s.actors[y.actor];
      var b := if a.session == Some(x) then ResolveAbandoned(a, resolved).(session := None) else a;
      Staying(s, y.actor);
      LeavingIsLocal(s, y.actor, resolved);
      PersistIsLocal(s, y.actor, b, w);
      DetachFinishes(s, x, Persist(b, s.disk, w));
    }
  }

  lemma DetachFinishes(s: System, x: nat, p: Persisted)
    requires Inv(s) && s.lock.Free? && x in s.sessions && s.sessions[x].actor in s.actors
    requires Local(s, s.sessions[x].actor, p.actor, p.disk) && p.actor.session != Some(x)
    ensures var y := s.sessions[x];
            var stops := StopsAfterDetach(p.actor);
            var q := if stops then p.(actor := p.actor.(stopCloses := p.actor.stopCloses + 1)) else p;
            Inv(Put(s, y.actor, q).(lock := if stops then Stopping(y.actor, ByDetach(x)) else s.lock,
                                    sessions := s.sessions[x := y.(released := !stops || y.released)]))
  {
    hide Inv;
    var y := s.sessions[x];
    var id := y.actor;
    TableFacts(s, x);
    LocalChange(s, id, p.actor, p.disk);
    var s1 := Change(s, id, p.actor, p.disk);
    if StopsAfterDetach(p.actor) {
      StopKeeps(s1, id, ByDetach(x));
      var c := p.actor.(stopCloses := p.actor.stopCloses + 1);
      assert s1.actors[id := c] == s.actors[id := c];
      assert s.sessions[x := y] == s.sessions;
    } else {
      SessionChange(s1, x, y.(released := true));
    }
  }

  /** Closing the stop channel of a running, ownerless actor under the free mutex. */
  lemma StopKeeps(s: System, id: nat, waiter: Waiter)
    requires Inv(s) && s.lock.Free? && id in s.actors && !s.actors[id].done && s.actors[id].session.None?
    requires waiter.ByDetach? ==>
      waiter.session in s.sessions && s.sessions[waiter.session].actor == id && (s.actors[id].key.Keyed? ==> !s.actors[id].dirty)
    requires waiter.ByShutdown? ==>
      s.shutdown.Flushing? && s.shutdown.kicked && s.shutdown.queue != [] && s.shutdown.queue[0] == id
    ensures var b := s.actors[id].(stopCloses := s.actors[id].stopCloses + 1);
            Inv(Change(s, id, b, s.disk).(lock := Stopping(id, waiter)))
  {
    StopActors(s, id, waiter);
    var b := s.actors[id].(stopCloses := s.actors[id].stopCloses + 1);
    var t := Change(s, id, b, s.disk).(lock := Stopping(id, waiter));
    assert ActorOk(s.actors[id], s.disk) && PlacedOk(s, id);
    assert TablesOk(t) by {
      assert NewestOk(t);
      assert RegistryOk(t);
      assert ShutdownOk(t);
    }
  }

  lemma StopActors(s: System, id: nat, waiter: Waiter)
    requires ActorsOk(s) && s.lock.Free? && id in s.actors && !s.actors[id].done && s.actors[id].session.None?
    ensures var b := s.actors[id].(stopCloses := s.actors[id].stopCloses + 1);
            ActorsOk(Change(s, id, b, s.disk).(lock := Stopping(id, waiter)))
  {
    var b := s.actors[id].(stopCloses := s.actors[id].stopCloses + 1);
    var t := Change(s, id, b, s.disk).(lock := Stopping(id, waiter));
    forall i | i in t.actors
      ensures ActorOk(t.actors[i], t.disk) && PlacedOk(t, i)
    {
      assert ActorOk(s.actors[i], s.disk) && PlacedOk(s, i);
    }
  }

  lemma FinalFlushKeeps(s: System, id: nat, resolved: Pilot, w: Write)
    requires Inv(s) && Enabled(s, FinalFlush(id, resolved, w))
    ensures Inv(Apply(s, FinalFlush(id, resolved, w)))
  {
    hide Inv;
    var a := s.actors[id];
    Staying(s, id);
    assert ActorOk(a, s.disk);
    LeavingIsLocal(s, id, resolved);
    PersistIsLocal(s, id, ResolveAbandoned(a, resolved), w);
    var p := Persist(ResolveAbandoned(a, resolved), s.disk, w);
    LocalChange(s, id, p.actor, p.disk);
    var s1 := Change(s, id, p.actor, p.disk);
    DoneKeeps(s1, id, p.err);
    var c := p.actor.(done := true, finalErr := p.err);
    assert s1.actors[id := c] == s.actors[id := c];
    assert Apply(s, FinalFlush(id, resolved, w)) == Change(s1, id, c, s1.disk);
  }

  lemma DoneKeeps(s: System, id: nat, err: bool)
    requires Inv(s) && id in s.actors && !s.actors[id].done && s.actors[id].stopCloses > 0
    requires err == (s.actors[id].key.Keyed? && s.actors[id].dirty)
    ensures Inv(Change(s, id, s.actors[id].(done := true, finalErr := err), s.disk))
  {
    DoneActors(s, id, err);
    var t := Change(s, id, s.actors[id].(done := true, finalErr := err), s.disk);
    assert ActorOk(s.actors[id], s.disk) && PlacedOk(s, id);
    assert TablesOk(t) by {
      assert NewestOk(t);
      assert RegistryOk(t);
      assert LockOk(t);
      assert ShutdownOk(t);
    }
  }

  lemma DoneActors(s: System, id: nat, err: bool)
    requires ActorsOk(s) && LockOk(s) && id in s.actors && !s.actors[id].done && s.actors[id].stopCloses > 0
    requires err == (s.actors[id].key.Keyed? && s.actors[id].dirty)
    ensures ActorsOk(Change(s, id, s.actors[id].(done := true, finalErr := err), s.disk))
  {
    var t := Change(s, id, s.actors[id].(done := true, finalErr := err), s.disk);
    forall i | i in t.actors
      ensures ActorOk(t.actors[i], t.disk) && PlacedOk(t, i)
    {
      assert ActorOk(s.actors[i], s.disk) && PlacedOk(s, i);
    }
  }

  lemma ReleaseKeeps(s: System)
    requires Inv(s) && Enabled(s, Release)
    ensures Inv(ApplyRelease(s))
  {
    var id := s.lock.id;
    assert ActorOk(s.actors[id], s.disk) && PlacedOk(s, id);
    match s.lock.waiter
    case ByDetach(x) =>
      RemoveKeeps(s, id, s.shutdown);
      var s1 := Deregister(s, id).(lock := Free);
      SessionChange(s1, x, s1.sessions[x].(released := true)) by {
        assert PlacedOk(s, s.sessions[x].actor);
      }
    case ByShutdown =>
      RemoveKeeps(s, id, Flushing(s.shutdown.queue[1..], false, s.shutdown.failed || s.actors[id].finalErr));
  }

  /** A finished actor leaves the registry and the mutex is free again. */
  lemma RemoveKeeps(s: System, id: nat, next: Shutdown)
    requires Inv(s) && id in s.actors && s.actors[id].done && (s.lock.Free? || (s.lock.Stopping? && s.lock.id == id))
    requires (next == s.shutdown && s.lock.Stopping? && s.lock.waiter.ByDetach?)
          || (s.shutdown.Flushing? && s.shutdown.queue != [] && s.shutdown.queue[0] == id
                                    && next == Flushing(s.shutdown.queue[1..], false, s.shutdown.failed || s.actors[id].finalErr))
    ensures Inv(Deregister(s, id).(lock := Free, shutdown := next))
  {
    var t := Deregister(s, id).(lock := Free, shutdown := next);
    forall i | i in t.actors
      ensures ActorOk(t.actors[i], t.disk) && PlacedOk(t, i)
    {
      assert ActorOk(s.actors[i], s.disk) && PlacedOk(s, i);
    }
    assert NewestOk(t);
    assert RegistryOk(t);
    assert ShutdownOk(t);
  }

  // ---------------------------------------------------------------- shutdown

  lemma BeginShutdownKeeps(s: System, queue: seq<nat>)
    requires Inv(s) && Enabled(s, BeginShutdown(queue))
    ensures Inv(Apply(s, BeginShutdown(queue)))
  {
    var t := Apply(s, BeginShutdown(queue));
    forall i | i in t.actors
      ensures ActorOk(t.actors[i], t.disk) && PlacedOk(t, i)
    {
      assert ActorOk(s.actors[i], s.disk) && PlacedOk(s, i);
    }
    assert NewestOk(t);
  }

  lemma ShutdownKickKeeps(s: System, resolved: Pilot)
    requires Inv(s) && Enabled(s, ShutdownKick(resolved))
    ensures Inv(ApplyShutdownKick(s, resolved))
  {
    hide Inv;
    var id := s.shutdown.queue[0];
    var a := s.actors[id];
    OwnerFacts(s, id);
    if a.done || a.session.None? {
      KickedKeeps(s);
    } else {
      var b := ResolveAbandoned(a, resolved).(session := None);
      LeavingIsLocal(s, id, resolved);
      LocalChange(s, id, b, s.disk);
      var s1 := Change(s, id, b, s.disk);
      KickKeeps(s1, a.session.value);
      KickedKeeps(DeliverKick(s1, a.session.value));
    }
  }

  lemma OwnerFacts(s: System, id: nat)
    requires Inv(s) && id in s.actors
    ensures s.actors[id].session.Some? ==>
              var x := s.actors[id].session.value;
              !s.actors[id].done && x in s.sessions && s.sessions[x] == Session(id, false, 0)
  {
    assert ActorOk(s.actors[id], s.disk) && PlacedOk(s, id);
  }

  lemma KickedKeeps(s: System)
    requires Inv(s) && s.shutdown.Flushing? && s.shutdown.queue != [] && !s.shutdown.kicked
    requires s.actors[s.shutdown.queue[0]].session.None?
    ensures Inv(s.(shutdown := s.shutdown.(kicked := true)))
  {
    var t := s.(shutdown := s.shutdown.(kicked := true));
    forall i | i in t.actors
      ensures ActorOk(t.actors[i], t.disk) && PlacedOk(t, i)
    {
      assert ActorOk(s.actors[i], s.disk) && PlacedOk(s, i);
    }
    assert NewestOk(t);
  }

  lemma ShutdownStopKeeps(s: System)
    requires Inv(s) && Enabled(s, ShutdownStop)
    ensures Inv(ApplyShutdownStop(s))
  {
    hide Inv;
    var id := s.shutdown.queue[0];
    KickedFacts(s);
    if s.actors[id].done {
      RemoveKeeps(s, id, Flushing(s.shutdown.queue[1..], false, s.shutdown.failed || s.actors[id].finalErr));
      assert s.actors[id := s.actors[id]] == s.actors;
    } else {
      StopKeeps(s, id, ByShutdown);
    }
  }

  lemma KickedFacts(s: System)
    requires Inv(s) && s.shutdown.Flushing? && s.shutdown.kicked && s.shutdown.queue != []
    ensures s.shutdown.queue[0] in s.actors && s.actors[s.shutdown.queue[0]].session.None?
  {
  }

  // ---------------------------------------------------------------- every run

  lemma StepKeeps(s: System, step: Step)
    requires Inv(s) && Enabled(s, step)
    ensures Inv(Apply(s, step))
  {
    hide Inv;
    match step
    case AttachLookup(key, id, storeUp, blank, decoded) => LookupKeeps(s, key, id, storeUp, blank, decoded);
    case AttachBind(x, seen) => BindKeeps(s, x, seen);
    case Detach(x, resolved, w) => DetachKeeps(s, x, resolved, w);
    case Release => ReleaseKeeps(s);
    case CloseSession(x) => CloseKeeps(s, x);
    case Intent(_, _, _) => OwnerActionKeeps(s, step);
    case SnapshotNow(_) => OwnerActionKeeps(s, step);
    case Tick(_, _) => OwnerActionKeeps(s, step);
    case Autosave(id, w) => AutosaveKeeps(s, id, w);
    case FinalFlush(id, resolved, w) => FinalFlushKeeps(s, id, resolved, w);
    case BeginShutdown(queue) => BeginShutdownKeeps(s, queue);
    case ShutdownKick(resolved) => ShutdownKickKeeps(s, resolved);
    case ShutdownStop => ShutdownStopKeeps(s);
  }

  lemma {:induction false} RunKeeps(s: System, steps: seq<Step>)
    requires Inv(s) && Legal(s, steps)
    ensures Inv(Exec(s, steps))
    decreases |steps|
  {
    hide Inv;
    if steps != [] {
      StepKeeps(s, steps[0]);
      RunKeeps(Apply(s, steps[0]), steps[1..]);
    }
  }

  lemma StartOk(policy: Policy, disk: Disk)
    ensures Inv(Init(policy, disk))
  {
  }
}
