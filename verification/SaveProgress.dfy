/** That the save layer gets things done: what is acted on takes effect, what is dirty can be stored, and an
    attach, a detach and a shutdown can always be brought to their end. */
module SaveProgress {
  import opened Wrappers
  import opened SaveProtocol
  import opened SaveSafety
  import opened SaveGuarantees

  // ---------------------------------------------------------------- one step

  /** An owner's intent and a watched tick are what the pilot in memory then is; an accepted intent and
      every tick make the save dirty. */
  lemma ActionsTakeEffect(s: System, x: nat, accepted: bool, after: Pilot)
    requires Inv(s) && Enabled(s, Intent(x, accepted, after)) && s.actors[s.sessions[x].actor].session == Some(x)
    ensures var id := s.sessions[x].actor; var b := Apply(s, Intent(x, accepted, after)).actors[id];
            b.pilot == after && b.session == Some(x) && b.dirty == (s.actors[id].dirty || accepted)
    ensures var id := s.sessions[x].actor;
            Enabled(s, Tick(id, after)) ==>
              var b := Apply(s, Tick(id, after)).actors[id]; b.pilot == after && b.session == Some(x) && b.dirty
  {
    assert ActorOk(s.actors[s.sessions[x].actor], s.disk);
  }

  /** A write that is stored makes an attached save clean and puts it on disk, unless its run is open with
      nobody attached; no other row moves. A write that fails leaves it dirty. */
  lemma AutosaveStores(s: System, id: nat, w: Write)
    requires Reachable(s) && id in s.actors && !s.actors[id].done && s.actors[id].attached && s.actors[id].key.Keyed?
    ensures Enabled(s, Autosave(id, w)) && id in Apply(s, Autosave(id, w)).actors
    ensures var a, t := s.actors[id], Apply(s, Autosave(id, w));
            && t.actors[id] == a.(dirty := t.actors[id].dirty) && t.disk - {a.key} == s.disk - {a.key}
            && (t.actors[id].dirty <==> a.dirty && (w.Failed? || (a.session.None? && a.pilot.runOpen)))
            && (!t.actors[id].dirty ==> a.key in t.disk && t.disk[a.key] == a.pilot.row)
  {
    ReachableOk(s);
    assert ActorOk(s.actors[id], s.disk) && PlacedOk(s, id);
  }

  // ---------------------------------------------------------------- sequences of steps

  lemma {:induction false} ExecJoins(s: System, a: seq<Step>, b: seq<Step>)
    requires Legal(s, a) && Legal(Exec(s, a), b)
    ensures Legal(s, a + b) && Exec(s, a + b) == Exec(Exec(s, a), b)
    decreases |a|
  {
    hide Enabled, Apply;
    if a == [] {
      assert a + b == b;
    } else {
      assert (a + b)[1..] == a[1..] + b;
      ExecJoins(Apply(s, a[0]), a[1..], b);
    }
  }

  lemma OneStep(s: System, step: Step)
    requires Inv(s) && Enabled(s, step)
    ensures Legal(s, [step]) && Exec(s, [step]) == Apply(s, step) && Inv(Apply(s, step))
  {
    hide Inv, Enabled, Apply;
    StepKeeps(s, step);
    assert [step][1..] == [];
  }

  lemma Then(s: System, a: seq<Step>, step: Step)
    requires Legal(s, a) && Inv(Exec(s, a)) && Enabled(Exec(s, a), step)
    ensures Legal(s, a + [step]) && Exec(s, a + [step]) == Apply(Exec(s, a), step) && Inv(Apply(Exec(s, a), step))
  {
    hide Inv, Enabled, Apply;
    OneStep(Exec(s, a), step);
    ExecJoins(s, a, [step]);
  }

  // ---------------------------------------------------------------- attach

  /** An attach that the policy lets in. */
  predicate Welcome(s: System, key: Key) {
    && s.lock.Free? && !s.closing
    && (key in s.registry ==> s.registry[key] in s.actors)
    && (key.Guest? ==> key !in s.registry)
    && (key in s.registry && s.policy.Refuse? ==> s.actors[s.registry[key]].session.None?)
  }

  /** What the caller finds once it is bound: it owns the save's one registered actor, whose run goes on if
      there was one, and whose former owner has been closed. */
  ghost predicate Seated(s: System, t: System, key: Key, id: nat, x: nat, blank: Row, seen: Row) {
    && t.lock.Free? && x in t.sessions && key in t.registry && t.sessions[x] == Session(t.registry[key], false, 0)
    && t.registry[key] in t.actors
    && var b := t.actors[t.registry[key]];
    && b.key == key && b.session == Some(x) && (key.Keyed? ==> b.dirty)
    && (if key in s.registry then
          && t.registry[key] == s.registry[key] && s.registry[key] in s.actors
          && var a := s.actors[s.registry[key]];
          && b.pilot == a.pilot.(row := seen)
          && (a.session.Some? ==> a.session.value in t.sessions && t.sessions[a.session.value].closes == 1)
        else
          t.registry[key] == id && b.pilot == Pilot(if key.Guest? then blank else seen, false, false))
  }

  lemma LookupFinds(s: System, key: Key, id: nat, blank: Row, decoded: Row)
    requires Inv(s) && Welcome(s, key) && id !in s.actors
    ensures Enabled(s, AttachLookup(key, id, true, blank, decoded))
    ensures var t := Apply(s, AttachLookup(key, id, true, blank, decoded));
            && t.lock == Binding(if key in s.registry then s.registry[key] else id)
            && t.sessions == s.sessions && t.policy == s.policy && t.closing == s.closing
            && key in t.registry && t.registry[key] == t.lock.id && t.lock.id in t.actors
            && t.actors[t.lock.id] == (if key in s.registry then s.actors[s.registry[key]]
                                       else Actor(key, Pilot(if key.Guest? then blank else decoded, false, false),
                                                  false, None, 0, false, 0, false, false))
  {}

  lemma BindSeats(s: System, x: nat, seen: Row)
    requires Inv(s) && s.lock.Binding? && x !in s.sessions
    requires var a := s.actors[s.lock.id]; s.policy.Refuse? && a.key.Keyed? ==> a.session.None?
    requires var a := s.actors[s.lock.id]; a.key in s.registry && s.registry[a.key] == s.lock.id
    ensures Enabled(s, AttachBind(x, seen))
    ensures var id := s.lock.id; var a, t := s.actors[id], Apply(s, AttachBind(x, seen));
            && t.lock.Free? && x in t.sessions && t.sessions[x] == Session(id, false, 0) && t.registry == s.registry && id in t.actors
            && var b := t.actors[id];
            && b.key == a.key && b.session == Some(x) && (a.key.Keyed? ==> b.dirty)
            && b.pilot == (if a.key.Keyed? then a.pilot.(row := seen) else a.pilot)
            && (a.key.Keyed? && a.session.Some? ==> a.session.value in t.sessions && t.sessions[a.session.value].closes == 1)
  {
    BindFacts(s);
    hide Inv;
  }

  /** Whoever the policy lets in is let in, in two steps. */
  lemma AttachSucceeds(s: System, key: Key, id: nat, x: nat, blank: Row, decoded: Row, seen: Row)
    requires Inv(s) && Welcome(s, key) && id !in s.actors && x !in s.sessions
    ensures var steps := [AttachLookup(key, id, true, blank, decoded), AttachBind(x, seen)];
            Legal(s, steps) && Seated(s, Exec(s, steps), key, id, x, blank, seen)
  {
    var look, bind := AttachLookup(key, id, true, blank, decoded), AttachBind(x, seen);
    if key in s.registry { RegisteredRuns(s, key); }
    LookupFinds(s, key, id, blank, decoded);
    hide Inv, Enabled, Apply, Legal, Exec;
    OneStep(s, look);
    var mid := Apply(s, look);
    BindSeats(mid, x, seen);
    Then(s, [look], bind);
    assert [look] + [bind] == [look, bind];
  }

  // ---------------------------------------------------------------- detach

  /** The owner's detach over a working store, with a run that resolves, stops the actor. */
  lemma LeavingStops(s: System, x: nat, resolved: Pilot)
    requires Inv(s) && s.lock.Free? && x in s.sessions && s.actors[s.sessions[x].actor].session == Some(x) && !resolved.runOpen
    ensures Enabled(s, Detach(x, resolved, Stored))
    ensures var id := s.sessions[x].actor; var a, t := s.actors[id], Apply(s, Detach(x, resolved, Stored));
            && t.lock == Stopping(id, ByDetach(x)) && t.registry == s.registry && t.latest == s.latest && Newest(s, id) && x in t.sessions && id in t.actors
            && var b := t.actors[id];
            && b.key == a.key && b.session.None? && !b.done && b.stopCloses == 1 && b.attached
            && (b.key.Keyed? ==> !b.dirty && !b.pilot.runOpen)
            && b.pilot == (if a.key.Keyed? && a.pilot.runOpen then resolved else a.pilot)
  {
    TableFacts(s, x);
    assert ActorOk(s.actors[s.sessions[x].actor], s.disk) && PlacedOk(s, s.sessions[x].actor);
    hide Inv;
  }

  lemma StoppedFinishes(s: System, resolved: Pilot)
    requires Inv(s) && s.lock.Stopping? && !s.actors[s.lock.id].done
    requires var a := s.actors[s.lock.id]; a.key.Keyed? && a.pilot.runOpen ==> !resolved.runOpen
    ensures var id := s.lock.id; var step := FinalFlush(id, resolved, Stored);
            && Enabled(s, step)
            && var t := Apply(s, step);
            && t.lock == s.lock && t.registry == s.registry && t.latest == s.latest && t.sessions == s.sessions
            && t.shutdown == s.shutdown && id in t.actors
            && var b := t.actors[id];
            && b.key == s.actors[id].key && b.attached && b.done && !b.finalErr && b.session.None? && (b.key.Keyed? ==> !b.dirty)
            && b.pilot == (if b.key.Keyed? && s.actors[id].pilot.runOpen then resolved else s.actors[id].pilot)
  {
    assert ActorOk(s.actors[s.lock.id], s.disk) && PlacedOk(s, s.lock.id);
    hide Inv;
  }

  /** What the release does for whoever was waiting. */
  ghost predicate Afterwards(s: System, t: System)
    requires s.lock.Stopping? && s.lock.id in s.actors
  {
    match s.lock.waiter
    case ByDetach(x) => t.shutdown == s.shutdown && x in t.sessions && t.sessions[x].released
    case ByShutdown =>
      && s.shutdown.Flushing? && s.shutdown.queue != []
      && t.shutdown == Flushing(s.shutdown.queue[1..], false, s.shutdown.failed || s.actors[s.lock.id].finalErr)
  }

  lemma FinishedReleases(s: System)
    requires Inv(s) && s.lock.Stopping? && s.actors[s.lock.id].done
    ensures Enabled(s, Release)
    ensures var id := s.lock.id; var t := Apply(s, Release);
            && t.lock.Free? && t.registry == s.registry - {s.actors[id].key} && t.actors == s.actors
            && t.latest == s.latest && t.disk == s.disk && Afterwards(s, t)
  {}

  lemma CleanIsDurable(s: System, id: nat)
    requires Inv(s) && id in s.actors && s.actors[id].key.Keyed? && s.actors[id].attached && !s.actors[id].dirty && Newest(s, id)
    ensures s.actors[id].key in s.disk && s.disk[s.actors[id].key] == s.actors[id].pilot.row
  {
    assert PlacedOk(s, id);
  }

  /** An owner who leaves over a working store, with a run that resolves, is gone after three steps: the
      save is on disk with its run resolved, its actor has finished, and the registry is rid of it. */
  lemma DetachReleases(s: System, x: nat, resolved: Pilot)
    requires Inv(s) && s.lock.Free? && x in s.sessions && s.actors[s.sessions[x].actor].session == Some(x) && !resolved.runOpen
    ensures var id := s.sessions[x].actor;
            var steps := [Detach(x, resolved, Stored), FinalFlush(id, resolved, Stored), Release];
            && Legal(s, steps)
            && var a, t := s.actors[id], Exec(s, steps);
            && t.lock.Free? && a.key !in t.registry && x in t.sessions && t.sessions[x].released
            && id in t.actors && t.actors[id].done && t.actors[id].session.None?
            && t.actors[id].pilot == (if a.key.Keyed? && a.pilot.runOpen then resolved else a.pilot)
            && (a.key.Keyed? ==> a.key in t.disk && t.disk[a.key] == t.actors[id].pilot.row)
  {
    var id := s.sessions[x].actor;
    var leave, flush := Detach(x, resolved, Stored), FinalFlush(id, resolved, Stored);
    LeavingStops(s, x, resolved);
    hide Inv, Enabled, Apply, Legal, Exec;
    OneStep(s, leave);
    var s1 := Apply(s, leave);
    StoppedFinishes(s1, resolved);
    Then(s, [leave], flush);
    var s2 := Apply(s1, flush);
    FinishedReleases(s2);
    Then(s, [leave] + [flush], Release);
    assert [leave] + [flush] + [Release] == [leave, flush, Release];
    if s.actors[id].key.Keyed? { CleanIsDurable(Apply(s2, Release), id); }
  }

  // ---------------------------------------------------------------- shutdown

  /** A flush has gone wrong, and is or will be reported. */
  ghost predicate Failing(s: System) {
    || (s.shutdown.Flushing? && s.shutdown.failed)
    || (s.lock.Stopping? && s.lock.waiter.ByShutdown? && s.lock.id in s.actors && s.actors[s.lock.id].finalErr)
  }

  lemma KickHead(s: System, resolved: Pilot)
    requires Inv(s) && s.lock.Free? && s.shutdown.Flushing? && s.shutdown.queue != [] && !s.shutdown.kicked
    ensures Enabled(s, ShutdownKick(resolved))
    ensures var t := Apply(s, ShutdownKick(resolved)); t.lock.Free? && t.shutdown == s.shutdown.(kicked := true)
  {
    OwnerFacts(s, s.shutdown.queue[0]);
    hide Inv;
  }

  lemma StopHead(s: System)
    requires Inv(s) && s.lock.Free? && s.shutdown.Flushing? && s.shutdown.queue != [] && s.shutdown.kicked && !s.shutdown.failed
    ensures Enabled(s, ShutdownStop)
    ensures var id := s.shutdown.queue[0]; var t := Apply(s, ShutdownStop);
            if s.actors[id].done then t.lock.Free? && t.shutdown == Flushing(s.shutdown.queue[1..], false, false)
            else t.lock == Stopping(id, ByShutdown) && t.shutdown == s.shutdown && id in t.actors && !t.actors[id].done
  {
    KickedFacts(s);
    assert ActorOk(s.actors[s.shutdown.queue[0]], s.disk) && PlacedOk(s, s.shutdown.queue[0]);
    hide Inv;
  }

  /** The save at the head of the queue is flushed in at most four steps. */
  lemma FlushHead(s: System, resolved: Pilot) returns (steps: seq<Step>)
    requires Inv(s) && s.lock.Free? && s.shutdown.Flushing? && s.shutdown.queue != [] && !s.shutdown.failed && !resolved.runOpen
    ensures Legal(s, steps) && |steps| <= 4 && Inv(Exec(s, steps)) && Exec(s, steps).lock.Free?
    ensures Exec(s, steps).shutdown == Flushing(s.shutdown.queue[1..], false, false)
  {
    hide Inv, Enabled, Apply, Legal, Exec;
    steps := [];
    Nothing(s);
    if !s.shutdown.kicked {
      KickHead(s, resolved);
      Then(s, [], ShutdownKick(resolved));
      steps := [] + [ShutdownKick(resolved)];
    }
    var s1 := Exec(s, steps);
    StopHead(s1);
    Then(s, steps, ShutdownStop);
    steps := steps + [ShutdownStop];
    var s2 := Exec(s, steps);
    if s2.lock.Stopping? {
      StoppedFinishes(s2, resolved);
      var flush := FinalFlush(s2.lock.id, resolved, Stored);
      Then(s, steps, flush);
      steps := steps + [flush];
      FinishedReleases(Exec(s, steps));
      Then(s, steps, Release);
      steps := steps + [Release];
    }
  }

  lemma Nothing(s: System)
    ensures Legal(s, []) && Exec(s, []) == s
  {}

  lemma {:induction false} FlushAll(s: System, resolved: Pilot) returns (steps: seq<Step>)
    requires Inv(s) && s.lock.Free? && s.shutdown.Flushing? && !s.shutdown.failed && !resolved.runOpen
    requires s.shutdown.queue == [] ==> !s.shutdown.kicked
    ensures Legal(s, steps) && Inv(Exec(s, steps)) && Exec(s, steps).shutdown == Flushing([], false, false)
    decreases |s.shutdown.queue|
  {
    hide Inv, Enabled, Apply, Legal, Exec;
    if s.shutdown.queue == [] {
      Nothing(s);
      steps := [];
    } else {
      var head := FlushHead(s, resolved);
      var rest := FlushAll(Exec(s, head), resolved);
      ExecJoins(s, head, rest);
      steps := head + rest;
    }
  }

  lemma {:induction false} Listed(ids: set<nat>) returns (queue: seq<nat>)
    ensures forall id :: id in queue <==> id in ids
    ensures forall i, j :: 0 <= i < j < |queue| ==> queue[i] != queue[j]
    decreases |ids|
  {
    if ids == {} {
      queue := [];
    } else {
      var id :| id in ids;
      var rest := Listed(ids - {id});
      queue := [id] + rest;
    }
  }

  /** A shutdown that has not begun can begin. */
  lemma Begin(s: System) returns (queue: seq<nat>)
    requires Inv(s) && s.lock.Free? && s.shutdown.NotStarted?
    ensures Enabled(s, BeginShutdown(queue))
    ensures var t := Apply(s, BeginShutdown(queue)); t.lock.Free? && t.shutdown == Flushing(queue, false, false)
  {
    hide Inv;
    queue := Listed(s.registry.Values);
  }

  lemma BindFrees(s: System, x: nat)
    requires Inv(s) && s.lock.Binding? && x !in s.sessions
    ensures var step := AttachBind(x, s.actors[s.lock.id].pilot.row);
            Enabled(s, step) && Apply(s, step).lock.Free? && Apply(s, step).shutdown == s.shutdown && s.shutdown.NotStarted?
  {
    BindFacts(s);
  }

  /** Whoever holds the mutex gets done with it, and without a failure when writes work and runs resolve. */
  lemma FreeMutex(s: System, x: nat, resolved: Pilot) returns (steps: seq<Step>)
    requires Inv(s) && x !in s.sessions && !resolved.runOpen && !Failing(s)
    ensures Legal(s, steps) && Inv(Exec(s, steps)) && Exec(s, steps).lock.Free?
    ensures s.shutdown.NotStarted? ==> Exec(s, steps).shutdown.NotStarted?
    ensures s.shutdown.Flushing? ==> Exec(s, steps).shutdown.Flushing? && !Exec(s, steps).shutdown.failed
  {
    Nothing(s);
    steps := [];
    if s.lock.Binding? {
      BindFrees(s, x);
      hide Inv, Enabled, Apply, Legal, Exec;
      OneStep(s, AttachBind(x, s.actors[s.lock.id].pilot.row));
      steps := [AttachBind(x, s.actors[s.lock.id].pilot.row)];
    } else if s.lock.Stopping? {
      assert s.lock.id in s.actors;
      hide Inv, Enabled, Apply, Legal, Exec;
      if !s.actors[s.lock.id].done {
        var flush := FinalFlush(s.lock.id, resolved, Stored);
        StoppedFinishes(s, resolved);
        Then(s, [], flush);
        steps := [] + [flush];
      }
      var s1 := Exec(s, steps);
      FinishedReleases(s1);
      Then(s, steps, Release);
      steps := steps + [Release];
    }
  }

  lemma StaysReachable(s: System, steps: seq<Step>)
    requires Reachable(s) && Legal(s, steps)
    ensures Reachable(Exec(s, steps))
  {
    var policy, disk, before :| Legal(Init(policy, disk), before) && Exec(Init(policy, disk), before) == s;
    ExecJoins(Init(policy, disk), before, steps);
  }

  /** From wherever the save layer has got to, a shutdown can run to its end: when writes are stored and
      runs resolve it reports no failure, and every save that was ever opened is on disk. */
  lemma ShutdownFinishes(s: System, x: nat, resolved: Pilot) returns (steps: seq<Step>)
    requires Reachable(s) && x !in s.sessions && !resolved.runOpen && !Failing(s)
    ensures Legal(s, steps)
    ensures var t := Exec(s, steps);
            && t.shutdown == Flushing([], false, false) && t.registry == map[]
            && forall key :: key in t.latest && key.Keyed? ==>
                 t.latest[key] in t.actors && t.actors[t.latest[key]].done
                 && key in t.disk && t.disk[key] == t.actors[t.latest[key]].pilot.row
  {
    ReachableOk(s);
    hide Inv, Enabled, Apply, Legal, Exec, Reachable;
    var free := FreeMutex(s, x, resolved);
    var s1 := Exec(s, free);
    var begin: seq<Step> := [];
    Nothing(s1);
    if s1.shutdown.NotStarted? {
      var queue := Begin(s1);
      OneStep(s1, BeginShutdown(queue));
      begin := [BeginShutdown(queue)];
    } else {
      KickedHead(s1);
    }
    var s2 := Exec(s1, begin);
    var flush := FlushAll(s2, resolved);
    ExecJoins(s1, begin, flush);
    ExecJoins(s, free, begin + flush);
    steps := free + (begin + flush);
    StaysReachable(s, steps);
    AllSaved(Exec(s, steps));
  }

  lemma KickedHead(s: System)
    requires Inv(s) && s.shutdown.Flushing?
    ensures s.shutdown.kicked ==> s.shutdown.queue != []
  {}

  lemma AllSaved(t: System)
    requires Reachable(t) && t.shutdown == Flushing([], false, false)
    ensures t.registry == map[]
    ensures forall key :: key in t.latest && key.Keyed? ==>
              t.latest[key] in t.actors && t.actors[t.latest[key]].done
              && key in t.disk && t.disk[key] == t.actors[t.latest[key]].pilot.row
  {
    ShutdownSavesAll(t);
    ReachableOk(t);
    forall key | key in t.latest && key.Keyed?
      ensures t.latest[key] in t.actors && t.actors[t.latest[key]].done
              && key in t.disk && t.disk[key] == t.actors[t.latest[key]].pilot.row
    {
      assert Durable(t.actors[t.latest[key]], t.disk) && t.actors[t.latest[key]].key == key;
    }
  }
}
