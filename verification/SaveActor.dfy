/** The actor as the object it is: fields that its own goroutine updates, against one store. Each
    method is proved to do what the protocol's step says the actor does. */
module SaveActor {
  import opened Wrappers
  import opened SaveProtocol
  import opened SaveSafety

  /** A save in memory that claims to be clean is on disk as it is. */
  ghost predicate Truthful(a: Actor, rows: Disk) { a.key.Keyed? && !a.dirty ==> Durable(a, rows) }

  /** At most one row differs. */
  ghost predicate OnlyRow(before: Disk, after: Disk, key: Key) {
    forall k :: k != key ==> (k in after <==> k in before) && (k in after ==> after[k] == before[k])
  }

  class Store {
    var rows: Disk

    constructor (rows: Disk)
      ensures this.rows == rows
    {
      this.rows := rows;
    }

    /** Writes one row; a failed write may or may not have landed. */
    method SaveState(key: Key, row: Row, w: Write) returns (ok: bool)
      modifies this
      ensures ok == w.Stored?
      ensures rows == if w == Failed(false) then old(rows) else old(rows)[key := row]
    {
      ok := w.Stored?;
      if w != Failed(false) {
        rows := rows[key := row];
      }
    }
  }

  class LiveActor {
    const key: Key
    const store: Store
    var pilot: Pilot
    var dirty: bool
    var session: Option<nat>
    var revision: nat
    var attached: bool
    var stopCloses: nat
    var done: bool
    var finalErr: bool

    function View(): Actor
      reads this
    {
      Actor(key, pilot, dirty, session, revision, attached, stopCloses, done, finalErr)
    }

    constructor (key: Key, row: Row, store: Store)
      ensures this.key == key && this.store == store
      ensures View() == Actor(key, Pilot(row, false, false), false, None, 0, false, 0, false, false)
    {
      this.key := key;
      this.store := store;
      pilot := Pilot(row, false, false);
      dirty, session, revision, attached := false, None, 0, false;
      stopCloses, done, finalErr := 0, false, false;
    }

    /** Writes a dirty save, but never a guest's nor one whose run is open with nobody attached: a stored
        write leaves the row on disk and the save clean, a failed one leaves it dirty. */
    method PersistNow(w: Write) returns (err: bool)
      modifies this`dirty, store
      ensures Persisted(View(), store.rows, err) == Persist(old(View()), old(store.rows), w)
      ensures key.Guest? || (session.None? && pilot.runOpen) ==> store.rows == old(store.rows)
      ensures key.Keyed? && old(dirty) && (session.Some? || !pilot.runOpen) && w.Stored? ==>
                !err && !dirty && store.rows == old(store.rows)[key := pilot.row]
      ensures w.Failed? ==> dirty == old(dirty) && (err <==> key.Keyed? && dirty)
      ensures OnlyRow(old(store.rows), store.rows, key)
      ensures old(Truthful(View(), store.rows)) ==> Truthful(View(), store.rows) && (key.Keyed? && !err ==> Durable(View(), store.rows))
    {
      if key.Guest? || !dirty {
        return false;
      }
      if session.None? && pilot.runOpen {
        return true;
      }
      var ok := store.SaveState(key, Encode(pilot), w);
      if !ok {
        return true;
      }
      dirty := false;
      return false;
    }

    method TakeSnapshot()
      modifies this`revision
      ensures View() == Snapshot(old(View()))
    {
      revision := revision + 1;
    }

    /** Bind a session: refused under the refuse policy, otherwise the old owner is to be kicked. */
    method Attach(policy: Policy, x: nat, seen: Row) returns (accepted: bool, kick: Option<nat>)
      requires !done
      modifies this
      ensures (View(), accepted) == Bound(old(View()), policy, x, seen)
      ensures kick == if accepted && key.Keyed? then old(session) else None
      ensures accepted <==> !(key.Keyed? && old(session).Some? && policy.Refuse?)
      ensures if accepted then session == Some(x) && attached else View() == old(View())
      ensures accepted && key.Keyed? ==> dirty && pilot == old(pilot).(row := seen)
      ensures old(Truthful(View(), store.rows)) ==> Truthful(View(), store.rows)
    {
      kick := None;
      if key.Keyed? && session.Some? {
        if policy.Refuse? {
          return false, None;
        }
        kick := session;
      }
      session := Some(x);
      attached := true;
      if key.Keyed? {
        pilot := pilot.(row := seen);
        dirty := true;
      }
      accepted := true;
    }

    /** An intent applies only for the owner; only an accepted one makes the save dirty. */
    method Act(x: nat, accepted: bool, after: Pilot) returns (open: bool)
      modifies this
      ensures open == (old(session) == Some(x))
      ensures View() == if open then Snapshot(old(View()).(pilot := after, dirty := old(dirty) || accepted))
                        else old(View())
      ensures !open ==> View() == old(View())
      ensures open ==> pilot == after && session == Some(x) && revision == old(revision) + 1 && dirty == (old(dirty) || accepted)
      ensures old(Truthful(View(), store.rows)) && (accepted || Encode(after) == old(Encode(pilot))) ==> Truthful(View(), store.rows)
    {
      if session != Some(x) {
        return false;
      }
      pilot := after;
      if accepted {
        dirty := true;
      }
      TakeSnapshot();
      open := true;
    }

    /** A tick is watched by an owner, so whatever it changes is flushed before the save can be let go. */
    method Tick(after: Pilot)
      requires Ticking(View())
      modifies this
      ensures View() == Snapshot(old(View()).(pilot := after, dirty := true))
      ensures pilot == after && dirty && revision == old(revision) + 1
      ensures old(ActorOk(View(), store.rows)) ==> ActorOk(View(), store.rows) && !StopsAfterDetach(View())
    {
      pilot := after;
      dirty := true;
      TakeSnapshot();
    }

    method Resolve(resolved: Pilot)
      modifies this`pilot, this`dirty
      ensures View() == ResolveAbandoned(old(View()), resolved)
    {
      if key.Keyed? && pilot.runOpen {
        pilot := resolved;
        dirty := true;
      }
    }

    /** The closure that detach runs, and the stop it may decide on. */
    method Leave(x: nat, resolved: Pilot, w: Write) returns (stop: bool)
      requires !done
      modifies this, store
      ensures var (p, stops) := Detached(old(View()), x, resolved, old(store.rows), w);
              stop == stops && View() == p.actor && store.rows == p.disk
      ensures old(session) == Some(x) ==> session.None?
      ensures old(session) != Some(x) ==> pilot == old(pilot) && session == old(session)
      ensures old(Truthful(View(), store.rows)) && stop && key.Keyed? ==> Durable(View(), store.rows)
      ensures old(session) == Some(x) && w.Stored? && !resolved.runOpen ==>
                stop && pilot == (if key.Keyed? && old(pilot.runOpen) then resolved else old(pilot))
    {
      if session == Some(x) {
        Resolve(resolved);
        session := None;
      }
      var _ := PersistNow(w);
      stop := session.None? && (key.Guest? || !dirty);
      if stop {
        stopCloses := stopCloses + 1;
      }
    }

    /** The actor's last action after its stop channel is closed. */
    method Finish(resolved: Pilot, w: Write)
      modifies this, store
      ensures var p := LastFlush(old(View()), resolved, old(store.rows), w); View() == p.actor && store.rows == p.disk
      ensures w.Stored? && !resolved.runOpen ==>
                !finalErr && pilot == (if key.Keyed? && old(pilot.runOpen) then resolved else old(pilot))
      ensures done && (old(Truthful(View(), store.rows)) && key.Keyed? ==> Durable(View(), store.rows) || finalErr)
    {
      Resolve(resolved);
      finalErr := PersistNow(w);
      done := true;
    }
  }
}
