/** The firmware lifecycle store as it is written: methods that read a row, decide, and update it by
    compare-and-swap. Each is proved to be one event of the lifecycle. */
module UpdateStore {
  import opened StageTypes
  import opened FirmwareLifecycle

  datatype Reply = Fine | NotFound | DeviceMismatch | StateConflict | GenerationMismatch | ManifestExpired

  class LifecycleStore {
    var rows: map<Id, Update>
    ghost var history: map<Id, seq<UpdateState>>

    ghost function State(): Store
      reads this
    {
      Store(rows, history)
    }

    constructor ()
      ensures State() == EMPTY
    {
      rows, history := map[], map[];
    }

    method Get(id: Id) returns (u: Option<Update>)
      ensures u == if id in rows then Some(rows[id]) else None
      ensures u.Some? ==> ReadFrom(State(), id, u.value)
    {
      u := if id in rows then Some(rows[id]) else None;
    }

    method Write(id: Id, u: Update)
      requires id in rows && id in history
      modifies this
      ensures State() == Change(old(State()), id, u)
    {
      rows := rows[id := u];
      history := history[id := history[id] + [u.state]];
    }

    /** Stores a valid manifest under a new id. */
    method Issue(id: Id, device: Id, profile: Id, current: Id, target: Id, expires: int, valid: bool, now: int)
      returns (stored: bool)
      requires Sane(State())
      modifies this
      ensures State() == Apply(old(State()), Event.Issue(id, device, profile, current, target, expires, valid, now))
      ensures stored <==> valid && current != target && now < expires && id !in old(rows)
    {
      hide Consistent;
      if !valid || current == target || expires <= now || id in rows { return false; }
      rows := rows[id := Update(device, profile, current, target, expires, Issued, 0, 0, now)];
      history := history[id := [Issued]];
      stored := true;
    }

    /** One statement over all rows in transfer on the lost connection. */
    method InterruptConnection(device: Id, generation: int, now: int)
      modifies this
      ensures State() == Apply(old(State()), Event.InterruptConnection(device, generation, now))
      ensures forall id | id in old(rows) && old(rows)[id].state == Rebooting ::
                id in rows && rows[id] == old(rows)[id]
    {
      if device == NO_ID || generation <= 0 { return; }
      var which := set id | id in rows && rows[id].device == device && rows[id].generation == generation &&
                            InTransfer(rows[id].state);
      rows := map id | id in rows :: if id in which then rows[id].(state := Interrupted, updated := now) else rows[id];
      history := map id | id in history :: if id in which then history[id] + [Interrupted] else history[id];
    }

    /** After a restart of the Hub, the same for every row in transfer. */
    method ReconcileInterrupted(now: int)
      modifies this
      ensures State() == Apply(old(State()), Reconcile(now))
      ensures forall id | id in old(rows) && old(rows)[id].state == Rebooting ::
                id in rows && rows[id] == old(rows)[id]
    {
      var which := set id | id in rows && InTransfer(rows[id].state);
      rows := map id | id in rows :: if id in which then rows[id].(state := Interrupted, updated := now) else rows[id];
      history := map id | id in history :: if id in which then history[id] + [Interrupted] else history[id];
    }

    method MarkSent(id: Id, device: Id, generation: int, now: int) returns (reply: Reply)
      requires Sane(State())
      modifies this
      ensures State() == Apply(old(State()), Event.MarkSent(id, device, generation, now))
      ensures reply == Fine <==> id in rows && State() != old(State()) && rows[id].state == Sent
    {
      hide Consistent;
      if generation <= 0 { return StateConflict; }
      if id !in rows { return NotFound; }
      var row := rows[id];
      if row.device != device { return DeviceMismatch; }
      if row.state != Issued { return StateConflict; }
      if row.expires <= now {
        Write(id, row.(state := UpdateState.Expired, updated := now));
        return ManifestExpired;
      }
      Write(id, row.(state := Sent, generation := generation, updated := now));
      reply := Fine;
    }

    /** `current` was read earlier; the row may have changed since. */
    method RecordDeviceState(id: Id, device: Id, generation: int, next: UpdateState, current: Update, now: int)
      returns (reply: Reply)
      requires Sane(State()) && ReadFrom(State(), id, current)
      modifies this
      ensures State() == Apply(old(State()), Report(id, device, generation, next, current, now))
      ensures reply == Fine && current.state != next ==> rows[id].state == next
    {
      hide Consistent;
      if generation <= 0 || !DeviceReported(next) { return StateConflict; }
      if current.device != device { return DeviceMismatch; }
      if current.generation != generation { return GenerationMismatch; }
      if current.state == next { return Fine; }
      if current.state == Sent && current.expires <= now {
        if rows[id].device == device && rows[id].generation == generation && rows[id].state == Sent {
          Write(id, rows[id].(state := UpdateState.Expired, updated := now));
          return ManifestExpired;
        }
        return StateConflict;
      }
      if !ValidTransition(current.state, next) { return StateConflict; }
      if rows[id].device == device && rows[id].generation == generation && rows[id].state == current.state {
        Write(id, rows[id].(state := next, updated := now));
        return Fine;
      }
      reply := StateConflict;
    }

    method MarkTransportFailed(id: Id, device: Id, generation: int, current: Update, now: int) returns (reply: Reply)
      requires Sane(State()) && ReadFrom(State(), id, current)
      modifies this
      ensures State() == Apply(old(State()), TransportFailed(id, device, generation, current, now))
      ensures reply == Fine ==> rows[id].state == UpdateState.Failed
      ensures (current == old(rows)[id] && current.device == device && current.generation == generation &&
               current.state == Sent) ==> reply == Fine
    {
      hide Consistent;
      if current.device != device { return DeviceMismatch; }
      if current.generation != generation || Terminal(current.state) { return StateConflict; }
      if rows[id].device == device && rows[id].generation == generation && rows[id].state == Sent {
        Write(id, rows[id].(state := UpdateState.Failed, updated := now));
        return Fine;
      }
      reply := StateConflict;
    }

    /** The rebooting update of a device that changed last, the largest id first among equals. */
    method FindRebooting(device: Id) returns (found: Option<Id>)
      ensures found.None? ==> forall id | id in rows :: !(rows[id].device == device && rows[id].state == Rebooting)
      ensures found.Some? ==>
                found.value in rows && rows[found.value].device == device && rows[found.value].state == Rebooting
      ensures found.Some? ==> forall id | id in rows && rows[id].device == device && rows[id].state == Rebooting ::
                rows[id].updated < rows[found.value].updated ||
                (rows[id].updated == rows[found.value].updated && id <= found.value)
    {
      found := None;
      var todo := rows.Keys;
      while exists id :: id in todo
        invariant todo <= rows.Keys
        invariant found.Some? ==>
                    found.value in rows && rows[found.value].device == device && rows[found.value].state == Rebooting
        invariant forall id | id in rows && id !in todo && rows[id].device == device && rows[id].state == Rebooting ::
                    found.Some? &&
                    (rows[id].updated < rows[found.value].updated ||
                     (rows[id].updated == rows[found.value].updated && id <= found.value))
        decreases |todo|
      {
        var id :| id in todo;
        todo := todo - {id};
        if rows[id].device != device || rows[id].state != Rebooting { continue; }
        if found.None? || rows[found.value].updated < rows[id].updated ||
           (rows[found.value].updated == rows[id].updated && found.value < id) { found := Some(id); }
      }
    }

    /** Runs on the update that was found and read; the row may have changed since. */
    method ConfirmPostReboot(id: Id, device: Id, profile: Id, version: Id, generation: int, current: Update, now: int)
      returns (reply: Reply)
      requires Sane(State()) && ReadFrom(State(), id, current)
      modifies this
      ensures State() == Apply(old(State()), Event.ConfirmPostReboot(id, device, profile, version, generation,
                                                                     current, now))
      ensures reply == Fine ==> (rows[id].state == Done <==> profile == rows[id].profile && version == rows[id].target)
      ensures reply == Fine ==> rows[id].state == Done || rows[id].state == UpdateState.Failed
      ensures (current == old(rows)[id] && current.device == device != NO_ID && current.state == Rebooting &&
               0 < current.generation < generation) ==> reply == Fine
    {
      hide Consistent;
      if device == NO_ID || generation <= 0 { return NotFound; }
      if current.generation <= 0 || generation <= current.generation { return GenerationMismatch; }
      var next: UpdateState;
      if profile != current.profile {
        next := UpdateState.Failed;
      } else if version == current.target {
        next := Done;
      } else {
        next := UpdateState.Failed;
      }
      if rows[id].device == device && rows[id].state == Rebooting && rows[id].generation == current.generation {
        Write(id, rows[id].(state := next, completion := generation, updated := now));
        return Fine;
      }
      reply := StateConflict;
    }
  }
}
