/** The Recall Policy instrument itself: fields overwritten by its event methods. */
module AthanorRecallPolicyClass {
  import opened Basics
  import opened RecallPolicy
  import opened RecallClient
  import opened RecallTheorems

  class AthanorRecallPolicy {
    var link: Link
    var bound: bool
    var cursor: Option<Cursor>
    var projection: Option<Policy>
    var lastEvent: Option<string>
    var selection: Option<RequestedMode>
    var command: Phase
    var processing: bool
    var nextId: nat
    ghost var trace: seq<Sent>

    ghost function Snapshot(): State
      reads this
    {
      State(link, bound, cursor, projection, lastEvent, selection, command, processing, nextId, trace)
    }

    /** The write the operator may have outstanding is in order. */
    ghost predicate Valid()
      reads this
    {
      CommandInv(Snapshot())
    }

    constructor ()
      ensures Valid() && Snapshot() == INITIAL
    {
      link, bound, cursor, projection, lastEvent := Offline, false, None, None, None;
      selection, command, processing, nextId, trace := None, NoCommand, false, 1, [];
    }

    // -------------------------------------------------------------- sending

    method NewIdentifier() returns (id: nat)
      modifies `nextId
      ensures id == old(nextId) && nextId == id + 1
    {
      id := nextId;
      nextId := nextId + 1;
    }

    method RequestSnapshot(sent: bool)
      modifies `nextId, `trace
      ensures Snapshot() == RecallClient.RequestSnapshot(old(Snapshot()), sent)
    {
      var messageId := NewIdentifier();
      var key := NewIdentifier();
      if sent {
        trace := trace + [Ask(bound)];
      }
    }

    method SendAcknowledge(sent: bool)
      modifies `nextId, `trace
      ensures Snapshot() == RecallClient.SendAcknowledge(old(Snapshot()), sent)
    {
      if !bound || cursor.None? {
        return;
      }
      var messageId := NewIdentifier();
      var key := NewIdentifier();
      if sent {
        trace := trace + [Ack(cursor.value.version, cursor.value.sequence, cursor.value.stateHash)];
      }
    }

    method DropProjection()
      modifies `bound, `cursor, `projection, `lastEvent, `selection
      ensures Snapshot() == RecallClient.DropProjection(old(Snapshot()))
    {
      bound, cursor, projection, lastEvent, selection := false, None, None, None, None;
    }

    method FailPending()
      modifies `command
      ensures Snapshot() == RecallClient.FailPending(old(Snapshot()))
    {
      if command.Awaiting? {
        command := Failed(command.mode, command.key);
      }
    }

    // -------------------------------------------------------------- messages

    /** Applies the updates one by one onto a copy, so that a refused one leaves nothing half done. */
    method ApplyDelta(d: Delta) returns (applied: bool)
      requires cursor.Some? && projection.Some?
      modifies `cursor, `projection
      ensures var r := RecallClient.ApplyDelta(old(cursor.value), old(projection.value), d);
              && applied == r.Some?
              && (if applied then cursor == Some(r.value.0) && projection == Some(r.value.1)
                  else cursor == old(cursor) && projection == old(projection))
    {
      if d.base != cursor.value.version {
        return false;
      }
      if d.sequence != cursor.value.sequence + 1 {
        return false;
      }
      if d.next <= cursor.value.version {
        return false;
      }
      var candidate := projection.value;
      var i := 0;
      while i < |d.updates|
        invariant i <= |d.updates|
        invariant cursor == old(cursor) && projection == old(projection)
        invariant ApplyAll(projection.value, d.updates[..i]) == Ok(candidate)
      {
        Snoc(d.updates[..i], d.updates[i]);
        assert d.updates[..i + 1] == d.updates[..i] + [d.updates[i]];
        var r := ApplyUpdate(candidate, d.updates[i]);
        if r.Err? {
          RefusedStaysRefused(projection.value, d.updates, i + 1);
          return false;
        }
        candidate := r.value;
        i := i + 1;
      }
      assert d.updates[..i] == d.updates;
      projection := Some(candidate);
      cursor := Some(cursor.value.(version := d.next, sequence := d.sequence, stateHash := Some(d.stateHash)));
      return true;
    }

    method HandleInbound(inbound: Inbound, sent: bool)
      modifies this
      ensures Snapshot() == (match inbound
                             case Snapshot(c, p) => TakeSnapshot(old(Snapshot()), c, p, sent)
                             case Change(d) => TakeDelta(old(Snapshot()), d, sent)
                             case Outcome(verdict, correlation) => TakeOutcome(old(Snapshot()), verdict, correlation))
      ensures old(command).Awaiting? && inbound == Outcome(Accepts, old(command).correlation) ==>
                command == Acknowledged(old(command).mode)
      ensures old(command).Awaiting? && inbound == Outcome(Refuses, old(command).correlation) ==>
                command == Refused(old(command).mode)
      ensures old(command).Awaiting? && inbound == Outcome(Fails, old(command).correlation) ==>
                command == Failed(old(command).mode, old(command).key)
    {
      match inbound
      case Snapshot(c, p) =>
        bound, lastEvent, cursor, projection := true, Some(c.snapshotId), Some(c), Some(p);
        selection, link := None, Ready;
        SendAcknowledge(sent);
      case Change(d) =>
        var applied := false;
        if cursor.Some? && projection.Some? {
          applied := ApplyDelta(d);
        }
        if applied {
          lastEvent, link := Some(d.id), Ready;
          SendAcknowledge(sent);
        } else {
          RequestSnapshot(sent);
        }
      case Outcome(verdict, correlation) =>
        if command.Awaiting? && command.correlation == correlation {
          match verdict
          case Accepts => command := Acknowledged(command.mode);
          case Refuses => command := Refused(command.mode);
          case Fails => command := Failed(command.mode, command.key);
        }
    }

    method OnHostMessage(envelope: Envelope, sent: bool)
      requires Valid()
      modifies this
      ensures Valid() && Snapshot() == OnMessage(old(Snapshot()), envelope, sent)
    {
      MessageKeeps(Snapshot(), envelope, sent);
      match ParseInbound(envelope)
      case Ok(inbound) => HandleInbound(inbound, sent);
      case Err(_) =>
        link := ProtocolRefused;
        FailPending();
        DropProjection();
    }

    // -------------------------------------------------------------- the operator

    method SelectionIsAvailable(urlValid: bool) returns (available: bool)
      ensures available == SelectionAvailable(Snapshot(), urlValid)
    {
      if !urlValid {
        return false;
      }
      if link.Offline? || link.Connecting? || link.Disconnected? || link.ProtocolRefused? {
        return false;
      }
      if projection.None? {
        return false;
      }
      return !command.Awaiting?;
    }

    method WriteIsAvailable(urlValid: bool) returns (available: bool)
      ensures available == WriteAvailable(Snapshot(), urlValid)
    {
      available := SelectionIsAvailable(urlValid);
      if !available || selection.None? {
        return false;
      }
      if command.Refused? && command.mode == selection.value {
        return false;
      }
      return projection.value.requested != selection.value;
    }

    method OnModePressed(mode: RequestedMode, urlValid: bool)
      requires Valid()
      modifies `selection, `command
      ensures Valid() && Snapshot() == SelectMode(old(Snapshot()), mode, urlValid)
    {
      SelectKeeps(Snapshot(), mode, urlValid);
      var available := SelectionIsAvailable(urlValid);
      if !available {
        return;
      }
      selection := if selection == Some(mode) then None else Some(mode);
      if command.Refused? || command.Acknowledged? {
        command := NoCommand;
      }
    }

    method OnApplyPressed(urlValid: bool, sent: bool)
      requires Valid()
      modifies `command, `processing, `nextId, `trace
      ensures Valid() && Snapshot() == Apply(old(Snapshot()), urlValid, sent)
    {
      WriteKeeps(Snapshot(), urlValid, sent);
      var available := WriteIsAvailable(urlValid);
      if !available || !bound || cursor.None? {
        return;
      }
      var mode := selection.value;
      var key;
      if command.Failed? && command.mode == mode {
        key := command.key;
      } else {
        key := NewIdentifier();
      }
      var correlation := NewIdentifier();
      if sent {
        command := Awaiting(correlation, key, mode, 0.0);
        trace := trace + [Write(correlation, key, mode, cursor.value.version)];
      } else {
        command := Failed(mode, key);
      }
      processing := true;
    }

    // -------------------------------------------------------------- time and the link

    method Process(delta: real)
      requires Valid() && processing && delta >= 0.0
      modifies `command, `processing
      ensures Valid() && Snapshot() == RecallClient.Process(old(Snapshot()), delta)
    {
      ProcessKeeps(Snapshot(), delta);
      var timedOut := false;
      if command.Awaiting? {
        var elapsed := command.elapsed + delta;
        timedOut := elapsed >= PENDING_TIMEOUT_SECONDS;
        if timedOut {
          FailPending();
        } else {
          command := command.(elapsed := elapsed);
        }
      }
      if !command.Awaiting? {
        processing := false;
      }
    }

    method OnConnectPressed(closed: bool, opens: bool)
      requires Valid()
      modifies `link, `command
      ensures Valid() && Snapshot() == Connect(old(Snapshot()), closed, opens)
    {
      LinkKeeps(Snapshot(), closed, opens);
      if !closed {
        return;
      }
      if opens {
        link, command := Connecting, NoCommand;
      } else {
        link := Offline;
      }
    }

    method OnDisconnectPressed(closed: bool)
      requires Valid()
      modifies this
      ensures Valid() && Snapshot() == Disconnect(old(Snapshot()), closed)
    {
      LinkKeeps(Snapshot(), closed, false);
      if closed {
        return;
      }
      FailPending();
      DropProjection();
      link := Disconnected;
    }

    method OnHostClosed()
      requires Valid()
      modifies this
      ensures Valid() && Snapshot() == Closed(old(Snapshot()))
    {
      LinkKeeps(Snapshot(), false, false);
      link := Disconnected;
      FailPending();
      DropProjection();
    }

    method OnHostUnavailable()
      requires Valid()
      modifies this
      ensures Valid() && Snapshot() == Unavailable(old(Snapshot()))
    {
      LinkKeeps(Snapshot(), false, false);
      link := Offline;
      FailPending();
      DropProjection();
    }
  }

  /** A fold that fails on a prefix fails. */
  lemma {:induction false} RefusedStaysRefused(p: Policy, updates: seq<Update>, n: nat)
    requires n <= |updates| && ApplyAll(p, updates[..n]).Err?
    ensures ApplyAll(p, updates).Err?
  {
    if n == |updates| {
      assert updates[..n] == updates;
    } else {
      assert Front(updates)[..n] == updates[..n];
      RefusedStaysRefused(p, Front(updates), n);
    }
  }
}
