/**
 * What the delivery state machine guarantees: the outcomes of save-and-send,
 * and the retry sweep's order, isolation, terminal Sent state and quiescence.
 */
module OutboxProperties {
  import opened Results
  import opened Errors
  import opened Model
  import opened Repo
  import opened NapCat
  import opened OutboxSpec

  /** Both driver calls of `Create` succeed, so the row is saved and its id known. */
  ghost predicate Inserted(w: World, env: Env)
  {
    env.driver(w.driverCalls).Pass? && env.driver(w.driverCalls + 1).Pass?
  }

  /** The row `SaveAndSend` inserts for `req`. */
  function SavedRow(w: World, req: SaveMessageRequest, now: int): Row
  {
    NewRow(w.nextId, CreateInput(req), now)
  }

  /** A message that cannot be saved is never sent: nil record, an error, no gateway call. */
  lemma SaveFailureSendsNothing(w: World, req: SaveMessageRequest, now: int, env: Env)
    requires !Inserted(w, env)
    ensures var s := SaveAndSend(w, req, now, env);
      && s.record == None
      && s.err.Fail? && s.err.error.Wrapped? && s.err.error.context == SaveFailed
      && s.world.gatewayCalls == w.gatewayCalls && s.world.sends == w.sends
      && (env.driver(w.driverCalls).Fail? ==> s.world.rows == w.rows && s.world.nextId == w.nextId)
  {
  }

  /** Send and status write succeed: the row is Sent, stamped `now`, and the record comes back without error. */
  lemma DeliveredIsMarkedSent(w: World, req: SaveMessageRequest, now: int, env: Env)
    requires Inserted(w, env)
    requires req.destinationType == DestinationQQGroup && env.replies(w.gatewayCalls).Pass?
    requires env.driver(w.driverCalls + 2).Pass?
    ensures var s := SaveAndSend(w, req, now, env);
      && s.err == Pass
      && s.record == Some(Record(SavedRow(w, req, now)))
      && s.world.rows == w.rows[w.nextId := SavedRow(w, req, now).(status := Sent, lastSentAt := Some(now))]
      && s.world.sends == w.sends + [GroupMessage(env.groupId, req.message)]
  {
  }

  /** The error a failed send of the message `req` describes. */
  function SendFailure(w: World, req: SaveMessageRequest, env: Env): Error
  {
    if req.destinationType != DestinationQQGroup then UnsupportedDestination(req.destinationType)
    else match env.replies(w.gatewayCalls)
      case Fail(d) => Wrapped(QQGroupSendFailed, Gateway(d))
      case Pass => Wrapped(QQGroupSendFailed, Gateway(""))
  }

  /**
   * The send fails: the saved record is returned with the send error, whether
   * or not the annotation was written, after at most the one gateway call.
   */
  lemma SendFailureReturnsRecord(w: World, req: SaveMessageRequest, now: int, env: Env)
    requires Inserted(w, env)
    requires req.destinationType != DestinationQQGroup || env.replies(w.gatewayCalls).Fail?
    ensures var s := SaveAndSend(w, req, now, env);
      && s.record == Some(Record(SavedRow(w, req, now)))
      && s.err == Fail(Wrapped(SavedButNotSent, SendFailure(w, req, env)))
      && s.world.gatewayCalls == w.gatewayCalls + (if req.destinationType == DestinationQQGroup then 1 else 0)
  {
    var m := Record(SavedRow(w, req, now));
    var c := Create(w, CreateInput(req), now, env);
    assert c.record == Some(m);
    assert Send(c.world, m, env).err == Fail(SendFailure(w, req, env));
  }

  /** A failed send of a saved record: its row is annotated when the write succeeds, and untouched otherwise. */
  lemma DeliverFailureAnnotates(w: World, m: MessageBox, now: int, env: Env)
    requires m.id in w.rows && Send(w, m, env).err.Fail?
    ensures var s := DeliverSaved(w, m, now, env);
      var p := FailurePatch(now, Text(Send(w, m, env).err.error));
      && (env.driver(w.driverCalls).Pass? ==> s.world.rows == w.rows[m.id := ApplyPatch(w.rows[m.id], p)])
      && (env.driver(w.driverCalls).Fail? ==> s.world.rows == w.rows)
  {
  }

  /**
   * The send fails: the row stays Pending and, when the annotation is written,
   * carries `now` and the error text; otherwise it stays as inserted.
   */
  lemma SendFailureAnnotatesRow(w: World, req: SaveMessageRequest, now: int, env: Env)
    requires Inserted(w, env)
    requires req.destinationType != DestinationQQGroup || env.replies(w.gatewayCalls).Fail?
    ensures var s := SaveAndSend(w, req, now, env);
      var row := SavedRow(w, req, now);
      && (env.driver(w.driverCalls + 2).Pass? ==>
            s.world.rows == w.rows[w.nextId := row.(lastSentAt := Some(now),
                                                   lastError := Some(Text(SendFailure(w, req, env))))])
      && (env.driver(w.driverCalls + 2).Fail? ==> s.world.rows == w.rows[w.nextId := row])
  {
    var row := SavedRow(w, req, now);
    var m := Record(row);
    var c := Create(w, CreateInput(req), now, env);
    assert c.world.rows == w.rows[w.nextId := row] && c.record == Some(m);
    assert c.world.driverCalls == w.driverCalls + 2;
    assert Send(c.world, m, env).err == Fail(SendFailure(w, req, env));
    DeliverFailureAnnotates(c.world, m, now, env);
    var p := FailurePatch(now, Text(SendFailure(w, req, env)));
    assert ApplyPatch(row, p) == row.(lastSentAt := Some(now), lastError := Some(Text(SendFailure(w, req, env))));
    assert c.world.rows[w.nextId := ApplyPatch(row, p)] == w.rows[w.nextId := ApplyPatch(row, p)];
  }

  /** The send succeeds but the Sent write fails: nil record, an error, and the row left Pending. */
  lemma StatusWriteFailureReturnsNil(w: World, req: SaveMessageRequest, now: int, env: Env)
    requires Inserted(w, env)
    requires req.destinationType == DestinationQQGroup && env.replies(w.gatewayCalls).Pass?
    requires env.driver(w.driverCalls + 2).Fail?
    ensures var s := SaveAndSend(w, req, now, env);
      && s.record == None
      && s.err == Fail(Wrapped(StatusChangeFailed, Db(env.driver(w.driverCalls + 2).error)))
      && s.world.rows == w.rows[w.nextId := SavedRow(w, req, now)]
  {
  }

  /**
   * Delivering a saved record touches only its own row, and only its status and
   * outcome columns; it calls the gateway at most once, with that record's
   * text; and it succeeds exactly when a Pending row ends up Sent.
   */
  lemma DeliverSavedFrame(w: World, m: MessageBox, now: int, env: Env)
    requires m.id in w.rows && w.rows[m.id].message == m.message
    ensures var s := DeliverSaved(w, m, now, env);
      && s.world.rows.Keys == w.rows.Keys
      && (forall id :: id in w.rows && id != m.id ==> s.world.rows[id] == w.rows[id])
      && Identity(s.world.rows[m.id]) == Identity(w.rows[m.id])
      && (SentStamped(w.rows) ==> SentStamped(s.world.rows))
      && (s.world.gatewayCalls == w.gatewayCalls ==> s.world.sends == w.sends)
      && (s.world.gatewayCalls != w.gatewayCalls ==>
            && s.world.gatewayCalls == w.gatewayCalls + 1
            && s.world.sends == w.sends + [GroupMessage(env.groupId, m.message)])
      && (w.rows[m.id].status == Pending ==> (s.err.Pass? <==> s.world.rows[m.id].status == Sent))
  {
    var s := Send(w, m, env);
    assert s.world.rows == w.rows;
    if s.err.Fail? {
      var p := FailurePatch(now, Text(s.err.error));
      var a := Update(s.world, m.id, p, env);
      assert DeliverSaved(w, m, now, env).world == a.world;
      if a.err.Pass? {
        PatchKeepsStamped(w.rows, m.id, p);
      }
    } else {
      var u := Update(s.world, m.id, SentPatch(now), env);
      assert DeliverSaved(w, m, now, env).world == u.world;
      if u.err.Pass? {
        PatchKeepsStamped(w.rows, m.id, SentPatch(now));
      }
    }
  }

  /** An update that stamps last_sent_at keeps every Sent row stamped. */
  lemma PatchKeepsStamped(t: map<int, Row>, id: int, p: Patch)
    requires p.lastSentAt.Some?
    ensures SentStamped(t) ==> SentStamped(UpdateTable(t, id, p))
  {
  }

  /**
   * Whatever happens, save-and-send leaves every earlier row alone, calls the
   * gateway at most once and only with the text of the row it has saved, and
   * reports success exactly when that row ends up Sent.
   */
  lemma SaveAndSendFrame(w: World, req: SaveMessageRequest, now: int, env: Env)
    requires w.nextId !in w.rows
    ensures var s := SaveAndSend(w, req, now, env);
      && (forall id :: id in w.rows ==> id in s.world.rows && s.world.rows[id] == w.rows[id])
      && s.world.rows.Keys <= w.rows.Keys + {w.nextId}
      && (w.nextId in s.world.rows ==>
            Identity(s.world.rows[w.nextId]) == Identity(SavedRow(w, req, now)))
      && (SentStamped(w.rows) ==> SentStamped(s.world.rows))
      && (s.world.gatewayCalls == w.gatewayCalls ==> s.world.sends == w.sends)
      && (s.world.gatewayCalls != w.gatewayCalls ==>
            && s.world.gatewayCalls == w.gatewayCalls + 1
            && w.nextId in s.world.rows
            && s.world.sends == w.sends + [GroupMessage(env.groupId, s.world.rows[w.nextId].message)])
      && (s.err.Pass? <==> w.nextId in s.world.rows && s.world.rows[w.nextId].status == Sent)
  {
    var c := Create(w, CreateInput(req), now, env);
    var row := SavedRow(w, req, now);
    if c.world.nextId == w.nextId + 1 {
      assert c.world.rows == w.rows[w.nextId := row];
      assert SentStamped(w.rows) ==> SentStamped(c.world.rows);
    }
    if c.record.Some? {
      var m := c.record.value;
      assert m == Record(row) && m.id == w.nextId;
      DeliverSavedFrame(c.world, m, now, env);
    }
  }

  /** Every send and every status write of the next `n` tries succeeds. */
  ghost predicate AllSucceed(w: World, n: nat, env: Env)
  {
    && (forall k :: w.gatewayCalls <= k < w.gatewayCalls + n ==> env.replies(k).Pass?)
    && (forall k :: w.driverCalls <= k < w.driverCalls + n ==> env.driver(k).Pass?)
  }

  /** The sweep hands the listed messages to the gateway once each, in list order, and touches nothing else. */
  lemma {:induction false} RetryAllAttempts(w: World, batch: seq<MessageBox>, now: int, env: Env)
    ensures var r := RetryAll(w, batch, now, env);
      && r.sends == w.sends + Attempts(batch, env.groupId)
      && r.gatewayCalls == w.gatewayCalls + |Attempts(batch, env.groupId)|
      && w.driverCalls <= r.driverCalls <= w.driverCalls + |batch|
      && r.nextId == w.nextId
    decreases |batch|
  {
    if batch != [] {
      RetryAllAttempts(w, batch[..|batch| - 1], now, env);
    }
  }

  /** A sweep either leaves a row alone or marks it Sent at `now`; unlisted rows are left alone. */
  lemma {:induction false} RetryAllRows(w: World, batch: seq<MessageBox>, now: int, env: Env)
    ensures var r := RetryAll(w, batch, now, env);
      && r.rows.Keys == w.rows.Keys
      && (forall id :: id in w.rows ==>
            r.rows[id] == w.rows[id] || r.rows[id] == ApplyPatch(w.rows[id], SentPatch(now)))
      && (forall id :: id in w.rows && (forall i :: 0 <= i < |batch| ==> batch[i].id != id) ==>
            r.rows[id] == w.rows[id])
    decreases |batch|
  {
    if batch != [] {
      var prefix := batch[..|batch| - 1];
      RetryAllRows(w, prefix, now, env);
      forall id | id in w.rows
        ensures ApplyPatch(ApplyPatch(w.rows[id], SentPatch(now)), SentPatch(now))
                == ApplyPatch(w.rows[id], SentPatch(now))
      {
        UpdateIdempotent(w.rows, id, SentPatch(now));
      }
    }
  }

  /**
   * Sent is terminal and the sweep never writes `last_error`: every column but
   * status and `last_sent_at` is as before, a Sent row stays Sent, and every
   * Sent row stays stamped.
   */
  lemma {:induction false} SweepKeepsSent(w: World, batch: seq<MessageBox>, now: int, env: Env)
    ensures var r := RetryAll(w, batch, now, env);
      && r.rows.Keys == w.rows.Keys
      && (forall id :: id in w.rows ==>
            && Identity(r.rows[id]) == Identity(w.rows[id])
            && r.rows[id].lastError == w.rows[id].lastError
            && (w.rows[id].status == Sent ==> r.rows[id].status == Sent))
      && (SentStamped(w.rows) ==> SentStamped(r.rows))
  {
    RetryAllRows(w, batch, now, env);
  }

  /** Marking a row Sent at `now` a second time changes nothing. */
  lemma SentPatchAbsorbs(r: Row, now: int)
    ensures ApplyPatch(ApplyPatch(r, SentPatch(now)), SentPatch(now)) == ApplyPatch(r, SentPatch(now))
  {
  }

  /** One retry of a QQ-group record whose send and Sent write both succeed marks its row Sent at `now`. */
  lemma RetryOneDelivers(w: World, m: MessageBox, now: int, env: Env)
    requires m.id in w.rows && m.destinationType == DestinationQQGroup
    requires env.replies(w.gatewayCalls).Pass? && env.driver(w.driverCalls).Pass?
    ensures RetryOne(w, m, now, env).rows[m.id] == ApplyPatch(w.rows[m.id], SentPatch(now))
  {
  }

  /**
   * A sweep over what the store listed never alters a row that was not stuck:
   * in particular a Sent row, and a row younger than the retry window, stay as they were.
   */
  lemma SweepLeavesUnlistedRows(w: World, cutoff: int, batch: seq<MessageBox>, now: int, env: Env)
    requires IsListing(w.rows, cutoff, batch)
    ensures var r := RetryAll(w, batch, now, env);
      forall id :: id in w.rows && !IsStuck(w.rows[id], cutoff) ==> r.rows[id] == w.rows[id]
  {
    RetryAllRows(w, batch, now, env);
    forall id | id in w.rows && !IsStuck(w.rows[id], cutoff)
      ensures RetryAll(w, batch, now, env).rows[id] == w.rows[id]
    {
      ListingExcludes(w.rows, cutoff, batch, id);
    }
  }

  /** When every try succeeds, every listed QQ-group record ends up Sent at `now`. */
  lemma {:induction false} RetryAllDelivers(w: World, batch: seq<MessageBox>, now: int, env: Env)
    requires forall i :: 0 <= i < |batch| ==> batch[i].id in w.rows
    requires AllSucceed(w, |batch|, env)
    ensures forall i :: 0 <= i < |batch| && batch[i].destinationType == DestinationQQGroup ==>
      RetryAll(w, batch, now, env).rows[batch[i].id] == ApplyPatch(w.rows[batch[i].id], SentPatch(now))
    decreases |batch|
  {
    if batch != [] {
      var prefix := batch[..|batch| - 1];
      var m := batch[|batch| - 1];
      var before := RetryAll(w, prefix, now, env);
      var after := RetryAll(w, batch, now, env);
      assert after == RetryOne(before, m, now, env);
      RetryAllDelivers(w, prefix, now, env);
      var sent := ApplyPatch(w.rows[m.id], SentPatch(now));
      if m.destinationType == DestinationQQGroup {
        RetryAllAttempts(w, prefix, now, env);
        RetryAllRows(w, prefix, now, env);
        RetryOneDelivers(before, m, now, env);
        SentPatchAbsorbs(w.rows[m.id], now);
        assert after.rows[m.id] == sent;
      }
      forall i | 0 <= i < |batch| && batch[i].destinationType == DestinationQQGroup
        ensures after.rows[batch[i].id] == ApplyPatch(w.rows[batch[i].id], SentPatch(now))
      {
        if batch[i].id != m.id || m.destinationType != DestinationQQGroup {
          assert prefix[i] == batch[i];
        }
      }
    }
  }

  /** A listing in which no record is for a QQ group makes no gateway call. */
  lemma {:induction false} NoAttemptsWithoutGroupRecords(batch: seq<MessageBox>, groupId: string)
    requires forall i :: 0 <= i < |batch| ==> batch[i].destinationType != DestinationQQGroup
    ensures Attempts(batch, groupId) == []
    decreases |batch|
  {
    if batch != [] {
      NoAttemptsWithoutGroupRecords(batch[..|batch| - 1], groupId);
    }
  }

  /**
   * After a sweep of a full listing in which every try succeeded, every row
   * still stuck is for a destination that is never sent.
   */
  lemma {:induction false} LeftoversAreUnsendable(
    w: World, first: seq<MessageBox>, second: seq<MessageBox>, now: int, env: Env)
    requires IsListing(w.rows, now - RetryWindowSeconds, first)
    requires AllSucceed(w, |first|, env)
    requires IsListing(RetryAll(w, first, now, env).rows, now - RetryWindowSeconds, second)
    ensures forall i :: 0 <= i < |second| ==> second[i].destinationType != DestinationQQGroup
  {
    var cutoff := now - RetryWindowSeconds;
    var after := RetryAll(w, first, now, env);
    RetryAllRows(w, first, now, env);
    RetryAllDelivers(w, first, now, env);
    forall i | 0 <= i < |second|
      ensures second[i].destinationType != DestinationQQGroup
    {
      var id := second[i].id;
      assert id in after.rows && IsStuck(after.rows[id], cutoff);
      assert after.rows[id] != ApplyPatch(w.rows[id], SentPatch(now));
      assert after.rows[id] == w.rows[id];
      assert IsStuck(w.rows[id], cutoff);
      var j :| 0 <= j < |first| && first[j].id == id;
      assert first[j] == Record(w.rows[id]);
      assert first[j].destinationType != DestinationQQGroup;
    }
  }

  /**
   * After a sweep in which every send and every Sent write succeeded, a second
   * sweep at the same `now` makes no gateway call: all that is left stuck are
   * records for destinations that are never sent.
   */
  lemma SecondSweepIsSilent(w: World, first: seq<MessageBox>, second: seq<MessageBox>, now: int, env: Env)
    requires env.driver(w.driverCalls).Pass?
    requires IsListing(w.rows, now - RetryWindowSeconds, first)
    requires AllSucceed(w.(driverCalls := w.driverCalls + 1), |first|, env)
    requires IsListing(MessageRetry(w, first, now, env).world.rows, now - RetryWindowSeconds, second)
    ensures var after := MessageRetry(w, first, now, env).world;
      && MessageRetry(after, second, now, env).world.gatewayCalls == after.gatewayCalls
      && MessageRetry(after, second, now, env).world.sends == after.sends
  {
    var w1 := w.(driverCalls := w.driverCalls + 1);
    var after := RetryAll(w1, first, now, env);
    assert MessageRetry(w, first, now, env).world == after;
    LeftoversAreUnsendable(w1, first, second, now, env);
    NoAttemptsWithoutGroupRecords(second, env.groupId);
    var w2 := after.(driverCalls := after.driverCalls + 1);
    if env.driver(after.driverCalls).Pass? {
      RetryAllAttempts(w2, second, now, env);
      assert MessageRetry(after, second, now, env).world == RetryAll(w2, second, now, env);
    } else {
      assert MessageRetry(after, second, now, env).world == w2;
    }
  }
}
