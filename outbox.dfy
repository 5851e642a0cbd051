/**
 * The outbox service: save-then-send, the status writes, and the retry sweep,
 * acting on the store and the gateway client. Each method is proved to change
 * them exactly as the matching function of module OutboxSpec says.
 */
module Outbox {
  import opened Results
  import opened Errors
  import opened Model
  import opened Repo
  import opened NapCat
  import opened OutboxSpec

  /** One gateway call, with the table as it stood when the call was made. */
  datatype Delivery = Delivery(record: MessageBox, table: map<int, Row>)

  /** The message handed to the gateway was already a row of the table. */
  ghost predicate Persisted(d: Delivery)
  {
    d.record.id in d.table && d.table[d.record.id].message == d.record.message
  }

  class MessageBoxService {
    const repo: MessageBoxRepo
    const napcat: NapCatService
    /** The QQ group every message goes to (from configuration). */
    const groupId: string
    /** Every gateway call this service has made. */
    ghost var deliveries: seq<Delivery>

    ghost predicate Valid()
      reads this, repo, napcat
    {
      repo.Valid() && napcat.Valid() && SentStamped(repo.rows) && CallsMatchLog()
    }

    /**
     * The gateway's latest calls are the logged deliveries, in order: call by
     * call, the text sent to the configured group is the logged record's message.
     */
    ghost predicate CallsMatchLog()
      reads this, napcat
    {
      && |deliveries| <= |napcat.sends|
      && forall i :: 0 <= i < |deliveries| ==>
           napcat.sends[|napcat.sends| - |deliveries| + i] == GroupMessage(groupId, deliveries[i].record.message)
    }

    ghost function Env(): Env
    {
      OutboxSpec.Env(groupId, repo.driver, napcat.replies)
    }

    ghost function Observed(): World
      reads repo, napcat
    {
      World(repo.rows, repo.nextId, repo.driverCalls, napcat.calls, napcat.sends)
    }

    /** The calls made since `old` were logged, and each one was for a persisted message. */
    twostate predicate LoggedSince()
      reads this, napcat
    {
      && old(deliveries) <= deliveries
      && |deliveries| - |old(deliveries)| == napcat.calls - old(napcat.calls)
      && forall i :: |old(deliveries)| <= i < |deliveries| ==> Persisted(deliveries[i])
    }

    /**
     * The k-th gateway call made since `old` sent the message of the k-th
     * delivery logged since `old`, to the configured group.
     */
    twostate predicate LoggedInCallOrder()
      reads this, napcat
    {
      && |old(napcat.sends)| + |deliveries| - |old(deliveries)| == |napcat.sends|
      && forall i :: |old(deliveries)| <= i < |deliveries| ==>
           && 0 <= |old(napcat.sends)| + (i - |old(deliveries)|) < |napcat.sends|
           && napcat.sends[|old(napcat.sends)| + (i - |old(deliveries)|)]
              == GroupMessage(groupId, deliveries[i].record.message)
    }

    /** Given `Valid()` before and after, the log of the calls since `old` lists them in call order. */
    twostate lemma CallOrderFromLog()
      requires old(napcat.Valid()) && Valid() && LoggedSince()
      ensures LoggedInCallOrder()
    {
    }

    constructor (napcat: NapCatService, repo: MessageBoxRepo, groupId: string)
      requires repo.Valid() && napcat.Valid() && SentStamped(repo.rows)
      ensures Valid() && deliveries == []
      ensures this.repo == repo && this.napcat == napcat && this.groupId == groupId
    {
      this.napcat := napcat;
      this.repo := repo;
      this.groupId := groupId;
      deliveries := [];
    }

    /** Persist first; send only a saved message; then record the outcome on the row. */
    method SaveAndSendMessage(req: SaveMessageRequest, now: int)
      returns (record: Option<MessageBox>, err: Outcome<Error>)
      requires Valid()
      modifies repo, napcat, this`deliveries
      ensures Valid()
      ensures Saved(Observed(), record, err) == SaveAndSend(old(Observed()), req, now, Env())
      ensures LoggedSince()
      ensures LoggedInCallOrder()
    {
      ghost var c := Create(Observed(), CreateInput(req), now, Env());
      var messageBox, createErr := repo.Create(CreateInput(req), now);
      assert Observed() == c.world && messageBox == c.record && createErr == c.err;
      if messageBox.None? {
        return None, Fail(Wrapped(SaveFailed, createErr.error));
      }
      assert messageBox.value.id in repo.rows && repo.rows[messageBox.value.id].message == messageBox.value.message;
      record, err := DeliverSavedMessage(messageBox.value, now);
    }

    /** Send a saved record; on success mark its row Sent, on failure annotate the row. */
    method DeliverSavedMessage(m: MessageBox, now: int) returns (record: Option<MessageBox>, err: Outcome<Error>)
      requires Valid()
      requires m.id in repo.rows && repo.rows[m.id].message == m.message
      modifies repo`rows, repo`driverCalls, napcat, this`deliveries
      ensures Valid()
      ensures Saved(Observed(), record, err) == DeliverSaved(old(Observed()), m, now, Env())
      ensures LoggedSince()
    {
      ghost var s := Send(Observed(), m, Env());
      var sendErr := SendMessage(m);
      assert Observed() == s.world && sendErr == s.err;
      if sendErr.Fail? {
        ghost var a := Update(s.world, m.id, FailurePatch(now, Text(sendErr.error)), Env());
        var annotateErr := MessageSentFailureProcess(m.id, now, sendErr.error);
        assert Observed() == a.world;
        return Some(m), Fail(Wrapped(SavedButNotSent, sendErr.error));
      }
      ghost var u := Update(s.world, m.id, SentPatch(now), Env());
      var updateErr := MessageSentSuccessProcess(m.id, now);
      assert Observed() == u.world && updateErr == u.err;
      if updateErr.Fail? {
        return None, Fail(Wrapped(StatusChangeFailed, updateErr.error));
      }
      record, err := Some(m), Pass;
    }

    /** Dispatch on the destination type; only a QQ group is supported. */
    method SendMessage(m: MessageBox) returns (err: Outcome<Error>)
      requires Valid()
      modifies napcat, this`deliveries
      ensures Valid()
      ensures Step(Observed(), err) == Send(old(Observed()), m, Env())
      ensures deliveries == old(deliveries) +
        (if m.destinationType == DestinationQQGroup then [Delivery(m, repo.rows)] else [])
    {
      match m.destinationType
      case 1 =>
        err := SendToQQGroup(m);
      case _ =>
        err := Fail(UnsupportedDestination(m.destinationType));
    }

    /** One gateway call with the record's text to the configured group. */
    method SendToQQGroup(m: MessageBox) returns (err: Outcome<Error>)
      requires Valid()
      modifies napcat, this`deliveries
      ensures Valid()
      ensures Step(Observed(), err) == OutboxSpec.SendToQQGroup(old(Observed()), m, Env())
      ensures deliveries == old(deliveries) + [Delivery(m, repo.rows)]
    {
      deliveries := deliveries + [Delivery(m, repo.rows)];
      var reply := napcat.SendGroupMessage(groupId, m.message);
      if reply.Fail? {
        return Fail(Wrapped(QQGroupSendFailed, Gateway(reply.error)));
      }
      err := Pass;
    }

    /** Pending rows created more than a minute before `now`. */
    method FindFailedMessages(now: int) returns (batch: seq<MessageBox>, err: Outcome<Error>)
      requires Valid()
      modifies repo`driverCalls
      ensures Valid()
      ensures repo.driverCalls == old(repo.driverCalls) + 1
      ensures repo.driver(old(repo.driverCalls)).Fail? ==>
        batch == [] && err == Fail(Db(repo.driver(old(repo.driverCalls)).error))
      ensures repo.driver(old(repo.driverCalls)).Pass? ==>
        err == Pass && IsListing(repo.rows, now - RetryWindowSeconds, batch)
    {
      batch, err := repo.ListFailedBefore(now - RetryWindowSeconds);
    }

    /** Mark a row Sent, stamped `now`. */
    method MessageSentSuccessProcess(id: int, now: int) returns (err: Outcome<Error>)
      requires Valid()
      modifies repo`rows, repo`driverCalls
      ensures Valid()
      ensures Step(Observed(), err) == Update(old(Observed()), id, SentPatch(now), Env())
    {
      err := repo.UpdateByID(id, SentPatch(now));
    }

    /** Record a failed attempt on a row: its time and the error text; the status is not touched. */
    method MessageSentFailureProcess(id: int, now: int, cause: Error) returns (err: Outcome<Error>)
      requires Valid()
      modifies repo`rows, repo`driverCalls
      ensures Valid()
      ensures Step(Observed(), err) == Update(old(Observed()), id, FailurePatch(now, Text(cause)), Env())
    {
      var text := Text(cause);
      err := repo.UpdateByID(id, FailurePatch(now, text));
    }

    /** One turn of the retry loop: send, and on success write Sent; any failure is only logged. */
    method RetryMessage(m: MessageBox, now: int)
      requires Valid()
      requires m.id in repo.rows && repo.rows[m.id].message == m.message
      modifies repo`rows, repo`driverCalls, napcat, this`deliveries
      ensures Valid()
      ensures Observed() == RetryOne(old(Observed()), m, now, Env())
      ensures repo.rows.Keys == old(repo.rows).Keys
      ensures forall id :: id in old(repo.rows) ==> repo.rows[id].message == old(repo.rows)[id].message
      ensures LoggedSince()
    {
      ghost var s := Send(Observed(), m, Env());
      var sendErr := SendMessage(m);
      assert Observed() == s.world && sendErr == s.err;
      if sendErr.Fail? {
        return;
      }
      var updateErr := MessageSentSuccessProcess(m.id, now);
    }

    /** The loop of the sweep: try each listed record once, in list order. */
    method RetryEach(list: seq<MessageBox>, now: int)
      requires Valid()
      requires forall i :: 0 <= i < |list| ==>
        list[i].id in repo.rows && repo.rows[list[i].id].message == list[i].message
      modifies repo`rows, repo`driverCalls, napcat, this`deliveries
      ensures Valid()
      ensures Observed() == RetryAll(old(Observed()), list, now, Env())
      ensures LoggedSince()
    {
      ghost var rows0 := repo.rows;
      ghost var w0 := Observed();
      for i := 0 to |list|
        invariant Valid()
        invariant Observed() == RetryAll(w0, list[..i], now, Env())
        invariant repo.rows.Keys == rows0.Keys
        invariant forall id :: id in rows0 ==> repo.rows[id].message == rows0[id].message
        invariant LoggedSince()
      {
        assert list[..i + 1][..i] == list[..i];
        RetryMessage(list[i], now);
      }
      assert list[..|list|] == list;
    }

    /**
     * The retry sweep: list the stuck rows, then try each once in list order;
     * a failed send or a failed status write is only logged. `batch` is the
     * listing the store gave.
     */
    method MessageRetry(now: int) returns (err: Outcome<Error>, ghost batch: seq<MessageBox>)
      requires Valid()
      modifies repo, napcat, this`deliveries
      ensures Valid()
      ensures repo.driver(old(repo.driverCalls)).Pass? ==>
        IsListing(old(repo.rows), now - RetryWindowSeconds, batch)
      ensures Step(Observed(), err) == OutboxSpec.MessageRetry(old(Observed()), batch, now, Env())
      ensures LoggedSince()
      ensures LoggedInCallOrder()
    {
      ghost var w0 := Observed();
      var list, listErr := FindFailedMessages(now);
      batch := list;
      ghost var w1 := w0.(driverCalls := w0.driverCalls + 1);
      assert Observed() == w1;
      if listErr.Fail? {
        assert OutboxSpec.MessageRetry(w0, list, now, Env())
               == Step(w1, Fail(Wrapped(FindFailedMessagesFailed, listErr.error)));
        CallOrderFromLog();
        return Fail(Wrapped(FindFailedMessagesFailed, listErr.error)), batch;
      }
      assert IsListing(w0.rows, now - RetryWindowSeconds, list);
      assert OutboxSpec.MessageRetry(w0, list, now, Env()) == Step(RetryAll(w1, list, now, Env()), Pass);
      if |list| == 0 {
        assert RetryAll(w1, list, now, Env()) == w1;
        CallOrderFromLog();
        return Pass, batch;
      }
      forall i | 0 <= i < |list|
        ensures list[i].id in repo.rows && repo.rows[list[i].id].message == list[i].message
      {
        assert list[i] in list;
      }
      RetryEach(list, now);
      CallOrderFromLog();
      err := Pass;
    }
  }
}
