/**
 * The delivery state machine of the outbox, as functions on a `World` value:
 * save, send, status update, the retry of one stuck message and the sweep over
 * a listing. The service class in module Outbox is proved to act as these
 * functions say; the lemmas here state what they guarantee.
 */
module OutboxSpec {
  import opened Results
  import opened Errors
  import opened Model
  import opened Repo
  import opened NapCat

  /** A Pending row older than this many seconds is taken to have failed and is retried. */
  const RetryWindowSeconds: int := 60

  /** What a caller asks the outbox to deliver. */
  datatype SaveMessageRequest = SaveMessageRequest(
    bizId: string,
    message: string,
    sourceRequest: string,
    sourceType: int,
    destinationType: int)

  function CreateInput(req: SaveMessageRequest): CreateMessageIn
  {
    CreateMessageIn(req.bizId, req.message, req.sourceRequest, req.sourceType, req.destinationType)
  }

  /** What the outbox depends on and does not own: the configured group, the database and the gateway. */
  datatype Env = Env(groupId: string, driver: nat -> Outcome<string>, replies: nat -> Outcome<string>)

  /** The state the outbox acts on: the table and the history of the database and gateway calls. */
  datatype World = World(
    rows: map<int, Row>,
    nextId: int,
    driverCalls: nat,
    gatewayCalls: nat,
    sends: seq<GroupMessage>)

  datatype Step = Step(world: World, err: Outcome<Error>)
  datatype Saved = Saved(world: World, record: Option<MessageBox>, err: Outcome<Error>)

  /** The update written after a confirmed send. */
  function SentPatch(now: int): Patch
  {
    Patch(Some(Sent), Some(now), None)
  }

  /** The update written after a failed send. */
  function FailurePatch(now: int, text: string): Patch
  {
    Patch(None, Some(now), Some(text))
  }

  /** Every Sent row carries the time of the send that made it Sent. */
  ghost predicate SentStamped(t: map<int, Row>)
  {
    forall id :: id in t && t[id].status == Sent ==> t[id].lastSentAt.Some?
  }

  /** `MessageBoxRepo.Create`: insert, then read the new id back. */
  function Create(w: World, req: CreateMessageIn, now: int, env: Env): (s: Saved)
    ensures s.record.None? <==> s.err.Fail?
    ensures s.world.gatewayCalls == w.gatewayCalls && s.world.sends == w.sends
    ensures s.world.nextId in {w.nextId, w.nextId + 1}
    ensures s.world.nextId == w.nextId ==> s.world.rows == w.rows
    ensures s.world.nextId == w.nextId + 1 ==> s.world.rows == w.rows[w.nextId := NewRow(w.nextId, req, now)]
    ensures s.record.Some? ==> s.world.nextId == w.nextId + 1 && s.record.value == Record(NewRow(w.nextId, req, now))
  {
    var r := Insert(w.rows, w.nextId, w.driverCalls, env.driver, req, now);
    Saved(w.(rows := r.rows, nextId := r.nextId, driverCalls := r.driverCalls), r.record, r.err)
  }

  /** `MessageBoxRepo.UpdateByID` as the service calls it. */
  function Update(w: World, id: int, p: Patch, env: Env): (s: Step)
    ensures s.world == w.(rows := s.world.rows, driverCalls := w.driverCalls + 1)
    ensures s.err.Pass? ==> s.world.rows == UpdateTable(w.rows, id, p)
    ensures s.err.Fail? ==> s.world.rows == w.rows
  {
    var r := env.driver(w.driverCalls);
    if r.Fail? then Step(w.(driverCalls := w.driverCalls + 1), Fail(Db(r.error)))
    else Step(w.(rows := UpdateTable(w.rows, id, p), driverCalls := w.driverCalls + 1), Pass)
  }

  /** `sendToQQGroup`: one gateway call to the configured group. */
  function SendToQQGroup(w: World, m: MessageBox, env: Env): (s: Step)
    ensures s.world.rows == w.rows && s.world.nextId == w.nextId && s.world.driverCalls == w.driverCalls
    ensures s.world.gatewayCalls == w.gatewayCalls + 1
    ensures s.world.sends == w.sends + [GroupMessage(env.groupId, m.message)]
    ensures s.err.Pass? <==> env.replies(w.gatewayCalls).Pass?
    ensures s.err.Fail? ==> s.err.error.Wrapped? && s.err.error.context == QQGroupSendFailed
  {
    var r := env.replies(w.gatewayCalls);
    var w' := w.(gatewayCalls := w.gatewayCalls + 1,
                 sends := w.sends + [GroupMessage(env.groupId, m.message)]);
    if r.Fail? then Step(w', Fail(Wrapped(QQGroupSendFailed, Gateway(r.error))))
    else Step(w', Pass)
  }

  /** `SendMessage`: dispatch on the destination type; an unknown one is refused without I/O. */
  function Send(w: World, m: MessageBox, env: Env): (s: Step)
    ensures s.world.rows == w.rows && s.world.nextId == w.nextId && s.world.driverCalls == w.driverCalls
    ensures m.destinationType != DestinationQQGroup ==>
      s.world == w && s.err == Fail(UnsupportedDestination(m.destinationType))
    ensures m.destinationType == DestinationQQGroup ==>
      && s.world.gatewayCalls == w.gatewayCalls + 1
      && s.world.sends == w.sends + [GroupMessage(env.groupId, m.message)]
      && (s.err.Pass? <==> env.replies(w.gatewayCalls).Pass?)
  {
    match m.destinationType
    case 1 => SendToQQGroup(w, m, env)
    case _ => Step(w, Fail(UnsupportedDestination(m.destinationType)))
  }

  /**
   * The second half of `SaveAndSendMessage`, for a record already saved: send
   * it; on success mark the row Sent, on failure annotate the row and still
   * return the record with the error.
   */
  function DeliverSaved(w: World, m: MessageBox, now: int, env: Env): (s: Saved)
    ensures s.record.Some? ==> s.record == Some(m)
    ensures s.err.Pass? ==> s.record.Some?
    ensures s.world.nextId == w.nextId && s.world.rows.Keys == w.rows.Keys
    ensures s.world.gatewayCalls <= w.gatewayCalls + 1
    ensures s.err.Fail? ==>
      (s.err.error.Wrapped? && s.err.error.context in {SavedButNotSent, StatusChangeFailed})
  {
    var s := Send(w, m, env);
    if s.err.Fail? then
      var a := Update(s.world, m.id, FailurePatch(now, Text(s.err.error)), env);
      Saved(a.world, Some(m), Fail(Wrapped(SavedButNotSent, s.err.error)))
    else
      var u := Update(s.world, m.id, SentPatch(now), env);
      if u.err.Fail? then Saved(u.world, None, Fail(Wrapped(StatusChangeFailed, u.err.error)))
      else Saved(u.world, Some(m), Pass)
  }

  /** `SaveAndSendMessage`: persist, then deliver what was persisted. */
  function SaveAndSend(w: World, req: SaveMessageRequest, now: int, env: Env): (s: Saved)
    ensures s.record.Some? ==> s.record.value == Record(NewRow(w.nextId, CreateInput(req), now))
    ensures s.err.Pass? ==> s.record.Some?
    ensures s.world.nextId <= w.nextId + 1
    ensures s.world.gatewayCalls <= w.gatewayCalls + 1
    ensures s.err.Fail? ==>
      (s.err.error.Wrapped? && s.err.error.context in {SaveFailed, SavedButNotSent, StatusChangeFailed})
  {
    var c := Create(w, CreateInput(req), now, env);
    if c.record.None? then Saved(c.world, None, Fail(Wrapped(SaveFailed, c.err.error)))
    else DeliverSaved(c.world, c.record.value, now, env)
  }

  /** The messages the sweep hands to the gateway for `batch`, in order: one per QQ-group record. */
  function Attempts(batch: seq<MessageBox>, groupId: string): (r: seq<GroupMessage>)
    ensures |r| <= |batch|
  {
    if batch == [] then []
    else
      var m := batch[|batch| - 1];
      Attempts(batch[..|batch| - 1], groupId) +
        (if m.destinationType == DestinationQQGroup then [GroupMessage(groupId, m.message)] else [])
  }

  /** One iteration of the retry loop: send, and on success write Sent; failures are only logged. */
  function RetryOne(w: World, m: MessageBox, now: int, env: Env): (w': World)
    ensures w'.rows.Keys == w.rows.Keys && w'.nextId == w.nextId
    ensures forall id :: id in w.rows && id != m.id ==> w'.rows[id] == w.rows[id]
    ensures m.id in w.rows ==>
      w'.rows[m.id] == w.rows[m.id] || w'.rows[m.id] == ApplyPatch(w.rows[m.id], SentPatch(now))
    ensures Send(w, m, env).err.Fail? ==> w'.rows == w.rows
  {
    var s := Send(w, m, env);
    if s.err.Fail? then s.world
    else Update(s.world, m.id, SentPatch(now), env).world
  }

  /** The retry loop over a whole listing, in list order. */
  function RetryAll(w: World, batch: seq<MessageBox>, now: int, env: Env): (r: World)
    ensures r.rows.Keys == w.rows.Keys && r.nextId == w.nextId
    decreases |batch|
  {
    if batch == [] then w
    else RetryOne(RetryAll(w, batch[..|batch| - 1], now, env), batch[|batch| - 1], now, env)
  }

  /**
   * `MessageRetry` once the store has answered with `batch`: the sweep fails
   * only when the listing does; otherwise every listed record is tried.
   */
  function MessageRetry(w: World, batch: seq<MessageBox>, now: int, env: Env): (s: Step)
    ensures s.err.Fail? <==> env.driver(w.driverCalls).Fail?
    ensures s.err.Fail? ==> s.world == w.(driverCalls := w.driverCalls + 1)
    ensures s.world.rows.Keys == w.rows.Keys && s.world.nextId == w.nextId
  {
    var listed := env.driver(w.driverCalls);
    var w' := w.(driverCalls := w.driverCalls + 1);
    if listed.Fail? then Step(w', Fail(Wrapped(FindFailedMessagesFailed, Db(listed.error))))
    else Step(RetryAll(w', batch, now, env), Pass)
  }
}
