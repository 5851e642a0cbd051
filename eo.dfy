/**
 * The EdgeOne webhook handler: render the deployment event as a notification
 * and hand it to the outbox for saving and sending.
 */
module EO {
  import opened Results
  import opened Errors
  import opened Model
  import opened NapCat
  import opened OutboxSpec
  import opened OutboxProperties
  import opened Outbox
  import opened Logic
  import opened Layout

  /** The webhook body. */
  datatype EOEventRequest = EOEventRequest(
    eventType: string,
    appId: string,
    projectId: string,
    deploymentId: string,
    projectName: string,
    repoBranch: string,
    timestamp: string)

  /** The fixed text in front of each field of the notification. */
  const Captions: seq<string> := [
    "🚀 EdgeOne 部署事件\n📋 事件类型: ",
    "\n📁 项目名称: ",
    "\n🌿 代码分支: ",
    "\n🆔 项目ID: ",
    "\n🆔 部署ID: ",
    "\n⏰ 时间: "]

  /** The values shown, in the order shown. */
  function Fields(e: EOEventRequest): seq<string>
  {
    [GetMessageTypeLabel(e.eventType), e.projectName, e.repoBranch, e.projectId, e.deploymentId, e.timestamp]
  }

  /** The notification text. */
  function RenderMessage(e: EOEventRequest): (text: string)
    ensures |Captions[0]| + |Fields(e)[0]| <= |text|
    ensures text[..|Captions[0]|] == Captions[0]
    ensures text[|Captions[0]|..|Captions[0]| + |Fields(e)[0]|] == GetMessageTypeLabel(e.eventType)
  {
    var values := Fields(e);
    ValueAtOffset(Captions, values, 0);
    Interleave(Captions, values)
  }

  /**
   * The notification lays out the event label, project name, branch, project
   * id, deployment id and timestamp, in that order, each right after its own
   * caption, the first caption being the fixed header; nothing follows the
   * timestamp.
   */
  lemma RenderedFieldsInOrder(e: EOEventRequest)
    ensures LaidOut(RenderMessage(e), Captions, Fields(e))
  {
    ValuesInOrder(Captions, Fields(e));
  }

  /** `EOWebhookEventHandle` on a world; `marshal` is JSON serialization of the event. */
  function Handle(w: World, e: EOEventRequest, now: int,
                  marshal: EOEventRequest -> Result<string, string>, env: Env): (s: Step)
    ensures marshal(e).Err? ==> s.world == w && s.err.Fail?
    ensures s.world.gatewayCalls <= w.gatewayCalls + 1
    ensures s.err.Fail? ==>
      (s.err.error.Wrapped? && s.err.error.context in {MarshalFailed, SaveAndSendFailed})
  {
    match marshal(e)
    case Err(d) => Step(w, Fail(Wrapped(MarshalFailed, Json(d))))
    case Ok(json) =>
      var req := SaveMessageRequest(e.deploymentId, RenderMessage(e), json, SourceTypeEO, DestinationQQGroup);
      var s := SaveAndSend(w, req, now, env);
      Step(s.world, if s.err.Fail? then Fail(Wrapped(SaveAndSendFailed, s.err.error)) else Pass)
  }

  /**
   * A serialization failure changes nothing. Otherwise the one new row holds the
   * deployment id, the rendered text, the JSON, the EdgeOne source and the
   * QQ-group destination; at most that text is sent; and the handler reports
   * success exactly when the row ended up Sent (a saved-but-unsent message is
   * reported as an error).
   */
  lemma HandleReportsDelivery(w: World, e: EOEventRequest, now: int,
                              marshal: EOEventRequest -> Result<string, string>, env: Env)
    requires w.nextId !in w.rows
    ensures var r := Handle(w, e, now, marshal, env);
      && (marshal(e).Err? ==> r.world == w && r.err == Fail(Wrapped(MarshalFailed, Json(marshal(e).error))))
      && (marshal(e).Ok? && w.nextId in r.world.rows ==>
            var row := r.world.rows[w.nextId];
            && row.bizId == e.deploymentId && row.message == RenderMessage(e)
            && row.sourceRequest == marshal(e).value
            && row.sourceType == SourceTypeEO && row.destinationType == DestinationQQGroup)
      && (r.world.sends == w.sends || r.world.sends == w.sends + [GroupMessage(env.groupId, RenderMessage(e))])
      && (r.err.Pass? <==> marshal(e).Ok? && w.nextId in r.world.rows && r.world.rows[w.nextId].status == Sent)
  {
    if marshal(e).Ok? {
      var req := SaveMessageRequest(e.deploymentId, RenderMessage(e), marshal(e).value, SourceTypeEO, DestinationQQGroup);
      SaveAndSendFrame(w, req, now, env);
    }
  }

  class EOService {
    const messageBoxService: MessageBoxService

    constructor (messageBoxService: MessageBoxService)
      ensures this.messageBoxService == messageBoxService
    {
      this.messageBoxService := messageBoxService;
    }

    /** Render the event, serialize it, and save-and-send it; any failure comes back as an error. */
    method EOWebhookEventHandle(e: EOEventRequest, now: int, marshal: EOEventRequest -> Result<string, string>)
      returns (err: Outcome<Error>)
      requires messageBoxService.Valid()
      modifies messageBoxService, messageBoxService.repo, messageBoxService.napcat
      ensures messageBoxService.Valid()
      ensures Step(messageBoxService.Observed(), err)
              == Handle(old(messageBoxService.Observed()), e, now, marshal, messageBoxService.Env())
      ensures messageBoxService.LoggedSince()
      ensures messageBoxService.LoggedInCallOrder()
    {
      var message := RenderMessage(e);
      var json := marshal(e);
      if json.Err? {
        return Fail(Wrapped(MarshalFailed, Json(json.error)));
      }
      var req := SaveMessageRequest(e.deploymentId, message, json.value, SourceTypeEO, DestinationQQGroup);
      var record, saveErr := messageBoxService.SaveAndSendMessage(req, now);
      if saveErr.Fail? {
        return Fail(Wrapped(SaveAndSendFailed, saveErr.error));
      }
      err := Pass;
    }
  }
}
