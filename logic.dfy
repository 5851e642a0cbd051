/** The display label of an EdgeOne event code. */
module Logic {

  /** The twelve event codes the platform sends, with the label each is shown as. */
  const EventLabels: map<string, string> := map[
    "deployment.created" := "开始部署",
    "deployment.succeeded" := "部署成功",
    "deployment.failed" := "部署失败",
    "deployment.cancelled" := "部署取消",
    "deployment.rollback" := "部署回滚",
    "deployment.in_progress" := "部署进行中",
    "build.started" := "构建开始",
    "build.succeeded" := "构建成功",
    "build.failed" := "构建失败",
    "project.created" := "项目创建",
    "project.updated" := "项目更新",
    "project.deleted" := "项目删除"]

  /** A known code gives its label from the table; any other code is echoed back. */
  function GetMessageTypeLabel(eventType: string): (shown: string)
    ensures eventType in EventLabels ==> shown == EventLabels[eventType]
    ensures eventType !in EventLabels ==> shown == eventType
  {
    match eventType
    case "deployment.created" => "开始部署"
    case "deployment.succeeded" => "部署成功"
    case "deployment.failed" => "部署失败"
    case "deployment.cancelled" => "部署取消"
    case "deployment.rollback" => "部署回滚"
    case "deployment.in_progress" => "部署进行中"
    case "build.started" => "构建开始"
    case "build.succeeded" => "构建成功"
    case "build.failed" => "构建失败"
    case "project.created" => "项目创建"
    case "project.updated" => "项目更新"
    case "project.deleted" => "项目删除"
    case _ => eventType
  }

  /** No two known codes share a label, so a label names its event. */
  lemma LabelsDistinct(a: string, b: string)
    requires a in EventLabels && b in EventLabels && a != b
    ensures GetMessageTypeLabel(a) != GetMessageTypeLabel(b)
  {
  }

  /** No label is itself a code, so labelling a label changes nothing. */
  lemma LabelIdempotent(eventType: string)
    ensures GetMessageTypeLabel(GetMessageTypeLabel(eventType)) == GetMessageTypeLabel(eventType)
  {
  }

  /** The label is empty exactly when the code is. */
  lemma LabelEmptyIff(eventType: string)
    ensures GetMessageTypeLabel(eventType) == "" <==> eventType == ""
  {
  }
}
