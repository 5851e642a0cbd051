/**
 * The outbox row and the record the store hands back, with the enumerations
 * the columns use (message status, destination type, source type).
 */
module Model {
  import opened Results

  /** Delivery status of a row: Pending (1) until a confirmed send, then Sent (2). */
  datatype Status = Pending | Sent

  /** The only destination type: a QQ group. */
  const DestinationQQGroup: int := 1

  /** The only source type: EdgeOne deployment webhooks. */
  const SourceTypeEO: int := 1

  /**
   * One row of the `message_box` table. `createdAt` and `lastSentAt` are Unix
   * seconds; `lastSentAt` and `lastError` are NULL until written.
   */
  datatype Row = Row(
    id: int,
    bizId: string,
    status: Status,
    message: string,
    sourceRequest: string,
    sourceType: int,
    destinationType: int,
    createdAt: int,
    lastSentAt: Option<int>,
    lastError: Option<string>)

  /** The record the store returns: a row without its `last_error` column. */
  datatype MessageBox = MessageBox(
    id: int,
    bizId: string,
    status: Status,
    message: string,
    sourceRequest: string,
    sourceType: int,
    destinationType: int,
    createdAt: int,
    lastSentAt: Option<int>)

  function Record(r: Row): MessageBox
  {
    MessageBox(r.id, r.bizId, r.status, r.message, r.sourceRequest,
               r.sourceType, r.destinationType, r.createdAt, r.lastSentAt)
  }
}
