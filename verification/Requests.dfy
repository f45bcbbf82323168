/** The `requests` table: its rows, and the rows as a keyed collection.  Soft-deleted rows stay in
    the table with `deletedAt` set. */
module Requests {
  import opened Wrappers
  import opened Calendar
  import opened Uuids

  datatype Status = Open | InProgress | Resolved | Closed

  datatype Channel = Email | Phone | Web | Chat

  datatype Urgency = Low | Medium | High | Critical

  datatype Sentiment = Positive | Neutral | Negative

  datatype RequestRow = RequestRow(
    id: Uuid,
    tenantId: Uuid,
    title: string,
    body: string,
    channel: Channel,
    status: Status,
    category: Option<string>,
    urgency: Option<Urgency>,
    sentiment: Option<Sentiment>,
    externalMessageId: Option<string>,
    createdAt: Micros,
    updatedAt: Micros,
    deletedAt: Option<Micros>)
  {
    predicate Live() {
      deletedAt.None?
    }
  }

  /** The primary key. */
  type Table = t: map<Uuid, RequestRow> | forall id <- t :: t[id].id == id witness map[]
}
