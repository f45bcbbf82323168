/** The `Request` entity with its status methods, and the status graph they implement. */
module RequestEntities {
  import opened Wrappers
  import opened Calendar
  import opened Uuids
  import opened Requests

  /** The edges of the status graph. */
  predicate LegalEdge(from: Status, to: Status) {
    match to
    case InProgress => from == Open
    case Resolved => from == Open || from == InProgress
    case Closed => from != Closed
    case Open => from == Resolved || from == Closed
  }

  /** The graph has these eight edges and no other: any open end can be resolved or closed directly, and
      what is resolved or closed can be reopened. */
  lemma TheEdges(from: Status, to: Status)
    ensures LegalEdge(from, to)
       <==> (from, to) in {(Open, InProgress), (Open, Resolved), (Open, Closed), (InProgress, Resolved),
                           (InProgress, Closed), (Resolved, Closed), (Resolved, Open), (Closed, Open)}
  {
    match to
    case InProgress =>
    case Resolved =>
    case Closed =>
    case Open =>
  }

  /** How far a request has come; only reopening goes back. */
  function Progress(s: Status): nat {
    match s case Open => 0 case InProgress => 1 case Resolved => 2 case Closed => 3
  }

  lemma EdgesProgress(from: Status, to: Status)
    requires LegalEdge(from, to)
    ensures to == Open || Progress(from) < Progress(to)
    ensures to == Open ==> Progress(from) >= 2
  {
  }

  /** A loaded row, with the prototype's methods: what a database read returns and a cache hit does not. */
  class Request {
    const id: Uuid
    const tenantId: Uuid
    var title: string
    var body: string
    const channel: Channel
    var status: Status
    var category: Option<string>
    var urgency: Option<Urgency>
    var sentiment: Option<Sentiment>
    const externalMessageId: Option<string>
    const createdAt: Micros
    const updatedAt: Micros
    const deletedAt: Option<Micros>

    constructor (row: RequestRow)
      ensures Row() == row
    {
      id, tenantId, title, body, channel := row.id, row.tenantId, row.title, row.body, row.channel;
      status, category, urgency, sentiment := row.status, row.category, row.urgency, row.sentiment;
      externalMessageId := row.externalMessageId;
      createdAt, updatedAt, deletedAt := row.createdAt, row.updatedAt, row.deletedAt;
    }

    function Row(): RequestRow
      reads this
    {
      RequestRow(id, tenantId, title, body, channel, status, category, urgency, sentiment,
                 externalMessageId, createdAt, updatedAt, deletedAt)
    }

    /** Each status method moves along its edge of the graph, or fails and changes nothing. */
    method MarkInProgress() returns (ok: bool)
      modifies this`status
      ensures ok <==> LegalEdge(old(status), InProgress)
      ensures Row() == old(Row()).(status := if ok then InProgress else old(status))
    {
      if status != Open {
        return false;
      }
      status := InProgress;
      return true;
    }

    method MarkResolved() returns (ok: bool)
      modifies this`status
      ensures ok <==> LegalEdge(old(status), Resolved)
      ensures Row() == old(Row()).(status := if ok then Resolved else old(status))
    {
      if status != Open && status != InProgress {
        return false;
      }
      status := Resolved;
      return true;
    }

    method Close() returns (ok: bool)
      modifies this`status
      ensures ok <==> LegalEdge(old(status), Closed)
      ensures Row() == old(Row()).(status := if ok then Closed else old(status))
    {
      if status == Closed {
        return false;
      }
      status := Closed;
      return true;
    }

    method Reopen() returns (ok: bool)
      modifies this`status
      ensures ok <==> LegalEdge(old(status), Open)
      ensures Row() == old(Row()).(status := if ok then Open else old(status))
    {
      if status != Resolved && status != Closed {
        return false;
      }
      status := Open;
      return true;
    }
  }

  // ---------------------------------------------------------------- status histories

  /** Each status is the one before, or follows it by a legal edge; the first is OPEN. */
  ghost predicate LegalHistory(h: seq<Status>) {
    && (h != [] ==> h[0] == Open)
    && forall i :: 0 < i < |h| ==> h[i] == h[i - 1] || LegalEdge(h[i - 1], h[i])
  }

  /** The number of status changes in a history, and the number of those that reopen. */
  function Changes(h: seq<Status>): nat {
    if |h| < 2 then 0 else Changes(h[..|h| - 1]) + if h[|h| - 1] != h[|h| - 2] then 1 else 0
  }

  function Reopenings(h: seq<Status>): nat {
    if |h| < 2 then 0
    else Reopenings(h[..|h| - 1]) + if h[|h| - 1] != h[|h| - 2] && h[|h| - 1] == Open then 1 else 0
  }

  /** A request that is reopened r times changes its status at most 4r + 3 times. */
  lemma {:induction false} ChangesBounded(h: seq<Status>)
    requires LegalHistory(h) && h != []
    ensures Changes(h) <= 4 * Reopenings(h) + Progress(h[|h| - 1])
    ensures Changes(h) <= 4 * Reopenings(h) + 3
  {
    if |h| >= 2 {
      ChangesBounded(h[..|h| - 1]);
      if h[|h| - 1] != h[|h| - 2] {
        EdgesProgress(h[|h| - 2], h[|h| - 1]);
      }
    }
  }
}
