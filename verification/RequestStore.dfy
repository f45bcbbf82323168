/** What the request services do to the table and the cache, one whole service call at a time
    ("serially"), as functions of the state. */
module RequestStore {
  import opened Wrappers
  import opened Calendar
  import opened Uuids
  import opened Requests
  import opened RequestEntities
  import opened Caching
  import Pagination

  datatype Store = Store(rows: Table, cache: Cache, now: Micros)

  /** UniqueViolation stands for the database error of the unique external_message_id column. */
  datatype ServiceError = NotFound | BadTransition | UniqueViolation

  // ---------------------------------------------------------------- the repository

  /** `findById`: a live row of the tenant. */
  function FindById(rows: Table, tenantId: Uuid, id: string): (r: Option<RequestRow>)
    ensures r.Some? ==> Parse(id).Some? && Parse(id).value in rows && rows[Parse(id).value] == r.value
  {
    match Parse(id)
    case Some(u) => if u in rows && rows[u].tenantId == tenantId && rows[u].Live() then Some(rows[u]) else None
    case None => None
  }

  /** Whether another row, deleted or not, of any tenant, has the row's external message id. */
  predicate Clashes(rows: Table, row: RequestRow) {
    && row.externalMessageId.Some?
    && exists id <- rows :: id != row.id && rows[id].externalMessageId == row.externalMessageId
  }

  /** The row as it is stored: creation times are written once, update times at every write. */
  function Stamped(rows: Table, row: RequestRow, now: Micros): (r: RequestRow)
    ensures r.id == row.id
  {
    row.(createdAt := if row.id in rows then rows[row.id].createdAt else row.createdAt, updatedAt := now)
  }

  /** `save`: overwrites the row by id, subject to the unique constraint. */
  function Save(rows: Table, row: RequestRow, now: Micros): Result<Table, ServiceError> {
    if Clashes(rows, row) then Err(UniqueViolation) else Ok(rows[row.id := Stamped(rows, row, now)])
  }

  function SoftDeleted(row: RequestRow, now: Micros): RequestRow {
    row.(deletedAt := Some(now), updatedAt := now)
  }

  /** `softRemove` */
  function SoftRemove(rows: Table, id: Uuid, now: Micros): Table {
    if id in rows then rows[id := SoftDeleted(rows[id], now)] else rows
  }

  /** The caller's part of a new request. */
  datatype NewRequest = NewRequest(title: string, body: string, channel: Channel, externalMessageId: Option<string>)

  /** A new row with the column defaults; the database picks the id. */
  function NewRow(id: Uuid, tenantId: Uuid, data: NewRequest, now: Micros): RequestRow {
    RequestRow(id, tenantId, data.title, data.body, data.channel, Open, None, None, None,
               data.externalMessageId, now, now, None)
  }

  /** `save` of a new entity: an insert. */
  function Insert(rows: Table, row: RequestRow): Result<Table, ServiceError> {
    if row.id in rows || Clashes(rows, row) then Err(UniqueViolation) else Ok(rows[row.id := row])
  }

  // ---------------------------------------------------------------- RequestsService

  /** A row from the cache is plain data; one from the database is an entity with its methods. */
  datatype Loaded = Hit(row: RequestRow) | Miss(row: RequestRow)

  function FindOne(s: Store, tenantId: Uuid, id: string): (Store, Result<Loaded, ServiceError>) {
    var key := KeyFor(tenantId, id);
    match Lookup(s.cache, key, s.now)
    case Some(row) => (s, Ok(Hit(row)))
    case None => (
      match FindById(s.rows, tenantId, id)
      case Some(row) => (s.(cache := s.cache[key := Entry(ThroughJson(row), s.now, s.now)]), Ok(Miss(row)))
      case None => (s, Err(NotFound)))
  }

  datatype UpdateDto = UpdateDto(title: Option<string>, body: Option<string>)

  function Edited(row: RequestRow, dto: UpdateDto): RequestRow {
    row.(title := if dto.title.Some? then dto.title.value else row.title,
         body := if dto.body.Some? then dto.body.value else row.body)
  }

  /** The common end of `update` and `changeStatus`: save, then drop the cache entry. */
  function SaveAndDrop(s: Store, key: string, row: RequestRow): (Store, Result<RequestRow, ServiceError>) {
    match Save(s.rows, row, s.now)
    case Ok(rows) => (s.(rows := rows, cache := s.cache - {key}), Ok(rows[row.id]))
    case Err(e) => (s, Err(e))
  }

  function Update(s: Store, tenantId: Uuid, id: string, dto: UpdateDto): (Store, Result<RequestRow, ServiceError>) {
    match FindOne(s, tenantId, id)
    case (s', Ok(loaded)) => SaveAndDrop(s', KeyFor(tenantId, id), Edited(loaded.row, dto))
    case (s', Err(e)) => (s', Err(e))
  }

  /** A cache hit has no status methods: the call throws, and the throw is reported like an illegal
      transition. */
  function ChangeStatus(s: Store, tenantId: Uuid, id: string,
      target: Status): (Store, Result<RequestRow, ServiceError>)
  {
    match FindOne(s, tenantId, id)
    case (s', Ok(Miss(row))) =>
      if LegalEdge(row.status, target) then SaveAndDrop(s', KeyFor(tenantId, id), row.(status := target))
      else (s', Err(BadTransition))
    case (s', Ok(Hit(_))) => (s', Err(BadTransition))
    case (s', Err(e)) => (s', Err(e))
  }

  function Remove(s: Store, tenantId: Uuid, id: string): (Store, Result<(), ServiceError>) {
    match FindOne(s, tenantId, id)
    case (s', Ok(loaded)) =>
      (s'.(rows := SoftRemove(s'.rows, loaded.row.id, s'.now), cache := s'.cache - {KeyFor(tenantId, id)}), Ok(()))
    case (s', Err(e)) => (s', Err(e))
  }

  function Create(s: Store, tenantId: Uuid, newId: Uuid, data: NewRequest): (Store, Result<RequestRow, ServiceError>) {
    var row := NewRow(newId, tenantId, data, s.now);
    match Insert(s.rows, row)
    case Ok(rows) => (s.(rows := rows), Ok(row))
    case Err(e) => (s, Err(e))
  }

  // ---------------------------------------------------------------- webhook intake

  predicate HasExternalId(rows: Table, tenantId: Uuid, externalId: string, id: Uuid) {
    id in rows && rows[id].tenantId == tenantId && rows[id].externalMessageId == Some(externalId)
  }

  /** `findByExternalMessageId`: a row of the tenant, deleted ones included. */
  ghost function FindByExternalId(rows: Table, tenantId: Uuid, externalId: string): (r: Option<Uuid>)
    ensures match r
            case Some(id) => HasExternalId(rows, tenantId, externalId, id)
            case None => forall id :: !HasExternalId(rows, tenantId, externalId, id)
  {
    if exists id :: HasExternalId(rows, tenantId, externalId, id) then
      var id :| HasExternalId(rows, tenantId, externalId, id);
      Some(id)
    else None
  }

  datatype Message = Message(externalMessageId: string, channel: Channel, sender: string, text: string)

  function FromMessage(m: Message): NewRequest {
    NewRequest("Inbound from " + m.sender, m.text, m.channel, Some(m.externalMessageId))
  }

  datatype InboundReply = InboundReply(requestId: Uuid, created: bool)

  /** `handleInbound` without the queue: find, or else insert. */
  ghost function HandleInbound(s: Store, tenantId: Uuid, newId: Uuid,
      m: Message): (Store, Result<InboundReply, ServiceError>)
  {
    match FindByExternalId(s.rows, tenantId, m.externalMessageId)
    case Some(id) => (s, Ok(InboundReply(id, false)))
    case None => (
      match Create(s, tenantId, newId, FromMessage(m))
      case (s', Ok(row)) => (s', Ok(InboundReply(row.id, true)))
      case (s', Err(e)) => (s', Err(e)))
  }

  // ---------------------------------------------------------------- the classification worker

  datatype Triple = Triple(category: string, urgency: Urgency, sentiment: Sentiment)

  const UNCLASSIFIED: string := "UNCLASSIFIED"

  /** `classify`: the classifier's answer, or the fallback when it throws. */
  function Classify(answer: Option<Triple>): Triple {
    match answer
    case Some(t) => t
    case None => Triple(UNCLASSIFIED, Medium, Neutral)
  }

  function Classified(row: RequestRow, t: Triple): RequestRow {
    row.(category := Some(t.category), urgency := Some(t.urgency), sentiment := Some(t.sentiment))
  }

  datatype WorkResult = Recorded | Skipped | Thrown

  /** The row the worker reads: live, by id and tenant. */
  function FindForWork(rows: Table, tenantId: Uuid, requestId: Uuid): (r: Option<RequestRow>)
    ensures r.Some? ==> requestId in rows && rows[requestId] == r.value
  {
    if requestId in rows && rows[requestId].tenantId == tenantId && rows[requestId].Live() then Some(rows[requestId])
    else None
  }

  /** One attempt of `process`, as far as the table goes.  The cache is not touched. */
  function Work(s: Store, tenantId: Uuid, requestId: Uuid, answer: Option<Triple>): (Store, WorkResult) {
    var t := Classify(answer);
    if t.category == UNCLASSIFIED then (s, Thrown)
    else
      match FindForWork(s.rows, tenantId, requestId)
      case None => (s, Skipped)
      case Some(row) => (
        match Save(s.rows, Classified(row, t), s.now)
        case Ok(rows) => (s.(rows := rows), Recorded)
        case Err(_) => (s, Thrown))
  }

  // ---------------------------------------------------------------- serial runs

  datatype Op =
    | OpCreate(tenantId: Uuid, newId: Uuid, data: NewRequest)
    | OpFindOne(tenantId: Uuid, id: string)
    | OpFindAll(tenantId: Uuid, query: Pagination.Query)
    | OpUpdate(tenantId: Uuid, id: string, dto: UpdateDto)
    | OpChangeStatus(tenantId: Uuid, id: string, target: Status)
    | OpRemove(tenantId: Uuid, id: string)
    | OpInbound(tenantId: Uuid, newId: Uuid, message: Message)
    | OpWork(tenantId: Uuid, requestId: Uuid, answer: Option<Triple>)
    | OpTick(now: Micros)

  /** What the caller of a service call gets to see. */
  datatype Reply =
    | RowReply(row: Result<RequestRow, ServiceError>)
    | PageReply(page: Result<Pagination.Page, Pagination.ListError>)
    | DoneReply(done: Result<(), ServiceError>)
    | InboundReplied(reply: Result<InboundReply, ServiceError>)
    | WorkReply(result: WorkResult)
    | NoReply

  function RowOf(r: Result<Loaded, ServiceError>): Result<RequestRow, ServiceError> {
    match r
    case Ok(loaded) => Ok(loaded.row)
    case Err(e) => Err(e)
  }

  ghost function Step(s: Store, op: Op): (Store, Reply) {
    match op
    case OpCreate(t, id, data) => var (s', r) := Create(s, t, id, data); (s', RowReply(r))
    case OpFindOne(t, id) => var (s', r) := FindOne(s, t, id); (s', RowReply(RowOf(r)))
    case OpFindAll(t, q) => (s, PageReply(Pagination.FindPage(s.rows, t, q)))
    case OpUpdate(t, id, dto) => var (s', r) := Update(s, t, id, dto); (s', RowReply(r))
    case OpChangeStatus(t, id, target) => var (s', r) := ChangeStatus(s, t, id, target); (s', RowReply(r))
    case OpRemove(t, id) => var (s', r) := Remove(s, t, id); (s', DoneReply(r))
    case OpInbound(t, id, m) => var (s', r) := HandleInbound(s, t, id, m); (s', InboundReplied(r))
    case OpWork(t, id, a) => var (s', r) := Work(s, t, id, a); (s', WorkReply(r))
    case OpTick(now) => (s.(now := if s.now <= now then now else s.now), NoReply)
  }

  ghost function Run(s: Store, ops: seq<Op>): Store
    decreases |ops|
  {
    if ops == [] then s else Run(Step(s, ops[0]).0, ops[1..])
  }

  /** Nothing stored, nothing cached. */
  function Empty(now: Micros): Store {
    Store(map[], map[], now)
  }
}
