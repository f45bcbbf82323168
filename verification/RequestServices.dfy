/** `RequestsService`, `WebhooksService` and `ClassificationProcessor` as objects over the shared
    repository, cache, queue and event list.  Each method is proved to do to the state what the
    function of the same name in `RequestStore` says, on which the results about runs rest. */
module RequestServices {
  import opened Wrappers
  import opened Calendar
  import opened Uuids
  import opened Requests
  import opened RequestEntities
  import opened Caching
  import opened RequestRepositories
  import Interleaving
  import Pagination
  import RequestStore

  /** What `findOne` gives its caller: plain data after a cache hit, an entity with its methods after
      a database read. */
  datatype Found = Plain(row: RequestRow) | Entity(request: Request)

  class RequestsService {
    const repo: RequestRepository
    const cache: CacheService

    constructor (repo: RequestRepository, cache: CacheService)
      ensures this.repo == repo && this.cache == cache
    {
      this.repo := repo;
      this.cache := cache;
    }

    ghost predicate Valid()
      reads this, repo
    {
      repo.Valid()
    }

    ghost function State(now: Micros): RequestStore.Store
      reads this, repo, cache
    {
      RequestStore.Store(repo.rows, cache.entries, now)
    }

    method Create(tenantId: Uuid, newId: Uuid, data: RequestStore.NewRequest, now: Micros)
      returns (r: Result<RequestRow, RequestStore.ServiceError>)
      requires Valid()
      modifies repo
      ensures Valid() && (State(now), r) == RequestStore.Create(old(State(now)), tenantId, newId, data)
    {
      r := repo.Insert(RequestStore.NewRow(newId, tenantId, data, now));
    }

    method FindAll(tenantId: Uuid, query: Pagination.Query)
      returns (r: Result<Pagination.Page, Pagination.ListError>)
      ensures r == Pagination.FindPage(repo.rows, tenantId, query)
    {
      r := repo.FindPaginated(tenantId, query);
    }

    /** Cache-aside: an entity exactly when the cache missed. */
    method FindOne(tenantId: Uuid, id: string, now: Micros) returns (r: Result<Found, RequestStore.ServiceError>)
      requires Valid()
      modifies cache
      ensures Valid() && State(now) == RequestStore.FindOne(old(State(now)), tenantId, id).0
      ensures match RequestStore.FindOne(old(State(now)), tenantId, id).1
              case Ok(Hit(row)) => r == Ok(Plain(row))
              case Ok(Miss(row)) => r.Ok? && r.value.Entity? && fresh(r.value.request) && r.value.request.Row() == row
              case Err(e) => r == Err(e)
    {
      hide KeyFor, RequestStore.FindById, ThroughJson;
      var cacheKey := KeyFor(tenantId, id);
      var cached := cache.Get(cacheKey, now);
      if cached.Some? {
        return Ok(Plain(cached.value));
      }
      var request := repo.FindById(tenantId, id);
      if request == null {
        return Err(RequestStore.NotFound);
      }
      cache.Set(cacheKey, request.Row(), now, now);
      return Ok(Entity(request));
    }

    method Update(tenantId: Uuid, id: string, dto: RequestStore.UpdateDto, now: Micros)
      returns (r: Result<RequestRow, RequestStore.ServiceError>)
      requires Valid()
      modifies repo, cache
      ensures Valid() && (State(now), r) == RequestStore.Update(old(State(now)), tenantId, id, dto)
    {
      hide KeyFor, RequestStore.FindById, ThroughJson, RequestStore.Clashes, RequestStore.Stamped, RequestStore.FindOne;
      var found := FindOne(tenantId, id, now);
      if found.Err? {
        return Err(found.error);
      }
      var edited;
      match found.value {
        case Plain(row) =>
          edited := row;
          if dto.title.Some? { edited := edited.(title := dto.title.value); }
          if dto.body.Some? { edited := edited.(body := dto.body.value); }
        case Entity(request) =>
          if dto.title.Some? { request.title := dto.title.value; }
          if dto.body.Some? { request.body := dto.body.value; }
          edited := request.Row();
      }
      r := repo.Save(edited, now);
      if r.Ok? {
        cache.Del(KeyFor(tenantId, id));
      }
    }

    /** On plain data the status method does not exist: the call throws, which is reported like an
        illegal transition. */
    method ChangeStatus(tenantId: Uuid, id: string, target: Status, now: Micros)
      returns (r: Result<RequestRow, RequestStore.ServiceError>)
      requires Valid()
      modifies repo, cache
      ensures Valid() && (State(now), r) == RequestStore.ChangeStatus(old(State(now)), tenantId, id, target)
    {
      hide KeyFor, RequestStore.FindById, ThroughJson, RequestStore.Clashes, RequestStore.Stamped, RequestStore.FindOne;
      var found := FindOne(tenantId, id, now);
      if found.Err? {
        return Err(found.error);
      }
      match found.value {
        case Plain(_) =>
          return Err(RequestStore.BadTransition);
        case Entity(request) =>
          var moved := Transition(request, target);
          if !moved {
            return Err(RequestStore.BadTransition);
          }
          r := repo.Save(request.Row(), now);
          if r.Ok? {
            cache.Del(KeyFor(tenantId, id));
          }
      }
    }

    method Remove(tenantId: Uuid, id: string, now: Micros) returns (r: Result<(), RequestStore.ServiceError>)
      requires Valid()
      modifies repo, cache
      ensures Valid() && (State(now), r) == RequestStore.Remove(old(State(now)), tenantId, id)
    {
      hide KeyFor, RequestStore.FindById, ThroughJson, RequestStore.SoftRemove, RequestStore.FindOne;
      var found := FindOne(tenantId, id, now);
      if found.Err? {
        return Err(found.error);
      }
      repo.SoftRemove(if found.value.Plain? then found.value.row.id else found.value.request.id, now);
      cache.Del(KeyFor(tenantId, id));
      return Ok(());
    }
  }

  /** The switch of `changeStatus`. */
  method Transition(request: Request, target: Status) returns (ok: bool)
    modifies request`status
    ensures ok <==> LegalEdge(old(request.status), target)
    ensures request.Row() == old(request.Row()).(status := if ok then target else old(request.status))
  {
    match target {
      case InProgress => ok := request.MarkInProgress();
      case Resolved => ok := request.MarkResolved();
      case Closed => ok := request.Close();
      case Open => ok := request.Reopen();
    }
  }

  // ---------------------------------------------------------------- webhook intake

  class WebhooksService {
    const repo: RequestRepository
    var queue: seq<Interleaving.Job>

    constructor (repo: RequestRepository)
      ensures this.repo == repo && queue == []
    {
      this.repo := repo;
      queue := [];
    }

    /** Find or create, and queue a job for exactly the requests that are created. */
    method HandleInbound(tenantId: Uuid, newId: Uuid, m: RequestStore.Message, ghost cache: Cache, now: Micros)
      returns (r: Result<RequestStore.InboundReply, RequestStore.ServiceError>)
      requires repo.Valid()
      modifies repo, this`queue
      ensures repo.Valid()
      ensures (RequestStore.Store(repo.rows, cache, now), r)
           == RequestStore.HandleInbound(RequestStore.Store(old(repo.rows), cache, now), tenantId, newId, m)
      ensures queue == old(queue) + if r.Ok? && r.value.created
                                    then [Interleaving.Job(newId, tenantId, m.text, 0, 0, Interleaving.Waiting)] else []
    {
      var existing := repo.FindByExternalMessageId(tenantId, m.externalMessageId);
      if existing.Some? {
        return Ok(RequestStore.InboundReply(existing.value, false));
      }
      var saved := repo.Insert(RequestStore.NewRow(newId, tenantId, RequestStore.FromMessage(m), now));
      if saved.Err? {
        return Err(saved.error);
      }
      queue := queue + [Interleaving.Job(saved.value.id, tenantId, m.text, 0, 0, Interleaving.Waiting)];
      return Ok(RequestStore.InboundReply(saved.value.id, true));
    }
  }

  // ---------------------------------------------------------------- the worker

  class ClassificationProcessor {
    const repo: RequestRepository
    var events: seq<Interleaving.Event>

    constructor (repo: RequestRepository)
      ensures this.repo == repo && events == []
    {
      this.repo := repo;
      events := [];
    }

    /** One attempt: classifies the row and records it, skips a row that is gone, or throws and
        leaves everything as it was. */
    method Process(tenantId: Uuid, requestId: Uuid, answer: Option<RequestStore.Triple>, ghost cache: Cache,
        now: Micros)
      returns (r: RequestStore.WorkResult)
      requires repo.Valid()
      modifies repo, this`events
      ensures repo.Valid()
      ensures (RequestStore.Store(repo.rows, cache, now), r)
           == RequestStore.Work(RequestStore.Store(old(repo.rows), cache, now), tenantId, requestId, answer)
      ensures events == old(events) + if r.Recorded? then [Interleaving.Event(requestId, Interleaving.LlmClassified)] else []
    {
      hide RequestStore.Clashes, RequestStore.Stamped;
      var classification := RequestStore.Classify(answer);
      if classification.category == RequestStore.UNCLASSIFIED {
        return RequestStore.Thrown;
      }
      var found := RequestStore.FindForWork(repo.rows, tenantId, requestId);
      if found.None? {
        return RequestStore.Skipped;
      }
      var request := new Request(found.value);
      request.category := Some(classification.category);
      request.urgency := Some(classification.urgency);
      request.sentiment := Some(classification.sentiment);
      var saved := repo.Save(request.Row(), now);
      if saved.Err? {
        return RequestStore.Thrown;
      }
      events := events + [Interleaving.Event(requestId, Interleaving.LlmClassified)];
      return RequestStore.Recorded;
    }

    /** `onFailed`: an event after the last attempt, and only then. */
    method OnFailed(requestId: Uuid, attemptsMade: nat)
      modifies this`events
      ensures events == old(events) + if attemptsMade >= Interleaving.ATTEMPTS
                                      then [Interleaving.Event(requestId, Interleaving.ClassificationFailed)] else []
    {
      if attemptsMade >= Interleaving.ATTEMPTS {
        events := events + [Interleaving.Event(requestId, Interleaving.ClassificationFailed)];
      }
    }
  }
}
