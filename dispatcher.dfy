/** The task-queue request the gateway submits for one job, and how the queue's answer is
    read. The queue itself is an outside capability: its answer is an input. */
module Dispatcher {
  import opened Wrappers
  import opened Config

  /** The job description sent to the task handler (its JSON and base64 encoding are not
      modelled: the body is the payload itself). */
  datatype TaskPayload = TaskPayload(jobId: nat, gcsPath: string)

  datatype HttpRequest = HttpRequest(
    headers: map<string, string>,
    httpMethod: string,
    url: string,
    /** the identity the queue authenticates as when it calls the handler */
    oidcServiceAccountEmail: string,
    /** `None` stands for the empty body the request starts with */
    body: Option<TaskPayload>)

  datatype TaskRequest = TaskRequest(parent: string, httpRequest: HttpRequest)

  /** What the queue answers to a create request: a rejection, or a task whose name may be
      missing. */
  datatype CreateOutcome = CreateRejected | CreateResolved(name: Option<string>)

  datatype DispatchError = CreateFailed | NameUndefined

  datatype DispatchResult = TaskCreated(taskName: string) | DispatchFailed(error: DispatchError)

  /** The fully qualified queue name the client library builds. */
  function QueuePath(project: string, location: string, queue: string): string {
    "projects/" + project + "/locations/" + location + "/queues/" + queue
  }

  /** The request as first built, before its body is filled in: it is not yet one the
      gateway submits, and it becomes one whatever payload fills its body. */
  function EmptyRequest(cfg: Config): (r: TaskRequest)
    ensures r.httpRequest.body.None? && !WellFormed(cfg, r)
    ensures forall p :: WellFormed(cfg, WithBody(r, p)) && WithBody(r, p).httpRequest.body == Some(p)
  {
    TaskRequest(
      QueuePath(cfg.projectId, cfg.region, cfg.queueName),
      HttpRequest(map["Content-Type" := "application/json"], "POST", cfg.taskHandlerUrl,
                  cfg.taskServiceAccountEmail, None))
  }

  /** `r` with its body set to `p`. */
  function WithBody(r: TaskRequest, p: TaskPayload): TaskRequest {
    r.(httpRequest := r.httpRequest.(body := Some(p)))
  }

  /** Every request the gateway submits: a JSON POST to the configured handler URL, on the
      configured queue, authenticated as the configured task identity, with a body. */
  predicate WellFormed(cfg: Config, r: TaskRequest) {
    && r.parent == QueuePath(cfg.projectId, cfg.region, cfg.queueName)
    && r.httpRequest.httpMethod == "POST"
    && r.httpRequest.url == cfg.taskHandlerUrl
    && r.httpRequest.oidcServiceAccountEmail == cfg.taskServiceAccountEmail
    && r.httpRequest.headers == map["Content-Type" := "application/json"]
    && r.httpRequest.body.Some?
  }

  /** The queue's answer as the gateway reads it: a rejection fails, and so does a
      response with no task name; otherwise the task name is the result. */
  function ReadOutcome(outcome: CreateOutcome): (r: DispatchResult)
    ensures r.TaskCreated? <==> outcome.CreateResolved? && outcome.name.Some?
    ensures r.TaskCreated? ==> r.taskName == outcome.name.value
    ensures outcome == CreateRejected ==> r == DispatchFailed(CreateFailed)
  {
    match outcome
    case CreateRejected => DispatchFailed(CreateFailed)
    case CreateResolved(None) => DispatchFailed(NameUndefined)
    case CreateResolved(Some(n)) => TaskCreated(n)
  }
}
