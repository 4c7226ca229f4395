/** The push-notification route of the gateway: the authentication pre-handler, the
    relevance filter and the dispatch of one job per relevant event. */
module Gateway {
  import opened Wrappers
  import opened Config
  import opened Gcs
  import opened Authenticator
  import opened EventFilter
  import opened Dispatcher

  /** An HTTP reply: the status of the first send is the one the caller sees, and every
      later send is ignored. */
  class Reply {
    var sent: Option<int>

    constructor ()
      ensures sent == None
    {
      sent := None;
    }

    /** `reply.status(code).send()` */
    method Send(code: int)
      modifies this
      ensures sent == if old(sent).None? then Some(code) else old(sent)
    {
      if sent.None? {
        sent := Some(code);
      }
    }
  }

  /** The gateway process: its configuration, fixed at start-up; the source of fresh job
      identifiers; and the log of every task request submitted to the queue. */
  class Gateway {
    const cfg: Config
    /** the next job identifier to hand out; stands for the random identifier generator */
    var nextJob: nat
    /** every request passed to the queue, in submission order */
    ghost var submitted: seq<TaskRequest>

    /** Every submitted request is well formed and names an object of the configured bucket
        under the configured prefix, and job identifiers are handed out in increasing order,
        so no two submitted requests share one. */
    ghost predicate Valid()
      reads this
    {
      LogValid(cfg, nextJob, submitted)
    }

    /** Every request of `log` is one that can have been submitted before job `bound` was
        handed out, and job identifiers increase along `log`. */
    static ghost predicate LogValid(cfg: Config, bound: nat, log: seq<TaskRequest>) {
      && (forall i :: 0 <= i < |log| ==> Queued(cfg, bound, log[i]))
      && (forall i, j :: 0 <= i < j < |log| ==> JobOf(log[i]) < JobOf(log[j]))
    }

    /** Handing out job `bound` and logging one request for it keeps the log valid. */
    static lemma LogExtended(cfg: Config, bound: nat, log: seq<TaskRequest>, r: TaskRequest)
      requires LogValid(cfg, bound, log)
      requires WellFormed(cfg, r) && JobOf(r) == bound
      requires GcsUri(cfg.bucketName, cfg.bucketPrefix) <= r.httpRequest.body.value.gcsPath
      ensures LogValid(cfg, bound + 1, log + [r])
    {
    }

    /** `r` is a request this gateway can have submitted before handing out job `bound`. */
    static predicate Queued(cfg: Config, bound: nat, r: TaskRequest) {
      && WellFormed(cfg, r)
      && JobOf(r) < bound
      && GcsUri(cfg.bucketName, cfg.bucketPrefix) <= r.httpRequest.body.value.gcsPath
    }

    static function JobOf(r: TaskRequest): int {
      match r.httpRequest.body
      case None => -1
      case Some(p) => p.jobId
    }

    constructor (cfg: Config)
      ensures Valid()
      ensures this.cfg == cfg && submitted == [] && nextJob == 0
    {
      this.cfg := cfg;
      nextJob := 0;
      submitted := [];
    }

    /** The pre-handler: replies 401 exactly when authentication fails, and sends nothing
        otherwise. A failed verification sends 401 and falls through to the missing-claims
        check, which sends 401 again; the first send stands. */
    method ValidateIdToken(authorization: Option<string>, verifier: string -> VerifyOutcome,
                           reply: Reply)
      requires reply.sent.None?
      modifies reply
      ensures reply.sent == if Authorized(authorization, verifier) then None else Some(401)
    {
      var token := ExtractToken(authorization);
      if token.None? {
        reply.Send(401);
        return;
      }
      var ticket := verifier(token.value);
      var claim: Option<Claim> := None;
      if ticket.VerifyFailed? {
        reply.Send(401);
      } else {
        claim := ticket.payload;
      }
      if claim.None? {
        reply.Send(401);
        return;
      }
      if claim.value.emailVerified != Some(true) {
        reply.Send(401);
        return;
      }
      if claim.value.email != Some(cfg.storageServiceAccountEmail) {
        reply.Send(401);
        return;
      }
    }

    /** Submits the task for `payload` to the queue and reads the queue's answer. */
    method CreateHttpTaskWithToken(payload: TaskPayload, createTask: TaskRequest -> CreateOutcome)
      returns (r: DispatchResult)
      modifies this`submitted
      ensures |submitted| == |old(submitted)| + 1 && submitted[..|old(submitted)|] == old(submitted)
      ensures WellFormed(cfg, submitted[|old(submitted)|])
      ensures submitted[|old(submitted)|].httpRequest.body == Some(payload)
      ensures r == ReadOutcome(createTask(submitted[|old(submitted)|]))
    {
      var request := EmptyRequest(cfg);
      request := WithBody(request, payload);
      submitted := submitted + [request];
      r := ReadOutcome(createTask(request));
    }

    /** The route handler of `/uploadNotification`, run once the pre-handler has let the
        request through: a missing body fails with 500, an irrelevant event is acknowledged
        with 200, and a relevant one gets a fresh job and exactly one task submission, then
        201, or 500 when the queue does not return a task. */
    method RouteNotification(body: Option<Envelope>, createTask: TaskRequest -> CreateOutcome,
                             reply: Reply)
      requires Valid() && reply.sent.None?
      modifies this, reply
      ensures Valid()
      ensures body.None? ==>
                reply.sent == Some(500) && submitted == old(submitted) && nextJob == old(nextJob)
      ensures body.Some? && !IsRelevant(cfg.bucketName, cfg.bucketPrefix, body.value) ==>
                reply.sent == Some(200) && submitted == old(submitted) && nextJob == old(nextJob)
      ensures body.Some? && IsRelevant(cfg.bucketName, cfg.bucketPrefix, body.value) ==>
                && nextJob == old(nextJob) + 1
                && |submitted| == |old(submitted)| + 1
                && submitted[..|old(submitted)|] == old(submitted)
                && submitted[|old(submitted)|].httpRequest.body ==
                   Some(TaskPayload(old(nextJob), GcsLocation(body.value)))
                && reply.sent == Some(if ReadOutcome(createTask(submitted[|old(submitted)|])).TaskCreated?
                                      then 201 else 500)
    {
      // a missing body makes the first attribute access throw; the framework replies 500
      if body.None? {
        reply.Send(500);
        return;
      }
      var gcsLocation := GcsLocation(body.value);
      if !IsRelevant(cfg.bucketName, cfg.bucketPrefix, body.value) {
        reply.Send(200);
        return;
      }
      var jobId := nextJob;
      nextJob := nextJob + 1;
      ghost var before := submitted;
      var r := CreateHttpTaskWithToken(TaskPayload(jobId, gcsLocation), createTask);
      assert submitted == before + [submitted[|before|]];
      LogExtended(cfg, jobId, before, submitted[|before|]);
      if r.DispatchFailed? {
        reply.Send(500);
      }
      reply.Send(201);
    }

    /** The `/uploadNotification` route: the pre-handler, then the route handler unless the
        pre-handler has already replied. Returns the status the caller sees. */
    method HandleNotification(authorization: Option<string>, verifier: string -> VerifyOutcome,
                              body: Option<Envelope>, createTask: TaskRequest -> CreateOutcome)
      returns (status: int)
      requires Valid()
      modifies this
      ensures Valid()
      ensures !Authorized(authorization, verifier) ==>
                status == 401 && submitted == old(submitted) && nextJob == old(nextJob)
      ensures Authorized(authorization, verifier) && body.None? ==>
                status == 500 && submitted == old(submitted) && nextJob == old(nextJob)
      ensures Authorized(authorization, verifier) && body.Some? &&
              !IsRelevant(cfg.bucketName, cfg.bucketPrefix, body.value) ==>
                status == 200 && submitted == old(submitted) && nextJob == old(nextJob)
      ensures Authorized(authorization, verifier) && body.Some? &&
              IsRelevant(cfg.bucketName, cfg.bucketPrefix, body.value) ==>
                && nextJob == old(nextJob) + 1
                && |submitted| == |old(submitted)| + 1
                && submitted[..|old(submitted)|] == old(submitted)
                && submitted[|old(submitted)|].httpRequest.body ==
                   Some(TaskPayload(old(nextJob), GcsLocation(body.value)))
                && status == (if ReadOutcome(createTask(submitted[|old(submitted)|])).TaskCreated?
                              then 201 else 500)
    {
      var reply := new Reply();
      ValidateIdToken(authorization, verifier, reply);
      if reply.sent.Some? {
        return reply.sent.value;
      }
      RouteNotification(body, createTask, reply);
      status := reply.sent.value;
    }

    /** The request carries a token that the verifier accepts with the expected identity. */
    predicate Authorized(authorization: Option<string>, verifier: string -> VerifyOutcome) {
      Authenticate(cfg.storageServiceAccountEmail, authorization, verifier).Authenticated?
    }
  }
}
