/**
  The webhook gateway: signature gate, classification, admission and dispatch
  of one delivery, and the HTTP status it answers with. `Respond` states the
  outcome as a value; `Handle` performs it against a job sink.
 */
module Gateway {

  import opened Wrappers
  import opened Payload
  import opened Classifier
  import opened Admission
  import opened Jobs

  /** A delivery: its route, its `X-GitHub-Event` header if sent, and its parsed body. */
  datatype Request = Request(route: Route, eventHeader: Option<string>, body: Body)

  datatype Status = Ok | Accepted | Unauthorized | InternalServerError
  {
    /** The HTTP status code. */
    function Code(): int
    {
      match this
      case Ok => 200
      case Accepted => 202
      case Unauthorized => 401
      case InternalServerError => 500
    }
  }

  /** The status answered and the job submitted, if any. */
  datatype Outcome = Outcome(status: Status, job: Option<Job>)

  /** The outcome of one delivery, given whether its signature verified. */
  function Respond(req: Request, signatureValid: bool, botId: int): (o: Outcome)
    ensures !signatureValid ==> o == Outcome(Unauthorized, None)
    ensures o.status == Ok <==> signatureValid && SenderIsBot(req.body, botId)
    ensures o.job.Some? ==> o.status == Accepted
    ensures o.job.Some? ==>
      Classify(req.route, req.eventHeader) == Some(EventForJob(o.job.value.cls))
  {
    if !signatureValid then Outcome(Unauthorized, None)
    else
      match Decide(Classify(req.route, req.eventHeader), req.body, botId)
      case SkipBot => Outcome(Ok, None)
      case Skip => Outcome(Accepted, None)
      case Fault => Outcome(InternalServerError, None)
      case Enqueue(job) => Outcome(Accepted, Some(job))
  }

  /** What an outcome appends to the queue of job class `c`. */
  function Submitted(o: Outcome, c: JobClass): seq<seq<Json>>
  {
    if o.job.Some? && o.job.value.cls == c then [o.job.value.args] else []
  }

  /** A delivery appends at most one job, and only to the class bound to its event type. */
  lemma AtMostOneJob(req: Request, signatureValid: bool, botId: int, c: JobClass)
    ensures |Submitted(Respond(req, signatureValid, botId), c)| <= 1
    ensures Submitted(Respond(req, signatureValid, botId), c) != [] ==>
      Classify(req.route, req.eventHeader) == Some(EventForJob(c))
  {
  }

  /** The dedicated pull-request route answers exactly as the integration route with header `pull_request`. */
  lemma PullRequestRoutesAgree(h: Option<string>, body: Body, signatureValid: bool, botId: int)
    ensures Respond(Request(PullRequestRoute, h, body), signatureValid, botId)
         == Respond(Request(IntegrationRoute, Some("pull_request"), body), signatureValid, botId)
  {
    DedicatedRouteIsIntegrationRoute(h);
  }

  /** The dedicated issue-comment route answers exactly as the integration route with header `issue_comment`. */
  lemma IssueCommentRoutesAgree(h: Option<string>, body: Body, signatureValid: bool, botId: int)
    ensures Respond(Request(IssueCommentRoute, h, body), signatureValid, botId)
         == Respond(Request(IntegrationRoute, Some("issue_comment"), body), signatureValid, botId)
  {
    DedicatedRouteIsIntegrationRoute(h);
  }

  /**
    A pull request event is enqueued on ReceivePullRequestEvent, with the body
    as its argument, exactly when its action is "opened"; either way the
    answer is 202 and no other queue grows.
   */
  lemma PullRequestAdmittedIffOpened(req: Request, botId: int)
    requires Classify(req.route, req.eventHeader) == Some(PullRequest)
    requires !SenderIsBot(req.body, botId)
    ensures Respond(req, true, botId).status == Accepted
    ensures Submitted(Respond(req, true, botId), ReceivePullRequestEvent)
         == if Field(req.body, "action") == JStr("opened") then [[JObject(req.body)]] else []
    ensures forall c :: c != ReceivePullRequestEvent ==> Submitted(Respond(req, true, botId), c) == []
  {
  }

  /** Every issue comment event is enqueued once on ReceiveIssueCommentEvent, with the body, and answered 202. */
  lemma IssueCommentAlwaysEnqueued(req: Request, botId: int)
    requires Classify(req.route, req.eventHeader) == Some(IssueComment)
    requires !SenderIsBot(req.body, botId)
    ensures Respond(req, true, botId) == Outcome(Accepted, Some(Job(ReceiveIssueCommentEvent, [JObject(req.body)])))
    ensures Submitted(Respond(req, true, botId), ReceiveIssueCommentEvent) == [[JObject(req.body)]]
  {
  }

  /**
    An installation change is enqueued once on ReceiveInstallationRepositoriesEvent
    with exactly the two arguments `payload["repositories_added"]` and
    `payload["installation"]["id"]`, in that order.
   */
  lemma InstallationRepositoriesArguments(req: Request, botId: int, id: Json)
    requires req.route == IntegrationRoute && req.eventHeader == Some("installation_repositories")
    requires !SenderIsBot(req.body, botId)
    requires Index(Field(req.body, "installation"), "id") == Some(id)
    ensures Respond(req, true, botId)
         == Outcome(Accepted, Some(Job(ReceiveInstallationRepositoriesEvent,
                                       [Field(req.body, "repositories_added"), id])))
    ensures |Submitted(Respond(req, true, botId), ReceiveInstallationRepositoriesEvent)| == 1
  {
  }

  /** A push is enqueued on ReceivePushEvent, with the body, exactly when its ref is the master branch. */
  lemma PushAdmittedIffMaster(req: Request, botId: int)
    requires req.route == IntegrationRoute && req.eventHeader == Some("push")
    requires !SenderIsBot(req.body, botId)
    ensures Respond(req, true, botId).status == Accepted
    ensures Submitted(Respond(req, true, botId), ReceivePushEvent)
         == if Field(req.body, "ref") == JStr("refs/heads/master") then [[JObject(req.body)]] else []
  {
  }

  /** Every pull request review is enqueued once on ReceivePullRequestReviewEvent, with the body. */
  lemma PullRequestReviewAlwaysEnqueued(req: Request, botId: int)
    requires req.route == IntegrationRoute && req.eventHeader == Some("pull_request_review")
    requires !SenderIsBot(req.body, botId)
    ensures Respond(req, true, botId)
         == Outcome(Accepted, Some(Job(ReceivePullRequestReviewEvent, [JObject(req.body)])))
  {
  }

  /** A delivery from the bot account is answered 200 and enqueues nothing, whatever it carries. */
  lemma BotSenderAnsweredOk(req: Request, botId: int)
    requires SenderIsBot(req.body, botId)
    ensures Respond(req, true, botId) == Outcome(Ok, None)
  {
  }

  /** A body holding only `sender: {id: 1234}`, sent to the integration route with no event header. */
  lemma BotUserDelivery()
    ensures Respond(Request(IntegrationRoute, None, map["sender" := JObject(map["id" := JInt(1234)])]), true, 1234)
            .status.Code() == 200
  {
  }

  /** A failed signature check answers 401 and enqueues nothing, for any delivery. */
  lemma InvalidSignatureRejected(req: Request, botId: int, c: JobClass)
    ensures Respond(req, false, botId).status.Code() == 401
    ensures Submitted(Respond(req, false, botId), c) == []
  {
  }

  /** An event with no known type from a non-bot sender is answered 202 and enqueues nothing. */
  lemma UnknownEventSkipped(req: Request, botId: int)
    requires Classify(req.route, req.eventHeader) == None
    requires !SenderIsBot(req.body, botId)
    ensures Respond(req, true, botId) == Outcome(Accepted, None)
  {
  }

  /**
    An installation change whose `payload["installation"]["id"]` lookup raises
    is answered 500 and enqueues nothing.
   */
  lemma InstallationLookupFaultAnswered500(req: Request, botId: int)
    requires Classify(req.route, req.eventHeader) == Some(InstallationRepositories)
    requires !SenderIsBot(req.body, botId)
    requires Index(Field(req.body, "installation"), "id") == None
    ensures Respond(req, true, botId) == Outcome(InternalServerError, None)
    ensures Respond(req, true, botId).status.Code() == 500
  {
  }

  /** Submit the decision's job, if any, and give the status it is answered with. */
  method Dispatch(sink: JobSink, d: Decision) returns (status: Status)
    modifies sink
    ensures status == (match d
                       case SkipBot => Ok
                       case Fault => InternalServerError
                       case _ => Accepted)
    ensures forall c ::
              sink.Jobs(c) == old(sink.Jobs(c)) + (if d.Enqueue? && d.job.cls == c then [d.job.args] else [])
  {
    match d
    case SkipBot => status := Ok;
    case Skip => status := Accepted;
    case Fault => status := InternalServerError;
    case Enqueue(job) =>
      sink.PerformAsync(job.cls, job.args);
      status := Accepted;
  }

  /** Handle one delivery: verify, classify, decide, dispatch. */
  method Handle(sink: JobSink, req: Request, signatureValid: bool, botId: int) returns (status: Status)
    modifies sink
    ensures status == Respond(req, signatureValid, botId).status
    ensures forall c :: sink.Jobs(c) == old(sink.Jobs(c)) + Submitted(Respond(req, signatureValid, botId), c)
  {
    if !signatureValid {
      return Unauthorized;
    }
    var t := Classify(req.route, req.eventHeader);
    var d := Decide(t, req.body, botId);
    status := Dispatch(sink, d);
  }
}
