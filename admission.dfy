/**
  Admission and argument extraction: whether a classified delivery becomes a
  job, which job class receives it, and with which arguments.
 */
module Admission {

  import opened Wrappers
  import opened Payload
  import opened Classifier

  /** The asynchronous job classes, one per event type. */
  datatype JobClass =
    | ReceivePullRequestEvent
    | ReceiveIssueCommentEvent
    | ReceiveInstallationRepositoriesEvent
    | ReceivePushEvent
    | ReceivePullRequestReviewEvent

  /** One `perform_async` call: the job class and its positional arguments. */
  datatype Job = Job(cls: JobClass, args: seq<Json>)

  /** What the gateway does with a delivery that passed the signature check. */
  datatype Decision =
    | SkipBot          // sent by the service's own bot account: answered, not processed
    | Skip             // no rule admits it: answered, no job
    | Enqueue(job: Job)
    | Fault            // extracting the job arguments raised

  const OpenedAction := "opened"
  const MasterRef := "refs/heads/master"

  /** The job class bound to each event type. */
  function JobClassFor(t: EventType): (c: JobClass)
    ensures EventForJob(c) == t
  {
    match t
    case PullRequest => ReceivePullRequestEvent
    case IssueComment => ReceiveIssueCommentEvent
    case InstallationRepositories => ReceiveInstallationRepositoriesEvent
    case Push => ReceivePushEvent
    case PullRequestReview => ReceivePullRequestReviewEvent
  }

  /** The event type a job class serves. */
  function EventForJob(c: JobClass): EventType
  {
    match c
    case ReceivePullRequestEvent => PullRequest
    case ReceiveIssueCommentEvent => IssueComment
    case ReceiveInstallationRepositoriesEvent => InstallationRepositories
    case ReceivePushEvent => Push
    case ReceivePullRequestReviewEvent => PullRequestReview
  }

  /** The binding of event types to job classes is one-to-one and onto. */
  lemma JobBindingIsBijection(t: EventType, c: JobClass)
    ensures EventForJob(JobClassFor(t)) == t
    ensures JobClassFor(EventForJob(c)) == c
    ensures JobClassFor(t) == c <==> EventForJob(c) == t
  {
  }

  /**
    The sender's id, `sender.id`, is the bot's account id. A body where that
    lookup would raise (no `sender` object) counts as not from the bot.
   */
  predicate SenderIsBot(body: Body, botId: int)
    ensures SenderIsBot(body, botId) <==>
      "sender" in body && body["sender"].JObject? &&
      "id" in body["sender"].fields && body["sender"].fields["id"] == JInt(botId)
  {
    IndexPath(JObject(body), ["sender", "id"]) == Some(JInt(botId))
  }

  /** The per-type admission rule: only pull requests and pushes are filtered. */
  predicate Admits(t: EventType, body: Body)
    ensures t !in {PullRequest, Push} ==> Admits(t, body)
    ensures t == PullRequest ==> (Admits(t, body) <==> "action" in body && body["action"] == JStr(OpenedAction))
    ensures t == Push ==> (Admits(t, body) <==> "ref" in body && body["ref"] == JStr(MasterRef))
  {
    match t
    case PullRequest => Field(body, "action") == JStr(OpenedAction)
    case Push => Field(body, "ref") == JStr(MasterRef)
    case IssueComment => true
    case InstallationRepositories => true
    case PullRequestReview => true
  }

  /**
    The arguments of the job for an event of type `t`. An installation change
    passes `payload["repositories_added"]` and `payload["installation"]["id"]`,
    and fails when the second lookup raises; every other type passes the body.
   */
  function JobArgs(t: EventType, body: Body): (r: Option<seq<Json>>)
    ensures t != InstallationRepositories ==> r == Some([JObject(body)])
    ensures t == InstallationRepositories ==>
      r == match Index(Field(body, "installation"), "id")
           case None => None
           case Some(id) => Some([Field(body, "repositories_added"), id])
  {
    if t != InstallationRepositories then Some([JObject(body)])
    else
      IndexPathPair(JObject(body), "installation", "id");
      match IndexPath(JObject(body), ["installation", "id"])
      case None => None
      case Some(id) => Some([Field(body, "repositories_added"), id])
  }

  /**
    The decision for a delivery classified as `t`: the bot check comes first
    and overrides everything; then an unknown type is skipped, and a known one
    is enqueued on its bound job class when its rule admits it.
   */
  function Decide(t: Option<EventType>, body: Body, botId: int): (d: Decision)
    ensures d == SkipBot <==> SenderIsBot(body, botId)
    ensures d.Enqueue? <==>
      !SenderIsBot(body, botId) && t.Some? && Admits(t.value, body) && JobArgs(t.value, body).Some?
    ensures d.Enqueue? ==> t.Some? && d.job.cls == JobClassFor(t.value)
    ensures d.Enqueue? ==> d.job.args == JobArgs(t.value, body).value
    ensures d == Fault <==>
      !SenderIsBot(body, botId) && t == Some(InstallationRepositories) && JobArgs(t.value, body).None?
  {
    if SenderIsBot(body, botId) then SkipBot
    else
      match t
      case None => Skip
      case Some(e) =>
        if !Admits(e, body) then Skip
        else
          match JobArgs(e, body)
          case None => Fault
          case Some(args) => Enqueue(Job(JobClassFor(e), args))
  }
}
