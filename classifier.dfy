/**
  Event classification: which logical event a delivery carries, decided by
  the route it arrived on and, on the integration route, by the
  `X-GitHub-Event` header.
 */
module Classifier {

  import opened Wrappers

  /** The three POST entry points. */
  datatype Route =
    | PullRequestRoute     // POST /webhooks/pull_request
    | IssueCommentRoute    // POST /webhooks/issue_comment
    | IntegrationRoute     // POST /webhooks/integration

  /** The event types the gateway knows; an unrecognised event is `None`. */
  datatype EventType =
    | PullRequest
    | IssueComment
    | InstallationRepositories
    | Push
    | PullRequestReview

  /** The header value the provider sends for each event type. */
  function EventName(t: EventType): string
  {
    match t
    case PullRequest => "pull_request"
    case IssueComment => "issue_comment"
    case InstallationRepositories => "installation_repositories"
    case Push => "push"
    case PullRequestReview => "pull_request_review"
  }

  /** Different event types have different header names. */
  lemma EventNameInjective(a: EventType, b: EventType)
    ensures EventName(a) == EventName(b) ==> a == b
  {
  }

  /** The event type whose header name is exactly `h`, if any. */
  function ParseEventName(h: string): (t: Option<EventType>)
    ensures t.Some? ==> EventName(t.value) == h
    ensures forall e :: EventName(e) == h ==> t == Some(e)
  {
    if h == "pull_request" then Some(PullRequest)
    else if h == "issue_comment" then Some(IssueComment)
    else if h == "installation_repositories" then Some(InstallationRepositories)
    else if h == "push" then Some(Push)
    else if h == "pull_request_review" then Some(PullRequestReview)
    else None
  }

  /**
    The event type of a delivery. A dedicated route fixes it; the integration
    route takes it from the header, and a missing or unknown header gives `None`.
   */
  function Classify(route: Route, header: Option<string>): (t: Option<EventType>)
    ensures route == PullRequestRoute ==> t == Some(PullRequest)
    ensures route == IssueCommentRoute ==> t == Some(IssueComment)
    ensures route == IntegrationRoute ==>
      forall e :: t == Some(e) <==> header == Some(EventName(e))
  {
    match route
    case PullRequestRoute => Some(PullRequest)
    case IssueCommentRoute => Some(IssueComment)
    case IntegrationRoute =>
      match header
      case None => None
      case Some(h) => ParseEventName(h)
  }

  /** Each dedicated route classifies like the integration route with that event's header. */
  lemma DedicatedRouteIsIntegrationRoute(h: Option<string>)
    ensures Classify(PullRequestRoute, h) == Classify(IntegrationRoute, Some(EventName(PullRequest)))
    ensures Classify(IssueCommentRoute, h) == Classify(IntegrationRoute, Some(EventName(IssueComment)))
  {
  }
}
