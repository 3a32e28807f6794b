/**
  The job sink: for every job class, the queue of jobs enqueued on it so far,
  each job given by its arguments. A dispatch appends to exactly one queue.
 */
module Jobs {

  import opened Payload
  import opened Admission

  class JobSink {
    var pullRequestJobs: seq<seq<Json>>
    var issueCommentJobs: seq<seq<Json>>
    var installationRepositoriesJobs: seq<seq<Json>>
    var pushJobs: seq<seq<Json>>
    var pullRequestReviewJobs: seq<seq<Json>>

    /** The queue of job class `c`, oldest job first. */
    function Jobs(c: JobClass): seq<seq<Json>>
      reads this
    {
      match c
      case ReceivePullRequestEvent => pullRequestJobs
      case ReceiveIssueCommentEvent => issueCommentJobs
      case ReceiveInstallationRepositoriesEvent => installationRepositoriesJobs
      case ReceivePushEvent => pushJobs
      case ReceivePullRequestReviewEvent => pullRequestReviewJobs
    }

    constructor ()
      ensures forall c :: Jobs(c) == []
    {
      pullRequestJobs := [];
      issueCommentJobs := [];
      installationRepositoriesJobs := [];
      pushJobs := [];
      pullRequestReviewJobs := [];
    }

    /** `c.perform_async(*args)`: one job appended to `c`'s queue, the others untouched. */
    method PerformAsync(c: JobClass, args: seq<Json>)
      modifies this
      ensures Jobs(c) == old(Jobs(c)) + [args]
      ensures forall k :: k != c ==> Jobs(k) == old(Jobs(k))
    {
      match c
      case ReceivePullRequestEvent => pullRequestJobs := pullRequestJobs + [args];
      case ReceiveIssueCommentEvent => issueCommentJobs := issueCommentJobs + [args];
      case ReceiveInstallationRepositoriesEvent =>
        installationRepositoriesJobs := installationRepositoriesJobs + [args];
      case ReceivePushEvent => pushJobs := pushJobs + [args];
      case ReceivePullRequestReviewEvent => pullRequestReviewJobs := pullRequestReviewJobs + [args];
    }
  }
}
