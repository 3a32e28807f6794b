# Webhook gateway: classification, admission and dispatch

This project models the core of a webhooks controller that receives signed
event notifications from a code-hosting provider. The behaviour modelled is
the behaviour that the request spec `spec/requests/webhooks_controller_spec.rb`
pins. The controller's own source is not part of this model. The routes,
the admission rules, the job classes, the installation arguments, the
signature gate and the bot answer come from that spec's assertions. The
rules listed under "## Assumptions" (among them every 202 answer except
that of an opened pull request or an issue comment, and the body as the
argument of every job but the installation one) are choices the spec does
not pin. One delivery goes through four steps:

1. **Signature gate.** The signature check is a boolean input. When it is
   false, the answer is 401 Unauthorized and nothing else happens.
2. **Classification** (`Classifier.Classify`). `/webhooks/pull_request` and
   `/webhooks/issue_comment` fix the event type. `/webhooks/integration`
   takes it from the `X-GitHub-Event` header. A missing or unknown header
   gives no type.
3. **Admission** (`Admission.Decide`). This step runs in a fixed order:
   - a body whose `sender.id` is the bot's id is answered 200 and not processed;
   - `pull_request` is admitted only with `action == "opened"`;
   - `push` is admitted only with `ref == "refs/heads/master"`;
   - `issue_comment`, `installation_repositories` and `pull_request_review`
     are always admitted.
4. **Dispatch** (`Gateway.Dispatch`, `Gateway.Handle`). An admitted event
   appends exactly one job to the queue of its bound job class
   (`Jobs.JobSink`). An `installation_repositories` job gets two arguments,
   `payload["repositories_added"]` and `payload["installation"]["id"]`.
   Every other job gets the whole body. The answer is 202 Accepted.

`Gateway.Respond` is the pure statement of the outcome: a status plus at most
one job. `Gateway.Handle` performs the outcome against a mutable `JobSink`
and is proved to match `Respond`. The lemmas in `Gateway` state each
behaviour the request spec checks, in terms of `Respond`. The JSON body is a
`Payload.Json` value. Ruby's `[]` lookups are modelled as
`Payload.Field`, `Payload.Index` and `Payload.IndexPath`.

Inputs that the model takes as parameters:
- the result of the signature check (`signatureValid`);
- the bot account id (`botId`), which the spec's bot example sets to 1234.

Files: `wrappers.dfy`, `payload.dfy`, `classifier.dfy`, `admission.dfy`,
`jobs.dfy`, `gateway.dfy`.

## Model

| member | source | states |
|---|---|---|
| Payload.IndexPath | spec/requests/webhooks_controller_spec.rb:82 | a chained lookup of no keys is the value itself; a lookup into anything that is not an object raises; one key is one `[]` |
| Payload.IndexPathAppend | spec/requests/webhooks_controller_spec.rb:82 | looking up `p + q` is looking up `p` and then `q` in the result, with a raise propagating |
| Payload.IndexPathPair | spec/requests/webhooks_controller_spec.rb:82 | `v[a][b]` is the path lookup of `[a, b]` |
| Classifier.EventNameInjective | spec/requests/webhooks_controller_spec.rb:65-114 | different event types have different `X-GitHub-Event` values |
| Classifier.EventName | spec/requests/webhooks_controller_spec.rb:65-114 | its definition is the header value for each event type, as the integration contexts send it |
| Classifier.ParseEventName | spec/requests/webhooks_controller_spec.rb:65-114 | the header parses to an event type exactly when it is that type's name, so parsing inverts `EventName` |
| Classifier.Classify | spec/requests/webhooks_controller_spec.rb:50-73 | a dedicated route fixes its type; on the integration route the type is `e` if and only if the header is `e`'s name |
| Classifier.DedicatedRouteIsIntegrationRoute | spec/requests/webhooks_controller_spec.rb:50-73 | each dedicated route classifies like the integration route carrying that event's header |
| Admission.JobClassFor | spec/requests/webhooks_controller_spec.rb:19-117 | its definition is the job class each event type enqueues on; `EventForJob` inverts it |
| Admission.SenderIsBot | spec/requests/webhooks_controller_spec.rb:133-144 | its definition is the bot rule: the body holds a `sender` object whose `id` is the bot's id |
| Admission.Admits | spec/requests/webhooks_controller_spec.rb:15-107 | its definition is the per-type rule: a pull request only with action "opened", a push only with ref `refs/heads/master`, every other type always |
| Admission.JobBindingIsBijection | spec/requests/webhooks_controller_spec.rb:18-117 | each event type is bound to its own job class, and the binding is one-to-one and onto |
| Admission.JobArgs | spec/requests/webhooks_controller_spec.rb:81-84 | installation changes pass `payload["repositories_added"]` and `payload["installation"]["id"]` in that order; every other type passes the body |
| Admission.Decide | spec/requests/webhooks_controller_spec.rb:8-144 | a bot sender short-circuits; a job is enqueued if and only if the type is known, its rule admits the body and its arguments can be extracted; the job goes to the bound class; a fault happens exactly when an installation change's arguments cannot be extracted |
| Jobs.JobSink.constructor | spec/requests/webhooks_controller_spec.rb:19 | every job queue starts empty |
| Jobs.JobSink.PerformAsync | spec/requests/webhooks_controller_spec.rb:19 | appends one job to its class's queue and leaves every other queue unchanged |
| Gateway.Respond | spec/requests/webhooks_controller_spec.rb:4-144 | a failed signature check gives 401 with no job; the answer is 200 exactly for a verified bot delivery; a job implies 202 and a class matching the classified type |
| Gateway.AtMostOneJob | spec/requests/webhooks_controller_spec.rb:19-27 | a delivery appends at most one job, and only to the class bound to its event type |
| Gateway.PullRequestRoutesAgree | spec/requests/webhooks_controller_spec.rb:50-67 | `/webhooks/pull_request` answers exactly as `/webhooks/integration` with header `pull_request` |
| Gateway.IssueCommentRoutesAgree | spec/requests/webhooks_controller_spec.rb:56-73 | `/webhooks/issue_comment` answers exactly as `/webhooks/integration` with header `issue_comment` |
| Gateway.PullRequestAdmittedIffOpened | spec/requests/webhooks_controller_spec.rb:15-34 | a pull request appends one body-carrying ReceivePullRequestEvent job if and only if its action is "opened"; no other queue grows; the answer is 202 (the body argument, and 202 for another action, are assumptions) |
| Gateway.IssueCommentAlwaysEnqueued | spec/requests/webhooks_controller_spec.rb:37-48 | every issue comment appends one ReceiveIssueCommentEvent job, answered 202 (the body argument is an assumption) |
| Gateway.InstallationRepositoriesArguments | spec/requests/webhooks_controller_spec.rb:75-85 | an installation change appends one ReceiveInstallationRepositoriesEvent job whose arguments are exactly `repositories_added` and `installation.id` (the 202 is an assumption) |
| Gateway.PushAdmittedIffMaster | spec/requests/webhooks_controller_spec.rb:87-107 | a push appends one ReceivePushEvent job if and only if its ref is `refs/heads/master` (the body argument and the 202 are assumptions) |
| Gateway.PullRequestReviewAlwaysEnqueued | spec/requests/webhooks_controller_spec.rb:109-119 | every pull request review appends one ReceivePullRequestReviewEvent job (the body argument and the 202 are assumptions) |
| Gateway.InvalidSignatureRejected | spec/requests/webhooks_controller_spec.rb:121-130 | a failed signature check answers 401 and appends no job, whatever the request |
| Gateway.BotSenderAnsweredOk | spec/requests/webhooks_controller_spec.rb:133-144 | a delivery whose `sender.id` is the bot's id is answered 200 and enqueues nothing |
| Gateway.BotUserDelivery | spec/requests/webhooks_controller_spec.rb:133-144 | the body `{sender: {id: 1234}}` on the integration route with no header, bot id 1234, is answered 200 |
| Gateway.Dispatch | spec/requests/webhooks_controller_spec.rb:19-27 | an enqueue decision appends its job to its class's queue and nothing else; other decisions change no queue; the status follows the decision |
| Gateway.Handle | spec/requests/webhooks_controller_spec.rb:4-144 | the status is `Respond`'s, and each queue grows by exactly what `Respond` submits to it |

## Assumptions

The request spec does not pin the following. The model gives each one a rule:
- **Missing or unknown header.** A non-bot delivery on the integration route
  with no header, or with an unknown one, gets no type. It enqueues nothing
  and is answered 202 (`Gateway.UnknownEventSkipped`).
- **Header on a dedicated route.** A dedicated route ignores any
  `X-GitHub-Event` header.
- **Bot check precedence.** The bot check comes before classification and
  overrides every per-type rule. The spec exercises it only with no header
  on the integration route.
- **Missing sender.** A body with no `sender` object, or no integer
  `sender.id`, is not from the bot.
- **Extraction failure.** When `payload["installation"]` is not an object,
  the chained lookup of `id` raises. This is the behaviour of Ruby's `[]` on
  nil. The model answers 500 and enqueues nothing (`Decision.Fault`,
  `Gateway.InstallationLookupFaultAnswered500`).
- **202 answers the spec does not assert.** The spec checks the status only
  for an opened pull request (lines 15 and 31-34) and for an issue comment
  (lines 44-47). The model also answers 202 for a pull request with another
  action, for a push, for an installation change and for a pull request
  review (`Gateway.PullRequestAdmittedIffOpened`,
  `Gateway.PushAdmittedIffMaster`, `Gateway.InstallationRepositoriesArguments`,
  `Gateway.PullRequestReviewAlwaysEnqueued`).
- **Job arguments other than the installation ones.** The spec checks the
  arguments only of the installation job (line 82). The pull request, issue
  comment, push and pull request review jobs receive the whole body as
  their one argument in this model (`Admission.JobArgs`).
- **Unauthorized status.** The example at lines 126-128 is titled "403" but
  asserts `:unauthorized`. The model answers 401, the code Rails uses for
  `:unauthorized`.

## Left out

- HTTP, Rails routing, content-type handling and JSON parsing: a request is
  a route, an optional header and an already-parsed body.
- The signature algorithm: it is stubbed in the request spec and is a
  boolean input here.
- The job runtime: only the per-class job queues are modelled. Running the
  jobs, and a failing submission, are not.
- Fixture contents: the model uses only the fields the rules read
  (`action`, `ref`, `repositories_added`, `installation.id`, `sender.id`).
- How the bot id is configured: it is a parameter.
- Ruby's `[]` on a string, integer or array value: the model treats every
  non-object as raising. Ruby returns a substring or nil for a string and
  raises for the others.
