/** The worker-side glue of the service (tasks.py): the completion and
    failure callbacks that notify a caller's webhook, the notifier itself,
    and the stamping of the task id into each tool's result. The HTTP POST
    is an abstract function from the request to its outcome; the audio tool
    a task runs is represented by the result it returns (or the message of
    the exception it raised). */
module Tasks {
  import opened Common

  // ---------------------------------------------------------------------------
  // send_webhook_notification

  /** One POST the notifier issues: target, JSON body, timeout in seconds and
      headers. The URL is whatever value the caller's keyword argument held. */
  datatype WebhookPost = WebhookPost(url: Value, payload: Dict, timeout: real, headers: map<string, string>)

  /** What `httpx.post` does with a request: it raises (connection failure,
      timeout, invalid URL, ...) or answers with a status code. */
  datatype PostOutcome = Raised(reason: string) | Responded(statusCode: int)

  type Poster = WebhookPost -> PostOutcome

  const WebhookTimeout := 10.0

  function WebhookPostFor(url: Value, data: Dict): WebhookPost
  {
    WebhookPost(url, data, WebhookTimeout, map["Content-Type" := "application/json"])
  }

  /** `raise_for_status` lets only 2xx answers through. */
  predicate IsSuccessStatus(code: int)
  {
    200 <= code < 300
  }

  /** The notifier's observable effect: the POSTs it issued and its boolean
      result. It has no error case: every exception ends in `False`. */
  datatype Notification = Notification(attempts: seq<WebhookPost>, delivered: bool)

  /** `send_webhook_notification`. */
  function SendWebhookNotification(url: Value, data: Dict, post: Poster): (n: Notification)
    ensures |n.attempts| == 1
    ensures n.attempts[0].url == url && n.attempts[0].payload == data && n.attempts[0].timeout == 10.0
    ensures n.attempts[0].headers == map["Content-Type" := "application/json"]
    ensures n.delivered <==> post(n.attempts[0]).Responded? && IsSuccessStatus(post(n.attempts[0]).statusCode)
  {
    var request := WebhookPostFor(url, data);
    var outcome := post(request);
    Notification([request], outcome.Responded? && IsSuccessStatus(outcome.statusCode))
  }

  /** A raised POST, or any answer outside 2xx (a redirect too: the client
      does not follow it), reports failure instead of propagating. */
  lemma WebhookFailuresAreReported(url: Value, data: Dict, post: Poster)
    requires post(WebhookPostFor(url, data)).Raised? ||
             !IsSuccessStatus(post(WebhookPostFor(url, data)).statusCode)
    ensures !SendWebhookNotification(url, data, post).delivered
  {
  }

  // ---------------------------------------------------------------------------
  // CallbackTask

  /** `kwargs.get("callback_url")`. */
  function CallbackUrl(kwargs: Dict): Value
  {
    if "callback_url" in kwargs then kwargs["callback_url"] else VNone
  }

  function SuccessPayload(taskId: string, retval: Value): Dict
  {
    map["task_id" := VStr(taskId), "status" := VStr("completed"), "result" := retval]
  }

  function FailurePayload(taskId: string, error: string): Dict
  {
    map["task_id" := VStr(taskId), "status" := VStr("failed"), "error" := VStr(error)]
  }

  /** `on_success`: the POSTs it issues. The notifier's boolean is dropped. */
  function OnSuccess(retval: Value, taskId: string, kwargs: Dict, post: Poster): (posts: seq<WebhookPost>)
    ensures |posts| == if Truthy(CallbackUrl(kwargs)) then 1 else 0
    ensures posts != [] ==> posts[0].url == kwargs["callback_url"] && posts[0].payload == SuccessPayload(taskId, retval)
  {
    var url := CallbackUrl(kwargs);
    if Truthy(url) then SendWebhookNotification(url, SuccessPayload(taskId, retval), post).attempts else []
  }

  /** `on_failure`, with `str(exc)` given as `error`. */
  function OnFailure(error: string, taskId: string, kwargs: Dict, post: Poster): (posts: seq<WebhookPost>)
    ensures |posts| == if Truthy(CallbackUrl(kwargs)) then 1 else 0
    ensures posts != [] ==> posts[0].url == kwargs["callback_url"] && posts[0].payload == FailurePayload(taskId, error)
  {
    var url := CallbackUrl(kwargs);
    if Truthy(url) then SendWebhookNotification(url, FailurePayload(taskId, error), post).attempts else []
  }

  // ---------------------------------------------------------------------------
  // process_*

  /** `result["task_id"] = task_id`, as every `process_*` does before
      returning the tool's result. */
  function StampTaskId(result: Dict, taskId: string): (r: Dict)
    ensures r.Keys == result.Keys + {"task_id"}
    ensures r["task_id"] == VStr(taskId)
    ensures forall k :: k in result && k != "task_id" ==> r[k] == result[k]
  {
    result["task_id" := VStr(taskId)]
  }

  /** One run of a callback task: the tool's result (or the message of the
      exception it raised), then the callback Celery invokes for that
      outcome. */
  datatype TaskRun = TaskRun(result: Result<Dict, string>, webhooks: seq<WebhookPost>)

  /** A `process_*` task run by Celery. Two ids are involved: `taskId` is
      the `task_id` keyword argument the API passes (the id of its task
      record), which the task stamps into its result; `requestId` is the id
      Celery generated for the `.delay` call, which Celery hands to
      `on_success` and `on_failure` as their `task_id`. */
  function RunTask(tool: Result<Dict, string>, taskId: string, requestId: string, kwargs: Dict, post: Poster): (run: TaskRun)
    ensures tool.Ok? ==> run.result == Ok(StampTaskId(tool.value, taskId))
    ensures tool.Err? ==> run.result == tool
    ensures |run.webhooks| == if Truthy(CallbackUrl(kwargs)) then 1 else 0
    ensures run.webhooks != [] ==> "task_id" in run.webhooks[0].payload && run.webhooks[0].payload["task_id"] == VStr(requestId)
  {
    match tool
    case Ok(result) =>
      var stamped := StampTaskId(result, taskId);
      TaskRun(Ok(stamped), OnSuccess(VDict(stamped), requestId, kwargs, post))
    case Err(error) =>
      TaskRun(Err(error), OnFailure(error, requestId, kwargs, post))
  }

  /** A webhook's outcome never changes a task's result, nor which webhooks
      are attempted: the run is the same whatever the POST does. */
  lemma WebhookOutcomeIsIgnored(tool: Result<Dict, string>, taskId: string, requestId: string, kwargs: Dict, post1: Poster, post2: Poster)
    ensures RunTask(tool, taskId, requestId, kwargs, post1) == RunTask(tool, taskId, requestId, kwargs, post2)
  {
  }

  /** The webhook of a successful run reports "completed" with the stamped
      result, and that of a failed run "failed" with the error; none is sent
      without a truthy callback URL. The payload names the run by Celery's
      request id, while the returned result carries the API's task id. */
  lemma RunTaskNotifiesOutcome(tool: Result<Dict, string>, taskId: string, requestId: string, kwargs: Dict, post: Poster)
    ensures var run := RunTask(tool, taskId, requestId, kwargs, post);
            && (run.webhooks != [] <==> Truthy(CallbackUrl(kwargs)))
            && (run.webhooks != [] ==>
                  run.webhooks[0].url == kwargs["callback_url"] &&
                  run.webhooks[0].payload.Keys == {"task_id", "status", if tool.Ok? then "result" else "error"} &&
                  run.webhooks[0].payload["task_id"] == VStr(requestId))
            && (tool.Ok? ==> run.result.Ok? && run.result.value["task_id"] == VStr(taskId))
            && (run.webhooks != [] && tool.Ok? ==>
                  run.webhooks[0].payload["status"] == VStr("completed") &&
                  run.webhooks[0].payload["result"] == VDict(StampTaskId(tool.value, taskId)))
            && (run.webhooks != [] && tool.Err? ==>
                  run.webhooks[0].payload["status"] == VStr("failed") &&
                  run.webhooks[0].payload["error"] == VStr(tool.error))
  {
  }
}
