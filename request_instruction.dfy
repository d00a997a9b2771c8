/**
 * The HTTP-request workflow instruction: `run` in its synchronous and
 * asynchronous modes, the callbacks that settle an asynchronous request, and
 * `resume`. The HTTP client is replaced by an abstract outcome.
 */
module RequestInstruction {
  import opened Common
  import opened RequestDescriptor
  import opened WorkflowEngine

  /**
   * The error stored as a failed job's result: the HTTP client's serialised
   * error (`error.toJSON()`, kept opaque), or the message of a rejection raised
   * while building the request.
   */
  datatype ErrorDetail = ClientError(json: string) | ErrorMessage(error: RequestError)

  /** How a request settles: the response data, or an error. */
  datatype Outcome = Success(data: Payload) | Failure(detail: ErrorDetail)

  /** The result payload of a request job. */
  datatype JobResult = ResponseData(data: Payload) | ErrorResult(detail: ErrorDetail)

  /** A flow node of this instruction type; its configuration is already variable-free. */
  datatype FlowNode = FlowNode(id: nat, key: string, config: RequestConfig)

  /**
   * What `request(config)` settles to when the HTTP client would answer
   * `response`: a rejection while building the request is a failure carrying
   * its message, and nothing is sent. A request without a body never
   * rejects, so it always gets the network's answer.
   */
  function Attempt(config: RequestConfig, response: Outcome): (r: Outcome)
    ensures Request(config).Ok? ==> r == response
    ensures Request(config).Err? ==> r == Failure(ErrorMessage(Request(config).error))
    ensures r.Success? ==> Request(config).Ok?
    ensures !CarriesBody(config.httpMethod.GetOr(DEFAULT_METHOD), config.data) ==> r == response
  {
    match Request(config)
    case Err(e) => Failure(ErrorMessage(e))
    case Ok(_) => response
  }

  /** The job result an outcome is recorded as: `response.data`, or the error detail. */
  function OutcomeResult(outcome: Outcome): JobResult {
    match outcome
    case Success(data) => ResponseData(data)
    case Failure(detail) => ErrorResult(detail)
  }

  /**
   * The synchronous branch of `run`: the awaited request and its `try`/`catch`.
   * It always completes, never with a pending status, and records the outcome.
   */
  function SyncRun(config: RequestConfig, response: Outcome): (r: RunResult<JobResult>)
    ensures r.Completed? && r.status != Pending
    ensures r.result == OutcomeResult(Attempt(config, response))
    ensures r.status == Failed <==> Attempt(config, response).Failure? && !config.ignoreFail
  {
    var outcome := Attempt(config, response);
    match outcome
    case Success(_) => Completed(Resolved, OutcomeResult(outcome))
    case Failure(_) => Completed(if config.ignoreFail then Resolved else Failed, OutcomeResult(outcome))
  }

  /** The status the asynchronous `.then`/`.catch` callbacks give the job. */
  function SettledStatus(outcome: Outcome): JobStatus {
    if outcome.Success? then Resolved else Failed
  }

  /** The status `resume` leaves on a job. */
  function ResumedStatus(ignoreFail: bool, status: JobStatus): JobStatus {
    if ignoreFail then Resolved else status
  }

  /** `prevJob?.id ?? null`. */
  function UpstreamId(prevJob: Job?<JobResult>): Option<nat> {
    if prevJob == null then None else Some(prevJob.id)
  }

  /**
   * Synchronous `run`, case by case: a successful outcome resolves with the
   * response data; a failure resolves only when `ignoreFail` is set, with the
   * error detail as the result.
   */
  lemma SyncRunOutcome(config: RequestConfig, response: Outcome)
    ensures var r := SyncRun(config, response);
      var outcome := Attempt(config, response);
      && (r.status == Resolved <==> outcome.Success? || config.ignoreFail)
      && (outcome.Success? ==> r.result == ResponseData(outcome.data))
      && (outcome.Failure? ==> r.result == ErrorResult(outcome.detail))
  {
  }

  /**
   * A body-carrying request with a content type that has no transformer never
   * reaches the network: the synchronous run records the rejection, resolved
   * only under `ignoreFail`, whatever the network would have answered.
   */
  lemma UnsupportedContentTypeFails(config: RequestConfig, response: Outcome)
    requires CarriesBody(config.httpMethod.GetOr(DEFAULT_METHOD), config.data)
    requires EffectiveContentType(config) != JSON_TYPE && EffectiveContentType(config) != FORM_TYPE
    ensures SyncRun(config, response) == Completed(
      if config.ignoreFail then Resolved else Failed,
      ErrorResult(ErrorMessage(UnsupportedContentType(EffectiveContentType(config)))))
  {
  }

  /**
   * Settling an asynchronous job and then resuming it leaves the same status
   * and result that the synchronous run returns for the same outcome.
   */
  lemma AsyncAgreesWithSync(config: RequestConfig, response: Outcome)
    ensures var outcome := Attempt(config, response);
      SyncRun(config, response) == Completed(ResumedStatus(config.ignoreFail, SettledStatus(outcome)), OutcomeResult(outcome))
  {
  }

  /** The request instruction, bound to the workflow plugin that resumes its jobs. */
  class Instruction {
    const workflow: WorkflowPlugin<JobResult>
    /**
     * Requests sent in asynchronous mode whose promise has not settled yet:
     * each job with the configuration its callbacks captured.
     */
    var inFlight: map<Job<JobResult>, RequestConfig>

    constructor (workflow: WorkflowPlugin<JobResult>)
      ensures this.workflow == workflow && inFlight == map[]
    {
      this.workflow := workflow;
      inFlight := map[];
    }

    /**
     * `run(node, prevJob, processor)`. `response` is what the HTTP client
     * answers in synchronous mode; in asynchronous mode the answer arrives
     * later, through `Settle`.
     */
    method Run(node: FlowNode, prevJob: Job?<JobResult>, processor: Processor<JobResult>, response: Outcome)
      returns (r: RunResult<JobResult>)
      modifies this, processor
      ensures processor.workflowSync ==>
        && r == SyncRun(node.config, response)
        && processor.jobs == old(processor.jobs) && processor.nextJobId == old(processor.nextJobId)
        && inFlight == old(inFlight)
      ensures !processor.workflowSync ==>
        && r == Exited
        && |processor.jobs| == |old(processor.jobs)| + 1
        && processor.jobs[..|old(processor.jobs)|] == old(processor.jobs)
        && var job := processor.jobs[|old(processor.jobs)|];
        && fresh(job)
        && job.status == Pending && job.result == None
        && job.nodeId == node.id && job.nodeKey == node.key && job.upstreamId == UpstreamId(prevJob)
        && inFlight == old(inFlight)[job := node.config]
    {
      var config := processor.GetParsedValue(node.config);
      if processor.workflowSync {
        r := SyncRun(config, response);
        return;
      }
      var job := processor.SaveJob(Pending, node.id, node.key, UpstreamId(prevJob));
      inFlight := inFlight[job := config];
      r := processor.Exit();
    }

    /**
     * The `.then`/`.catch`/`.finally` chain of an asynchronous request: records
     * the outcome on the job, then hands the job to the plugin's `resume`, once.
     */
    method Settle(job: Job<JobResult>, response: Outcome)
      requires job in inFlight
      modifies this, job, workflow
      ensures var outcome := Attempt(old(inFlight)[job], response);
        job.status == SettledStatus(outcome) && job.result == Some(OutcomeResult(outcome))
      ensures inFlight == old(inFlight) - {job}
      ensures workflow.resumed == old(workflow.resumed) + [job]
    {
      var outcome := Attempt(inFlight[job], response);
      match outcome {
        case Success(data) =>
          job.Set(Resolved, ResponseData(data));
        case Failure(detail) =>
          job.Set(Failed, ErrorResult(detail));
      }
      inFlight := inFlight - {job};
      workflow.Resume(job);
    }

    /** `resume(node, job)`: resolves the job when the node ignores failures; the result is never touched. */
    method Resume(node: FlowNode, job: Job<JobResult>) returns (j: Job<JobResult>)
      modifies job
      ensures j == job
      ensures job.status == ResumedStatus(node.config.ignoreFail, old(job.status))
      ensures job.result == old(job.result)
    {
      if node.config.ignoreFail {
        job.SetStatus(Resolved);
      }
      j := job;
    }
  }

  /**
   * The asynchronous protocol end to end on a fresh engine: `run` saves one
   * pending job without an upstream and exits; the settled request resumes it
   * exactly once; `resume` then leaves the status and result that the
   * synchronous run would have returned for the same outcome.
   */
  method SuspendAndResume(node: FlowNode, response: Outcome)
    returns (exit: RunResult<JobResult>, savedStatus: JobStatus, savedUpstream: Option<nat>,
             status: JobStatus, result: JobResult, resumeCalls: nat)
    ensures exit == Exited
    ensures savedStatus == Pending && savedUpstream == None
    ensures SyncRun(node.config, response) == Completed(status, result)
    ensures resumeCalls == 1
  {
    var workflow := new WorkflowPlugin<JobResult>();
    var instruction := new Instruction(workflow);
    var processor := new Processor<JobResult>(false);
    exit := instruction.Run(node, null, processor, response);
    var job := processor.jobs[0];
    savedStatus, savedUpstream := job.status, job.upstreamId;
    instruction.Settle(job, response);
    var resumed := instruction.Resume(node, job);
    AsyncAgreesWithSync(node.config, response);
    status := resumed.status;
    result := resumed.result.value;
    resumeCalls := |workflow.resumed|;
  }
}
