/**
 * The part of the workflow engine that an instruction sees: jobs, the
 * processor's `saveJob` and `exit`, and the plugin's `resume`. The engine
 * itself (graph walk, persistence, variable templating) is not modelled; these
 * classes only record what the instruction asks of it.
 */
module WorkflowEngine {
  import opened Common

  /** The `JOB_STATUS` constants an HTTP-request job passes through. */
  datatype JobStatus = Pending | Resolved | Failed

  /** A job record; `result` is None until something sets it. */
  class Job<R> {
    const id: nat
    const nodeId: nat
    const nodeKey: string
    const upstreamId: Option<nat>
    var status: JobStatus
    var result: Option<R>

    constructor (id: nat, nodeId: nat, nodeKey: string, upstreamId: Option<nat>, status: JobStatus)
      ensures this.id == id && this.nodeId == nodeId && this.nodeKey == nodeKey && this.upstreamId == upstreamId
      ensures this.status == status && this.result == None
    {
      this.id := id;
      this.nodeId := nodeId;
      this.nodeKey := nodeKey;
      this.upstreamId := upstreamId;
      this.status := status;
      this.result := None;
    }

    /** `job.set({status, result})`. */
    method Set(status: JobStatus, result: R)
      modifies this
      ensures this.status == status && this.result == Some(result)
    {
      this.status := status;
      this.result := Some(result);
    }

    /** `job.set('status', status)`: the result is left as it was. */
    method SetStatus(status: JobStatus)
      modifies this
      ensures this.status == status && result == old(result)
    {
      this.status := status;
    }
  }

  /** What an instruction's `run` returns: a finished job's `{status, result}`, or the exit signal. */
  datatype RunResult<R> = Completed(status: JobStatus, result: R) | Exited

  /** The processor of one execution, as far as an instruction uses it. */
  class Processor<R> {
    /** `isWorkflowSync(processor.execution.workflow)`. */
    const workflowSync: bool
    /** The jobs saved through `saveJob`, in order. */
    var jobs: seq<Job<R>>
    var nextJobId: nat

    constructor (workflowSync: bool)
      ensures this.workflowSync == workflowSync && jobs == [] && nextJobId == 0
    {
      this.workflowSync := workflowSync;
      jobs := [];
      nextJobId := 0;
    }

    /** `processor.getParsedValue(config, nodeId)`; variable templating is outside the model. */
    function GetParsedValue<C>(config: C): C {
      config
    }

    /** `processor.saveJob({status, nodeId, nodeKey, upstreamId})`: appends one fresh job with the next id. */
    method SaveJob(status: JobStatus, nodeId: nat, nodeKey: string, upstreamId: Option<nat>) returns (job: Job<R>)
      modifies this
      ensures fresh(job) && jobs == old(jobs) + [job] && nextJobId == old(nextJobId) + 1
      ensures job.id == old(nextJobId) && job.nodeId == nodeId && job.nodeKey == nodeKey && job.upstreamId == upstreamId
      ensures job.status == status && job.result == None
    {
      job := new Job(nextJobId, nodeId, nodeKey, upstreamId, status);
      jobs := jobs + [job];
      nextJobId := nextJobId + 1;
    }

    /** `processor.exit()`: the signal that ends this step of the walk without a result. */
    function Exit(): RunResult<R> {
      Exited
    }
  }

  /** The workflow plugin, as far as an instruction uses it: `this.workflow.resume(job)`. */
  class WorkflowPlugin<R> {
    /** The jobs handed to `resume`, in order. */
    var resumed: seq<Job<R>>

    constructor ()
      ensures resumed == []
    {
      resumed := [];
    }

    method Resume(job: Job<R>)
      modifies this
      ensures resumed == old(resumed) + [job]
    {
      resumed := resumed + [job];
    }
  }
}
