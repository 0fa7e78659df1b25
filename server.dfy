/** The job store of the HTTP service (main.py): two dictionaries, the job
    records and the payment-SDK instances of the jobs whose payment is still
    monitored, and the three handlers that change them.

    The payment SDK, the webhook executor and the process environment are
    parameters: each SDK call is an `Outcome` (a reply, or the text of the
    exception it raised), the executor is a function from the job's text and
    identifier to an `Outcome`, and the environment is a map.  A fresh
    job identifier (a random UUID in the source) is a caller-supplied
    identifier that is not yet in the store. */
module Server {
  import opened Jobs
  import opened PyText

  /** A JSON reply of the payment SDK, read as `reply["data"][field]`. */
  type Reply = map<string, map<string, string>>

  datatype Amount = Amount(amount: int, unit: string)

  /** A `Payment` instance of the SDK: what it was created with, and the
      identifiers of the payment requests it tracks. */
  datatype Payment = Payment(
    agentIdentifier: string,
    amounts: seq<Amount>,
    network: string,
    identifierFromPurchaser: string,
    inputData: map<string, string>,
    paymentIds: set<string>)

  datatype StartJobRequest = StartJobRequest(identifierFromPurchaser: string, inputData: map<string, string>)

  datatype AmountView = AmountView(amount: string, unit: string)

  /** The body of a successful `POST /start_job`. */
  datatype StartJobResponse = StartJobResponse(
    status: string,
    jobId: JobId,
    blockchainIdentifier: string,
    submitResultTime: string,
    unlockTime: string,
    externalDisputeUnlockTime: string,
    agentIdentifier: string,
    sellerVkey: string,
    identifierFromPurchaser: string,
    amounts: seq<AmountView>)

  /** The body of a successful `GET /status`. */
  datatype JobStatusView = JobStatusView(jobId: JobId, status: string, paymentStatus: string, result: Option<string>)

  /** An `HTTPException`: status code and detail. */
  datatype HttpError = HttpError(statusCode: int, detail: string)

  datatype Response<T> = Ok(body: T) | Refused(error: HttpError)

  const MISSING_FIELD := "Missing required field in request schema"
  const NOT_FOUND := "Job not found"

  /** `os.getenv(name, default)`. */
  function Getenv(env: map<string, string>, name: string, default: string): string {
    if name in env then env[name] else default
  }

  /** `reply["data"][field]`, None where either lookup raises KeyError. */
  function Lookup(reply: Reply, field: string): Option<string> {
    if "data" in reply && field in reply["data"] then Some(reply["data"][field]) else None
  }

  /** The KeyError `reply["data"][field]` raises when the lookup fails. */
  function MissingKey(reply: Reply, field: string): Error {
    if "data" in reply then KeyError(field) else KeyError("data")
  }

  /** `int(os.getenv("PAYMENT_AMOUNT", "10000000"))`, None where `int()` raises. */
  function ConfiguredAmount(env: map<string, string>): Option<int> {
    ParseInt(Getenv(env, "PAYMENT_AMOUNT", "10000000"))
  }

  /** The ValueError `int()` raises on an amount that does not parse. */
  function AmountError(env: map<string, string>): Error {
    OtherError(IntValueError(Getenv(env, "PAYMENT_AMOUNT", "10000000")))
  }

  /** The `Payment` instance `start_job` creates, before it records a payment
      request. */
  function NewPayment(request: StartJobRequest, env: map<string, string>, amount: int): Payment {
    Payment(
      Getenv(env, "AGENT_IDENTIFIER", "demo-agent"),
      [Amount(amount, Getenv(env, "PAYMENT_UNIT", "lovelace"))],
      Getenv(env, "MASUMI_NETWORK", "Preprod"),
      request.identifierFromPurchaser,
      request.inputData,
      {})
  }

  /** The record `start_job` stores for a job awaiting payment `paymentId`. */
  function NewJob(request: StartJobRequest, paymentId: string): Job<string> {
    Job(AwaitingPayment, "pending", paymentId, request.inputData, None, request.identifierFromPurchaser, None)
  }

  /** The payment identifier under which `start_job` stores a job, None when
      it gives up before storing anything: the amount does not parse, the
      `Payment` constructor or the payment request raises, or the reply has
      no blockchain identifier. */
  function StoredPaymentId(env: map<string, string>, construct: Step, created: Outcome<Reply>): (p: Option<string>)
    ensures p.Some? <==>
      && ConfiguredAmount(env).Some?
      && construct.Succeeds?
      && created.Returns?
      && Lookup(created.value, "blockchainIdentifier").Some?
    ensures p.Some? ==> p.value == created.value["data"]["blockchainIdentifier"]
  {
    if ConfiguredAmount(env).Some? && construct.Succeeds? && created.Returns? then
      Lookup(created.value, "blockchainIdentifier")
    else None
  }

  /** The 400 answer of `start_job` for the exception that ended its try
      block: a KeyError gets the fixed detail, any other exception its text. */
  function Refusal(e: Error): (h: HttpError)
    ensures h.statusCode == 400
    ensures e.KeyError? <==> h.detail == MISSING_FIELD
    ensures e.OtherError? ==> h.detail == "Error: " + e.text
  {
    match e
    case KeyError(_) => HttpError(400, MISSING_FIELD)
    case OtherError(t) =>
      assert ("Error: " + t)[0] != MISSING_FIELD[0];
      HttpError(400, "Error: " + t)
  }

  /** The state of the payment callback's try block when it ends: the record
      as it then stands, and the exception that ended the block early, if
      any. */
  datatype Attempt = Attempt(record: Job<string>, raised: Option<Error>)

  /** The try block of the payment callback, run on the stored record `job`.
      It writes "running", reads the record's "text" (KeyError if absent),
      runs the executor, finalises the payment through the job's instance
      (KeyError if the job is no longer monitored), writes the completed
      state, then stops the monitoring. */
  function TryBlock(
    job: Job<string>, jobId: JobId, monitored: bool,
    execute: (string, JobId) -> Outcome<string>, complete: Step, stopOnSuccess: Step): (a: Attempt)
    ensures a.raised.None? ==> a.record.status == Completed && a.record.result.Some?
    ensures a.record.status != Completed ==> a.record == job.(status := Running)
  {
    var running := job.(status := Running);
    if "text" !in job.inputData then Attempt(running, Some(KeyError("text")))
    else
      match execute(job.inputData["text"], jobId)
      case Throws(e) => Attempt(running, Some(e))
      case Returns(answer) =>
        if !monitored then Attempt(running, Some(KeyError(jobId)))
        else
          match complete
          case Fails(e) => Attempt(running, Some(e))
          case Succeeds =>
            var done := running.(status := Completed, paymentStatus := "completed", result := Some(answer));
            match stopOnSuccess
            case Fails(e) => Attempt(done, Some(e))
            case Succeeds => Attempt(done, None)
  }

  /** The try block step by step: it completes the job exactly when the
      record has "text", the executor answers, the job is monitored and the
      payment is finalised, and then stores the answer; it ends without an
      exception exactly when it completed the job and stopped the
      monitoring; otherwise the first failing step's exception ends it, with
      the record left "running". */
  lemma TryBlockSteps(
    job: Job<string>, jobId: JobId, monitored: bool,
    execute: (string, JobId) -> Outcome<string>, complete: Step, stopOnSuccess: Step)
    ensures var a := TryBlock(job, jobId, monitored, execute, complete, stopOnSuccess);
      && (a.record.status == Completed <==>
            && "text" in job.inputData
            && execute(job.inputData["text"], jobId).Returns?
            && monitored
            && complete.Succeeds?)
      && (a.raised.None? <==> a.record.status == Completed && stopOnSuccess.Succeeds?)
      && (a.record.status == Completed ==>
            a.record == job.(status := Completed, paymentStatus := "completed",
                             result := Some(execute(job.inputData["text"], jobId).value)))
      && ("text" !in job.inputData ==> a.raised == Some(KeyError("text")))
      && ("text" in job.inputData && execute(job.inputData["text"], jobId).Throws? ==>
            a.raised == Some(execute(job.inputData["text"], jobId).error))
      && ("text" in job.inputData && execute(job.inputData["text"], jobId).Returns? && !monitored ==>
            a.raised == Some(KeyError(jobId)))
      && (&& "text" in job.inputData && execute(job.inputData["text"], jobId).Returns?
          && monitored && complete.Fails?
          ==> a.raised == Some(complete.error))
      && (a.record.status == Completed && stopOnSuccess.Fails? ==> a.raised == Some(stopOnSuccess.error))
  {
  }

  /** The record after the callback's except branch, if it ran: a block that
      ended early leaves the job failed with the exception's text as error,
      whatever it had written before. */
  function Settle(a: Attempt): (j: Job<string>)
    requires a.raised.None? ==> a.record.status == Completed && a.record.result.Some?
    ensures j.status == Completed || j.status == Failed
    ensures j.status == Completed <==> a.raised.None?
    ensures j.status == Completed ==> j.result.Some?
    ensures j.status == Failed ==> j.error.Some?
    ensures a.raised.None? ==> j == a.record
    ensures a.raised.Some? ==> j == a.record.(status := Failed, error := Some(a.raised.value.Message()))
    ensures j.paymentId == a.record.paymentId && j.inputData == a.record.inputData
    ensures j.identifierFromPurchaser == a.record.identifierFromPurchaser && j.result == a.record.result
  {
    match a.raised
    case None => a.record
    case Some(e) => a.record.(status := Failed, error := Some(e.Message()))
  }

  /** Whether the callback leaves the job monitored: the try block ended
      early on a monitored job and the except branch's own
      `stop_status_monitoring` raised, which also escapes the callback. */
  function StaysMonitored(a: Attempt, monitored: bool, stopOnFailure: Step): bool {
    a.raised.Some? && monitored && stopOnFailure.Fails?
  }

  /** The payment status `get_status` stores for a monitored job: the
      reported `data.status`, "unknown" when the reply has none, "error" when
      the check raises. */
  function RefreshedStatus(check: Outcome<Reply>): (s: string)
    ensures check.Throws? ==> s == "error"
    ensures check.Returns? && Lookup(check.value, "status").Some? ==> s == check.value["data"]["status"]
    ensures check.Returns? && Lookup(check.value, "status").None? ==> s == "unknown"
  {
    match check
    case Throws(_) => "error"
    case Returns(reply) =>
      var reported := Lookup(reply, "status");
      if reported.Some? then reported.value else "unknown"
  }

  /** The answer of `POST /start_job` once `int()` of the configured amount
      has given `amount` (None where it raised), read off the try block in
      order: the `Payment` constructor, the payment request, the reply's
      blockchain identifier, starting the monitoring, then the reply's
      remaining fields.  The first exception decides the refusal. */
  function StartJobAnswer(
    request: StartJobRequest, jobId: JobId, env: map<string, string>, amount: Option<int>,
    construct: Step, created: Outcome<Reply>, monitoring: Step): (r: Response<StartJobResponse>)
    ensures r.Refused? ==> r.error.statusCode == 400
    ensures r.Ok? ==>
      && r.body.status == "success" && r.body.jobId == jobId
      && r.body.identifierFromPurchaser == request.identifierFromPurchaser
      && |r.body.amounts| == 1
  {
    match amount
    case None => Refused(Refusal(AmountError(env)))
    case Some(value) =>
      if construct.Fails? then Refused(Refusal(construct.error))
      else
        match created
        case Throws(e) => Refused(Refusal(e))
        case Returns(reply) =>
          if Lookup(reply, "blockchainIdentifier").None? then
            Refused(Refusal(MissingKey(reply, "blockchainIdentifier")))
          else if monitoring.Fails? then Refused(Refusal(monitoring.error))
          else if Lookup(reply, "submitResultTime").None? then Refused(Refusal(KeyError("submitResultTime")))
          else if Lookup(reply, "unlockTime").None? then Refused(Refusal(KeyError("unlockTime")))
          else if Lookup(reply, "externalDisputeUnlockTime").None? then
            Refused(Refusal(KeyError("externalDisputeUnlockTime")))
          else Ok(StartJobResponse(
            "success", jobId,
            reply["data"]["blockchainIdentifier"],
            reply["data"]["submitResultTime"],
            reply["data"]["unlockTime"],
            reply["data"]["externalDisputeUnlockTime"],
            Getenv(env, "AGENT_IDENTIFIER", "demo-agent"),
            Getenv(env, "SELLER_VKEY", ""),
            request.identifierFromPurchaser,
            [AmountView(IntText(value), Getenv(env, "PAYMENT_UNIT", "lovelace"))]))
  }

  /** The answer of `POST /start_job`: a refusal is a 400, and a success
      names the job, its purchaser and the one amount. */
  function StartJobReply(
    request: StartJobRequest, jobId: JobId, env: map<string, string>,
    construct: Step, created: Outcome<Reply>, monitoring: Step): (r: Response<StartJobResponse>)
    ensures r.Refused? ==> r.error.statusCode == 400
    ensures r.Ok? ==>
      && r.body.status == "success" && r.body.jobId == jobId
      && r.body.identifierFromPurchaser == request.identifierFromPurchaser
      && |r.body.amounts| == 1
  {
    StartJobAnswer(request, jobId, env, ConfiguredAmount(env), construct, created, monitoring)
  }

  /** `StartJobAccepts` for any outcome of `int()`. */
  lemma AnswerAccepts(
    request: StartJobRequest, jobId: JobId, env: map<string, string>, amount: Option<int>,
    construct: Step, created: Outcome<Reply>, monitoring: Step)
    ensures StartJobAnswer(request, jobId, env, amount, construct, created, monitoring).Ok? <==>
      && amount.Some?
      && construct.Succeeds?
      && created.Returns?
      && Lookup(created.value, "blockchainIdentifier").Some?
      && Lookup(created.value, "submitResultTime").Some?
      && Lookup(created.value, "unlockTime").Some?
      && Lookup(created.value, "externalDisputeUnlockTime").Some?
      && monitoring.Succeeds?
  {
  }

  /** `start_job` succeeds exactly when the amount parses, the `Payment` is
      constructed, the payment request returns a reply carrying all four
      fields, and the monitoring starts; a successful answer always comes
      with a stored job. */
  lemma StartJobAccepts(
    request: StartJobRequest, jobId: JobId, env: map<string, string>,
    construct: Step, created: Outcome<Reply>, monitoring: Step)
    ensures StartJobReply(request, jobId, env, construct, created, monitoring).Ok? <==>
      && ConfiguredAmount(env).Some?
      && construct.Succeeds?
      && created.Returns?
      && Lookup(created.value, "blockchainIdentifier").Some?
      && Lookup(created.value, "submitResultTime").Some?
      && Lookup(created.value, "unlockTime").Some?
      && Lookup(created.value, "externalDisputeUnlockTime").Some?
      && monitoring.Succeeds?
    ensures StartJobReply(request, jobId, env, construct, created, monitoring).Ok? ==>
      StoredPaymentId(env, construct, created).Some?
  {
    AnswerAccepts(request, jobId, env, ConfiguredAmount(env), construct, created, monitoring);
  }

  /** `StartJobRefusals` for any outcome of `int()`. */
  lemma AnswerRefusals(
    request: StartJobRequest, jobId: JobId, env: map<string, string>, amount: Option<int>,
    construct: Step, created: Outcome<Reply>, monitoring: Step)
    ensures var r := StartJobAnswer(request, jobId, env, amount, construct, created, monitoring);
      && (amount.None? ==>
            r == Refused(HttpError(400, "Error: " + IntValueError(Getenv(env, "PAYMENT_AMOUNT", "10000000")))))
      && (amount.Some? && construct.Fails? ==> r == Refused(Refusal(construct.error)))
      && (amount.Some? && construct.Succeeds? && created.Throws? ==> r == Refused(Refusal(created.error)))
      && (amount.Some? && construct.Succeeds? && created.Returns?
            && Lookup(created.value, "blockchainIdentifier").None? ==>
            r == Refused(HttpError(400, MISSING_FIELD)))
      && (amount.Some? && construct.Succeeds? && created.Returns?
            && Lookup(created.value, "blockchainIdentifier").Some? && monitoring.Fails? ==>
            r == Refused(Refusal(monitoring.error)))
      && (amount.Some? && construct.Succeeds? && created.Returns?
            && Lookup(created.value, "blockchainIdentifier").Some? && monitoring.Succeeds? && r.Refused? ==>
            r == Refused(HttpError(400, MISSING_FIELD)))
  {
  }

  /** The refusals of `start_job`, one per failing step: the ValueError of
      `int()`, the exception of the `Payment` constructor, of the payment
      request or of the monitoring start, or the KeyError of a missing reply
      field.  A KeyError from any step gets the fixed detail; any other
      exception "Error: " and its text. */
  lemma StartJobRefusals(
    request: StartJobRequest, jobId: JobId, env: map<string, string>,
    construct: Step, created: Outcome<Reply>, monitoring: Step)
    ensures var r := StartJobReply(request, jobId, env, construct, created, monitoring);
      && (ConfiguredAmount(env).None? ==>
            r == Refused(HttpError(400, "Error: " + IntValueError(Getenv(env, "PAYMENT_AMOUNT", "10000000")))))
      && (ConfiguredAmount(env).Some? && construct.Fails? ==>
            r == Refused(Refusal(construct.error)))
      && (ConfiguredAmount(env).Some? && construct.Succeeds? && created.Throws? ==>
            r == Refused(Refusal(created.error)))
      && (ConfiguredAmount(env).Some? && construct.Succeeds? && created.Returns?
            && Lookup(created.value, "blockchainIdentifier").None? ==>
            r == Refused(HttpError(400, MISSING_FIELD)))
      && (StoredPaymentId(env, construct, created).Some? && monitoring.Fails? ==>
            r == Refused(Refusal(monitoring.error)))
      && (StoredPaymentId(env, construct, created).Some? && monitoring.Succeeds? && r.Refused? ==>
            r == Refused(HttpError(400, MISSING_FIELD)))
  {
    AnswerRefusals(request, jobId, env, ConfiguredAmount(env), construct, created, monitoring);
  }

  /** A successful answer reports the reply's identifier and time fields,
      the configured agent, seller key and unit, and `str()` of the amount. */
  lemma AnswerEchoes(
    request: StartJobRequest, jobId: JobId, env: map<string, string>, amount: Option<int>,
    construct: Step, created: Outcome<Reply>, monitoring: Step)
    requires StartJobAnswer(request, jobId, env, amount, construct, created, monitoring).Ok?
    ensures var body := StartJobAnswer(request, jobId, env, amount, construct, created, monitoring).body;
      && amount.Some? && construct.Succeeds? && created.Returns?
      && Lookup(created.value, "blockchainIdentifier") == Some(body.blockchainIdentifier)
      && Lookup(created.value, "submitResultTime") == Some(body.submitResultTime)
      && Lookup(created.value, "unlockTime") == Some(body.unlockTime)
      && Lookup(created.value, "externalDisputeUnlockTime") == Some(body.externalDisputeUnlockTime)
      && body.agentIdentifier == Getenv(env, "AGENT_IDENTIFIER", "demo-agent")
      && body.sellerVkey == Getenv(env, "SELLER_VKEY", "")
      && |body.amounts| == 1 && body.amounts[0].amount == IntText(amount.value)
      && body.amounts[0].unit == Getenv(env, "PAYMENT_UNIT", "lovelace")
  {
  }

  /** The answer echoes the reply's payment request, its time fields, and
      the agent and amount it was created for: `int()` of the reported
      amount gives back the amount the stored payment instance holds, and
      the unit is the instance's unit. */
  lemma StartJobEchoesPayment(
    request: StartJobRequest, jobId: JobId, env: map<string, string>,
    construct: Step, created: Outcome<Reply>, monitoring: Step)
    requires StartJobReply(request, jobId, env, construct, created, monitoring).Ok?
    ensures var body := StartJobReply(request, jobId, env, construct, created, monitoring).body;
      && body.blockchainIdentifier == StoredPaymentId(env, construct, created).value
      && body.submitResultTime == created.value["data"]["submitResultTime"]
      && body.unlockTime == created.value["data"]["unlockTime"]
      && body.externalDisputeUnlockTime == created.value["data"]["externalDisputeUnlockTime"]
      && body.agentIdentifier == NewPayment(request, env, ConfiguredAmount(env).value).agentIdentifier
      && body.sellerVkey == Getenv(env, "SELLER_VKEY", "")
      && ParseInt(body.amounts[0].amount) == Some(NewPayment(request, env, ConfiguredAmount(env).value).amounts[0].amount)
      && body.amounts[0].unit == NewPayment(request, env, ConfiguredAmount(env).value).amounts[0].unit
  {
    var amount := ConfiguredAmount(env);
    AnswerEchoes(request, jobId, env, amount, construct, created, monitoring);
    ParseIntText(amount.value);
  }

  /** The payment instance of job `id`, if it is monitored. */
  function InstanceOf(instances: map<JobId, Payment>, id: JobId): Option<Payment> {
    if id in instances then Some(instances[id]) else None
  }

  /** What holds of one job record and its payment instance between handler
      calls: a job awaiting payment is monitored and has neither result nor
      error; a monitored job awaits payment, or failed after its monitoring
      could not be stopped, and its instance tracks the job's payment
      request; no job rests in "running"; a completed job has a result and a
      failed one an error. */
  ghost predicate WellKept(job: Job<string>, instance: Option<Payment>) {
    && job.status != Running
    && (job.status == AwaitingPayment ==> instance.Some? && job.result == None && job.error == None)
    && (instance.Some? ==>
          (job.status == AwaitingPayment || job.status == Failed) && job.paymentId in instance.value.paymentIds)
    && (job.status == Completed ==> job.result.Some?)
    && (job.status == Failed ==> job.error.Some?)
  }

  /** What holds of the two dictionaries between handler calls: only stored
      jobs are monitored, and every record is well kept. */
  ghost predicate Consistent(jobs: map<JobId, Job<string>>, instances: map<JobId, Payment>) {
    && instances.Keys <= jobs.Keys
    && forall id {:trigger WellKept(jobs[id], InstanceOf(instances, id))} ::
         id in jobs ==> WellKept(jobs[id], InstanceOf(instances, id))
  }

  /** Storing a new job awaiting payment, with its monitored instance
      tracking the job's payment request, keeps the store consistent. */
  lemma InsertKeepsConsistent(
    jobs: map<JobId, Job<string>>, instances: map<JobId, Payment>, id: JobId, job: Job<string>, payment: Payment)
    requires Consistent(jobs, instances) && id !in jobs
    requires job.status == AwaitingPayment && job.result == None && job.error == None
    requires job.paymentId in payment.paymentIds
    ensures Consistent(jobs[id := job], instances[id := payment])
  {
    var jobs', instances' := jobs[id := job], instances[id := payment];
    forall other | other in jobs'
      ensures WellKept(jobs'[other], InstanceOf(instances', other))
    {
      if other != id {
        assert InstanceOf(instances', other) == InstanceOf(instances, other);
        assert WellKept(jobs[other], InstanceOf(instances, other));
      }
    }
  }

  /** Settling a job as completed with a result, or failed with an error,
      keeps the store consistent when its instance is dropped, and also when
      a failed job keeps it. */
  lemma SettleKeepsConsistent(
    jobs: map<JobId, Job<string>>, instances: map<JobId, Payment>, id: JobId, job: Job<string>, keep: bool)
    requires Consistent(jobs, instances) && id in jobs
    requires (job.status == Completed && job.result.Some?) || (job.status == Failed && job.error.Some?)
    requires job.paymentId == jobs[id].paymentId
    requires keep ==> job.status == Failed
    ensures Consistent(jobs[id := job], if keep then instances else instances - {id})
  {
    var jobs', instances' := jobs[id := job], if keep then instances else instances - {id};
    assert WellKept(jobs[id], InstanceOf(instances, id));
    forall other | other in jobs'
      ensures WellKept(jobs'[other], InstanceOf(instances', other))
    {
      if other != id {
        assert InstanceOf(instances', other) == InstanceOf(instances, other);
        assert WellKept(jobs[other], InstanceOf(instances, other));
      }
    }
  }

  /** Changing only a job's payment status keeps the store consistent, and
      leaves every job's status and result as they were. */
  lemma RefreshKeepsConsistent(
    jobs: map<JobId, Job<string>>, instances: map<JobId, Payment>, id: JobId, paymentStatus: string)
    requires Consistent(jobs, instances) && id in jobs
    ensures var refreshed := jobs[id := jobs[id].(paymentStatus := paymentStatus)];
      && Consistent(refreshed, instances)
      && refreshed.Keys == jobs.Keys
      && forall other :: other in jobs ==>
           refreshed[other].status == jobs[other].status && refreshed[other].result == jobs[other].result
  {
    var refreshed := jobs[id := jobs[id].(paymentStatus := paymentStatus)];
    forall other | other in refreshed
      ensures WellKept(refreshed[other], InstanceOf(instances, other))
    {
      assert WellKept(jobs[other], InstanceOf(instances, other));
    }
  }

  /** What the callback leaves a stored job with, whatever the steps do: it
      ends completed or failed; a job that had already completed (and so is
      no longer monitored) fails on the missing instance and is not kept
      monitored; a job without "text" fails with the KeyError's text. */
  lemma CallbackSettles(
    job: Job<string>, jobId: JobId, monitored: bool,
    execute: (string, JobId) -> Outcome<string>, complete: Step, stopOnSuccess: Step, stopOnFailure: Step)
    requires job.status == Completed ==> !monitored
    ensures var a := TryBlock(job, jobId, monitored, execute, complete, stopOnSuccess);
      && (Settle(a).status == Completed || Settle(a).status == Failed)
      && (job.status == Completed ==> Settle(a).status == Failed && !StaysMonitored(a, monitored, stopOnFailure))
      && ("text" !in job.inputData ==> Settle(a).status == Failed && Settle(a).error == Some(KeyErrorText("text")))
  {
    TryBlockSteps(job, jobId, monitored, execute, complete, stopOnSuccess);
  }

  class JobStore {
    var jobs: map<JobId, Job<string>>
    var paymentInstances: map<JobId, Payment>

    ghost predicate Valid()
      reads this
    {
      Consistent(jobs, paymentInstances)
    }

    constructor ()
      ensures Valid()
      ensures jobs == map[] && paymentInstances == map[]
    {
      jobs := map[];
      paymentInstances := map[];
    }

    /** `POST /start_job`.  Nothing is stored unless the `Payment` was
        constructed, the payment request was created and its reply names a
        blockchain identifier; from then on the job is stored and monitored
        even if starting the monitoring raises or the reply lacks a field of
        the response, in which case the handler still answers 400.  The
        answer is `StartJobReply`. */
    method StartJob(
      request: StartJobRequest, jobId: JobId, env: map<string, string>,
      construct: Step, created: Outcome<Reply>, monitoring: Step)
      returns (r: Response<StartJobResponse>)
      requires Valid()
      requires jobId !in jobs
      modifies this
      ensures Valid()
      ensures r == StartJobReply(request, jobId, env, construct, created, monitoring)
      ensures StoredPaymentId(env, construct, created).None? ==>
        jobs == old(jobs) && paymentInstances == old(paymentInstances)
      ensures StoredPaymentId(env, construct, created).Some? ==>
        var paymentId := StoredPaymentId(env, construct, created).value;
        var payment := NewPayment(request, env, ConfiguredAmount(env).value);
        && jobs == old(jobs)[jobId := NewJob(request, paymentId)]
        && paymentInstances == old(paymentInstances)[jobId := payment.(paymentIds := {paymentId})]
    {
      var agentIdentifier := Getenv(env, "AGENT_IDENTIFIER", "demo-agent");
      var amountText := Getenv(env, "PAYMENT_AMOUNT", "10000000");
      var parsed := ParseInt(amountText);
      if parsed.None? {
        return Refused(Refusal(OtherError(IntValueError(amountText))));
      }
      if construct.Fails? {
        return Refused(Refusal(construct.error));
      }
      var payment := NewPayment(request, env, parsed.value);
      var amounts := payment.amounts;

      if created.Throws? {
        return Refused(Refusal(created.error));
      }
      var reply := created.value;
      var paymentId := Lookup(reply, "blockchainIdentifier");
      if paymentId.None? {
        return Refused(Refusal(MissingKey(reply, "blockchainIdentifier")));
      }
      payment := payment.(paymentIds := payment.paymentIds + {paymentId.value});
      assert payment.paymentIds == {paymentId.value};

      var job := NewJob(request, paymentId.value);
      InsertKeepsConsistent(jobs, paymentInstances, jobId, job, payment);
      jobs := jobs[jobId := job];
      paymentInstances := paymentInstances[jobId := payment];
      if monitoring.Fails? {
        return Refused(Refusal(monitoring.error));
      }

      // The one amount, formatted as the response's amount model.
      var amountList := [AmountView(IntText(amounts[0].amount), amounts[0].unit)];
      var submitResultTime := Lookup(reply, "submitResultTime");
      if submitResultTime.None? {
        return Refused(Refusal(KeyError("submitResultTime")));
      }
      var unlockTime := Lookup(reply, "unlockTime");
      if unlockTime.None? {
        return Refused(Refusal(KeyError("unlockTime")));
      }
      var disputeUnlockTime := Lookup(reply, "externalDisputeUnlockTime");
      if disputeUnlockTime.None? {
        return Refused(Refusal(KeyError("externalDisputeUnlockTime")));
      }
      r := Ok(StartJobResponse(
        "success", jobId, paymentId.value, submitResultTime.value, unlockTime.value, disputeUnlockTime.value,
        agentIdentifier, Getenv(env, "SELLER_VKEY", ""), request.identifierFromPurchaser, amountList));
    }

    /** The payment callback `handle_payment_status(job_id, payment_id)`,
        run as one step.  The try block is `TryBlock`; if it ends early, the
        except branch stores "failed" with the exception's text.  The job's
        instance is dropped after a successful stop of its monitoring, in the
        try block or in the except branch; if the except branch's stop
        raises, that exception escapes and the job stays monitored.  No other
        job changes.  For an unknown job both the try block and the except
        block raise KeyError, so the exception escapes and nothing is
        written.  The job's current status is not consulted.  `written`
        lists the statuses stored in the record, in order. */
    method HandlePaymentStatus(
      jobId: JobId, paymentId: string,
      execute: (string, JobId) -> Outcome<string>, complete: Step, stopOnSuccess: Step, stopOnFailure: Step)
      returns (escaped: Option<Error>, ghost written: seq<Status>)
      requires Valid()
      modifies this
      ensures Valid()
      ensures jobId !in old(jobs) ==>
        && escaped == Some(KeyError(jobId))
        && written == []
        && jobs == old(jobs)
        && paymentInstances == old(paymentInstances)
      ensures jobId in old(jobs) ==>
        var monitored := jobId in old(paymentInstances);
        var a := TryBlock(old(jobs)[jobId], jobId, monitored, execute, complete, stopOnSuccess);
        var stays := StaysMonitored(a, monitored, stopOnFailure);
        && jobs == old(jobs)[jobId := Settle(a)]
        && escaped == (if stays then Some(stopOnFailure.error) else None)
        && paymentInstances == (if stays then old(paymentInstances) else old(paymentInstances) - {jobId})
        && written == [Running] + (if a.record.status == Completed then [Completed] else [])
                                + (if a.raised.Some? then [Failed] else [])
      ensures jobId in old(jobs) ==> jobs[jobId].status == Completed || jobs[jobId].status == Failed
      ensures jobId in old(jobs) && old(jobs)[jobId].status == Completed ==>
        jobs[jobId].status == Failed && jobId !in paymentInstances
      ensures jobId in old(jobs) && "text" !in old(jobs)[jobId].inputData ==>
        jobs[jobId].status == Failed && jobs[jobId].error == Some(KeyErrorText("text"))
    {
      if jobId !in jobs {
        escaped, written := Some(KeyError(jobId)), [];
        return;
      }
      var job := jobs[jobId];
      var monitored := jobId in paymentInstances;
      assert WellKept(job, InstanceOf(paymentInstances, jobId));
      CallbackSettles(job, jobId, monitored, execute, complete, stopOnSuccess, stopOnFailure);
      jobs := jobs[jobId := job.(status := Running)];
      written := [Running];
      var a := TryBlock(job, jobId, monitored, execute, complete, stopOnSuccess);
      if a.record.status == Completed {
        jobs := jobs[jobId := a.record];
        written := written + [Completed];
      }
      assert jobs == old(jobs)[jobId := a.record];
      if a.raised.Some? {
        jobs := jobs[jobId := Settle(a)];
        written := written + [Failed];
      }
      assert jobs == old(jobs)[jobId := Settle(a)];
      var stays := StaysMonitored(a, monitored, stopOnFailure);
      // The instance is dropped unless the except branch's stop raised.
      paymentInstances := if stays then paymentInstances else paymentInstances - {jobId};
      escaped := if stays then Some(stopOnFailure.error) else None;
      SettleKeepsConsistent(old(jobs), old(paymentInstances), jobId, Settle(a), stays);
    }

    /** `GET /status`.  An unknown job is a 404 and changes nothing.  A known
        job is reported as stored; if it is monitored, its payment status is
        first refreshed from the SDK's check.  Nothing else changes. */
    method GetStatus(jobId: JobId, check: Outcome<Reply>) returns (r: Response<JobStatusView>)
      requires Valid()
      modifies this
      ensures Valid()
      ensures paymentInstances == old(paymentInstances)
      ensures jobId !in old(jobs) ==> r == Refused(HttpError(404, NOT_FOUND)) && jobs == old(jobs)
      ensures jobId in old(jobs) && jobId !in old(paymentInstances) ==>
        var job := old(jobs)[jobId];
        && jobs == old(jobs)
        && r == Ok(JobStatusView(jobId, StatusName(job.status), job.paymentStatus, job.result))
      ensures jobId in old(jobs) && jobId in old(paymentInstances) ==>
        var job := old(jobs)[jobId];
        && jobs == old(jobs)[jobId := job.(paymentStatus := RefreshedStatus(check))]
        && r == Ok(JobStatusView(jobId, StatusName(job.status), RefreshedStatus(check), job.result))
    {
      if jobId !in jobs {
        return Refused(HttpError(404, NOT_FOUND));
      }
      var job := jobs[jobId];
      if jobId in paymentInstances {
        var paymentStatus: string;
        match check {
          case Returns(reply) =>
            var reported := Lookup(reply, "status");
            paymentStatus := if reported.Some? then reported.value else "unknown";
          case Throws(_) =>
            paymentStatus := "error";
        }
        RefreshKeepsConsistent(jobs, paymentInstances, jobId, paymentStatus);
        job := job.(paymentStatus := paymentStatus);
        jobs := jobs[jobId := job];
      }
      r := Ok(JobStatusView(jobId, StatusName(job.status), job.paymentStatus, job.result));
    }
  }

  /** The start-then-status scenario of the endpoint tests: a job started on
      a fresh store with a complete payment reply is reported right away, as
      awaiting payment. */
  method StartThenStatus(jobId: JobId, env: map<string, string>, reply: Reply, check: Outcome<Reply>)
    returns (started: Response<StartJobResponse>, status: Response<JobStatusView>)
    requires ConfiguredAmount(env).Some?
    requires Lookup(reply, "blockchainIdentifier").Some? && Lookup(reply, "submitResultTime").Some?
    requires Lookup(reply, "unlockTime").Some? && Lookup(reply, "externalDisputeUnlockTime").Some?
    ensures started.Ok? && started.body.status == "success" && started.body.jobId == jobId
    ensures status.Ok? && status.body.jobId == jobId && status.body.status == "awaiting_payment"
  {
    var store := new JobStore();
    var request := StartJobRequest("test_purchaser_123", map["text" := "Generate a test summary"]);
    started := store.StartJob(request, jobId, env, Succeeds, Returns(reply), Succeeds);
    StartJobAccepts(request, jobId, env, Succeeds, Returns(reply), Succeeds);
    status := store.GetStatus(jobId, check);
  }

  /** The not-found scenario of the endpoint tests. */
  method UnknownJobStatus(jobId: JobId, check: Outcome<Reply>) returns (status: Response<JobStatusView>)
    ensures status == Refused(HttpError(404, "Job not found"))
  {
    var store := new JobStore();
    status := store.GetStatus(jobId, check);
  }

  /** A paid job whose executor answers is then reported completed, with the
      executor's answer, and its payment status stays "completed" because the
      job is no longer monitored. */
  method PaidJobScenario(
    request: StartJobRequest, jobId: JobId, env: map<string, string>, reply: Reply,
    execute: (string, JobId) -> Outcome<string>, check: Outcome<Reply>)
    returns (status: Response<JobStatusView>)
    requires ConfiguredAmount(env).Some? && Lookup(reply, "blockchainIdentifier").Some?
    requires "text" in request.inputData && execute(request.inputData["text"], jobId).Returns?
    ensures status == Ok(JobStatusView(
      jobId, "completed", "completed", Some(execute(request.inputData["text"], jobId).value)))
  {
    var store := new JobStore();
    var started := store.StartJob(request, jobId, env, Succeeds, Returns(reply), Succeeds);
    var paymentId := reply["data"]["blockchainIdentifier"];
    var escaped, written := store.HandlePaymentStatus(jobId, paymentId, execute, Succeeds, Succeeds, Succeeds);
    status := store.GetStatus(jobId, check);
  }

  /** A paid job whose monitoring cannot be stopped, neither after the
      payment is finalised nor in the except branch, is reported failed with
      the answer it had already stored; it stays monitored, so the status
      check still refreshes its payment status, and the stop's exception
      escapes the callback. */
  method StopFailsScenario(
    request: StartJobRequest, jobId: JobId, env: map<string, string>, reply: Reply,
    execute: (string, JobId) -> Outcome<string>, stopError: Error, check: Outcome<Reply>)
    returns (escaped: Option<Error>, status: Response<JobStatusView>)
    requires ConfiguredAmount(env).Some? && Lookup(reply, "blockchainIdentifier").Some?
    requires "text" in request.inputData && execute(request.inputData["text"], jobId).Returns?
    ensures escaped == Some(stopError)
    ensures status == Ok(JobStatusView(
      jobId, "failed", RefreshedStatus(check), Some(execute(request.inputData["text"], jobId).value)))
  {
    var store := new JobStore();
    var started := store.StartJob(request, jobId, env, Succeeds, Returns(reply), Succeeds);
    var paymentId := reply["data"]["blockchainIdentifier"];
    ghost var written;
    escaped, written :=
      store.HandlePaymentStatus(jobId, paymentId, execute, Succeeds, Fails(stopError), Fails(stopError));
    status := store.GetStatus(jobId, check);
  }
}
