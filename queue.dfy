/**
  Change notifications for job records: the message a mutation publishes,
  the SQS publisher that resolves its queue URL lazily, the no-op publisher
  used when no queue is configured, and the process-wide publisher cache.

  The environment and the clock are parameters (`Env`, `now`); the boto3
  client is replaced by a log of the requests made to it (`requests`) and by
  parameters that give its answers.
*/
module Queue {
  import opened Wrappers
  import PyInt

  /** The operation tag a message carries. */
  datatype Operation = Create | Update | Replace {
    /** The tag's wire value, `operation.value`. */
    function Value(): string {
      match this
      case Create => "Create"
      case Update => "Update"
      case Replace => "Replace"
    }
  }

  /** The environment variables the notifier reads; `None` is an unset variable. */
  datatype Env = Env(
    queueMessageVersion: Option<string>,  // QUEUE_MESSAGE_VERSION
    queueApiEndpoint: Option<string>,     // QUEUE_API_ENDPOINT
    sqsQueueUrl: Option<string>,          // SQS_QUEUE_URL
    sqsQueueName: Option<string>,         // SQS_QUEUE_NAME
    sqsEndpointUrl: Option<string>,       // SQS_ENDPOINT_URL
    awsRegion: Option<string>             // AWS_REGION
  )

  /** The fields of a stored job that a message is built from. */
  datatype JobRecord = JobRecord(id: string, externalId: string, version: int)

  /** A JSON value of the kinds a message holds. */
  datatype Json = JStr(str: string) | JInt(num: int)

  /** A queue message: a JSON object. */
  type Message = map<string, Json>

  /** The errors the publishers raise. */
  datatype Error =
    | ValueError(msg: string)     // bad publisher configuration
    | BotoError(detail: string)   // create_queue failed, raised unchanged
    | RuntimeError(msg: string)   // send_message failed, wrapped

  /** Python truthiness of an optional string: set and non-empty. */
  predicate Truthy(s: Option<string>) {
    s.Some? && s.value != ""
  }

  /** The keys every message has. */
  const BaseKeys: set<string> := {"id", "externalId", "version", "operation", "timestamp"}

  /** `_get_message_version`: the configured schema version, 1 when unset or not an integer. */
  function MessageVersion(setting: Option<string>): int {
    var text := if setting.Some? then setting.value else "1";
    match PyInt.ParseInt(text)
    case Some(v) => v
    case None => 1
  }

  /** `s.rstrip('/')`. */
  function StripTrailingSlashes(s: string): string
    decreases |s|
  {
    if |s| > 0 && s[|s| - 1] == '/' then StripTrailingSlashes(s[..|s| - 1]) else s
  }

  /** The callback URL of a job: the endpoint without trailing slashes, then `/jobs/` and the external id. */
  function CallbackUrl(endpoint: string, externalId: string): string {
    StripTrailingSlashes(endpoint) + "/jobs/" + externalId
  }

  /** `build_queue_message`: the message announcing `op` on `job` at time `now`. */
  function BuildQueueMessage(job: JobRecord, op: Operation, env: Env, now: string): (m: Message)
    ensures m.Keys == BaseKeys + (if Truthy(env.queueApiEndpoint) then {"apiEndpoint"} else {})
    ensures m["id"] == JStr(job.id) && m["externalId"] == JStr(job.externalId)
    ensures m["operation"] == JStr(op.Value()) && m["timestamp"] == JStr(now)
    ensures m["version"] == JInt(MessageVersion(env.queueMessageVersion))
    ensures "apiEndpoint" in m ==> m["apiEndpoint"] == JStr(CallbackUrl(env.queueApiEndpoint.value, job.externalId))
  {
    var message := map[
      "id" := JStr(job.id),
      "externalId" := JStr(job.externalId),
      "version" := JInt(MessageVersion(env.queueMessageVersion)),
      "operation" := JStr(op.Value()),
      "timestamp" := JStr(now)
    ];
    if Truthy(env.queueApiEndpoint) then
      message["apiEndpoint" := JStr(CallbackUrl(env.queueApiEndpoint.value, job.externalId))]
    else message
  }

  /** The three tags are pairwise distinct, so a message's tag names its operation. */
  lemma OperationValueInjective(a: Operation, b: Operation)
    ensures a.Value() == b.Value() ==> a == b
  {
  }

  /** An unset version setting gives schema version 1. */
  lemma MessageVersionUnset()
    ensures MessageVersion(None) == 1
  {
    PyInt.ParseIntOfRendered(1);
    assert PyInt.IntToString(1) == "1";
  }

  /** A setting that reads as an integer is that integer; one that does not gives 1. */
  lemma MessageVersionOfSetting(text: string)
    ensures PyInt.ParseInt(text).Some? ==> MessageVersion(Some(text)) == PyInt.ParseInt(text).value
    ensures PyInt.ParseInt(text).None? ==> MessageVersion(Some(text)) == 1
  {
  }

  /** Configuring the version as the decimal text of `n` yields schema version `n`, within the digit limit. */
  lemma MessageVersionOfRendered(n: int)
    requires PyInt.DigitCount(n) <= PyInt.MaxStrDigits
    ensures MessageVersion(Some(PyInt.IntToString(n))) == n
  {
    PyInt.ParseIntOfRendered(n);
  }

  /** An empty or blank setting is not an integer, so it falls back to 1. */
  lemma MessageVersionBlank(text: string)
    requires forall i :: 0 <= i < |text| ==> PyInt.IsSpace(text[i])
    ensures MessageVersion(Some(text)) == 1
  {
    PyInt.ParseIntOfBlank(text);
  }

  /** A setting with more digits than `int()` converts falls back to 1. */
  lemma MessageVersionOverLimit(text: string)
    requires PyInt.IsDigitGroups(text) && |PyInt.RemoveUnderscores(text)| > PyInt.MaxStrDigits
    ensures MessageVersion(Some(text)) == 1
  {
  }

  /**
    The message does not depend on the record's version: the `version` key
    holds the configured schema version whatever the record's version is.
  */
  lemma MessageVersionIgnoresRecordVersion(job: JobRecord, v: int, op: Operation, env: Env, now: string)
    ensures BuildQueueMessage(job.(version := v), op, env, now) == BuildQueueMessage(job, op, env, now)
  {
  }

  /** A record patched to version 2, with the schema version set to "1", is announced with version 1. */
  lemma PatchedRecordMessageVersion(job: JobRecord, op: Operation, env: Env, now: string)
    requires job.version == 2
    requires env.queueMessageVersion == Some("1")
    ensures BuildQueueMessage(job, op, env, now)["version"] == JInt(1)
  {
  }

  /**
    `s.rstrip('/')` removes exactly the trailing run of slashes: what remains
    is a prefix of `s` that does not end in `/`, and everything after it is `/`.
  */
  lemma {:induction false} StripTrailingSlashesSpec(s: string)
    ensures var r := StripTrailingSlashes(s);
      && r <= s
      && (r == [] || r[|r| - 1] != '/')
      && (forall i :: |r| <= i < |s| ==> s[i] == '/')
    decreases |s|
  {
    if |s| > 0 && s[|s| - 1] == '/' {
      StripTrailingSlashesSpec(s[..|s| - 1]);
    }
  }

  /** Stripping twice strips nothing more. */
  lemma StripTrailingSlashesIdempotent(s: string)
    ensures StripTrailingSlashes(StripTrailingSlashes(s)) == StripTrailingSlashes(s)
  {
  }

  /**
    The callback URL is the stripped endpoint, `/jobs/` and the external id,
    with no doubled slash at the join; extra trailing slashes on the endpoint
    do not change it.
  */
  lemma CallbackUrlShape(endpoint: string, externalId: string)
    ensures var base := StripTrailingSlashes(endpoint);
      var url := CallbackUrl(endpoint, externalId);
      && base <= endpoint
      && url[..|base|] == base
      && url[|base|..|base| + 6] == "/jobs/"
      && url[|base| + 6..] == externalId
      && (|base| == 0 || url[|base| - 1] != '/')
    ensures CallbackUrl(endpoint + "/", externalId) == CallbackUrl(endpoint, externalId)
  {
  }

  /** `apiEndpoint` is in the message exactly when the endpoint setting is set and non-empty. */
  lemma ApiEndpointPresence(job: JobRecord, op: Operation, env: Env, now: string)
    ensures "apiEndpoint" in BuildQueueMessage(job, op, env, now) <==> Truthy(env.queueApiEndpoint)
  {
  }

  /** The region a client is created in: `region_name or "us-east-1"`. */
  function RegionOrDefault(regionName: Option<string>): (r: string)
    ensures r != ""
  {
    if Truthy(regionName) then regionName.value else "us-east-1"
  }

  /** The calls made on the SQS client. */
  datatype SqsRequest =
    | CreateQueue(queueName: string)
    | SendMessage(queueUrl: string, body: Message)

  /** A publisher that drops every message. */
  class NoOpPublisher {
    constructor () {}

    /** Never fails and changes nothing. */
    method SendJobMessage(job: JobRecord, op: Operation) returns (r: Outcome<Error>)
      ensures r == Pass
    {
      r := Pass;
    }
  }

  /** A publisher to one SQS queue, known by URL or by name. */
  class SqsPublisher {
    var queueUrl: Option<string>
    const queueName: Option<string>
    const endpointUrl: Option<string>
    const region: string
    /** The requests made so far on this publisher's client. */
    var requests: seq<SqsRequest>

    /** The queue can always be found: by its URL, or else by creating it by name. */
    ghost predicate Valid()
      reads this
    {
      Truthy(queueUrl) || Truthy(queueName)
    }

    constructor (queueUrl: Option<string>, queueName: Option<string>, endpointUrl: Option<string>, regionName: Option<string>)
      requires Truthy(queueUrl) || Truthy(queueName)
      ensures Valid()
      ensures this.queueUrl == queueUrl && this.queueName == queueName && this.endpointUrl == endpointUrl
      ensures region == RegionOrDefault(regionName) && requests == []
    {
      this.queueUrl := queueUrl;
      this.queueName := queueName;
      this.endpointUrl := endpointUrl;
      this.region := RegionOrDefault(regionName);
      this.requests := [];
    }

    /**
      `_ensure_queue_url`: a URL already held is returned and nothing is
      requested; otherwise the queue is created once by name (`created` is the
      client's answer) and the URL it returns is kept for later calls.
    */
    method EnsureQueueUrl(created: Result<string, string>) returns (r: Result<string, Error>)
      requires Valid()
      modifies this`queueUrl, this`requests
      ensures Valid()
      ensures Truthy(old(queueUrl)) ==>
        r == Success(old(queueUrl).value) && queueUrl == old(queueUrl) && requests == old(requests)
      ensures !Truthy(old(queueUrl)) ==> requests == old(requests) + [CreateQueue(queueName.value)]
      ensures !Truthy(old(queueUrl)) && created.Success? ==>
        r == Success(created.value) && queueUrl == Some(created.value)
      ensures !Truthy(old(queueUrl)) && created.Failure? ==>
        r == Failure(BotoError(created.error)) && queueUrl == old(queueUrl)
    {
      if Truthy(queueUrl) {
        return Success(queueUrl.value);
      }
      requests := requests + [CreateQueue(queueName.value)];
      match created
      case Failure(e) =>
        r := Failure(BotoError(e));
      case Success(url) =>
        queueUrl := Some(url);
        r := Success(url);
    }

    /**
      `send_job_message`: resolve the queue URL, then send the message built
      for `job` and `op`. A failed `create_queue` is raised as it is, before
      anything is sent; a failed send (`delivery`) becomes a `RuntimeError`.
    */
    method SendJobMessage(job: JobRecord, op: Operation, env: Env, now: string,
                          created: Result<string, string>, delivery: Outcome<string>)
      returns (r: Outcome<Error>)
      requires Valid()
      modifies this`queueUrl, this`requests
      ensures Valid()
      ensures r.Pass? <==> (Truthy(old(queueUrl)) || created.Success?) && delivery.Pass?
      ensures r.Fail? && r.error.BotoError? <==> !Truthy(old(queueUrl)) && created.Failure?
      ensures r.Fail? && r.error.RuntimeError? <==> (Truthy(old(queueUrl)) || created.Success?) && delivery.Fail?
      ensures r.Fail? && r.error.RuntimeError? ==>
        r.error.msg == "Failed to publish queue message: " + delivery.error
      ensures var message := BuildQueueMessage(job, op, env, now);
        if Truthy(old(queueUrl)) then
          && queueUrl == old(queueUrl)
          && requests == old(requests) + [SendMessage(old(queueUrl).value, message)]
        else if created.Failure? then
          && queueUrl == old(queueUrl)
          && requests == old(requests) + [CreateQueue(queueName.value)]
          && r == Fail(BotoError(created.error))
        else
          && queueUrl == Some(created.value)
          && requests == old(requests) + [CreateQueue(queueName.value), SendMessage(created.value, message)]
    {
      var url := EnsureQueueUrl(created);
      if url.Failure? {
        return Fail(url.error);
      }
      var message := BuildQueueMessage(job, op, env, now);
      requests := requests + [SendMessage(url.value, message)];
      match delivery
      case Pass =>
        r := Pass;
      case Fail(e) =>
        r := Fail(RuntimeError("Failed to publish queue message: " + e));
    }
  }

  /** `NewSqsPublisher` is `SqsQueuePublisher(...)`, raising `ValueError` when neither URL nor name is given. */
  method NewSqsPublisher(queueUrl: Option<string>, queueName: Option<string>,
                         endpointUrl: Option<string>, regionName: Option<string>)
    returns (r: Result<SqsPublisher, Error>)
    ensures r.Failure? <==> !Truthy(queueUrl) && !Truthy(queueName)
    ensures r.Failure? ==> r.error == ValueError("SQS_QUEUE_URL or SQS_QUEUE_NAME must be provided")
    ensures r.Success? ==> fresh(r.value) && r.value.Valid() && r.value.requests == []
    ensures r.Success? ==> r.value.queueUrl == queueUrl && r.value.queueName == queueName
    ensures r.Success? ==> r.value.endpointUrl == endpointUrl && r.value.region == RegionOrDefault(regionName)
  {
    if !Truthy(queueUrl) && !Truthy(queueName) {
      return Failure(ValueError("SQS_QUEUE_URL or SQS_QUEUE_NAME must be provided"));
    }
    var p := new SqsPublisher(queueUrl, queueName, endpointUrl, regionName);
    r := Success(p);
  }

  /** Either kind of publisher. */
  datatype Publisher = NoOp(noOp: NoOpPublisher) | Sqs(sqs: SqsPublisher)

  /** The process-wide `_publisher`, resolved on first use and kept from then on. */
  class PublisherCache {
    var publisher: Option<Publisher>

    constructor ()
      ensures publisher == None
    {
      publisher := None;
    }

    /**
      `get_queue_publisher`: the first call picks SQS when a queue URL or name
      is configured and the no-op publisher otherwise; every later call returns
      that same publisher whatever the environment says then.
    */
    method GetQueuePublisher(env: Env) returns (p: Publisher)
      modifies this
      ensures old(publisher).Some? ==> p == old(publisher).value && publisher == old(publisher)
      ensures old(publisher).None? ==> publisher == Some(p)
      ensures old(publisher).None? ==> (p.Sqs? <==> Truthy(env.sqsQueueUrl) || Truthy(env.sqsQueueName))
      ensures old(publisher).None? && p.Sqs? ==>
        && fresh(p.sqs) && p.sqs.Valid() && p.sqs.requests == []
        && p.sqs.queueUrl == env.sqsQueueUrl && p.sqs.queueName == env.sqsQueueName
        && p.sqs.endpointUrl == env.sqsEndpointUrl && p.sqs.region == RegionOrDefault(env.awsRegion)
      ensures old(publisher).None? && p.NoOp? ==> fresh(p.noOp)
    {
      if publisher.None? {
        if Truthy(env.sqsQueueUrl) || Truthy(env.sqsQueueName) {
          var sqs := new SqsPublisher(env.sqsQueueUrl, env.sqsQueueName, env.sqsEndpointUrl, env.awsRegion);
          publisher := Some(Sqs(sqs));
        } else {
          var noOp := new NoOpPublisher();
          publisher := Some(NoOp(noOp));
        }
      }
      p := publisher.value;
    }
  }
}
