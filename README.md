# Jobs API: change notifications and the in-memory job list

This project models two small pieces of a recruitment service's job-posting API.

- **The change notifier** (`app/queue.py`). After a job is created, replaced or patched, the notifier builds a queue message. The message holds the job's id and external id, a message schema version, an operation tag (`Create`, `Update`, `Replace`) and a timestamp. When a callback endpoint is configured, it also holds an `apiEndpoint` URL.
  - The message goes to an SQS queue. The SQS publisher learns its queue URL lazily and keeps it once known.
  - When no queue is configured, a no-op publisher takes the message instead.
  - The choice between the two is made once per process and cached.
- **The job list** (`app/api/v1/jobs.py`). Version 1 of the jobs resource keeps its jobs in a module-level list.
  - The list starts with seven seed entries.
  - `POST /jobs` appends a job. The new job gets a generated `CSJ-XXXX` id, status `Draft` and zero views.
  - `GET /jobs/{job_id}` is meant to scan the list in order and return the first entry with that id. The function `Lookup` models that intended behaviour. As written, every call raises `AttributeError` (see "## Findings").

Modules:

- `Wrappers` (wrappers.dfy): the `Option`, `Result` and `Outcome` types.
- `PyInt` (py_int.dfy): Python's `int()` applied to a setting's text, and decimal rendering, which `int()` inverts.
- `Queue` (queue.dfy) covers the following.
  - The pure parts are functions: the operation tags, the message version, the callback URL and the message builder.
  - Each publisher is a class. `SqsPublisher` holds the mutable `queueUrl` and a log of the requests made to its SQS client.
  - The module global `_publisher` is modelled by the class `PublisherCache`.
- `Jobs` (jobs.dfy): the class `JobStore`, which holds the list as a `seq<Job>`. The function `Lookup` specifies the lookup scan.

The environment variables are modelled as a parameter of type `Env`. The current time is a parameter `now`. The SQS client's answers are parameters too: `created` answers `create_queue`, and `delivery` answers `send_message`. The requests made to the client are recorded in `SqsPublisher.requests`.

The seed entries (app/api/v1/jobs.py:45-53) are plain dictionaries with four keys. Created entries are `Job` objects. Both are modelled as one `Job` type with two constructors, `SeedJob` and `PostedJob`. Both constructors share `jobId`, `status` and `views`, so the corrected lookup treats every entry alike.

## Model

| member | source | states |
|---|---|---|
| `Queue.Operation.Value` | app/queue.py:16-19 | Definition of each operation's wire value: `Create`, `Update` or `Replace`. Its property is stated by `Queue.OperationValueInjective`. |
| `Queue.OperationValueInjective` | app/queue.py:16-19 | The tags `Create`, `Update` and `Replace` are pairwise distinct, so a tag identifies its operation. |
| `Queue.MessageVersion` | app/queue.py:26-30 | Definition of `_get_message_version`: `int()` of the setting, or of `"1"` when unset, falling back to 1 on `ValueError`. Its properties are stated by the `MessageVersion…` lemmas below. |
| `Queue.MessageVersionUnset` | app/queue.py:26-30 | With `QUEUE_MESSAGE_VERSION` unset, the schema version is 1. |
| `Queue.MessageVersionOfSetting` | app/queue.py:26-30 | A setting that `int()` accepts gives the parsed integer. A setting that `int()` rejects gives 1. |
| `Queue.MessageVersionOfRendered` | app/queue.py:26-30 | Setting the variable to the decimal text of an integer `n` with at most 4300 digits gives schema version `n`. |
| `Queue.MessageVersionBlank` | app/queue.py:26-30 | A variable set to empty or all-whitespace text is not an integer, so the version falls back to 1. |
| `Queue.MessageVersionOverLimit` | app/queue.py:26-30 | An unsigned digit setting without surrounding whitespace, holding more than 4300 digits, makes `int()` raise, so the version falls back to 1. |
| `PyInt.ParseInt` | app/queue.py:28 | Definition of `int()` on text: strip whitespace, take an optional sign, then digits grouped by single underscores. More than 4300 digits is rejected. Its properties are stated by the `ParseInt…` lemmas. |
| `PyInt.ParseIntOfRendered` | app/queue.py:28 | `int(str(n)) == n` for every integer `n` with at most 4300 digits, negatives included. |
| `PyInt.ParseIntOverLimit` | app/queue.py:28-30 | Digit text with more than 4300 digits is rejected by `int()`, whatever its value. |
| `PyInt.ParseIntOfBlank` | app/queue.py:28-30 | An empty or all-whitespace text is rejected by `int()`. |
| `PyInt.ParseIntKeepsSeparators` | app/queue.py:28-30 | A digit preceded by one of the separator controls 0x1c-0x1f is rejected by `int()`, which does not strip them, so such a setting falls back to version 1. |
| `Queue.BuildQueueMessage` | app/queue.py:37-48 | The keys are exactly `id`, `externalId`, `version`, `operation` and `timestamp`, plus `apiEndpoint` when the endpoint is set and non-empty. `id` is the job's id, `externalId` its external id, `operation` the tag's value, `timestamp` the given time, `version` the configured schema version. `apiEndpoint` is the callback URL. |
| `Queue.MessageVersionIgnoresRecordVersion` | app/queue.py:38-44 | The message does not depend on the record's version: changing a record's version leaves its message unchanged. |
| `Queue.PatchedRecordMessageVersion` | app/queue.py:38-44 | A record at version 2, with the schema version set to `"1"`, gets a message with version 1. |
| `Queue.ApiEndpointPresence` | app/queue.py:45-47 | `apiEndpoint` is present if and only if `QUEUE_API_ENDPOINT` is set and non-empty. |
| `Queue.StripTrailingSlashes` | app/queue.py:47 | Definition of `rstrip('/')`. Its properties are stated by `Queue.StripTrailingSlashesSpec` and `Queue.StripTrailingSlashesIdempotent`. |
| `Queue.CallbackUrl` | app/queue.py:47 | Definition of the callback URL: the stripped endpoint, `/jobs/` and the external id. Its shape is stated by `Queue.CallbackUrlShape`. |
| `Queue.StripTrailingSlashesSpec` | app/queue.py:47 | `rstrip('/')` keeps a prefix of the endpoint. That prefix is empty or does not end in `/`. Every character it removed is `/`. |
| `Queue.StripTrailingSlashesIdempotent` | app/queue.py:47 | Stripping trailing slashes a second time changes nothing. |
| `Queue.CallbackUrlShape` | app/queue.py:45-47 | The URL is the stripped endpoint, then `/jobs/`, then the external id. The character before the join is never `/`. An extra trailing slash on the endpoint gives the same URL. |
| `Queue.RegionOrDefault` | app/queue.py:69 | The region handed to the client is never empty: `AWS_REGION` when set and non-empty, `us-east-1` otherwise. |
| `Queue.NoOpPublisher.SendJobMessage` | app/queue.py:51-53 | The no-op publisher never fails. It changes no state. |
| `Queue.NewSqsPublisher` | app/queue.py:57-69 | Construction raises `ValueError("SQS_QUEUE_URL or SQS_QUEUE_NAME must be provided")` exactly when neither a queue URL nor a queue name is non-empty. Otherwise the new publisher holds the given URL, name, endpoint and region and has made no requests. |
| `Queue.SqsPublisher.constructor` | app/queue.py:57-69 | A publisher built from a non-empty URL or name keeps them, and it can always reach its queue. |
| `Queue.SqsPublisher.EnsureQueueUrl` | app/queue.py:71-76 | If a non-empty URL is held, it returns that URL, requests nothing and keeps its state. Otherwise it requests exactly one `create_queue` for the queue name and stores the returned URL. Once a non-empty URL is stored, later calls return it unchanged. An empty URL is stored too, and the next call creates the queue again. A failed creation is raised unchanged and stores nothing. |
| `Queue.SqsPublisher.SendJobMessage` | app/queue.py:78-84 | It resolves the queue URL first. If queue creation fails, its `BotoError` is raised unwrapped and nothing is sent, because that call is outside the `try`. Otherwise exactly one `send_message` with the built message goes to the resolved URL. The result is a `RuntimeError` naming the failure exactly when the URL resolved and the send failed, and it succeeds exactly when both succeeded. |
| `Queue.PublisherCache.constructor` | app/queue.py:87 | The cache starts empty. |
| `Queue.PublisherCache.GetQueuePublisher` | app/queue.py:90-106 | The first call picks a fresh SQS publisher when a queue URL or name is configured, and a no-op publisher otherwise, then caches it. Every later call returns the cached publisher, whatever the environment says. |
| `Jobs.Upper` | app/api/v1/jobs.py:32 | Upper-casing a lower-case hexadecimal digit gives an upper-case hexadecimal digit, and lower-casing gives the original back. |
| `Jobs.NewJobId` | app/api/v1/jobs.py:32 | A generated id is `CSJ-` followed by 4 upper-case hexadecimal digits, 8 characters in all. Its suffix is the first four characters of the UUID text, upper-cased. |
| `Jobs.JobStore.constructor` | app/api/v1/jobs.py:45-53 | The list starts as the seven seed entries. |
| `Jobs.JobStore.GetAllJobs` | app/api/v1/jobs.py:56-62 | It returns the whole list in order and modifies nothing. |
| `Jobs.JobStore.CreateJob` | app/api/v1/jobs.py:66-78 | It appends exactly one entry at the end and leaves earlier entries and their order unchanged. The new entry carries the submitted post unchanged, a generated `CSJ-XXXX` id, status `Draft` and 0 views. The seed entries stay at the head of the list. |
| `Jobs.Lookup` | app/api/v1/jobs.py:81-92 | A found entry is in the list and has the requested id. A miss is a 404 whose detail is `Job with ID '<id>' not found`. |
| `Jobs.JobStore.GetJobById` | app/api/v1/jobs.py:81-92 | The in-order scan with early return computes `Lookup` on the current list and modifies nothing. |
| `Jobs.LookupFindsFirst` | app/api/v1/jobs.py:86-89 | When some entry has the id, the lookup returns the earliest such entry, so with duplicate ids the earliest wins. |
| `Jobs.LookupMisses` | app/api/v1/jobs.py:91-92 | When no entry has the id, the lookup fails with not-found. |
| `Jobs.NotFoundDetail` | app/api/v1/jobs.py:92 | Definition of the 404 detail, `Job with ID '<id>' not found`. Its property is stated by `Jobs.NotFoundDetailNamesId`. |
| `Jobs.NotFoundDetailNamesId` | app/api/v1/jobs.py:92 | The not-found detail contains the requested id at a fixed position. |
| `Jobs.LookupAfterAppend` | app/api/v1/jobs.py:75 | After an append, every id answers as before, except an id no earlier entry had, which now finds the new entry. |
| `Jobs.LookupSeeds` | app/api/v1/jobs.py:45-53 | In any list that starts with the seeds, each seed entry is found by its id. |
| `Jobs.LookupAsWritten` | app/api/v1/jobs.py:86-92 | Definition of the loop as written: a dict entry raises `AttributeError`, and a miss raises `NameError`. Its behaviour is stated by the three `LookupAsWritten…` lemmas. |
| `Jobs.LookupAsWrittenHitsSeed` | app/api/v1/jobs.py:86-89 | As written, every lookup on a list headed by the seeds raises `AttributeError`. The corrected lookup finds `CSJ-0001`. |
| `Jobs.LookupAsWrittenNameErrorMasked` | app/api/v1/jobs.py:86-92 | While the seeds head the list, the as-written lookup never reaches the `NameError`: the `AttributeError` comes first. |
| `Jobs.LookupAsWrittenMissIsNameError` | app/api/v1/jobs.py:92 | As written, once every entry is a `Job` object, a miss raises `NameError`. The corrected lookup answers 404. |

## Left out

- The boto3 SQS client is not modelled as code. Its `create_queue` and `send_message` calls are a request log plus parameters that give its answers. `json.dumps` is not modelled: the message map is what is sent.
- `QueuePublisher` is a structural protocol. Its two implementations are the two constructors of the datatype `Publisher`.
- `os.getenv` reads become the `Env` parameter, and `datetime.now(timezone.utc).isoformat()` becomes the opaque `now` text.
- `PyInt.ParseInt`: Python's `int()` also accepts non-ASCII decimal digits and non-ASCII whitespace. Only ASCII digits, and the ASCII whitespace `int()` strips (space, and tab through carriage return), are modelled.
- `PyInt.ParseInt`: the digit limit is fixed at the default of 4300 (`sys.int_max_str_digits`, Python 3.11 and later). A changed limit, or a Python version without one, is not modelled.
- A `create_queue` answer without a `QueueUrl` key (a `KeyError` in Python) is not modelled. The answer is either a URL or a client error.
- The uuid generation is replaced by a parameter: the UUID's text.
- FastAPI routing, `response_model`, Pydantic validation (including date parsing) and status code 201 are not modelled. A `JobPost` is taken as already validated.
- The module-global publisher cache is modelled sequentially. Its thread safety is out of scope.
- app/models.py is a column schema without behaviour. Only the `id`, `external_id` and `version` fields are used, in `Queue.JobRecord`.
- scripts/seed_db.py and migrations/versions/0002_add_job_version_column.py perform database I/O and schema changes. They are not part of this model.
- The versioned create/replace/patch handlers and the wire-to-storage field mapper are used by tests/test_jobs_api.py. Their source files are not part of this model.
- app/models.py:25 declares the external id unique in the database. The list-backed handlers modelled here have no such constraint: `create_job` never checks for duplicate ids, and `Lookup` returns the earliest entry.

## Findings

| source | as written | input that shows it | evidently intended | confidence | as-written member | corrected member |
|---|---|---|---|---|---|---|
| app/api/v1/jobs.py:87-88 | `job.job_id` is attribute access, but the seed entries are dictionaries. The seeds always head the list, so the first iteration raises `AttributeError`. | `GET /jobs/CSJ-0001`. Any id gives the same error. | Every entry is looked up by its id, so `CSJ-0001` is found. | high; not executed | `Jobs.LookupAsWrittenHitsSeed` | `Jobs.LookupSeeds` |
| app/api/v1/jobs.py:92 | `HTTPException` is raised but never imported: line 3 imports only `APIRouter`, so reaching line 92 raises `NameError` instead of answering 404. The defect is latent: while the seed dicts head the list, which they always do because line 75 only appends, the `AttributeError` of the first finding comes first (`Jobs.LookupAsWrittenNameErrorMasked`). | Once the first finding is fixed so that every entry, the seeds included, is a `Job` object: `GET /jobs/CSJ-9999`, an id no entry has. | A 404 whose detail names the id. | high; not executed | `Jobs.LookupAsWrittenMissIsNameError` | `Jobs.LookupMisses` |
