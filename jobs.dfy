/**
  The in-memory job list behind `GET /jobs`, `POST /jobs` and
  `GET /jobs/{job_id}`: a module-level list seeded with seven entries,
  appended to on create and scanned in order on lookup.

  The seven seed entries carry only an id, a title, a status and a view
  count, while created entries carry a whole job post; both kinds are
  entries of one `Job` type with a common `jobId`, `status` and `views`.
*/
module Jobs {
  import opened Wrappers

  /** A calendar date, as already validated by the request schema. */
  datatype Date = Date(year: int, month: int, day: int)

  /** `JobPost`: the body of a create request. */
  datatype JobPost = JobPost(
    jobTitle: string,
    department: string,
    location: string,
    salary: string,
    grade: string,
    closingDate: Date,
    summary: string,
    responsibilities: string,
    essentialCriteria: string,
    desirableCriteria: Option<string>
  )

  /** An entry of the job list: a seed entry, or a job created from a post. */
  datatype Job =
    | SeedJob(jobId: string, jobTitle: string, status: string, views: int)
    | PostedJob(post: JobPost, jobId: string, status: string, views: int)
  {
    function Title(): string {
      match this
      case SeedJob(_, title, _, _) => title
      case PostedJob(post, _, _, _) => post.jobTitle
    }
  }

  /** An HTTP error response: status code and detail message. */
  datatype HttpError = HttpError(statusCode: int, detail: string)

  /** The status a created job starts in. */
  const Draft := "Draft"

  /** The list's initial contents. */
  const SeedJobs: seq<Job> := [
    SeedJob("CSJ-0001", "Senior Product Manager", "Advertised", 234),
    SeedJob("CSJ-0002", "Performance Analyst", "Draft", 0),
    SeedJob("CSJ-0003", "Service Designer", "Advertised", 178),
    SeedJob("CSJ-0004", "Interaction Designer", "Closed", 421),
    SeedJob("CSJ-0005", "Delivery Manager", "Draft", 0),
    SeedJob("CSJ-0006", "Technical Architect", "Closed", 355),
    SeedJob("CSJ-0007", "Recruitment Lead", "Advertised", 292)
  ]

  predicate IsLowerHexDigit(c: char) {
    ('0' <= c <= '9') || ('a' <= c <= 'f')
  }

  predicate IsUpperHexDigit(c: char) {
    ('0' <= c <= '9') || ('A' <= c <= 'F')
  }

  /** `c.upper()` for ASCII characters; on a hexadecimal digit, `Lower` undoes it. */
  function Upper(c: char): (u: char)
    ensures IsLowerHexDigit(c) ==> IsUpperHexDigit(u) && Lower(u) == c
  {
    if 'a' <= c <= 'z' then (c as int - 32) as char else c
  }

  /** `c.lower()` for ASCII characters. */
  function Lower(c: char): char {
    if 'A' <= c <= 'Z' then (c as int + 32) as char else c
  }

  /** A generated job id: `CSJ-` and four upper-case hexadecimal digits. */
  predicate IsJobId(s: string) {
    |s| == 8 && s[..4] == "CSJ-" && forall i :: 4 <= i < 8 ==> IsUpperHexDigit(s[i])
  }

  /**
    The default job id, `"CSJ-" + str(uuid)[:4].upper()`, from the text of a
    fresh UUID, whose characters are lower-case hexadecimal digits.
  */
  function NewJobId(uuidText: string): (id: string)
    requires |uuidText| >= 4 && forall i :: 0 <= i < 4 ==> IsLowerHexDigit(uuidText[i])
    ensures IsJobId(id)
    ensures forall i :: 0 <= i < 4 ==> Lower(id[4 + i]) == uuidText[i]
  {
    var suffix := [Upper(uuidText[0]), Upper(uuidText[1]), Upper(uuidText[2]), Upper(uuidText[3])];
    var id := "CSJ-" + suffix;
    assert forall i :: 4 <= i < 8 ==> id[i] == suffix[i - 4];
    id
  }

  /** The detail of the not-found response. */
  function NotFoundDetail(jobId: string): string {
    "Job with ID '" + jobId + "' not found"
  }

  /**
    `get_job_by_id` as a function of the list: the first entry, in list
    order, whose id is `jobId`, or a 404 naming the id.
  */
  function Lookup(jobs: seq<Job>, jobId: string): (r: Result<Job, HttpError>)
    ensures r.Success? ==> r.value in jobs && r.value.jobId == jobId
    ensures r.Failure? ==> r.error.statusCode == 404 && r.error.detail == NotFoundDetail(jobId)
  {
    if jobs == [] then Failure(HttpError(404, NotFoundDetail(jobId)))
    else if jobs[0].jobId == jobId then Success(jobs[0])
    else Lookup(jobs[1..], jobId)
  }

  /** The not-found detail quotes the requested id. */
  lemma NotFoundDetailNamesId(jobId: string)
    ensures var d := NotFoundDetail(jobId); |d| == |jobId| + 24 && d[13..13 + |jobId|] == jobId
  {
  }

  /** When some entry has the id, the lookup returns the earliest such entry. */
  lemma {:induction false} LookupFindsFirst(jobs: seq<Job>, jobId: string, i: nat)
    requires i < |jobs| && jobs[i].jobId == jobId
    requires forall k :: 0 <= k < i ==> jobs[k].jobId != jobId
    ensures Lookup(jobs, jobId) == Success(jobs[i])
  {
    if i > 0 {
      LookupFindsFirst(jobs[1..], jobId, i - 1);
    }
  }

  /** When no entry has the id, the lookup fails with not-found. */
  lemma LookupMisses(jobs: seq<Job>, jobId: string)
    requires forall k :: 0 <= k < |jobs| ==> jobs[k].jobId != jobId
    ensures Lookup(jobs, jobId) == Failure(HttpError(404, NotFoundDetail(jobId)))
  {
  }

  /**
    Appending an entry never changes what an earlier entry answers: the new
    entry is found only when no earlier entry has its id.
  */
  lemma {:induction false} LookupAfterAppend(jobs: seq<Job>, job: Job, jobId: string)
    ensures Lookup(jobs + [job], jobId) ==
      if Lookup(jobs, jobId).Success? || job.jobId != jobId then Lookup(jobs, jobId)
      else Success(job)
  {
    if jobs == [] {
      assert jobs + [job] == [job];
    } else {
      assert (jobs + [job])[1..] == jobs[1..] + [job];
      LookupAfterAppend(jobs[1..], job, jobId);
    }
  }

  /** Every seed entry is found by its id. */
  lemma LookupSeeds(jobs: seq<Job>)
    requires SeedJobs <= jobs
    ensures forall i :: 0 <= i < |SeedJobs| ==> Lookup(jobs, SeedJobs[i].jobId) == Success(SeedJobs[i])
  {
    forall i | 0 <= i < |SeedJobs|
      ensures Lookup(jobs, SeedJobs[i].jobId) == Success(SeedJobs[i])
    {
      assert jobs[i] == SeedJobs[i];
      LookupFindsFirst(jobs, SeedJobs[i].jobId, i);
    }
  }

  /** What evaluating the source's loop produces. */
  datatype Scan = Found(job: Job) | AttributeError | NameError

  /**
    The lookup loop as the source writes it: `job.job_id` on a seed entry,
    a plain dictionary, raises `AttributeError`; and a miss reaches
    `raise HTTPException(...)`, a name the file never imports, so it raises
    `NameError` instead of answering 404.
  */
  function LookupAsWritten(jobs: seq<Job>, jobId: string): Scan {
    if jobs == [] then NameError
    else match jobs[0]
      case SeedJob(_, _, _, _) => AttributeError
      case PostedJob(_, id, _, _) => if id == jobId then Found(jobs[0]) else LookupAsWritten(jobs[1..], jobId)
  }

  /**
    As written, every lookup fails: the seed entries stay at the head of the
    list, so the first iteration already raises `AttributeError`, even for
    an id that is in the list.
  */
  lemma LookupAsWrittenHitsSeed(jobs: seq<Job>, jobId: string)
    requires SeedJobs <= jobs
    ensures LookupAsWritten(jobs, jobId) == AttributeError
    ensures Lookup(jobs, "CSJ-0001") == Success(SeedJobs[0])
  {
  }

  /**
    While the seed entries head the list, the missing import is never
    reached: the `AttributeError` on the first seed comes first.
  */
  lemma LookupAsWrittenNameErrorMasked(jobs: seq<Job>, jobId: string)
    requires SeedJobs <= jobs
    ensures LookupAsWritten(jobs, jobId) != NameError
  {
  }

  /**
    A latent defect behind the first: once every entry is a `Job` object
    (the seeds included), a miss raises `NameError`, not a 404.
  */
  lemma {:induction false} LookupAsWrittenMissIsNameError(jobs: seq<Job>, jobId: string)
    requires forall k :: 0 <= k < |jobs| ==> jobs[k].PostedJob? && jobs[k].jobId != jobId
    ensures LookupAsWritten(jobs, jobId) == NameError
    ensures Lookup(jobs, jobId).Failure? && Lookup(jobs, jobId).error.statusCode == 404
  {
    if jobs != [] {
      LookupAsWrittenMissIsNameError(jobs[1..], jobId);
    }
  }

  /** The module-level `jobs_data` list and the handlers that use it. */
  class JobStore {
    var jobs: seq<Job>

    /** The seed entries stay at the head of the list: entries are only ever appended. */
    ghost predicate Valid()
      reads this
    {
      SeedJobs <= jobs
    }

    constructor ()
      ensures Valid() && jobs == SeedJobs
    {
      jobs := SeedJobs;
    }

    /** `get_all_jobs`: the whole list, in order, unchanged. */
    method GetAllJobs() returns (all: seq<Job>)
      ensures all == jobs
    {
      all := jobs;
    }

    /**
      `create_job`: a job carrying the submitted post, a generated id, status
      `Draft` and no views, appended after every existing entry.
    */
    method CreateJob(post: JobPost, uuidText: string) returns (job: Job)
      requires Valid()
      requires |uuidText| >= 4 && forall i :: 0 <= i < 4 ==> IsLowerHexDigit(uuidText[i])
      modifies this
      ensures Valid()
      ensures jobs == old(jobs) + [job]
      ensures job.PostedJob? && job.post == post && job.Title() == post.jobTitle
      ensures job.status == Draft && job.views == 0
      ensures job.jobId == NewJobId(uuidText) && IsJobId(job.jobId)
    {
      job := PostedJob(post, NewJobId(uuidText), Draft, 0);
      jobs := jobs + [job];
    }

    /** `get_job_by_id`: a scan in list order that returns the first entry with the id. */
    method GetJobById(jobId: string) returns (r: Result<Job, HttpError>)
      ensures r == Lookup(jobs, jobId)
    {
      var i := 0;
      while i < |jobs|
        invariant 0 <= i <= |jobs|
        invariant Lookup(jobs[i..], jobId) == Lookup(jobs, jobId)
      {
        if jobs[i].jobId == jobId {
          return Success(jobs[i]);
        }
        assert jobs[i..][1..] == jobs[i + 1..];
        i := i + 1;
      }
      r := Failure(HttpError(404, NotFoundDetail(jobId)));
    }
  }
}
