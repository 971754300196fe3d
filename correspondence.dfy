/** The correspondence page (`components/CorrespondencePage.tsx`): the form for a new
    log, the job choices for the chosen client, and the log list, newest first. */
module Correspondence {
  import opened Wrappers
  import opened Seqs
  import opened Types

  /** What a submitted form hands to the application: the log without its id, date and
      staff, which the application adds. */
  datatype LogInput = LogInput(clientId: string, jobId: Option<string>, temperature: int, memo: string)

  /** `jobsForSelectedClient`: no choices until a client is chosen, then that client's
      jobs in list order. */
  function JobsForClient(jobs: seq<Job>, clientId: string): (r: seq<Job>)
    ensures clientId == "" ==> r == []
    ensures clientId != "" ==> forall j :: j in r <==> j in jobs && j.clientId == clientId
  {
    if clientId == "" then [] else Filter(jobs, (j: Job) => j.clientId == clientId)
  }

  function CorrespondenceDate(log: CorrespondenceLog): int
  {
    log.correspondenceDate
  }

  /** `sortedLogs`: a sorted copy, latest first. */
  function SortedLogs(logs: seq<CorrespondenceLog>): (r: seq<CorrespondenceLog>)
    ensures SortedDesc(r, CorrespondenceDate)
    ensures multiset(r) == multiset(logs)
  {
    SortDesc(logs, CorrespondenceDate)
  }

  /** The first log listed is the latest one written. */
  lemma SortedLogsLatestFirst(logs: seq<CorrespondenceLog>)
    requires |logs| > 0
    ensures |SortedLogs(logs)| > 0 && SortedLogs(logs)[0] in logs
    ensures forall l :: l in logs ==> l.correspondenceDate <= SortedLogs(logs)[0].correspondenceDate
  {
    SortDescHead(logs, CorrespondenceDate);
  }

  /** The `newLog` form. */
  class LogForm {
    var clientId: string
    var jobId: string
    var temperature: int
    var memo: string

    /** The star rating is always one to five. */
    predicate Valid()
      reads this
    {
      1 <= temperature <= 5
    }

    /** The empty form: no client, no job, three stars, no memo. */
    predicate IsReset()
      reads this
    {
      clientId == "" && jobId == "" && temperature == 3 && memo == ""
    }

    constructor ()
      ensures Valid() && IsReset()
    {
      clientId, jobId, temperature, memo := "", "", 3, "";
    }

    /** Choosing a client clears the chosen job. */
    method ChangeClient(c: string)
      modifies this
      requires Valid()
      ensures Valid()
      ensures clientId == c && jobId == ""
      ensures temperature == old(temperature) && memo == old(memo)
    {
      clientId, jobId := c, "";
    }

    method ChangeJob(j: string)
      modifies this
      requires Valid()
      ensures Valid()
      ensures jobId == j
      ensures clientId == old(clientId) && temperature == old(temperature) && memo == old(memo)
    {
      jobId := j;
    }

    /** A star button sets the rating to its number, one to five. */
    method SetRating(star: int)
      modifies this
      requires 1 <= star <= 5
      ensures Valid()
      ensures temperature == star
      ensures clientId == old(clientId) && jobId == old(jobId) && memo == old(memo)
    {
      temperature := star;
    }

    method ChangeMemo(m: string)
      modifies this
      requires Valid()
      ensures Valid()
      ensures memo == m
      ensures clientId == old(clientId) && jobId == old(jobId) && temperature == old(temperature)
    {
      memo := m;
    }

    /** `handleSubmit`: without a client or a memo nothing is submitted and the form is
        kept; otherwise the form is handed on, a blank job as none, and reset. */
    method Submit() returns (r: Option<LogInput>)
      modifies this
      requires Valid()
      ensures Valid()
      ensures r == Submitted(old(clientId), old(jobId), old(temperature), old(memo))
      ensures r.None? ==> clientId == old(clientId) && jobId == old(jobId)
                          && temperature == old(temperature) && memo == old(memo)
      ensures r.Some? ==> IsReset()
    {
      r := Submitted(clientId, jobId, temperature, memo);
      if r.Some? {
        clientId, jobId, temperature, memo := "", "", 3, "";
      }
    }
  }

  /** The log a form submits, if any. */
  function Submitted(clientId: string, jobId: string, temperature: int, memo: string): (r: Option<LogInput>)
    ensures r.None? <==> clientId == "" || memo == ""
    ensures r.Some? ==> r.value.clientId == clientId && r.value.memo == memo && r.value.temperature == temperature
    ensures r.Some? ==> (r.value.jobId.None? <==> jobId == "")
    ensures r.Some? && jobId != "" ==> r.value.jobId == Some(jobId)
  {
    if clientId == "" || memo == "" then None
    else Some(LogInput(clientId, if jobId == "" then None else Some(jobId), temperature, memo))
  }

  /** A job picked from the choices belongs to the log's client: the submitted log links
      no job, or one of its client's jobs. */
  lemma SubmittedJobOfClient(jobs: seq<Job>, clientId: string, picked: Option<Job>, temperature: int, memo: string)
    requires picked.Some? ==> picked.value in JobsForClient(jobs, clientId)
    ensures var r := Submitted(clientId, if picked.Some? then picked.value.id else "", temperature, memo);
            r.Some? && r.value.jobId.Some? ==>
              exists j :: j in jobs && j.id == r.value.jobId.value && j.clientId == r.value.clientId
  {
    if picked.Some? && picked.value.id != "" && clientId != "" && memo != "" {
      assert picked.value in jobs;
    }
  }
}
