/** The one-slot background worker of `termiclaw/summarize_worker.py`. */
module SummarizeWorker {
  import opened Prelude
  import opened RunState

  datatype JobOutcome = Completed(summary: string, qaContext: string) | Raised

  /** What `_future` holds. */
  datatype Slot = Idle | InFlight(job: SummarizationJob)

  class SummarizationWorker {
    var future: Slot
    var submitted: nat // jobs accepted
    var delivered: nat // outcomes handed out by Poll

    ghost predicate Valid()
      reads this
    {
      submitted - delivered == if future.Idle? then 0 else 1
    }

    constructor ()
      ensures Valid() && future == Idle && submitted == delivered == 0
    {
      future, submitted, delivered := Idle, 0, 0;
    }

    function IsIdle(): bool
      reads this
    {
      future.Idle?
    }

    /** Refuses (the source raises) while a job is in flight. */
    method Submit(job: SummarizationJob) returns (accepted: bool)
      requires Valid()
      modifies this
      ensures Valid() && delivered == old(delivered)
      ensures accepted == old(future.Idle?)
      ensures future == if accepted then InFlight(job) else old(future)
      ensures submitted == old(submitted) + (if accepted then 1 else 0)
    {
      accepted := future.Idle?;
      if accepted {
        future, submitted := InFlight(job), submitted + 1;
      }
    }

    /** `finished` is what the executor knows: the outcome once the job is done. */
    method Poll(finished: Option<JobOutcome>) returns (outcome: Option<JobOutcome>)
      requires Valid()
      modifies this
      ensures Valid() && submitted == old(submitted)
      ensures outcome == if old(future.InFlight?) then finished else None
      ensures future == if outcome.Some? then Idle else old(future)
      ensures delivered == old(delivered) + (if outcome.Some? then 1 else 0)
    {
      if future.Idle? || finished.None? {
        return None;
      }
      future, delivered := Idle, delivered + 1;
      outcome := finished;
    }
  }
}
