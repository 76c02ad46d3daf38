/**
 One execution of a claimed row: which check fails first, what is run, how the row is
 marked and who is told (worker/scheduled_operation_executor.go:174-278,
 worker/async_job_executor.go:196-302).
 */
module JobExecution {
  import opened Wrappers
  import opened ClaimQueue

  /** The user lookup; `Interrupted` is a cancelled or expired context. */
  datatype UserCheck = UserExists | UserMissing | Interrupted | CheckFailed(error: string)

  datatype Trigger = BadTrigger(error: string) | EvaluationFailed(error: string) | NotReady(next: Option<Time>) | Ready

  datatype ActionRun = BadAction(error: string) | ActionFailed(error: string) | ActionDone

  datatype JobRun = JobDone | JobFailed(error: string) | JobPanicked(error: string) | BadResult(error: string)

  datatype Level = Success | Error

  /** Some user stands behind the row, and it still exists; without a checker it is taken for granted. */
  predicate HasActor(createdBy: Option<string>, check: Option<UserCheck>) {
    createdBy.Some? && createdBy.value != "" && (check.None? || check.value.UserExists?)
  }

  predicate NoCreator(createdBy: Option<string>) {
    createdBy.None? || createdBy.value == ""
  }

  /** The execution gives up without a mark: the claim is left for the stale sweep. */
  predicate Abandoned(createdBy: Option<string>, check: Option<UserCheck>) {
    createdBy.Some? && createdBy.value != "" && check == Some(Interrupted)
  }

  /** Nothing but row `id` differs, and that one only if it was running. */
  predicate OnlyRow(rows: Rows, rows': Rows, id: Id) {
    && rows'.Keys == rows.Keys
    && (forall x :: x in rows && x != id ==> rows'[x] == rows[x])
    && (id in rows && !rows[id].status.RUNNING? ==> rows'[id] == rows[id])
  }

  class Executor {
    const table: JobTable
    var published: seq<Level>

    constructor (table: JobTable)
      ensures this.table == table && published == []
    {
      this.table := table;
      published := [];
    }

    method MarkFailedIf(writeOk: bool, id: Id, now: Time, error: string)
      modifies table`rows
      ensures table.rows == if writeOk then MarkFailed(old(table.rows), id, now, error) else old(table.rows)
    {
      if writeOk {
        var _ := table.MarkJobFailed(id, now, error);
      }
    }

    /** The checks both executors make first; `ok` when the work may go on, else the row is dealt with. */
    method CheckActor(id: Id, now: Time, createdBy: Option<string>, check: Option<UserCheck>, writeOk: bool)
        returns (ok: bool, failed: bool)
      modifies table`rows
      ensures ok <==> HasActor(createdBy, check)
      ensures failed <==> !ok && !Abandoned(createdBy, check)
      ensures OnlyRow(old(table.rows), table.rows, id)
      ensures !failed || !writeOk ==> table.rows == old(table.rows)
      ensures failed && writeOk && id in old(table.rows) && old(table.rows)[id].status.RUNNING? ==>
                table.rows[id].status == FAILED && table.rows[id].executedAt == Some(now)
    {
      ok, failed := false, true;
      if createdBy.None? || createdBy.value == "" {
        MarkFailedIf(writeOk, id, now, "no created_by");
      } else if check.Some? {
        match check.value {
          case UserExists => ok, failed := true, false;
          case UserMissing => MarkFailedIf(writeOk, id, now, "created_by user does not exist");
          case Interrupted => failed := false;
          case CheckFailed(error) => MarkFailedIf(writeOk, id, now, error);
        }
      } else {
        ok, failed := true, false;
      }
    }

    /**
     A scheduled operation.  The action runs only for an existing user and a ready
     trigger; the row ends up SUCCEEDED exactly when it ran to its end, PENDING again
     exactly when the trigger is not ready, RUNNING when the execution was abandoned or
     its mark could not be written, and FAILED in every other case.
     */
    method ExecuteOperation(id: Id, now: Time, tick: Time, createdBy: Option<string>, check: Option<UserCheck>,
                            trigger: Trigger, action: ActionRun, writeOk: bool) returns (ran: bool)
      modifies table`rows
      ensures ran <==> HasActor(createdBy, check) && trigger.Ready? && !action.BadAction?
      // Only for a named creator who exists or is not looked up.
      ensures ran ==> createdBy.Some? && createdBy.value != "" && check in {None, Some(UserExists)}
      ensures NoCreator(createdBy) || check == Some(UserMissing) || (check.Some? && check.value.CheckFailed?) ==>
                !ran && (id in old(table.rows) && old(table.rows)[id].status.RUNNING? && writeOk ==>
                           id in table.rows && table.rows[id].status.FAILED? && table.rows[id].executedAt == Some(now))
      ensures !NoCreator(createdBy) && check == Some(Interrupted) ==> !ran && table.rows == old(table.rows)
      ensures OnlyRow(old(table.rows), table.rows, id)
      ensures !writeOk || Abandoned(createdBy, check) ==> table.rows == old(table.rows)
      ensures id in old(table.rows) && old(table.rows)[id].status.RUNNING? && writeOk
              && !Abandoned(createdBy, check) ==>
                var job := table.rows[id];
                && (job.status.SUCCEEDED? <==> ran && action.ActionDone?)
                && (job.status.PENDING? <==> HasActor(createdBy, check) && trigger.NotReady?)
                && (job.status.PENDING? ==> job.due == if trigger.next.Some? then trigger.next.value else now + tick)
                && (job.status.FAILED? <==>
                      !(ran && action.ActionDone?) && !(HasActor(createdBy, check) && trigger.NotReady?))
    {
      ran := false;
      var ok, _ := CheckActor(id, now, createdBy, check, writeOk);
      if !ok {
        return;
      }
      match trigger {
        case BadTrigger(error) => MarkFailedIf(writeOk, id, now, error);
        case EvaluationFailed(error) => MarkFailedIf(writeOk, id, now, error);
        case NotReady(next) =>
          if writeOk {
            table.RequeueJob(id, if next.Some? then next.value else now + tick);
          }
        case Ready =>
          match action {
            case BadAction(error) => MarkFailedIf(writeOk, id, now, error);
            case ActionFailed(error) =>
              ran := true;
              MarkFailedIf(writeOk, id, now, error);
            case ActionDone =>
              ran := true;
              if writeOk {
                var _ := table.MarkJobSucceeded(id, now);
              }
          }
      }
    }

    /**
     An async job.  The creator hears exactly once how it ended, unless there is no
     creator or the execution was abandoned; it is a success exactly when the work was
     done, even if the row could not be marked.
     */
    method ExecuteJob(id: Id, now: Time, createdBy: Option<string>, check: Option<UserCheck>, run: JobRun,
                      writeOk: bool) returns (ran: bool)
      modifies table`rows, this`published
      ensures ran <==> HasActor(createdBy, check)
      // Only for a named creator who exists or is not looked up.
      ensures ran <==> createdBy.Some? && createdBy.value != "" && check in {None, Some(UserExists)}
      ensures NoCreator(createdBy) || check == Some(UserMissing) || (check.Some? && check.value.CheckFailed?) ==>
                !ran && (id in old(table.rows) && old(table.rows)[id].status.RUNNING? && writeOk ==>
                           id in table.rows && table.rows[id].status.FAILED? && table.rows[id].executedAt == Some(now))
      ensures !NoCreator(createdBy) && check == Some(Interrupted) ==>
                !ran && table.rows == old(table.rows) && published == old(published)
      ensures !NoCreator(createdBy) && check != Some(Interrupted) ==> |published| == |old(published)| + 1
      ensures OnlyRow(old(table.rows), table.rows, id)
      ensures !writeOk || Abandoned(createdBy, check) ==> table.rows == old(table.rows)
      ensures id in old(table.rows) && old(table.rows)[id].status.RUNNING? && writeOk
              && !Abandoned(createdBy, check) ==>
                var job := table.rows[id];
                (job.status.SUCCEEDED? <==> ran && run.JobDone?) && (job.status.FAILED? <==> !(ran && run.JobDone?))
      ensures published == old(published) +
                if createdBy.None? || createdBy.value == "" || Abandoned(createdBy, check) then []
                else [if ran && run.JobDone? then Success else Error]
    {
      var ok, failed := CheckActor(id, now, createdBy, check, writeOk);
      ran := ok;
      if !ok {
        if failed {
          Publish(createdBy, Error);
        }
        return;
      }
      match run {
        case JobDone =>
          if writeOk {
            var _ := table.MarkJobSucceeded(id, now);
          }
          Publish(createdBy, Success);
        case JobFailed(error) =>
          MarkFailedIf(writeOk, id, now, error);
          Publish(createdBy, Error);
        case JobPanicked(error) =>
          MarkFailedIf(writeOk, id, now, error);
          Publish(createdBy, Error);
        case BadResult(error) =>
          MarkFailedIf(writeOk, id, now, error);
          Publish(createdBy, Error);
      }
    }

    method Publish(createdBy: Option<string>, level: Level)
      modifies this`published
      ensures published == old(published) + if createdBy.None? || createdBy.value == "" then [] else [level]
    {
      if createdBy.Some? && createdBy.value != "" {
        published := published + [level];
      }
    }
  }
}
