/**
 * The scheduler of lib/scheduler.ts as a running/stopped machine. The cron task
 * is represented by the schedule it was created with, and each feed check the
 * scheduler starts is counted instead of run (the check is `FeedChecker.CheckFeed`;
 * the timer firing it is outside the model).
 */
module Scheduler {
  import opened Wrappers

  /** The scheduler's observable state: its task, and how many checks it has started. */
  datatype SchedulerState = SchedulerState(task: Option<string>, checksStarted: nat)

  /** `start()`, given `appConfig.enableScheduler` and `appConfig.cronSchedule`. */
  function AfterStart(s: SchedulerState, enabled: bool, cronSchedule: string): SchedulerState {
    if !enabled then s
    else if s.task.Some? then s
    else SchedulerState(Some(cronSchedule), s.checksStarted + 1)
  }

  /** `stop()`. */
  function AfterStop(s: SchedulerState): SchedulerState {
    s.(task := None)
  }

  /** `runOnce()`: a check, whatever the task or enable state; nothing prevents overlap. */
  function AfterRunOnce(s: SchedulerState): SchedulerState {
    s.(checksStarted := s.checksStarted + 1)
  }

  /**
   * Start when disabled changes nothing; start while running changes nothing;
   * start from stopped sets the task and starts exactly one check.
   */
  lemma StartSpec(s: SchedulerState, enabled: bool, cronSchedule: string)
    ensures !enabled ==> AfterStart(s, enabled, cronSchedule) == s
    ensures s.task.Some? ==> AfterStart(s, enabled, cronSchedule) == s
    ensures enabled && s.task.None? ==>
      AfterStart(s, enabled, cronSchedule) == SchedulerState(Some(cronSchedule), s.checksStarted + 1)
  {
  }

  /** Starting twice is starting once: there is never a second task. */
  lemma StartIdempotent(s: SchedulerState, enabled: bool, cron1: string, cron2: string)
    ensures AfterStart(AfterStart(s, enabled, cron1), enabled, cron2) == AfterStart(s, enabled, cron1)
  {
  }

  /** Stopping twice is stopping once, and a stop never starts a check. */
  lemma StopIdempotent(s: SchedulerState)
    ensures AfterStop(AfterStop(s)) == AfterStop(s)
    ensures AfterStop(s).task.None? && AfterStop(s).checksStarted == s.checksStarted
  {
  }

  /** `runOnce` always starts a check and never touches the task. */
  lemma RunOnceUnguarded(s: SchedulerState)
    ensures AfterRunOnce(s).task == s.task && AfterRunOnce(s).checksStarted == s.checksStarted + 1
  {
  }

  /** `Scheduler`. */
  class Scheduler {
    var task: Option<string>
    var checksStarted: nat

    function State(): SchedulerState
      reads this
    {
      SchedulerState(task, checksStarted)
    }

    constructor()
      ensures State() == SchedulerState(None, 0)
    {
      task := None;
      checksStarted := 0;
    }

    method Start(enabled: bool, cronSchedule: string)
      modifies this
      ensures State() == AfterStart(old(State()), enabled, cronSchedule)
    {
      if !enabled {
        return;
      }
      if task.Some? {
        return;
      }
      task := Some(cronSchedule);
      // Run immediately on start.
      checksStarted := checksStarted + 1;
    }

    method Stop()
      modifies this
      ensures State() == AfterStop(old(State()))
    {
      if task.Some? {
        task := None;
      }
    }

    method RunOnce()
      modifies this
      ensures State() == AfterRunOnce(old(State()))
    {
      checksStarted := checksStarted + 1;
    }
  }
}
