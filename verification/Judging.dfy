/** Playing a sequence of calls on a task and judging it. */
module Judging {
  import opened Schema
  import opened Services
  import opened Contracts

  /** What a call sequence is worth on a task: played from its seeded state, and judged
      against its contract. */
  ghost predicate Verdict(task: Task, calls: seq<ToolCall>) {
    Passes(task, calls, Snapshot(After(task.initial, calls)))
  }
}
