/**
 * The check records the engine reads: a check, the query it runs, and the
 * state names the engine compares against.
 */
module Checks {
  import opened Wrappers

  /** The part of a saved query that a check run uses. */
  datatype Query = Query(id: nat, name: string, dataSource: string)

  /**
   * A row of `blazer_checks` with its query. `emails` and `slackChannels` are the
   * recipient lists after `split_emails` and `split_slack_channels`.
   */
  datatype Check = Check(
    id: nat,
    query: Query,
    state: string,
    schedule: Option<string>,
    emails: seq<string>,
    slackChannels: seq<string>)

  /** The state of a check that the scheduler must not run. */
  const Disabled: string := "disabled"

  /** The states whose checks are reported by the failing-checks notification. */
  const FailingStates: seq<string> := ["failing", "error", "timed out", "disabled"]
}
