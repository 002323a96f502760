# Blazer check engine, modelled in Dafny

This project models the orchestration and configuration logic of Blazer's
top-level module (`lib/blazer.rb`), the engine that runs scheduled SQL checks
and reports failing ones. The model replaces the database, the backends and the
clock with abstract inputs.

- **Retry loop of `run_check`** (`CheckRunner`). A check runs its statement up
  to three times. A timed-out result retries. An error whose text starts with
  `PG::ConnectionBad` reconnects the data source and then retries. Any other
  result ends the loop. The final result goes to the check record, which may
  have been deleted meanwhile (`RecordNotFound` is swallowed). The results of
  `run_statement` are an oracle `run(checkId)(attempt)`. The spec functions
  `Retry` and `RunAttempts` describe the loop. The method `RunCheck` is proved
  against them, and the lemmas state what the loop promises.
- **Scheduler pass `run_checks`** (`Scheduler`). It filters checks by the
  optional schedule and skips disabled ones. Each remaining check runs under
  `Safely`: an error from one check (an unknown data source) is recorded, and
  the pass goes on. `Due` is the reference filter.
- **Failing-check notifications `send_failing_checks`** (`Notifications`). For
  email and for Slack it builds a Ruby Hash from recipient to list of checks
  (`Groups`, with keys in insertion order). Only checks in `failing`, `error`,
  `timed out` or `disabled` are included. Each group is then sent on its own.
  `Grouped` is the fold the loop performs. `Expected` is an independent
  per-recipient reference, and the two are proved equal.
- **Registries** (`Registries`). Adapters, anomaly detectors and forecasters
  are maps from name to handler, each updated in place by its `register_*`
  method.
- **Data-source table** (`DataSources`). `data_sources` builds one
  `DataSource` per id under `data_sources:` in the settings. Looking up a
  missing id raises `Unknown data source: <id>`.
- **Settings switches** (`Config`): `uploads?`, `uploads_schema` and `maps?`. The settings are a YAML value (`Yaml`).

Three points where the code's behaviour is easy to misread; the model follows the code as written:

- **Notification policy.** The notification step sends every check currently in
  one of the four states. That includes `disabled`, and it does not depend on
  whether the state just changed.
- **`tries` after three failures.** The final `tries` is 4 after three
  retryable failures, although only three statements ran. The model keeps both
  numbers: `Attempts.tries` and `Attempts.calls`.
- **Detecting a lost connection.** Only the error-text prefix
  `PG::ConnectionBad` counts. A timed-out result is never treated as a lost
  connection, whatever its error text.

## Model

| member | source | states |
|---|---|---|
| Config.Get | lib/blazer.rb:131 | a YAML hash lookup finds a key exactly when some entry has it, and returns that key's last value |
| Config.Dig | lib/blazer.rb:243 | `dig` gives `nil` when the last `outer` entry is missing or null, the `inner` value of that section when it is a mapping, and raises exactly when it is a scalar or a boolean |
| Config.UploadsEnabled | lib/blazer.rb:233-235 | `uploads?` is true exactly when the settings have an `uploads` key |
| Config.UploadsSchema | lib/blazer.rb:242-244 | the schema is the truthy `uploads.schema` when one is configured, otherwise `"uploads"`. It raises exactly when `uploads` is a scalar |
| Config.MapsEnabled | lib/blazer.rb:229-231 | `maps?` holds exactly when a token is set and starts with `pk.`. The presence test adds nothing beyond that |
| DataSources.DataSource.constructor | lib/blazer.rb:132 | a new source keeps its id and its settings, and has not reconnected |
| DataSources.DataSource.Reconnect | lib/blazer.rb:169 | reconnecting adds one to the source's reconnect count and changes nothing else |
| DataSources.Load | lib/blazer.rb:128-136 | fails exactly when `data_sources` is not a mapping. Otherwise the table has exactly the configured ids, each mapped to a fresh source with its id and its last configured settings |
| DataSources.Lookup | lib/blazer.rb:130 | a lookup succeeds exactly for a key in the table and returns its source. Otherwise it fails with `Unknown data source: <key>` |
| CheckRunner.RetrySpec | lib/blazer.rb:155-176 | from any attempt t on, the loop gives: tries bounds; call count; exhaustion exactly when every attempt from t was retryable; stop at a finishing result; reconnects equal to the lost connections among the calls |
| CheckRunner.AttemptBounds | lib/blazer.rb:155-176 | `tries` ends in 1..4. The statement runs 1 to 3 times: `tries` times, or 3 when `tries` is 4 |
| CheckRunner.ExhaustedIff | lib/blazer.rb:162-176 | `tries == 4` exactly when all three attempts timed out or lost the connection. The result is then the third attempt's |
| CheckRunner.FirstFinishWins | lib/blazer.rb:162-175 | if attempt k is the first result that is neither a timeout nor a lost connection, then `tries == k`, k statements ran and that result is the final one |
| CheckRunner.ReconnectPerLostConnection | lib/blazer.rb:164-172 | reconnect is called once for each attempt that lost the connection, and for no other attempt |
| CheckRunner.TimeoutTwiceThenRows | lib/blazer.rb:162-175 | two timeouts then rows: the rows are the result, `tries` is 3 and nothing reconnects |
| CheckRunner.LostConnectionThenRows | lib/blazer.rb:162-175 | a lost connection then rows: one reconnect, `tries` is 2, and the rows are the result |
| CheckRunner.CheckStore.ReloadAndUpdate | lib/blazer.rb:178-183 | the result is handed to the check record if it still exists. A vanished record is a quiet no-op |
| CheckRunner.RunCheck | lib/blazer.rb:154-196 | an unknown data source raises. Otherwise the outcome is the loop's final result and `tries`, and the result is logged on the record exactly when the record is found. The statement runs as often as the loop says, at most three times. Only the check's own source reconnects, once per lost connection |
| Scheduler.DueMembers | lib/blazer.rb:145-152 | a check is run exactly when it is in the table, belongs to the given schedule (any schedule when none is given) and is not disabled |
| Scheduler.DueAppend | lib/blazer.rb:148-151 | each check is decided on its own: a pass over two batches is the two passes in sequence |
| Scheduler.NeverRunsDisabled | lib/blazer.rb:149 | no disabled check, and no check of another schedule, is among those run |
| Scheduler.RunChecks | lib/blazer.rb:145-152 | runs exactly the `Due` checks in order. Each outcome is that check's own run, and an error from one does not stop the rest. The store and every source's reconnect count are the accumulated effect |
| Notifications.AppendEffect | lib/blazer.rb:204 | `(h[r] \|\|= []) << c` appends c to r's list only. It adds r as a new last key when r is absent, and keeps the hash well formed |
| Notifications.AddAllEffect | lib/blazer.rb:203-208 | adding a check under a recipient list appends it to each recipient's list once per occurrence, and keeps the key order |
| Notifications.GroupedMatchesExpected | lib/blazer.rb:199-209 | the hash the loop builds is well formed, and each list equals the reference per-recipient list in iteration order |
| Notifications.ExpectedMembers | lib/blazer.rb:202-209 | a check is in r's reference list exactly when it is in a failing state and names r |
| Notifications.GroupedMembers | lib/blazer.rb:199-209 | r is a key exactly when some failing check names it. Its list is non-empty and holds exactly the failing checks that name r |
| Notifications.EveryRecipientReached | lib/blazer.rb:199-221 | every failing check is carried by some send to each of its recipients |
| Notifications.PlannedOncePerRecipient | lib/blazer.rb:211-221 | no recipient is sent to twice on one channel |
| Notifications.CollectFailing | lib/blazer.rb:198-209 | the one-pass loop builds exactly `Grouped(checks, Email)` and `Grouped(checks, Slack)` |
| Notifications.DeliverAll | lib/blazer.rb:211-221 | every key gets exactly one send, in insertion order, whichever sends raise. The raised ones are reported in order |
| Notifications.SendFailingChecks | lib/blazer.rb:198-222 | the email sends followed by the Slack sends, each group once. Failures are reported without stopping the others |
| Registries.Extensions.constructor | lib/blazer.rb:250-268 | all three registries start empty |
| Registries.Extensions.RegisterAdapter | lib/blazer.rb:254-256 | the name maps to the adapter, overwriting an earlier one. Every other key and the other two registries are unchanged. The call is one step of `Registered` |
| Registries.Extensions.RegisterAnomalyDetector | lib/blazer.rb:262-264 | the same for the anomaly-detector registry, as one step of `Registered` |
| Registries.Extensions.RegisterForecaster | lib/blazer.rb:270-272 | the same for the forecaster registry, as one step of `Registered` |
| Registries.RegisteredLookup | lib/blazer.rb:254-272 | after a series of registrations, a name is known exactly when it was known or registered. It maps to its last registration, or keeps its old handler |

The spec functions `CheckRunner.Classify`, `CheckRunner.Retry`, `CheckRunner.RunAttempts`,
`CheckRunner.ExpectedRun`, `Scheduler.Due`, `Scheduler.Updates`, `Scheduler.Reconnects`,
`Notifications.Grouped`, `Notifications.Expected`, `Notifications.Planned` and
`Registries.Registered` carry no contract of their own: the members above state their properties.

## Left out

- Settings loading from `config/blazer.yml` with ERB (lib/blazer.rb:117-126): settings are an input `Yaml` value. `time_zone=`, `user_class`, `user_method`, `sharing`, the `attr_accessor` defaults and the autoloads are framework glue.
- YAML sequences, numbers and non-string keys are not modelled. Nor is iterating `data_sources:` when it is a YAML sequence.
- Memoisation (`@data_sources ||=`, `@adapters ||=` and the like): `DataSources.Load` builds the table once, and the registries start empty in the constructor.
- `archive_queries` and `monotonic_time` (lib/blazer.rb:274-285): a database update and a clock read.
- `ActiveSupport::Notifications.instrument`, `Rails.logger` and `sleep(10)` have no effect on results. The instrumented `tries` is returned as `CheckRun.tries`.
- `Check#update_state`, which turns a result into a new state, and `Check#split_emails`/`split_slack_channels` are not part of this model. The store logs the results handed to `update_state`, and checks carry their already-split recipients.
- `query.statement_object`, `bind_statement` and `DataSource#run_statement` are external. Statement results are the oracle `run(checkId)(attempt)`, so a result cannot depend on the clock or on the order in which checks run.
- `CheckMailer` and `SlackNotifier` delivery is external transport. Whether a send raises is the input `raises`.
- `slack?` (lib/blazer.rb:224-226) is a one-line presence test on two settings and is not modelled.
- `uploads_connection` and `uploads_table_name` (lib/blazer.rb:237-248) are database-driver calls.
- `TIMEOUT_ERRORS`, `TIMEOUT_MESSAGE` and `VARIABLE_MESSAGE` (lib/blazer.rb:85-94) are only defined in this file, not used.
- `Safely` is modelled as it behaves in production: it reports the error and goes on. In the development and test environments it re-raises instead; that is not modelled.
- Errors other than an unknown data source inside `run_check` (for example an adapter raising) are not modelled. `Safely` would catch them like the modelled one.
- Ruby's `[[:space:]]` is modelled as the ASCII white space plus the Unicode space characters. Case-insensitive or collation-dependent database matching of `schedule` is not modelled.
