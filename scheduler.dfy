/**
 * `Blazer.run_checks(schedule:)`: one scheduler pass over the checks, running every
 * check of the schedule that is not disabled, each under `Safely`.
 */
module Scheduler {
  import opened Wrappers
  import opened Errors
  import opened Checks
  import opened DataSources
  import opened CheckRunner

  /** The query's `where(schedule: schedule) if schedule`. */
  predicate Selected(c: Check, schedule: Option<string>) {
    schedule.None? || c.schedule == schedule
  }

  /** A check of the pass that is not skipped by `next if check.state == "disabled"`. */
  predicate ShouldRun(c: Check, schedule: Option<string>) {
    Selected(c, schedule) && c.state != Disabled
  }

  /** The checks a pass runs, in the order `find_each` yields them. */
  function Due(checks: seq<Check>, schedule: Option<string>): (due: seq<Check>)
    decreases |checks|
  {
    if checks == [] then []
    else
      var last := checks[|checks| - 1];
      Due(checks[..|checks| - 1], schedule) + if ShouldRun(last, schedule) then [last] else []
  }

  /** A check is run exactly when it belongs to the schedule and is not disabled. */
  lemma {:induction false} DueMembers(checks: seq<Check>, schedule: Option<string>, c: Check)
    ensures c in Due(checks, schedule) <==> c in checks && Selected(c, schedule) && c.state != Disabled
    decreases |checks|
  {
    if checks != [] {
      var init := checks[..|checks| - 1];
      DueMembers(init, schedule, c);
      assert checks == init + [checks[|checks| - 1]];
    }
  }

  /** Each check is decided on its own: the pass over two batches is the two passes one after the other. */
  lemma {:induction false} DueAppend(a: seq<Check>, b: seq<Check>, schedule: Option<string>)
    ensures Due(a + b, schedule) == Due(a, schedule) + Due(b, schedule)
    decreases |b|
  {
    if b == [] {
      assert a + b == a;
    } else {
      var init := b[..|b| - 1];
      DueAppend(a, init, schedule);
      assert (a + b)[..|a + b| - 1] == a + init;
    }
  }

  /** A disabled check is never passed to `run_check`, whatever the schedule. */
  lemma NeverRunsDisabled(checks: seq<Check>, schedule: Option<string>)
    ensures forall c :: c in Due(checks, schedule) ==> c.state != Disabled && Selected(c, schedule)
  {
    forall c | c in Due(checks, schedule)
      ensures c.state != Disabled && Selected(c, schedule)
    {
      DueMembers(checks, schedule, c);
    }
  }

  /** The results handed to `update_state` by running `due` in order. */
  function Updates(due: seq<Check>, known: set<string>, present: set<nat>, run: nat -> nat -> RunResult)
    : seq<(nat, RunResult)>
    decreases |due|
  {
    if due == [] then []
    else
      var c := due[|due| - 1];
      var o := ExpectedRun(c, known, present, run);
      Updates(due[..|due| - 1], known, present, run) +
        if o.Success? && o.value.recordFound then [(c.id, o.value.result)] else []
  }

  /** The reconnects that running `due` causes on the data source `d`. */
  function Reconnects(due: seq<Check>, sources: map<string, DataSource>, d: DataSource, run: nat -> nat -> RunResult)
    : nat
    decreases |due|
  {
    if due == [] then 0
    else
      var c := due[|due| - 1];
      Reconnects(due[..|due| - 1], sources, d, run) +
        if c.query.dataSource in sources && sources[c.query.dataSource] == d
        then RunAttempts(run(c.id)).reconnects else 0
  }

  /**
   * `run_checks(schedule:)` over `checks`, the table in `find_each` order. `outcomes[i]` is what
   * running `ran[i]` returned or raised; `Safely` keeps a raised error from stopping the pass.
   */
  method RunChecks(schedule: Option<string>, checks: seq<Check>, sources: map<string, DataSource>,
                   run: nat -> nat -> RunResult, store: CheckStore)
    returns (ran: seq<Check>, outcomes: seq<Result<CheckRun, Error>>)
    modifies sources.Values, store
    ensures ran == Due(checks, schedule)
    ensures |outcomes| == |ran|
    ensures forall i :: 0 <= i < |ran| ==> outcomes[i] == ExpectedRun(ran[i], sources.Keys, old(store.present), run)
    ensures store.present == old(store.present)
    ensures store.updates == old(store.updates) + Updates(ran, sources.Keys, old(store.present), run)
    ensures forall d :: d in sources.Values ==> d.reconnects == old(d.reconnects) + Reconnects(ran, sources, d, run)
  {
    ran, outcomes := [], [];
    var i := 0;
    while i < |checks|
      invariant 0 <= i <= |checks|
      invariant ran == Due(checks[..i], schedule)
      invariant |outcomes| == |ran|
      invariant forall j :: 0 <= j < |ran| ==> outcomes[j] == ExpectedRun(ran[j], sources.Keys, old(store.present), run)
      invariant store.present == old(store.present)
      invariant store.updates == old(store.updates) + Updates(ran, sources.Keys, old(store.present), run)
      invariant forall d :: d in sources.Values ==> d.reconnects == old(d.reconnects) + Reconnects(ran, sources, d, run)
    {
      var check := checks[i];
      assert checks[..i + 1][..i] == checks[..i];
      if Selected(check, schedule) && check.state != Disabled {
        var outcome, _ := RunCheck(check, sources, run, store);
        assert (ran + [check])[..|ran|] == ran;
        ran, outcomes := ran + [check], outcomes + [outcome];
      }
      i := i + 1;
    }
    assert checks[..i] == checks;
  }
}
