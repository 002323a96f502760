/**
 * `Blazer.run_check`: runs a check's statement up to three times, retrying on a
 * timeout and reconnecting then retrying on a lost PostgreSQL connection, and
 * hands the final result to the check record.
 */
module CheckRunner {
  import opened Wrappers
  import opened Errors
  import opened Text
  import opened Checks
  import opened DataSources

  /** The most statement runs one check run makes (`while tries <= 3`). */
  const MaxTries: nat := 3

  /** The error prefix that makes the loop reconnect the data source before retrying. */
  const ConnectionBad: string := "PG::ConnectionBad"

  /** What `run_statement` returns: rows, an optional error text, and whether it timed out. */
  datatype RunResult = RunResult(rows: seq<seq<string>>, error: Option<string>, timedOut: bool)

  /** `result.error.to_s`: the error text, empty for `nil`. */
  function ErrorText(r: RunResult): string {
    if r.error.Some? then r.error.value else ""
  }

  /** How the loop treats one result. */
  datatype Verdict = RetryTimedOut | RetryReconnect | Finish

  function Classify(r: RunResult): Verdict {
    if r.timedOut then RetryTimedOut
    else if StartsWith(ErrorText(r), ConnectionBad) then RetryReconnect
    else Finish
  }

  /**
   * The end of the loop: the last result, the final value of `tries`, how many times
   * `run_statement` was called and how many times the data source reconnected.
   */
  datatype Attempts = Attempts(result: RunResult, tries: nat, calls: nat, reconnects: nat)

  /**
   * The loop entered with `tries`, where `script(k)` is the result of the k-th run of the
   * statement; `calls` and `reconnects` count from this attempt on.
   */
  function Retry(script: nat -> RunResult, tries: nat): Attempts
    requires 1 <= tries <= MaxTries
    decreases MaxTries - tries
  {
    var r := script(tries);
    var v := Classify(r);
    if v == Finish then Attempts(r, tries, 1, 0)
    else
      var rest := if tries == MaxTries then Attempts(r, tries + 1, 0, 0) else Retry(script, tries + 1);
      rest.(calls := rest.calls + 1, reconnects := rest.reconnects + if v == RetryReconnect then 1 else 0)
  }

  /** The whole loop, which `run_check` enters with `tries = 1`. */
  function RunAttempts(script: nat -> RunResult): Attempts {
    Retry(script, 1)
  }

  /** How many of the attempts numbered `lo` up to but excluding `hi` lost the connection. */
  function ReconnectCount(script: nat -> RunResult, lo: nat, hi: nat): nat
    decreases hi - lo
  {
    if lo >= hi then 0
    else (if Classify(script(lo)) == RetryReconnect then 1 else 0) + ReconnectCount(script, lo + 1, hi)
  }

  /** Everything the loop guarantees, from any attempt `t` on. */
  lemma {:induction false} RetrySpec(script: nat -> RunResult, t: nat)
    requires 1 <= t <= MaxTries
    ensures var a := Retry(script, t);
      && t <= a.tries <= MaxTries + 1
      && a.calls == (if a.tries > MaxTries then MaxTries else a.tries) - t + 1
      && (a.tries > MaxTries <==> forall k :: t <= k <= MaxTries ==> Classify(script(k)) != Finish)
      && (a.tries <= MaxTries ==> a.result == script(a.tries) && Classify(a.result) == Finish)
      && (forall k :: t <= k < a.tries && k <= MaxTries ==> Classify(script(k)) != Finish)
      && (a.tries > MaxTries ==> a.result == script(MaxTries))
      && a.reconnects == ReconnectCount(script, t, t + a.calls)
    decreases MaxTries - t
  {
    var a := Retry(script, t);
    var v := Classify(script(t));
    if v == Finish {
      assert ReconnectCount(script, t + 1, t + 1) == 0;
    } else if t == MaxTries {
      assert ReconnectCount(script, t + 1, t + 1) == 0;
    } else {
      RetrySpec(script, t + 1);
    }
  }

  /** `tries` ends in 1..4 and the statement is run at most three times. */
  lemma AttemptBounds(script: nat -> RunResult)
    ensures var a := RunAttempts(script);
      1 <= a.tries <= 4 && 1 <= a.calls <= MaxTries &&
      a.calls == if a.tries == 4 then 3 else a.tries
  {
    RetrySpec(script, 1);
  }

  /** `tries == 4` exactly when all three attempts timed out or lost the connection. */
  lemma ExhaustedIff(script: nat -> RunResult)
    ensures RunAttempts(script).tries == 4 <==>
            forall k :: 1 <= k <= 3 ==> Classify(script(k)) != Finish
    ensures RunAttempts(script).tries == 4 ==> RunAttempts(script).result == script(3)
  {
    RetrySpec(script, 1);
  }

  /** The loop stops at the first result that is neither a timeout nor a lost connection. */
  lemma FirstFinishWins(script: nat -> RunResult, k: nat)
    requires 1 <= k <= MaxTries && Classify(script(k)) == Finish
    requires forall j :: 1 <= j < k ==> Classify(script(j)) != Finish
    ensures RunAttempts(script).tries == k && RunAttempts(script).result == script(k)
    ensures RunAttempts(script).calls == k
  {
    RetrySpec(script, 1);
  }

  /** One reconnect per attempt that lost the connection, none for any other attempt. */
  lemma ReconnectPerLostConnection(script: nat -> RunResult)
    ensures RunAttempts(script).reconnects == ReconnectCount(script, 1, 1 + RunAttempts(script).calls)
  {
    RetrySpec(script, 1);
  }

  /** Two timeouts and then rows: the rows are the result and `tries` is 3. */
  lemma TimeoutTwiceThenRows(script: nat -> RunResult)
    requires script(1).timedOut && script(2).timedOut
    requires !script(3).timedOut && script(3).error.None?
    ensures RunAttempts(script) == Attempts(script(3), 3, 3, 0)
  {
    assert !StartsWith("", ConnectionBad);
  }

  /** A lost connection and then rows: one reconnect, `tries` is 2. */
  lemma LostConnectionThenRows(script: nat -> RunResult)
    requires !script(1).timedOut && script(1).error == Some("PG::ConnectionBad: server closed the connection")
    requires !script(2).timedOut && script(2).error.None?
    ensures RunAttempts(script) == Attempts(script(2), 2, 2, 1)
  {
    assert "PG::ConnectionBad: server closed the connection"[..|ConnectionBad|] == ConnectionBad;
    assert !StartsWith("", ConnectionBad);
  }

  /** What a check run reports: the final result, the final `tries`, and whether the record was still there. */
  datatype CheckRun = CheckRun(result: RunResult, tries: nat, recordFound: bool)

  /** What `run_check` does for `check`, given the known data-source ids and the check records still present. */
  function ExpectedRun(check: Check, known: set<string>, present: set<nat>, run: nat -> nat -> RunResult)
    : Result<CheckRun, Error>
  {
    if check.query.dataSource !in known then Failure(UnknownDataSource(check.query.dataSource))
    else
      var a := RunAttempts(run(check.id));
      Success(CheckRun(a.result, a.tries, check.id in present))
  }

  /**
   * The check table as a check run sees it: which records still exist, and every
   * result handed to `update_state`, in order.
   */
  class CheckStore {
    var present: set<nat>
    var updates: seq<(nat, RunResult)>

    constructor (present: set<nat>)
      ensures this.present == present && updates == []
    {
      this.present := present;
      updates := [];
    }

    /** `check.reload; check.update_state(result)`, with `RecordNotFound` swallowed. */
    method ReloadAndUpdate(id: nat, result: RunResult) returns (found: bool)
      modifies this
      ensures found <==> id in old(present)
      ensures present == old(present)
      ensures updates == old(updates) + if found then [(id, result)] else []
    {
      found := id in present;
      if found {
        updates := updates + [(id, result)];
      }
    }
  }

  /**
   * `run_check(check)`: `run(check.id)(k)` is the result of the k-th `run_statement`.
   * An unknown data source raises before any statement runs.
   */
  method RunCheck(check: Check, sources: map<string, DataSource>, run: nat -> nat -> RunResult, store: CheckStore)
    returns (outcome: Result<CheckRun, Error>, ghost calls: nat)
    modifies sources.Values, store
    ensures calls == if outcome.Success? then RunAttempts(run(check.id)).calls else 0
    ensures calls <= MaxTries
    ensures outcome == ExpectedRun(check, sources.Keys, old(store.present), run)
    ensures store.present == old(store.present)
    ensures store.updates == old(store.updates) +
              if outcome.Success? && outcome.value.recordFound then [(check.id, outcome.value.result)] else []
    ensures forall d :: d in sources.Values ==>
              d.reconnects == old(d.reconnects) +
                if outcome.Success? && d == sources[check.query.dataSource]
                then RunAttempts(run(check.id)).reconnects else 0
  {
    var lookup := Lookup(sources, check.query.dataSource);
    calls := 0;
    if lookup.Failure? {
      return Failure(lookup.error), 0;
    }
    var dataSource := lookup.value;
    ghost var script := run(check.id);
    ghost var whole := RunAttempts(script);
    ghost var reconnected: nat := 0;
    var tries := 1;
    var result: Option<RunResult> := None;
    while tries <= MaxTries
      modifies dataSource
      invariant 1 <= tries <= MaxTries + 1
      invariant dataSource.reconnects == old(dataSource.reconnects) + reconnected
      invariant calls == tries - 1
      invariant tries <= MaxTries ==>
                  var rest := Retry(script, tries);
                  whole == rest.(calls := rest.calls + tries - 1, reconnects := rest.reconnects + reconnected)
      invariant tries > MaxTries ==>
                  result.Some? && whole == Attempts(result.value, tries, MaxTries, reconnected)
      decreases MaxTries + 1 - tries
    {
      var r := run(check.id)(tries);
      calls := calls + 1;
      result := Some(r);
      if r.timedOut {
        tries := tries + 1;
      } else if StartsWith(ErrorText(r), ConnectionBad) {
        dataSource.Reconnect();
        reconnected := reconnected + 1;
        tries := tries + 1;
      } else {
        break;
      }
    }
    AttemptBounds(script);
    var found := store.ReloadAndUpdate(check.id, result.value);
    outcome := Success(CheckRun(result.value, tries, found));
  }
}
