/**
 * `Blazer.send_failing_checks`: groups the checks in a failing state by email
 * address and by Slack channel, then sends each group on its own.
 */
module Notifications {
  import opened Checks

  datatype Channel = Email | Slack

  /** The recipients of a check on one channel. */
  function Recipients(c: Check, k: Channel): seq<string> {
    match k
    case Email => c.emails
    case Slack => c.slackChannels
  }

  /** The check is selected by `where(state: ["failing", "error", "timed out", "disabled"])`. */
  predicate Notifiable(c: Check) {
    c.state in FailingStates
  }

  /** A Ruby Hash from recipient to its list of checks: `order` holds the keys in insertion order. */
  datatype Groups = Groups(order: seq<string>, lists: map<string, seq<Check>>)

  /** The keys are listed once each, and every list holds at least one check. */
  ghost predicate Valid(g: Groups) {
    && (forall i, j :: 0 <= i < j < |g.order| ==> g.order[i] != g.order[j])
    && g.lists.Keys == set r | r in g.order
    && (forall r :: r in g.lists ==> |g.lists[r]| > 0)
  }

  /** `hash[r]`, with `nil` read as the empty list. */
  function Get(g: Groups, r: string): seq<Check> {
    if r in g.lists then g.lists[r] else []
  }

  /** `(hash[r] ||= []) << c` */
  function Append(g: Groups, r: string, c: Check): Groups {
    if r in g.lists then Groups(g.order, g.lists[r := g.lists[r] + [c]])
    else Groups(g.order + [r], g.lists[r := [c]])
  }

  /** Appends `c` under each of `rs`, in order. */
  function AddAll(g: Groups, c: Check, rs: seq<string>): Groups
    decreases |rs|
  {
    if rs == [] then g else Append(AddAll(g, c, rs[..|rs| - 1]), rs[|rs| - 1], c)
  }

  /** The hash that the loop over `checks` builds for channel `k`. */
  function Grouped(checks: seq<Check>, k: Channel): Groups
    decreases |checks|
  {
    if checks == [] then Groups([], map[])
    else
      var c := checks[|checks| - 1];
      var g := Grouped(checks[..|checks| - 1], k);
      if Notifiable(c) then AddAll(g, c, Recipients(c, k)) else g
  }

  /** `n` copies of `c`. */
  function Repeat(c: Check, n: nat): (s: seq<Check>)
    ensures |s| == n && forall i :: 0 <= i < n ==> s[i] == c
  {
    seq(n, _ => c)
  }

  /**
   * The reference grouping: the list for `r` holds, in iteration order, each failing
   * check once for every time `r` occurs among its recipients.
   */
  function Expected(checks: seq<Check>, k: Channel, r: string): seq<Check>
    decreases |checks|
  {
    if checks == [] then []
    else
      var c := checks[|checks| - 1];
      Expected(checks[..|checks| - 1], k, r) +
        if Notifiable(c) then Repeat(c, multiset(Recipients(c, k))[r]) else []
  }

  lemma AppendEffect(g: Groups, r: string, c: Check, x: string)
    requires Valid(g)
    ensures Valid(Append(g, r, c))
    ensures Get(Append(g, r, c), x) == Get(g, x) + if x == r then [c] else []
    ensures g.order <= Append(g, r, c).order
  {
    var g' := Append(g, r, c);
    if r !in g.lists {
      assert r !in g.order;
      assert g'.lists.Keys == set y | y in g'.order;
    }
  }

  lemma {:induction false} AddAllEffect(g: Groups, c: Check, rs: seq<string>, x: string)
    requires Valid(g)
    ensures Valid(AddAll(g, c, rs))
    ensures Get(AddAll(g, c, rs), x) == Get(g, x) + Repeat(c, multiset(rs)[x])
    ensures g.order <= AddAll(g, c, rs).order
    decreases |rs|
  {
    if rs != [] {
      var init, last := rs[..|rs| - 1], rs[|rs| - 1];
      assert rs == init + [last];
      AddAllEffect(g, c, init, x);
      AppendEffect(AddAll(g, c, init), last, c, x);
      assert multiset(rs)[x] == multiset(init)[x] + if x == last then 1 else 0;
      assert Repeat(c, multiset(init)[x]) + (if x == last then [c] else []) == Repeat(c, multiset(rs)[x]);
    }
  }

  /** The hash the loop builds holds, under every recipient, exactly the reference list. */
  lemma {:induction false} GroupedMatchesExpected(checks: seq<Check>, k: Channel, r: string)
    ensures Valid(Grouped(checks, k))
    ensures Get(Grouped(checks, k), r) == Expected(checks, k, r)
    decreases |checks|
  {
    if checks != [] {
      var init, c := checks[..|checks| - 1], checks[|checks| - 1];
      GroupedMatchesExpected(init, k, r);
      if Notifiable(c) {
        AddAllEffect(Grouped(init, k), c, Recipients(c, k), r);
      }
    }
  }

  /** A check is listed under `r` exactly when it is failing and `r` is one of its recipients. */
  lemma {:induction false} ExpectedMembers(checks: seq<Check>, k: Channel, r: string, c: Check)
    ensures c in Expected(checks, k, r) <==> c in checks && Notifiable(c) && r in Recipients(c, k)
    decreases |checks|
  {
    if checks != [] {
      var init, last := checks[..|checks| - 1], checks[|checks| - 1];
      ExpectedMembers(init, k, r, c);
      assert checks == init + [last];
      if Notifiable(last) && last == c && r in Recipients(last, k) {
        assert Repeat(last, multiset(Recipients(last, k))[r])[0] == c;
      }
    }
  }

  /**
   * Completeness of the grouping: `r` is a key exactly when some failing check names it, its
   * list is never empty, and it holds exactly the failing checks that name `r`.
   */
  lemma GroupedMembers(checks: seq<Check>, k: Channel, r: string, c: Check)
    ensures var g := Grouped(checks, k);
      && (r in g.lists <==> exists i :: 0 <= i < |checks| && Notifiable(checks[i]) && r in Recipients(checks[i], k))
      && (r in g.lists ==> |g.lists[r]| > 0)
      && (r in g.lists ==> (c in g.lists[r] <==> c in checks && Notifiable(c) && r in Recipients(c, k)))
  {
    var g := Grouped(checks, k);
    GroupedMatchesExpected(checks, k, r);
    ExpectedMembers(checks, k, r, c);
    if r in g.lists {
      var c0 := g.lists[r][0];
      ExpectedMembers(checks, k, r, c0);
    } else {
      forall i | 0 <= i < |checks| && Notifiable(checks[i])
        ensures r !in Recipients(checks[i], k)
      {
        ExpectedMembers(checks, k, r, checks[i]);
      }
    }
  }

  /** One call to the mailer or the Slack notifier. */
  datatype Delivery = Delivery(channel: Channel, recipient: string, checks: seq<Check>)

  /** The sends `hash.each` makes: one per key, in insertion order. */
  function Planned(k: Channel, g: Groups): seq<Delivery> {
    seq(|g.order|, i requires 0 <= i < |g.order| => Delivery(k, g.order[i], Get(g, g.order[i])))
  }

  /** Each failing check reaches each of its recipients: some send to `r` carries it. */
  lemma EveryRecipientReached(checks: seq<Check>, k: Channel, c: Check, r: string)
    requires c in checks && Notifiable(c) && r in Recipients(c, k)
    ensures exists i :: 0 <= i < |Planned(k, Grouped(checks, k))| &&
              Planned(k, Grouped(checks, k))[i].recipient == r && c in Planned(k, Grouped(checks, k))[i].checks
  {
    var g := Grouped(checks, k);
    GroupedMatchesExpected(checks, k, r);
    ExpectedMembers(checks, k, r, c);
    assert r in g.order;
    var i :| 0 <= i < |g.order| && g.order[i] == r;
    assert Planned(k, g)[i].recipient == r;
  }

  /** No recipient is sent to twice on one channel. */
  lemma PlannedOncePerRecipient(checks: seq<Check>, k: Channel)
    ensures forall i, j :: 0 <= i < j < |Planned(k, Grouped(checks, k))| ==>
              Planned(k, Grouped(checks, k))[i].recipient != Planned(k, Grouped(checks, k))[j].recipient
  {
    GroupedMatchesExpected(checks, k, "");
  }

  /** The two hashes of `send_failing_checks`, built in one pass over the checks. */
  method CollectFailing(checks: seq<Check>) returns (emails: Groups, slackChannels: Groups)
    ensures emails == Grouped(checks, Email)
    ensures slackChannels == Grouped(checks, Slack)
  {
    emails, slackChannels := Groups([], map[]), Groups([], map[]);
    var i := 0;
    while i < |checks|
      invariant 0 <= i <= |checks|
      invariant emails == Grouped(checks[..i], Email)
      invariant slackChannels == Grouped(checks[..i], Slack)
    {
      var check := checks[i];
      assert checks[..i + 1][..i] == checks[..i];
      if Notifiable(check) {
        var j := 0;
        while j < |check.emails|
          invariant 0 <= j <= |check.emails|
          invariant emails == AddAll(Grouped(checks[..i], Email), check, check.emails[..j])
        {
          var email := check.emails[j];
          if email in emails.lists {
            emails := emails.(lists := emails.lists[email := emails.lists[email] + [check]]);
          } else {
            emails := Groups(emails.order + [email], emails.lists[email := [check]]);
          }
          assert check.emails[..j + 1][..j] == check.emails[..j];
          j := j + 1;
        }
        assert check.emails[..j] == check.emails;
        j := 0;
        while j < |check.slackChannels|
          invariant 0 <= j <= |check.slackChannels|
          invariant slackChannels == AddAll(Grouped(checks[..i], Slack), check, check.slackChannels[..j])
        {
          var channel := check.slackChannels[j];
          if channel in slackChannels.lists {
            slackChannels := slackChannels.(lists := slackChannels.lists[channel := slackChannels.lists[channel] + [check]]);
          } else {
            slackChannels := Groups(slackChannels.order + [channel], slackChannels.lists[channel := [check]]);
          }
          assert check.slackChannels[..j + 1][..j] == check.slackChannels[..j];
          j := j + 1;
        }
        assert check.slackChannels[..j] == check.slackChannels;
      }
      i := i + 1;
    }
    assert checks[..i] == checks;
  }

  /** The recipients among `order` whose send raised, in order. */
  function Raised(order: seq<string>, raises: string -> bool): seq<string>
    decreases |order|
  {
    if order == [] then []
    else Raised(order[..|order| - 1], raises) + if raises(order[|order| - 1]) then [order[|order| - 1]] else []
  }

  /**
   * `hash.each { |r, checks| Safely.safely { send(r, checks) } }`: `raises(r)` says whether the
   * send to `r` raised. Every key is sent to regardless; `reported` lists what `Safely` reported.
   */
  method DeliverAll(k: Channel, g: Groups, raises: string -> bool) returns (sent: seq<Delivery>, reported: seq<string>)
    ensures sent == Planned(k, g)
    ensures reported == Raised(g.order, raises)
  {
    sent, reported := [], [];
    var i := 0;
    while i < |g.order|
      invariant 0 <= i <= |g.order|
      invariant sent == Planned(k, g)[..i]
      invariant reported == Raised(g.order[..i], raises)
    {
      var recipient := g.order[i];
      sent := sent + [Delivery(k, recipient, Get(g, recipient))];
      assert Planned(k, g)[..i + 1] == Planned(k, g)[..i] + [Planned(k, g)[i]];
      if raises(recipient) {
        reported := reported + [recipient];
      }
      assert g.order[..i + 1][..i] == g.order[..i];
      i := i + 1;
    }
    assert g.order[..i] == g.order;
  }

  /** `send_failing_checks`: the email sends, then the Slack sends. */
  method SendFailingChecks(checks: seq<Check>, emailRaises: string -> bool, slackRaises: string -> bool)
    returns (sent: seq<Delivery>, reported: seq<string>)
    ensures sent == Planned(Email, Grouped(checks, Email)) + Planned(Slack, Grouped(checks, Slack))
    ensures reported == Raised(Grouped(checks, Email).order, emailRaises) + Raised(Grouped(checks, Slack).order, slackRaises)
  {
    var emails, slackChannels := CollectFailing(checks);
    var sentEmails, reportedEmails := DeliverAll(Email, emails, emailRaises);
    var sentSlack, reportedSlack := DeliverAll(Slack, slackChannels, slackRaises);
    sent := sentEmails + sentSlack;
    reported := reportedEmails + reportedSlack;
  }
}
