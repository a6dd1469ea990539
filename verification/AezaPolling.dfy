/** The waiting loops of a rotation (app/ip_change.py:159-233): how often they ask, and what they answer. */
module AezaPolling {
  import opened Base
  import opened AezaAddresses

  /** max(1, int(timeout / max(0.01, interval)) + 1) */
  function Attempts(timeout: real, interval: real): nat {
    var q := timeout / Interval(interval);
    if q < 0.0 then 1 else q.Floor + 1
  }

  function Interval(interval: real): (r: real)
    ensures r >= 0.01
  {
    if interval < 0.01 then 0.01 else interval
  }

  /** n waits of one step are too long for the timeout, n - 1 are not. */
  predicate Spans(n: nat, step: real, timeout: real) {
    (n - 1) as real * step <= timeout < n as real * step
  }

  /** The attempts, an interval apart, span the timeout and not one interval more. */
  lemma AttemptsSpanTimeout(timeout: real, interval: real)
    requires timeout >= 0.0
    ensures Spans(Attempts(timeout, interval), Interval(interval), timeout)
  {
    var step := Interval(interval);
    var q := timeout / step;
    Quotient(timeout, step);
    var n := q.Floor;
    FloorSpans(q, n, step);
    assert Attempts(timeout, interval) == n + 1;
  }

  lemma Quotient(timeout: real, step: real)
    requires timeout >= 0.0 && step > 0.0
    ensures timeout / step * step == timeout && timeout / step >= 0.0
  {
  }

  lemma FloorSpans(q: real, n: int, step: real)
    requires 0 <= n && n as real <= q < (n + 1) as real && step > 0.0
    ensures Spans(n + 1, step, q * step)
  {
    Scaled(n as real, q, step);
    StrictlyScaled(q, (n + 1) as real, step);
    assert (n + 1 - 1) as real == n as real;
  }

  lemma Scaled(a: real, b: real, step: real)
    requires a <= b && step > 0.0
    ensures a * step <= b * step
  {
  }

  lemma StrictlyScaled(a: real, b: real, step: real)
    requires a < b && step > 0.0
    ensures a * step < b * step
  {
  }

  /** What one more list says about the new address. */
  function Asked(list: seq<Item>, oldId: string, oldIp: string, createdId: string, createdIp: string,
                 knownIds: set<string>, knownIps: set<string>): Option<Item>
  {
    FindNewIp(list, oldId, oldIp, createdId, createdIp, knownIds, knownIps)
  }

  /** _wait_for_new_ip over the provider's replies in order, None for an error. It stops at the first list that
      shows the address, at the first error, or when the attempts are used up, and sleeps between attempts only. */
  method WaitForNewIp(replies: seq<Option<seq<Item>>>, attempts: nat, oldId: string, oldIp: string, createdId: string,
                      createdIp: string, knownIds: set<string>, knownIps: set<string>)
    returns (found: Option<Item>, asked: nat, slept: nat)
    requires 1 <= attempts <= |replies|
    ensures 1 <= asked <= attempts && slept == asked - 1
    ensures forall i | 0 <= i < asked - 1 ::
      replies[i].Some? && Asked(replies[i].value, oldId, oldIp, createdId, createdIp, knownIds, knownIps).None?
    ensures var last := replies[asked - 1];
            if last.None? then found.None?
            else && found == Asked(last.value, oldId, oldIp, createdId, createdIp, knownIds, knownIps)
                 && (found.None? ==> asked == attempts)
  {
    found, asked, slept := None, 0, 0;
    while true
      invariant 0 <= asked < attempts && slept == asked && found.None?
      invariant forall i | 0 <= i < asked ::
        replies[i].Some? && Asked(replies[i].value, oldId, oldIp, createdId, createdIp, knownIds, knownIps).None?
      decreases attempts - asked
    {
      var reply := replies[asked];
      asked := asked + 1;
      if reply.None? {
        return;
      }
      found := Asked(reply.value, oldId, oldIp, createdId, createdIp, knownIds, knownIps);
      if found.Some? || asked == attempts {
        return;
      }
      slept := slept + 1;
    }
  }

  /** _wait_for_main_ip: true exactly when some list, before any error and within the attempts, shows the expected
      address as the main one. */
  method WaitForMainIp(replies: seq<Option<seq<Item>>>, attempts: nat, expected: Item) returns (confirmed: bool)
    requires 1 <= attempts <= |replies| && expected.isMain
    ensures confirmed <==> exists n | 0 <= n < attempts ::
      replies[n].Some? && expected in replies[n].value && forall i | 0 <= i < n :: replies[i].Some?
  {
    confirmed := false;
    var asked := 0;
    while asked < attempts
      invariant 0 <= asked <= attempts && !confirmed
      invariant forall i | 0 <= i < asked :: replies[i].Some? && expected !in replies[i].value
    {
      if replies[asked].None? {
        return;
      }
      if expected in replies[asked].value {
        return true;
      }
      asked := asked + 1;
    }
  }

  /** When the account shows exactly one address that was not known before, that address is found. */
  lemma OnlyNewAddressIsFound(items: seq<Item>, it: Item, oldId: string, oldIp: string, knownIds: set<string>,
                              knownIps: set<string>)
    requires it in items && it.id != "" && it.ip != ""
    requires it.id != oldId && it.ip != oldIp && it.id !in knownIds && it.ip !in knownIps
    requires forall i, j | 0 <= i < j < |items| :: items[i].id != items[j].id
    requires forall i | i in items && i != it :: i.id in knownIds
    ensures FindNewIp(items, oldId, oldIp, "", "", knownIds, knownIps) == Some(it)
  {
    OnlyCandidate(items, it, oldId, oldIp, knownIds, knownIps);
  }

  lemma {:induction false} OnlyCandidate(items: seq<Item>, it: Item, oldId: string, oldIp: string,
                                         knownIds: set<string>, knownIps: set<string>)
    requires it.id != oldId && it.ip != oldIp && it.id !in knownIds && it.ip !in knownIps
    requires forall i, j | 0 <= i < j < |items| :: items[i].id != items[j].id
    requires forall i | i in items && i != it :: i.id in knownIds
    ensures Candidates(items, oldId, oldIp, knownIds, knownIps) == if it in items then [it] else []
  {
    if items == [] {
    } else {
      OnlyCandidate(items[1..], it, oldId, oldIp, knownIds, knownIps);
      if items[0] == it {
        assert it !in items[1..];
      }
    }
  }
}
