/** The IP reputation state of the standalone Claude proxy: the ban set
    `blacks` and the per-IP error counters, with `recordIPError`,
    `cleanupIPErrorCounter`, the clear-on-success step and the ban check.
    Time is the parameter `now` (milliseconds); a call of `saveIPData` is
    counted in `saveRequests` (the write itself is file I/O). */
module Reputation {
  import opened Wrappers

  const IP_ERROR_THRESHOLD: int := 10
  const ERROR_WINDOW: int := 24 * 60 * 60 * 1000

  /** `{count, firstError, lastError, errorType}`. */
  datatype ErrorCounter = ErrorCounter(count: int, firstError: int, lastError: int, errorType: string)

  /** The document `ipData`: banned IPs and the error counter of each IP. */
  datatype IpData = IpData(blacks: set<string>, counters: map<string, ErrorCounter>)

  /** A new `ipData` and whether the step calls `saveIPData`. */
  datatype Update = Update(data: IpData, save: bool)

  /** The ban rule applied to an updated counter at time `now`. */
  predicate BanRule(c: ErrorCounter, now: int)
  {
    c.count >= IP_ERROR_THRESHOLD && now - c.firstError <= ERROR_WINDOW
  }

  /** `recordIPError(ip, errorType)` at time `now`. A missing counter is
      created with count 1 and both times `now`; an existing one, however
      old, gains exactly one error, `lastError := now` and the new type and
      keeps its `firstError`. The IP is added to `blacks`, and a save is
      requested, exactly when the updated counter meets the ban rule. No
      other counter changes and nothing leaves `blacks`. */
  function RecordError(d: IpData, ip: string, errorType: string, now: int): (u: Update)
    ensures d.blacks <= u.data.blacks
    ensures u.data.counters.Keys == d.counters.Keys + {ip}
    ensures forall other :: other in d.counters && other != ip ==>
      u.data.counters[other] == d.counters[other]
    ensures ip !in d.counters ==> u.data.counters[ip] == ErrorCounter(1, now, now, errorType)
    ensures ip in d.counters ==>
      u.data.counters[ip] ==
        ErrorCounter(d.counters[ip].count + 1, d.counters[ip].firstError, now, errorType)
    ensures u.save <==> BanRule(u.data.counters[ip], now)
    ensures u.data.blacks == if u.save then d.blacks + {ip} else d.blacks
  {
    var c := if ip in d.counters then d.counters[ip] else ErrorCounter(0, now, now, errorType);
    var c' := c.(count := c.count + 1, lastError := now, errorType := errorType);
    var ban := BanRule(c', now);
    Update(IpData(if ban then d.blacks + {ip} else d.blacks, d.counters[ip := c']), ban)
  }

  /** A counter whose last error is more than the window ago. */
  predicate Stale(c: ErrorCounter, now: int)
  {
    now - c.lastError > ERROR_WINDOW
  }

  /** `cleanupIPErrorCounter()` at time `now`: exactly the stale counters are
      deleted, the others and `blacks` are kept, and a save is requested
      exactly when something was deleted. */
  function Cleanup(d: IpData, now: int): (u: Update)
    ensures u.data.blacks == d.blacks
    ensures forall ip :: ip in u.data.counters <==> ip in d.counters && !Stale(d.counters[ip], now)
    ensures forall ip :: ip in u.data.counters ==> u.data.counters[ip] == d.counters[ip]
    ensures u.save <==> exists ip :: ip in d.counters && Stale(d.counters[ip], now)
  {
    var kept := map ip | ip in d.counters && !Stale(d.counters[ip], now) :: d.counters[ip];
    Update(IpData(d.blacks, kept), exists ip | ip in d.counters :: Stale(d.counters[ip], now))
  }

  /** The step after a forwarded request completes: the IP's counter is
      deleted (with a save) if it has one; `blacks` is untouched, so a ban
      survives a successful request. */
  function ClearOnSuccess(d: IpData, ip: string): (u: Update)
    ensures u.data.blacks == d.blacks
    ensures u.data.counters.Keys == d.counters.Keys - {ip}
    ensures forall other :: other in u.data.counters ==> u.data.counters[other] == d.counters[other]
    ensures u.save <==> ip in d.counters
  {
    if ip in d.counters then Update(IpData(d.blacks, d.counters - {ip}), true)
    else Update(d, false)
  }

  class IpReputation {
    var blacks: set<string>
    var counters: map<string, ErrorCounter>
    /** How many times `saveIPData` has been called. */
    ghost var saveRequests: nat

    function Data(): IpData
      reads this
    {
      IpData(blacks, counters)
    }

    /** The state `loadIPData` falls back to when there is no stored file. */
    constructor ()
      ensures Data() == IpData({}, map[]) && saveRequests == 0
    {
      blacks, counters := {}, map[];
      saveRequests := 0;
    }

    /** `ipData.blacks.has(ip)`: the ban check made before anything else
      is done for a request. Only `RecordIPError` can make it true, and no
      method makes it false again. */
    predicate IsBanned(ip: string)
      reads this
    {
      ip in blacks
    }

    method RecordIPError(ip: string, errorType: string, now: int)
      modifies this
      ensures Data() == RecordError(old(Data()), ip, errorType, now).data
      ensures saveRequests ==
        old(saveRequests) + if RecordError(old(Data()), ip, errorType, now).save then 1 else 0
      ensures forall x :: IsBanned(x) <==> old(IsBanned(x)) || (x == ip && BanRule(counters[ip], now))
    {
      ghost var before := Data();
      ghost var c := if ip in counters then counters[ip] else ErrorCounter(0, now, now, errorType);
      if ip !in counters {
        counters := counters[ip := ErrorCounter(0, now, now, errorType)];
      }
      counters := counters[ip := counters[ip].(count := counters[ip].count + 1)];
      counters := counters[ip := counters[ip].(lastError := now)];
      counters := counters[ip := counters[ip].(errorType := errorType)];
      assert counters == before.counters[ip := c.(count := c.count + 1, lastError := now, errorType := errorType)];
      if counters[ip].count >= IP_ERROR_THRESHOLD && now - counters[ip].firstError <= ERROR_WINDOW {
        blacks := blacks + {ip};
        saveRequests := saveRequests + 1;
      }
    }

    method CleanupIPErrorCounter(now: int)
      modifies this
      ensures Data() == Cleanup(old(Data()), now).data
      ensures saveRequests == old(saveRequests) + if Cleanup(old(Data()), now).save then 1 else 0
      ensures forall x :: IsBanned(x) <==> old(IsBanned(x))
    {
      var hasChanges := false;
      var pending := counters.Keys;
      while pending != {}
        invariant pending <= old(counters).Keys
        invariant blacks == old(blacks) && saveRequests == old(saveRequests)
        invariant forall ip :: ip in counters <==>
          ip in old(counters) && (ip in pending || !Stale(old(counters)[ip], now))
        invariant forall ip :: ip in counters ==> counters[ip] == old(counters)[ip]
        invariant hasChanges <==>
          exists ip :: ip in old(counters) && ip !in pending && Stale(old(counters)[ip], now)
        decreases pending
      {
        var ip :| ip in pending;
        if now - counters[ip].lastError > ERROR_WINDOW {
          counters := counters - {ip};
          hasChanges := true;
        }
        pending := pending - {ip};
      }
      assert counters == Cleanup(old(Data()), now).data.counters;
      if hasChanges {
        saveRequests := saveRequests + 1;
      }
    }

    method ClearError(ip: string)
      modifies this
      ensures Data() == ClearOnSuccess(old(Data()), ip).data
      ensures saveRequests == old(saveRequests) + if ip in old(counters) then 1 else 0
      ensures forall x :: IsBanned(x) <==> old(IsBanned(x))
    {
      if ip in counters {
        counters := counters - {ip};
        saveRequests := saveRequests + 1;
      }
    }
  }

  /** One step applied to the reputation state, with the time it happens at. */
  datatype Op =
    | Error(ip: string, errorType: string, at: int)
    | Sweep(at: int)
    | Success(ip: string, at: int)

  function Apply(d: IpData, op: Op): Update
  {
    match op
    case Error(ip, errorType, at) => RecordError(d, ip, errorType, at)
    case Sweep(at) => Cleanup(d, at)
    case Success(ip, _) => ClearOnSuccess(d, ip)
  }

  function Run(d: IpData, ops: seq<Op>): IpData
    decreases |ops|
  {
    if ops == [] then d else Run(Apply(d, ops[0]).data, ops[1..])
  }

  /** No code path removes an IP from `blacks`: a ban is permanent. */
  lemma {:induction false} BlacksOnlyGrow(d: IpData, ops: seq<Op>)
    ensures d.blacks <= Run(d, ops).blacks
    decreases |ops|
  {
    if ops != [] {
      BlacksOnlyGrow(Apply(d, ops[0]).data, ops[1..]);
    }
  }

  /** Every counter holds at least one error, its first error is not after
      its last, and the last is not after `clock`. */
  predicate WellFormed(d: IpData, clock: int)
  {
    forall ip :: ip in d.counters ==>
      1 <= d.counters[ip].count && d.counters[ip].firstError <= d.counters[ip].lastError <= clock
  }

  /** The steps happen in order of time, none before `clock`. */
  predicate Chronological(clock: int, ops: seq<Op>)
  {
    forall i :: 0 <= i < |ops| ==> clock <= ops[i].at && (i > 0 ==> ops[i - 1].at <= ops[i].at)
  }

  /** While time does not go backwards, every counter keeps `count >= 1`
      and `firstError <= lastError`. */
  lemma {:induction false} StaysWellFormed(d: IpData, clock: int, ops: seq<Op>)
    requires WellFormed(d, clock) && Chronological(clock, ops)
    ensures WellFormed(Run(d, ops), if ops == [] then clock else ops[|ops| - 1].at)
    decreases |ops|
  {
    if ops != [] {
      var d' := Apply(d, ops[0]).data;
      assert WellFormed(d', ops[0].at);
      assert Chronological(ops[0].at, ops[1..]) by {
        forall i | 0 <= i < |ops[1..]|
          ensures ops[0].at <= ops[1..][i].at
        {
          ChronologicalFrom(clock, ops, 0, i + 1);
        }
      }
      StaysWellFormed(d', ops[0].at, ops[1..]);
    }
  }

  lemma {:induction false} ChronologicalFrom(clock: int, ops: seq<Op>, i: nat, j: nat)
    requires Chronological(clock, ops) && i <= j < |ops|
    ensures ops[i].at <= ops[j].at
    decreases j - i
  {
    if i < j {
      ChronologicalFrom(clock, ops, i, j - 1);
    }
  }

  /** The errors of one IP, of one type, at the given times. */
  function ErrorsAt(ip: string, errorType: string, times: seq<int>): (ops: seq<Op>)
    ensures |ops| == |times|
    ensures forall k :: 0 <= k < |times| ==> ops[k] == Error(ip, errorType, times[k])
  {
    seq(|times|, k requires 0 <= k < |times| => Error(ip, errorType, times[k]))
  }

  lemma RunAppend(d: IpData, a: seq<Op>, b: seq<Op>)
    ensures Run(d, a + b) == Run(Run(d, a), b)
    decreases |a|
  {
    if a != [] {
      assert (a + b)[0] == a[0] && (a + b)[1..] == a[1..] + b;
      RunAppend(Apply(d, a[0]).data, a[1..], b);
    } else {
      assert a + b == b;
    }
  }

  /** After the first `k` errors of an IP that had no counter, the counter
      holds `k` errors, from the first time to the `k`-th. */
  lemma {:induction false} CounterAfterErrors(d: IpData, ip: string, errorType: string, times: seq<int>, k: nat)
    requires ip !in d.counters && 1 <= k <= |times|
    ensures var r := Run(d, ErrorsAt(ip, errorType, times[..k]));
      ip in r.counters && r.counters[ip] == ErrorCounter(k, times[0], times[k - 1], errorType)
  {
    var ops := ErrorsAt(ip, errorType, times[..k]);
    if k == 1 {
      assert ops == [Error(ip, errorType, times[0])];
    } else {
      CounterAfterErrors(d, ip, errorType, times, k - 1);
      var prev := ErrorsAt(ip, errorType, times[..k - 1]);
      assert ops == prev + [Error(ip, errorType, times[k - 1])];
      RunAppend(d, prev, [Error(ip, errorType, times[k - 1])]);
    }
  }

  /** An IP that makes `IP_ERROR_THRESHOLD` or more errors, in order of
      time, within `ERROR_WINDOW` of its first, starting without a counter,
      ends up banned. */
  lemma RepeatedErrorsBan(d: IpData, ip: string, errorType: string, times: seq<int>)
    requires ip !in d.counters
    requires |times| >= IP_ERROR_THRESHOLD
    requires forall i :: 0 < i < |times| ==> times[i - 1] <= times[i]
    requires times[|times| - 1] - times[0] <= ERROR_WINDOW
    ensures ip in Run(d, ErrorsAt(ip, errorType, times)).blacks
  {
    var n := IP_ERROR_THRESHOLD;
    var before := ErrorsAt(ip, errorType, times[..n - 1]);
    var rest := ErrorsAt(ip, errorType, times[n - 1..]);
    assert ErrorsAt(ip, errorType, times) == before + rest;
    RunAppend(d, before, rest);
    CounterAfterErrors(d, ip, errorType, times, n - 1);
    var mid := Run(d, before);
    assert rest == [rest[0]] + rest[1..];
    var banned := Apply(mid, rest[0]).data;
    assert times[n - 1] <= times[|times| - 1] by {
      Sorted(times, n - 1, |times| - 1);
    }
    assert ip in banned.blacks;
    BlacksOnlyGrow(banned, rest[1..]);
  }

  lemma {:induction false} Sorted(times: seq<int>, i: nat, j: nat)
    requires forall k :: 0 < k < |times| ==> times[k - 1] <= times[k]
    requires i <= j < |times|
    ensures times[i] <= times[j]
    decreases j - i
  {
    if i < j {
      Sorted(times, i, j - 1);
    }
  }

  /** A counter whose first error lies more than the window before every
      new error is never restarted: each error still adds one to `count`,
      but none of them can ban the IP. */
  lemma {:induction false} StaleCounterNeverBans(d: IpData, ip: string, errorType: string, times: seq<int>)
    requires ip in d.counters && ip !in d.blacks
    requires forall k :: 0 <= k < |times| ==> times[k] - d.counters[ip].firstError > ERROR_WINDOW
    ensures var r := Run(d, ErrorsAt(ip, errorType, times));
      && ip !in r.blacks
      && ip in r.counters
      && r.counters[ip].count == d.counters[ip].count + |times|
      && r.counters[ip].firstError == d.counters[ip].firstError
    decreases |times|
  {
    if times != [] {
      var ops := ErrorsAt(ip, errorType, times);
      var d' := Apply(d, ops[0]).data;
      assert ops[1..] == ErrorsAt(ip, errorType, times[1..]);
      StaleCounterNeverBans(d', ip, errorType, times[1..]);
    }
  }
}
