/** Fetching the configured pools in windows of blocks. Consecutive windows share their
    boundary block, so its logs are folded twice; the pools found are those of one scan. */
module LogScan {

  type PoolKey = nat

  datatype Log = PoolConfigured(key: PoolKey) | PoolRemoved(key: PoolKey) | Other

  datatype Window = Window(from: nat, to: nat)

  /** The logs of the chain, block by block, in order. */
  type Chain = nat -> seq<Log>

  const WINDOW_STEP: nat := 99_999

  function Min(a: nat, b: nat): nat {
    if a < b then a else b
  }

  function Apply(pools: set<PoolKey>, log: Log): set<PoolKey> {
    match log
    case PoolConfigured(key) => pools + {key}
    case PoolRemoved(key) => pools - {key}
    case Other => pools
  }

  function Fold(pools: set<PoolKey>, logs: seq<Log>): set<PoolKey> {
    if logs == [] then pools else Apply(Fold(pools, logs[..|logs| - 1]), logs[|logs| - 1])
  }

  /** The logs of the blocks lo..hi, both included. */
  function Logs(chain: Chain, lo: nat, hi: nat): seq<Log>
    decreases hi - lo
  {
    if lo > hi then [] else chain(lo) + Logs(chain, lo + 1, hi)
  }

  function AllLogs(chain: Chain, windows: seq<Window>): seq<Log> {
    if windows == [] then [] else Logs(chain, windows[0].from, windows[0].to) + AllLogs(chain, windows[1..])
  }

  /** The filters built from `from`; with `from` past `end` one inverted, empty window. */
  function Windows(from: nat, end: nat, step: nat): seq<Window>
    requires step > 0
    decreases if from <= end then end - from else from - end
  {
    var to := Min(from + step, end);
    if to == from then [] else [Window(from, to)] + Windows(to, end, step)
  }

  method BuildWindows(deployBlock: nat, end: nat, step: nat) returns (filters: seq<Window>)
    requires step > 0
    ensures filters == Windows(deployBlock, end, step)
  {
    filters := [];
    var from: nat := deployBlock;
    while true
      invariant filters + Windows(from, end, step) == Windows(deployBlock, end, step)
      decreases if from <= end then end - from else from - end
    {
      var to := Min(from + step, end);
      if to == from {
        break;
      }
      assert filters + ([Window(from, to)] + Windows(to, end, step)) == (filters + [Window(from, to)])
          + Windows(to, end, step);
      filters := filters + [Window(from, to)];
      from := Min(end, to);
    }
  }

  /** Insert or remove along the logs. */
  method FoldLogs(logs: seq<Log>) returns (pools: set<PoolKey>)
    ensures pools == Fold({}, logs)
  {
    pools := {};
    var i := 0;
    while i < |logs|
      invariant 0 <= i <= |logs|
      invariant pools == Fold({}, logs[..i])
    {
      assert logs[..i + 1][..i] == logs[..i];
      match logs[i] {
        case PoolConfigured(key) => pools := pools + {key};
        case PoolRemoved(key) => pools := pools - {key};
        case Other =>
      }
      i := i + 1;
    }
    assert logs[..|logs|] == logs;
  }

  method FetchLogs(chain: Chain, filters: seq<Window>) returns (logs: seq<Log>)
    ensures logs == AllLogs(chain, filters)
  {
    logs := [];
    var i := 0;
    while i < |filters|
      invariant 0 <= i <= |filters|
      invariant logs + AllLogs(chain, filters[i..]) == AllLogs(chain, filters)
    {
      assert filters[i..][1..] == filters[i + 1..];
      logs := logs + Logs(chain, filters[i].from, filters[i].to);
      i := i + 1;
    }
    assert filters[|filters|..] == [] && logs + [] == logs;
  }

  method FetchPools(chain: Chain, deployBlock: nat, end: nat) returns (pools: set<PoolKey>)
    ensures deployBlock < end ==> pools == Fold({}, Logs(chain, deployBlock, end))
    ensures deployBlock >= end ==> pools == {}
  {
    var filters := BuildWindows(deployBlock, end, WINDOW_STEP);
    var logs := FetchLogs(chain, filters);
    pools := FoldLogs(logs);
    if deployBlock < end {
      ChunkedScanIsSingleScan(chain, deployBlock, end, WINDOW_STEP);
    } else {
      NothingToScan(chain, deployBlock, end, WINDOW_STEP);
    }
  }

  lemma {:induction false} FoldConcat(pools: set<PoolKey>, a: seq<Log>, b: seq<Log>)
    ensures Fold(pools, a + b) == Fold(Fold(pools, a), b)
    decreases |b|
  {
    if b == [] {
      assert a + b == a;
    } else {
      assert (a + b)[..|a + b| - 1] == a + b[..|b| - 1];
      FoldConcat(pools, a, b[..|b| - 1]);
    }
  }

  /** The last log about a key decides; without one, the key stays as it was. */
  ghost predicate Settles(logs: seq<Log>, key: PoolKey, i: nat) {
    && i < |logs| && !logs[i].Other? && logs[i].key == key
    && forall j :: i < j < |logs| ==> logs[j].Other? || logs[j].key != key
  }

  lemma {:induction false} LastLogWins(pools: set<PoolKey>, logs: seq<Log>, key: PoolKey)
    ensures key in Fold(pools, logs) <==>
      (exists i: nat :: Settles(logs, key, i) && logs[i].PoolConfigured?)
      || (key in pools && forall i :: 0 <= i < |logs| ==> logs[i].Other? || logs[i].key != key)
    decreases |logs|
  {
    if logs != [] {
      var last := |logs| - 1;
      var before := logs[..last];
      if !logs[last].Other? && logs[last].key == key {
        assert Settles(logs, key, last);
        forall i: nat | Settles(logs, key, i)
          ensures i == last
        {
        }
      } else {
        LastLogWins(pools, before, key);
        forall i: nat
          ensures Settles(logs, key, i) <==> Settles(before, key, i)
        {
        }
      }
    }
  }

  /** Folding the same logs again changes nothing. */
  lemma FoldTwice(pools: set<PoolKey>, logs: seq<Log>)
    ensures Fold(Fold(pools, logs), logs) == Fold(pools, logs)
  {
    forall key
      ensures key in Fold(Fold(pools, logs), logs) <==> key in Fold(pools, logs)
    {
      LastLogWins(pools, logs, key);
      LastLogWins(Fold(pools, logs), logs, key);
    }
  }

  lemma {:induction false} LogsSplit(chain: Chain, lo: nat, mid: nat, hi: nat)
    requires lo <= mid <= hi
    ensures Logs(chain, lo, hi) == Logs(chain, lo, mid) + Logs(chain, mid + 1, hi)
    decreases mid - lo
  {
    if lo == mid {
      assert Logs(chain, lo, mid) == chain(lo) + Logs(chain, lo + 1, lo);
      assert chain(lo) + [] == chain(lo);
    } else {
      LogsSplit(chain, lo + 1, mid, hi);
      assert chain(lo) + (Logs(chain, lo + 1, mid) + Logs(chain, mid + 1, hi))
          == (chain(lo) + Logs(chain, lo + 1, mid)) + Logs(chain, mid + 1, hi);
    }
  }

  /** Replaying the boundary block before going on is the same as going on. */
  lemma BoundaryReplayed(pools: set<PoolKey>, chain: Chain, lo: nat, mid: nat, hi: nat)
    requires lo <= mid <= hi
    ensures Fold(Fold(pools, Logs(chain, lo, mid)), Logs(chain, mid, hi)) == Fold(pools, Logs(chain, lo, hi))
  {
    var upTo := Fold(pools, Logs(chain, lo, mid));
    var rest := Logs(chain, mid + 1, hi);
    assert Logs(chain, mid, hi) == chain(mid) + rest;
    FoldConcat(upTo, chain(mid), rest);
    LogsSplit(chain, lo, mid, hi);
    FoldConcat(pools, Logs(chain, lo, mid), rest);
    assert Fold(upTo, chain(mid)) == upTo by {
      EndsWithBlock(chain, lo, mid);
      var front :| Logs(chain, lo, mid) == front + chain(mid);
      FoldConcat(pools, front, chain(mid));
      FoldTwice(Fold(pools, front), chain(mid));
    }
  }

  lemma EndsWithBlock(chain: Chain, lo: nat, mid: nat)
    requires lo <= mid
    ensures exists front :: Logs(chain, lo, mid) == front + chain(mid)
  {
    if lo == mid {
      assert Logs(chain, mid + 1, mid) == [] && Logs(chain, lo, mid) == [] + chain(mid);
    } else {
      LogsSplit(chain, lo, mid - 1, mid);
      assert Logs(chain, mid + 1, mid) == [] && Logs(chain, mid, mid) == chain(mid) + [];
      assert chain(mid) + [] == chain(mid);
      assert Logs(chain, lo, mid) == Logs(chain, lo, mid - 1) + chain(mid);
    }
  }

  lemma {:induction false} WindowedFold(pools: set<PoolKey>, chain: Chain, from: nat, end: nat, step: nat)
    requires from < end && step > 0
    ensures Fold(pools, AllLogs(chain, Windows(from, end, step))) == Fold(pools, Logs(chain, from, end))
    decreases end - from
  {
    var to := Min(from + step, end);
    var rest := Windows(to, end, step);
    assert Windows(from, end, step)[1..] == rest;
    FoldConcat(pools, Logs(chain, from, to), AllLogs(chain, rest));
    if to < end {
      WindowedFold(Fold(pools, Logs(chain, from, to)), chain, to, end, step);
      BoundaryReplayed(pools, chain, from, to, end);
    } else {
      assert rest == [];
    }
  }

  /** For every chain, every range and every step the windows find what one scan finds. */
  lemma ChunkedScanIsSingleScan(chain: Chain, deployBlock: nat, end: nat, step: nat)
    requires deployBlock < end && step > 0
    ensures Fold({}, AllLogs(chain, Windows(deployBlock, end, step))) == Fold({}, Logs(chain, deployBlock, end))
  {
    WindowedFold({}, chain, deployBlock, end, step);
  }

  /** With nothing between the blocks no log is read: in particular a deployment in the end
      block itself is not seen. */
  lemma NothingToScan(chain: Chain, deployBlock: nat, end: nat, step: nat)
    requires deployBlock >= end && step > 0
    ensures AllLogs(chain, Windows(deployBlock, end, step)) == []
  {
    if deployBlock > end {
      assert Windows(end, end, step) == [];
      assert Windows(deployBlock, end, step) == [Window(deployBlock, end)];
      assert Windows(deployBlock, end, step)[1..] == [];
    }
  }

  /** The windows cover the range without a gap: each starts where the last ended. */
  lemma {:induction false} WindowsCover(from: nat, end: nat, step: nat, block: nat)
    requires from < end && step > 0 && from <= block <= end
    ensures exists w :: w in Windows(from, end, step) && w.from <= block <= w.to <= w.from + step
    decreases end - from
  {
    var to := Min(from + step, end);
    var ws, rest := Windows(from, end, step), Windows(to, end, step);
    assert ws == [Window(from, to)] + rest;
    if block <= to {
      assert ws[0] == Window(from, to) && ws[0] in ws;
    } else {
      WindowsCover(to, end, step, block);
      var w :| w in rest && w.from <= block <= w.to <= w.from + step;
      assert w in ws;
    }
  }
}
