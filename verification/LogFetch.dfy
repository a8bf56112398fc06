// Reading all Pool logs of a range of blocks through a node that answers in windows
// (packages/ethereum/src/history.ts).
module LogFetch {
  import opened Wrappers
  import opened Pool
  import opened Ledger
  import opened PoolLogs
  import opened PoolLogLaws

  // ----- Windows -----

  // Consecutive windows from block `first` up to, not including, block `next`.
  predicate Tiles(windows: seq<(nat, nat)>, first: nat, next: nat) {
    if windows == [] then first == next
    else
      var last := windows[|windows| - 1];
      last.0 <= last.1 && last.1 + 1 == next && Tiles(windows[..|windows| - 1], first, last.0)
  }

  predicate InWindow(window: (nat, nat), block: nat) {
    window.0 <= block <= window.1
  }

  // Tiling windows hold every block of the range in exactly one of them, and no other block.
  lemma {:induction false} TilesPartition(windows: seq<(nat, nat)>, first: nat, next: nat, block: nat)
    requires Tiles(windows, first, next)
    ensures first <= next
    ensures first <= block < next <==> exists i :: 0 <= i < |windows| && InWindow(windows[i], block)
    ensures forall i, j :: 0 <= i < j < |windows| ==> windows[i].1 < windows[j].0
  {
    if windows != [] {
      var n := |windows| - 1;
      var last, rest := windows[n], windows[..n];
      TilesPartition(rest, first, last.0, block);
      forall i, j | 0 <= i < j < |windows| ensures windows[i].1 < windows[j].0 {
        assert windows[i] == rest[i];
        if j < n {
          assert windows[j] == rest[j];
        } else {
          TilesPartition(rest, first, last.0, windows[i].1);
          TilesOrdered(rest, first, last.0, i);
          assert InWindow(rest[i], windows[i].1);
        }
      }
      if first <= block < next {
        if block < last.0 {
          var i :| 0 <= i < |rest| && InWindow(rest[i], block);
          assert windows[i] == rest[i];
        } else {
          assert InWindow(windows[n], block);
        }
      }
      if i :| 0 <= i < |windows| && InWindow(windows[i], block) {
        if i < n { assert InWindow(rest[i], block); }
      }
    }
  }

  lemma {:induction false} TilesOrdered(windows: seq<(nat, nat)>, first: nat, next: nat, i: nat)
    requires Tiles(windows, first, next) && i < |windows|
    ensures windows[i].0 <= windows[i].1
  {
    var n := |windows| - 1;
    if i < n { TilesOrdered(windows[..n], first, windows[n].0, i); }
  }

  // All windows are `width` blocks long, but the last may be shorter.
  predicate FixedWidth(windows: seq<(nat, nat)>, width: nat) {
    forall i :: 0 <= i < |windows| ==>
      && windows[i].1 + 1 <= windows[i].0 + width
      && (i < |windows| - 1 ==> windows[i].1 + 1 == windows[i].0 + width)
  }

  // chunkInclusive: windows of one width that tile [first, last]; none if the arguments make no range.
  method ChunkInclusive(first: int, last: int, width: int) returns (windows: seq<(nat, nat)>)
    ensures first < 0 || last < first || width < 1 ==> windows == []
    ensures !(first < 0 || last < first || width < 1) ==> Tiles(windows, first, last + 1) && FixedWidth(windows, width)
  {
    if first < 0 || last < first || width < 1 { return []; }
    windows := [];
    var start := first;
    while start <= last
      invariant first <= start
      invariant Tiles(windows, first, if start <= last then start else last + 1)
      invariant start <= last ==> forall i :: 0 <= i < |windows| ==> windows[i].1 + 1 == windows[i].0 + width
      invariant FixedWidth(windows, width)
      decreases last - start
    {
      var end := start + width - 1;
      var window: (nat, nat) := (start, if end > last then last else end);
      ghost var before := windows;
      windows := windows + [window];
      assert windows[..|windows| - 1] == before;
      start := start + width;
    }
  }

  // ----- The node -----

  // An answer to getLogs: logs, an abort or timeout, or any other failure.
  datatype Response = Logs(logs: seq<RawLog>) | Stopped | Broken

  // `logs` answers attempt n over a range; `expired(n)` says that the deadline has passed by then.
  // `header` is the canonical hash of a block; `before` and `after` are the failures of the two
  // checks of the checkpoint's header.
  datatype Node = Node(
    logs: (nat, nat, nat) -> Response,
    expired: nat -> bool,
    header: nat -> Result<nat, Gap>,
    before: Option<Gap>,
    after: Option<Gap>,
    transactions: Transactions)

  predicate InRange(log: RawLog, pool: nat, first: nat, last: nat) {
    log.blockNumber.Some? && first <= log.blockNumber.value <= last && log.address == pool
  }

  // The logs before the first one that is not of the range.
  function GoodPrefix(part: seq<RawLog>, pool: nat, first: nat, last: nat): seq<RawLog> {
    if part == [] || !InRange(part[0], pool, first, last) then []
    else [part[0]] + GoodPrefix(part[1..], pool, first, last)
  }

  predicate AllInRange(part: seq<RawLog>, pool: nat, first: nat, last: nat) {
    forall i :: 0 <= i < |part| ==> InRange(part[i], pool, first, last)
  }

  // Every answer holds true logs of its range, all of them, and at worst logs outside the range besides.
  ghost predicate Honest(node: Node, pool: nat, chain: set<RawLog>) {
    forall n: nat, first: nat, last: nat :: HonestAnswer(node.logs(n, first, last), pool, chain, first, last)
  }

  ghost predicate HonestAnswer(answer: Response, pool: nat, chain: set<RawLog>, first: nat, last: nat) {
    answer.Logs? ==>
      && (forall log :: log in answer.logs && InRange(log, pool, first, last) ==> log in chain)
      && (forall log :: log in chain && InRange(log, pool, first, last) ==> log in answer.logs)
  }

  // The deadline is kept, and a window of one block is always answered.
  ghost predicate Cooperative(node: Node, pool: nat) {
    && (forall n: nat :: !node.expired(n))
    && (forall n: nat, first: nat, last: nat :: !node.logs(n, first, last).Stopped?)
    && (forall n: nat, block: nat :: node.logs(n, block, block).Logs? && AllInRange(node.logs(n, block, block).logs, pool, block, block))
  }

  lemma {:induction false} GoodPrefixMembers(part: seq<RawLog>, pool: nat, first: nat, last: nat)
    ensures forall log :: log in GoodPrefix(part, pool, first, last) ==> log in part && InRange(log, pool, first, last)
    ensures AllInRange(part, pool, first, last) ==> GoodPrefix(part, pool, first, last) == part
  {
    if part != [] && InRange(part[0], pool, first, last) {
      GoodPrefixMembers(part[1..], pool, first, last);
      assert part == [part[0]] + part[1..];
      if AllInRange(part, pool, first, last) {
        assert forall i :: 0 <= i < |part[1..]| ==> part[1..][i] == part[i + 1];
      }
    }
  }

  // One answer taken in: logs are kept up to the first bad one.
  method Take(part: seq<RawLog>, pool: nat, first: nat, last: nat, logs: seq<RawLog>) returns (kept: seq<RawLog>, ok: bool)
    ensures kept == logs + GoodPrefix(part, pool, first, last)
    ensures ok <==> AllInRange(part, pool, first, last)
  {
    kept := logs;
    for i := 0 to |part|
      invariant forall j :: 0 <= j < i ==> InRange(part[j], pool, first, last)
      invariant kept + GoodPrefix(part[i..], pool, first, last) == logs + GoodPrefix(part, pool, first, last)
    {
      assert part[i..][0] == part[i] && part[i..][1..] == part[i + 1..];
      if !InRange(part[i], pool, first, last) { return kept, false; }
      kept := kept + [part[i]];
    }
    ok := true;
  }

  function Halvings(width: nat): nat {
    if width <= 1 then 0 else 1 + Halvings(width / 2)
  }

  // ----- The fetch -----

  function AnswerTo(node: Node, tried: seq<(nat, nat)>, i: nat): Response
    requires i < |tried|
  {
    node.logs(i, tried[i].0, tried[i].1)
  }

  // All logs taken in, answer by answer: each up to its first log outside the window it was asked for.
  function Gathered(node: Node, pool: nat, tried: seq<(nat, nat)>): seq<RawLog> {
    if tried == [] then []
    else
      var n := |tried| - 1;
      var answer := AnswerTo(node, tried, n);
      Gathered(node, pool, tried[..n]) + (if answer.Logs? then GoodPrefix(answer.logs, pool, tried[n].0, tried[n].1) else [])
  }

  // No attempt is made past the deadline, and none after a stopped one.
  predicate InTime(node: Node, tried: seq<(nat, nat)>) {
    forall i :: 0 <= i < |tried| ==> !node.expired(i) && (i < |tried| - 1 ==> !AnswerTo(node, tried, i).Stopped?)
  }

  predicate Accepted(node: Node, pool: nat, tried: seq<(nat, nat)>, i: nat)
    requires i < |tried|
  {
    var answer := AnswerTo(node, tried, i);
    answer.Logs? && AllInRange(answer.logs, pool, tried[i].0, tried[i].1)
  }

  // The width of the next attempt: the first is `chunk`, and each failure halves it.
  function NextWidth(node: Node, pool: nat, tried: seq<(nat, nat)>, widths: seq<nat>, chunk: nat, i: nat): nat
    requires i <= |tried| == |widths|
  {
    if i == 0 then chunk else if Accepted(node, pool, tried, i - 1) then widths[i - 1] else widths[i - 1] / 2
  }

  // Where it starts: after the window before it, or there again if that one failed.
  function NextStart(node: Node, pool: nat, tried: seq<(nat, nat)>, origin: nat, i: nat): nat
    requires i <= |tried|
  {
    if i == 0 then origin else if Accepted(node, pool, tried, i - 1) then tried[i - 1].1 + 1 else tried[i - 1].0
  }

  predicate ScheduledAt(node: Node, pool: nat, tried: seq<(nat, nat)>, widths: seq<nat>, origin: nat, last: nat, chunk: nat, i: nat)
    requires i < |tried| == |widths|
  {
    && widths[i] >= 1
    && widths[i] == NextWidth(node, pool, tried, widths, chunk, i) && tried[i].0 == NextStart(node, pool, tried, origin, i)
    && tried[i].1 == if tried[i].0 + widths[i] - 1 > last then last else tried[i].0 + widths[i] - 1
  }

  // Every attempt asks for the next blocks not yet covered, as many as its width and the range allow.
  predicate Scheduled(node: Node, pool: nat, tried: seq<(nat, nat)>, widths: seq<nat>, origin: nat, last: nat, chunk: nat) {
    |tried| == |widths| && forall i :: 0 <= i < |tried| ==> ScheduledAt(node, pool, tried, widths, origin, last, chunk, i)
  }

  lemma ScheduleStays(node: Node, pool: nat, tried: seq<(nat, nat)>, widths: seq<nat>, window: (nat, nat), width: nat, origin: nat,
      last: nat, chunk: nat, i: nat)
    requires i < |tried| == |widths| && ScheduledAt(node, pool, tried, widths, origin, last, chunk, i)
    ensures ScheduledAt(node, pool, tried + [window], widths + [width], origin, last, chunk, i)
  {
    if i > 0 { assert AnswerTo(node, tried + [window], i - 1) == AnswerTo(node, tried, i - 1); }
  }

  lemma ScheduleNext(node: Node, pool: nat, tried: seq<(nat, nat)>, widths: seq<nat>, window: (nat, nat), width: nat, origin: nat,
      last: nat, chunk: nat)
    requires Scheduled(node, pool, tried, widths, origin, last, chunk)
    requires 1 <= width == NextWidth(node, pool, tried, widths, chunk, |tried|) && window.0 == NextStart(node, pool, tried, origin, |tried|)
    requires window.1 == if window.0 + width - 1 > last then last else window.0 + width - 1
    ensures Scheduled(node, pool, tried + [window], widths + [width], origin, last, chunk)
    ensures var answer := node.logs(|tried|, window.0, window.1);
      var ok := answer.Logs? && AllInRange(answer.logs, pool, window.0, window.1);
      && NextWidth(node, pool, tried + [window], widths + [width], chunk, |tried| + 1) == (if ok then width else width / 2)
      && NextStart(node, pool, tried + [window], origin, |tried| + 1) == (if ok then window.1 + 1 else window.0)
  {
    var n, longer := |tried|, tried + [window];
    assert AnswerTo(node, longer, n) == node.logs(n, window.0, window.1);
    if n > 0 { assert AnswerTo(node, longer, n - 1) == AnswerTo(node, tried, n - 1); }
    forall i | 0 <= i < |longer| ensures ScheduledAt(node, pool, longer, widths + [width], origin, last, chunk, i) {
      if i < n { ScheduleStays(node, pool, tried, widths, window, width, origin, last, chunk, i); }
    }
  }

  // Why a fetch fails: a stopped request, the deadline, or one block that is not answered in range.
  predicate FetchFails(node: Node, pool: nat, tried: seq<(nat, nat)>, reason: Gap) {
    if tried != [] && AnswerTo(node, tried, |tried| - 1).Stopped? then reason == RpcFailed
    else
      && reason == Missing
      && (node.expired(|tried|)
          || (tried != [] && tried[|tried| - 1].0 == tried[|tried| - 1].1 && !Accepted(node, pool, tried, |tried| - 1)))
  }

  lemma {:induction false} GatheredMembers(node: Node, pool: nat, tried: seq<(nat, nat)>, log: RawLog)
    ensures log in Gathered(node, pool, tried) <==> exists i :: 0 <= i < |tried| && GivenIn(node, pool, tried, i, log)
  {
    if tried != [] {
      var n := |tried| - 1;
      GatheredMembers(node, pool, tried[..n], log);
      if log in Gathered(node, pool, tried[..n]) {
        var i :| 0 <= i < n && GivenIn(node, pool, tried[..n], i, log);
        assert GivenIn(node, pool, tried, i, log);
      } else if log in Gathered(node, pool, tried) {
        assert GivenIn(node, pool, tried, n, log);
      }
      forall i | 0 <= i < |tried| && GivenIn(node, pool, tried, i, log) ensures log in Gathered(node, pool, tried) {
        if i < n { assert GivenIn(node, pool, tried[..n], i, log); }
      }
    }
  }

  // Attempt i gave the log, before any that is out of range.
  predicate GivenIn(node: Node, pool: nat, tried: seq<(nat, nat)>, i: nat, log: RawLog)
    requires i < |tried|
  {
    var answer := AnswerTo(node, tried, i);
    answer.Logs? && log in GoodPrefix(answer.logs, pool, tried[i].0, tried[i].1)
  }

  predicate Within(tried: seq<(nat, nat)>, origin: nat, last: nat) {
    forall i :: 0 <= i < |tried| ==> origin <= tried[i].0 <= tried[i].1 <= last
  }

  lemma GatheredInRange(node: Node, pool: nat, tried: seq<(nat, nat)>, origin: nat, last: nat)
    requires Within(tried, origin, last)
    ensures forall log :: log in Gathered(node, pool, tried) ==> InRange(log, pool, origin, last)
  {
    forall log | log in Gathered(node, pool, tried) ensures InRange(log, pool, origin, last) {
      GatheredMembers(node, pool, tried, log);
      var i :| 0 <= i < |tried| && GivenIn(node, pool, tried, i, log);
      GoodPrefixMembers(AnswerTo(node, tried, i).logs, pool, tried[i].0, tried[i].1);
    }
  }

  // From an honest node the attempts hold true logs only, failed ones included, and the accepted
  // windows, since they tile the range, hold all of them.
  lemma GatheredHonest(node: Node, pool: nat, tried: seq<(nat, nat)>, windows: seq<(nat, nat)>, origin: nat, last: nat,
      chain: set<RawLog>, log: RawLog)
    requires Honest(node, pool, chain) && Within(tried, origin, last) && Tiles(windows, origin, last + 1)
    requires forall w :: w in windows ==> WasAccepted(node, pool, tried, w)
    ensures log in Gathered(node, pool, tried) <==> log in chain && InRange(log, pool, origin, last)
  {
    GatheredInRange(node, pool, tried, origin, last);
    GatheredMembers(node, pool, tried, log);
    if log in Gathered(node, pool, tried) {
      var i :| 0 <= i < |tried| && GivenIn(node, pool, tried, i, log);
      GoodPrefixMembers(AnswerTo(node, tried, i).logs, pool, tried[i].0, tried[i].1);
      assert HonestAnswer(node.logs(i, tried[i].0, tried[i].1), pool, chain, tried[i].0, tried[i].1);
    }
    if log in chain && InRange(log, pool, origin, last) {
      TilesPartition(windows, origin, last + 1, log.blockNumber.value);
      var k :| 0 <= k < |windows| && InWindow(windows[k], log.blockNumber.value);
      assert windows[k] in windows;
      var i :| 0 <= i < |tried| && tried[i] == windows[k] && Accepted(node, pool, tried, i);
      GoodPrefixMembers(AnswerTo(node, tried, i).logs, pool, tried[i].0, tried[i].1);
      assert HonestAnswer(node.logs(i, tried[i].0, tried[i].1), pool, chain, tried[i].0, tried[i].1);
      assert GivenIn(node, pool, tried, i, log);
    }
  }

  ghost predicate WasAccepted(node: Node, pool: nat, tried: seq<(nat, nat)>, w: (nat, nat)) {
    exists i :: 0 <= i < |tried| && tried[i] == w && Accepted(node, pool, tried, i)
  }

  lemma CooperativeSucceeds(node: Node, pool: nat, tried: seq<(nat, nat)>, reason: Gap)
    requires Cooperative(node, pool)
    ensures !FetchFails(node, pool, tried, reason)
  {
    if tried != [] {
      var n := |tried| - 1;
      assert !node.logs(n, tried[n].0, tried[n].1).Stopped?;
      assert node.logs(n, tried[n].0, tried[n].0).Logs?;
    }
  }

  // The adaptive loop: a failed window is tried again at half its width. It ends, its accepted
  // windows tile the range, and it holds what the attempts gave: from an honest node exactly the
  // chain's logs of the range, although failed windows leave partial answers behind.
  method FetchLogs(node: Node, pool: nat, origin: nat, last: nat, chunk: nat, ghost chain: set<RawLog>)
      returns (r: Result<seq<RawLog>, Gap>, ghost windows: seq<(nat, nat)>, ghost tried: seq<(nat, nat)>, ghost widths: seq<nat>)
    requires origin <= last && 1 <= chunk
    ensures |tried| <= last + 1 - origin + Halvings(chunk) && Within(tried, origin, last) && InTime(node, tried)
    ensures Scheduled(node, pool, tried, widths, origin, last, chunk)
    ensures r.Ok? ==>
      && Tiles(windows, origin, last + 1) && (forall w :: w in windows ==> WasAccepted(node, pool, tried, w))
      && r.value == Gathered(node, pool, tried)
    ensures r.Err? ==> FetchFails(node, pool, tried, r.error)
    ensures r.Ok? && Honest(node, pool, chain) ==>
      forall log :: log in r.value <==> log in chain && InRange(log, pool, origin, last)
    ensures r.Ok? ==> forall log :: log in r.value ==> InRange(log, pool, origin, last)
    ensures Cooperative(node, pool) ==> r.Ok?
  {
    r, windows, tried, widths := ReadWindows(node, pool, origin, last, chunk);
    if r.Err? {
      if Cooperative(node, pool) { CooperativeSucceeds(node, pool, tried, r.error); }
      return;
    }
    GatheredInRange(node, pool, tried, origin, last);
    if Honest(node, pool, chain) {
      forall log ensures log in r.value <==> log in chain && InRange(log, pool, origin, last) {
        GatheredHonest(node, pool, tried, windows, origin, last, chain, log);
      }
    }
  }

  // What the loop has done so far: it took in every attempt, and none was stopped.
  ghost predicate Progress(node: Node, pool: nat, tried: seq<(nat, nat)>, windows: seq<(nat, nat)>, logs: seq<RawLog>) {
    && InTime(node, tried) && (forall i :: 0 <= i < |tried| ==> !AnswerTo(node, tried, i).Stopped?)
    && logs == Gathered(node, pool, tried)
    && (forall w :: w in windows ==> WasAccepted(node, pool, tried, w))
  }

  lemma GatheredNext(node: Node, pool: nat, tried: seq<(nat, nat)>, window: (nat, nat))
    ensures var answer := node.logs(|tried|, window.0, window.1);
      Gathered(node, pool, tried + [window])
        == Gathered(node, pool, tried) + if answer.Logs? then GoodPrefix(answer.logs, pool, window.0, window.1) else []
  {
    assert (tried + [window])[..|tried|] == tried;
  }

  lemma AcceptedMore(node: Node, pool: nat, tried: seq<(nat, nat)>, window: (nat, nat), w: (nat, nat))
    requires WasAccepted(node, pool, tried, w)
    ensures WasAccepted(node, pool, tried + [window], w)
  {
    var i :| 0 <= i < |tried| && tried[i] == w && Accepted(node, pool, tried, i);
    assert (tried + [window])[i] == w && Accepted(node, pool, tried + [window], i);
  }

  // One more attempt that was not stopped.
  lemma ProgressNext(node: Node, pool: nat, tried: seq<(nat, nat)>, window: (nat, nat), windows: seq<(nat, nat)>, logs: seq<RawLog>)
    requires Progress(node, pool, tried, windows, logs) && !node.expired(|tried|)
    requires !node.logs(|tried|, window.0, window.1).Stopped?
    ensures var answer := node.logs(|tried|, window.0, window.1);
      var more := logs + if answer.Logs? then GoodPrefix(answer.logs, pool, window.0, window.1) else [];
      && Progress(node, pool, tried + [window], windows, more)
      && (answer.Logs? && AllInRange(answer.logs, pool, window.0, window.1) ==>
            Progress(node, pool, tried + [window], windows + [window], more))
  {
    GatheredNext(node, pool, tried, window);
    var longer := tried + [window];
    forall w | w in windows ensures WasAccepted(node, pool, longer, w) { AcceptedMore(node, pool, tried, window, w); }
    if Accepted(node, pool, longer, |tried|) { assert longer[|tried|] == window; }
  }

  lemma StoppedFails(node: Node, pool: nat, tried: seq<(nat, nat)>, window: (nat, nat), windows: seq<(nat, nat)>, logs: seq<RawLog>)
    requires Progress(node, pool, tried, windows, logs) && !node.expired(|tried|)
    requires node.logs(|tried|, window.0, window.1).Stopped?
    ensures InTime(node, tried + [window]) && FetchFails(node, pool, tried + [window], RpcFailed)
  {
    var longer := tried + [window];
    forall i | 0 <= i < |longer| ensures !node.expired(i) && (i < |longer| - 1 ==> !AnswerTo(node, longer, i).Stopped?) {
      if i < |tried| { assert AnswerTo(node, longer, i) == AnswerTo(node, tried, i); }
    }
  }

  lemma TilesNext(windows: seq<(nat, nat)>, origin: nat, start: nat, end: nat)
    requires Tiles(windows, origin, start) && start <= end
    ensures Tiles(windows + [(start, end)], origin, end + 1)
  {
    assert (windows + [(start, end)])[..|windows|] == windows;
  }

  method ReadWindows(node: Node, pool: nat, origin: nat, last: nat, chunk: nat)
      returns (r: Result<seq<RawLog>, Gap>, ghost windows: seq<(nat, nat)>, ghost tried: seq<(nat, nat)>, ghost widths: seq<nat>)
    requires origin <= last && 1 <= chunk
    ensures |tried| <= last + 1 - origin + Halvings(chunk) && Within(tried, origin, last) && InTime(node, tried)
    ensures Scheduled(node, pool, tried, widths, origin, last, chunk)
    ensures r.Ok? ==> Tiles(windows, origin, last + 1) && Progress(node, pool, tried, windows, r.value)
    ensures r.Err? ==> FetchFails(node, pool, tried, r.error)
  {
    var logs := [];
    var start, width, n := origin, chunk, 0;
    windows, tried, widths := [], [], [];
    while start <= last
      invariant origin <= start <= last + 1 && 1 <= width
      invariant Tiles(windows, origin, start) && Within(tried, origin, last)
      invariant |tried| == n && n + (last + 1 - start) + Halvings(width) <= last + 1 - origin + Halvings(chunk)
      invariant Progress(node, pool, tried, windows, logs)
      invariant Scheduled(node, pool, tried, widths, origin, last, chunk)
      invariant start == NextStart(node, pool, tried, origin, |tried|) && width == NextWidth(node, pool, tried, widths, chunk, |tried|)
      decreases last + 1 - start, width
    {
      if node.expired(n) { return Err(Missing), windows, tried, widths; }
      var end := if start + width - 1 > last then last else start + width - 1;
      var answer := node.logs(n, start, end);
      ScheduleNext(node, pool, tried, widths, (start, end), width, origin, last, chunk);
      if answer.Stopped? {
        StoppedFails(node, pool, tried, (start, end), windows, logs);
      } else {
        ProgressNext(node, pool, tried, (start, end), windows, logs);
      }
      n, tried, widths := n + 1, tried + [(start, end)], widths + [width];
      if answer.Stopped? { return Err(RpcFailed), windows, tried, widths; }
      var ok := false;
      if answer.Logs? { logs, ok := Take(answer.logs, pool, start, end, logs); }
      if ok {
        TilesNext(windows, origin, start, end);
        windows := windows + [(start, end)];
        start := end + 1;
      } else {
        if width == 1 { return Err(Missing), windows, tried, widths; }
        width := width / 2;
      }
    }
    r := Ok(logs);
  }

  // ----- All operations -----

  lemma {:induction false} DedupeKeepsOnly(logs: seq<RawLog>)
    requires Dedupe(logs).Some?
    ensures forall log :: log in Dedupe(logs).value ==> log in logs
  {
    if logs != [] {
      DedupeKeepsOnly(logs[..|logs| - 1]);
      assert logs == logs[..|logs| - 1] + [logs[|logs| - 1]];
    }
  }

  predicate HeaderAgrees(node: Node, log: RawLog)
    requires log.blockNumber.Some?
  {
    node.header(log.blockNumber.value).Ok? && log.blockHash == Some(node.header(log.blockNumber.value).value)
  }

  // Log i is the first that is not of a canonical block: its header cannot be read, or has another hash.
  ghost predicate FirstDisagrees(node: Node, logs: seq<RawLog>, i: nat, reason: Gap)
    requires i < |logs| && forall j :: 0 <= j < |logs| ==> logs[j].blockNumber.Some?
  {
    && !HeaderAgrees(node, logs[i]) && (forall j :: 0 <= j < i ==> HeaderAgrees(node, logs[j]))
    && reason == match node.header(logs[i].blockNumber.value)
                 case Err(failure) => failure
                 case Ok(_) => HashMismatch
  }

  // Every log must be of the canonical block of its number; each header is read once.
  method CheckHeaders(node: Node, logs: seq<RawLog>) returns (r: Option<Gap>)
    requires forall i :: 0 <= i < |logs| ==> logs[i].blockNumber.Some?
    ensures r.None? <==> forall i :: 0 <= i < |logs| ==> HeaderAgrees(node, logs[i])
    ensures r.Some? ==> exists i :: 0 <= i < |logs| && FirstDisagrees(node, logs, i, r.value)
  {
    var headers: map<nat, nat> := map[];
    for i := 0 to |logs|
      invariant forall j :: 0 <= j < i ==> HeaderAgrees(node, logs[j])
      invariant forall b :: b in headers ==> node.header(b) == Ok(headers[b])
    {
      var number := logs[i].blockNumber.value;
      if number !in headers {
        var header := node.header(number);
        if header.Err? {
          assert FirstDisagrees(node, logs, i, header.error);
          return Some(header.error);
        }
        headers := headers[number := header.value];
      }
      if Some(headers[number]) != logs[i].blockHash {
        assert FirstDisagrees(node, logs, i, HashMismatch);
        return Some(HashMismatch);
      }
    }
    r := None;
  }

  method DecodeLogs(logs: seq<RawLog>) returns (r: Option<seq<Event>>)
    ensures r == DecodeAll(logs)
  {
    var events := [];
    for i := 0 to |logs|
      invariant DecodeAll(logs[..i]) == Some(events)
    {
      assert logs[..i + 1][..i] == logs[..i];
      var event := Decode(logs[i]);
      if event.None? {
        UndecodedStays(logs, i + 1);
        return None;
      }
      events := events + [event.value];
    }
    assert logs[..|logs|] == logs;
    r := Some(events);
  }

  lemma {:induction false} UndecodedStays(logs: seq<RawLog>, n: nat)
    requires n <= |logs| && DecodeAll(logs[..n]).None?
    ensures DecodeAll(logs).None?
    decreases |logs|
  {
    if n == |logs| {
      assert logs[..n] == logs;
    } else {
      assert logs[..|logs| - 1][..n] == logs[..n];
      UndecodedStays(logs[..|logs| - 1], n);
    }
  }

  // The chain's logs of the range are those of the executions xs.
  ghost predicate Emitted(c: Crypto, context: Context, node: Node, xs: seq<Execution>, chain: set<RawLog>, origin: nat, last: nat) {
    && Chain(xs)
    && (forall k :: 0 <= k < |xs| ==> Executable(c, context, node.transactions, xs[k]))
    && (forall log :: log in chain && InRange(log, context.pool, origin, last) <==> IsLogOf(c, context.pool, xs, log))
  }

  ghost predicate IsLogOf(c: Crypto, pool: nat, xs: seq<Execution>, log: RawLog) {
    exists k, e :: 0 <= k < |xs| && Emits(c, xs[k], e) && Encode(pool, e) == log
  }

  ghost predicate CanonicalBlocks(node: Node, xs: seq<Execution>) {
    forall k :: 0 <= k < |xs| ==> node.header(xs[k].at.blockNumber) == Ok(xs[k].at.blockHash)
  }

  lemma FetchedCopies(c: Crypto, context: Context, node: Node, xs: seq<Execution>, chain: set<RawLog>, origin: nat, last: nat,
      logs: seq<RawLog>)
    requires Emitted(c, context, node, xs, chain, origin, last)
    requires forall log :: log in logs <==> log in chain && InRange(log, context.pool, origin, last)
    ensures CopiesOf(c, context.pool, xs, logs)
  {
    forall log | log in logs
      ensures exists k, e :: 0 <= k < |xs| && Emits(c, xs[k], e) && Encode(context.pool, e) == log
    {
      assert IsLogOf(c, context.pool, xs, log);
    }
    forall k, e | 0 <= k < |xs| && Emits(c, xs[k], e) ensures Encode(context.pool, e) in logs {
      assert IsLogOf(c, context.pool, xs, Encode(context.pool, e));
    }
  }

  lemma FetchedHeaders(c: Crypto, context: Context, node: Node, xs: seq<Execution>, logs: seq<RawLog>, kept: seq<RawLog>)
    requires CopiesOf(c, context.pool, xs, logs) && CanonicalBlocks(node, xs)
    requires forall log :: log in kept ==> log in logs && log.blockNumber.Some?
    ensures forall i :: 0 <= i < |kept| ==> HeaderAgrees(node, kept[i])
  {
    forall i | 0 <= i < |kept| ensures HeaderAgrees(node, kept[i]) {
      assert kept[i] in logs;
      var k, e :| 0 <= k < |xs| && Emits(c, xs[k], e) && Encode(context.pool, e) == kept[i];
      EmittedPlace(c, xs[k], e);
    }
  }

  ghost predicate AllAgree(node: Node, logs: seq<RawLog>)
    requires forall i :: 0 <= i < |logs| ==> logs[i].blockNumber.Some?
  {
    forall i :: 0 <= i < |logs| ==> HeaderAgrees(node, logs[i])
  }

  // What comes of the logs that were fetched: conflicting copies are a gap, a log outside the
  // canonical chain fails with its header, and only then are operations assembled.
  ghost predicate Rebuilt(c: Crypto, context: Context, node: Node, logs: seq<RawLog>, r: Result<seq<Observed>, Gap>)
    requires forall log :: log in logs ==> log.blockNumber.Some?
  {
    match Dedupe(logs)
    case None => r == Err(Missing)
    case Some(kept) =>
      && (forall i :: 0 <= i < |kept| ==> kept[i].blockNumber.Some?)
      && if AllAgree(node, kept) then r == Reconstructed(c, context, node.transactions, logs)
         else r.Err? && exists i :: 0 <= i < |kept| && FirstDisagrees(node, kept, i, r.error)
  }

  // From the logs that were fetched to the operations.
  method Rebuild(c: Crypto, context: Context, node: Node, logs: seq<RawLog>) returns (r: Result<seq<Observed>, Gap>)
    requires forall log :: log in logs ==> log.blockNumber.Some?
    ensures Rebuilt(c, context, node, logs, r)
  {
    var kept := DropDuplicates(logs);
    if kept.None? { return Err(Missing); }
    DedupeKeepsOnly(logs);
    forall i | 0 <= i < |kept.value| ensures kept.value[i] in logs { assert kept.value[i] in kept.value; }
    var failure := CheckHeaders(node, kept.value);
    if failure.Some? { return Err(failure.value); }
    var events := DecodeLogs(kept.value);
    if events.None? { return Err(Missing); }
    r := Assemble(c, context, node.transactions, events.value);
  }

  // Every operation returned has its success event in a canonical block.
  lemma RebuiltCanonical(c: Crypto, context: Context, node: Node, logs: seq<RawLog>, r: Result<seq<Observed>, Gap>)
    requires (forall log :: log in logs ==> log.blockNumber.Some?) && Rebuilt(c, context, node, logs, r) && r.Ok?
    ensures forall op :: op in r.value ==>
      op.success.Some? && node.header(op.success.value.blockNumber) == Ok(op.success.value.blockHash)
  {
    ReconstructedFrom(c, context, node.transactions, logs);
    var kept := Dedupe(logs).value;
    forall op | op in r.value ensures op.success.Some? && node.header(op.success.value.blockNumber) == Ok(op.success.value.blockHash) {
      var log :| log in kept && OfBlock(log, op.success.value);
      var i :| 0 <= i < |kept| && kept[i] == log;
      assert HeaderAgrees(node, kept[i]);
    }
  }

  lemma RebuiltPasses(c: Crypto, context: Context, node: Node, logs: seq<RawLog>, r: Result<seq<Observed>, Gap>)
    requires (forall log :: log in logs ==> log.blockNumber.Some?) && Rebuilt(c, context, node, logs, r) && r.Ok?
    ensures forall s: Setting, op :: s.crypto == c && s.context == context && op in r.value ==> PassesLogChecks(s, op)
  {
    forall s: Setting | s.crypto == c && s.context == context
      ensures forall op :: op in r.value ==> PassesLogChecks(s, op)
    {
      ReconstructedPasses(s, node.transactions, logs);
    }
  }

  // From an honest node: the chain's operations, and with canonical headers there is no failure.
  lemma RebuiltHonest(c: Crypto, context: Context, node: Node, xs: seq<Execution>, chain: set<RawLog>, origin: nat, last: nat,
      logs: seq<RawLog>, r: Result<seq<Observed>, Gap>)
    requires (forall log :: log in logs ==> log.blockNumber.Some?) && Rebuilt(c, context, node, logs, r)
    requires Emitted(c, context, node, xs, chain, origin, last)
    requires forall log :: log in logs <==> log in chain && InRange(log, context.pool, origin, last)
    ensures r.Ok? ==> r.value == ObservedAll(c, xs)
    ensures CanonicalBlocks(node, xs) ==> r.Ok?
  {
    FetchedCopies(c, context, node, xs, chain, origin, last, logs);
    LogRoundTrip(c, context, node.transactions, xs, logs);
    if CanonicalBlocks(node, xs) {
      DedupeKeepsOnly(logs);
      FetchedHeaders(c, context, node, xs, logs, Dedupe(logs).value);
    }
  }

  // The reasons in their order: a range that is not one, the checkpoint's header, the logs, what is
  // made of them, and the checkpoint's header again.
  ghost predicate ReadOutcome(c: Crypto, context: Context, node: Node, origin: nat, point: Checkpoint,
      fetched: Result<seq<RawLog>, Gap>, r: Result<seq<Observed>, Gap>)
    requires fetched.Ok? ==> forall log :: log in fetched.value ==> log.blockNumber.Some?
  {
    if origin < context.deploymentBlock || origin > point.number then r == Err(Missing)
    else if node.before.Some? then r == Err(node.before.value)
    else if fetched.Err? then r == Err(fetched.error)
    else exists rebuilt ::
      && Rebuilt(c, context, node, fetched.value, rebuilt)
      && r == if rebuilt.Ok? && node.after.Some? then Err(node.after.value) else rebuilt
  }

  // getPoolOperations. Whatever the node answers, the operations it returns stand in canonical
  // blocks below a checkpoint that is canonical before and after, and pass the checks on their logs;
  // from an honest node they are exactly the operations of the chain, in order.
  method GetPoolOperations(c: Crypto, context: Context, node: Node, origin: nat, point: Checkpoint, chunk: nat,
      ghost chain: set<RawLog>, ghost xs: seq<Execution>)
      returns (r: Result<seq<Observed>, Gap>, ghost fetched: Result<seq<RawLog>, Gap>)
    requires 1 <= chunk
    ensures fetched.Ok? ==> forall log :: log in fetched.value ==>
      log.blockNumber.Some? && InRange(log, context.pool, origin, point.number)
    ensures ReadOutcome(c, context, node, origin, point, fetched, r)
    ensures r.Ok? ==> context.deploymentBlock <= origin <= point.number && node.before.None? && node.after.None?
    ensures r.Ok? ==> forall op :: op in r.value ==>
      op.success.Some? && node.header(op.success.value.blockNumber) == Ok(op.success.value.blockHash)
    ensures r.Ok? ==> forall s: Setting, op :: s.crypto == c && s.context == context && op in r.value ==> PassesLogChecks(s, op)
    ensures Honest(node, context.pool, chain) && Emitted(c, context, node, xs, chain, origin, point.number) && r.Ok?
      ==> r.value == ObservedAll(c, xs)
    ensures
      && Honest(node, context.pool, chain) && Cooperative(node, context.pool) && node.before.None? && node.after.None?
      && Emitted(c, context, node, xs, chain, origin, point.number) && CanonicalBlocks(node, xs)
      && context.deploymentBlock <= origin <= point.number
      ==> r.Ok?
  {
    fetched := Err(Missing);
    if origin < context.deploymentBlock || origin > point.number { return Err(Missing), fetched; }
    if node.before.Some? { return Err(node.before.value), fetched; }
    var logs, windows, tried, widths := FetchLogs(node, context.pool, origin, point.number, chunk, chain);
    fetched := logs;
    if logs.Err? { return Err(logs.error), fetched; }
    r := Rebuild(c, context, node, logs.value);
    ghost var rebuilt := r;
    if Honest(node, context.pool, chain) && Emitted(c, context, node, xs, chain, origin, point.number) {
      RebuiltHonest(c, context, node, xs, chain, origin, point.number, logs.value, rebuilt);
    }
    if r.Ok? {
      RebuiltCanonical(c, context, node, logs.value, r);
      RebuiltPasses(c, context, node, logs.value, r);
    }
    if r.Ok? && node.after.Some? { r := Err(node.after.value); }
    assert Rebuilt(c, context, node, logs.value, rebuilt);
  }
}
