/**
 * The per-address limiter in front of WebSocket upgrades
 * (pc/src/remote-control-websocket.ts:136-190): a bounded table of windows,
 * kept in insertion order as a JavaScript Map does.
 */
module UpgradeAdmission {
  import opened Common

  datatype Limits = Limits(windowMs: nat, maxAttempts: nat, maxAddresses: nat)

  predicate ValidLimits(l: Limits) {
    l.windowMs >= 1000 && l.maxAttempts >= 1 && l.maxAddresses >= 1
  }

  datatype Window = Window(address: string, startedAt: int, attempts: nat)

  predicate Over(w: Window, now: int, l: Limits) {
    now < w.startedAt || now - w.startedAt >= l.windowMs
  }

  function Keys(windows: seq<Window>): set<string> {
    set w | w in windows :: w.address
  }

  ghost predicate Distinct(windows: seq<Window>) {
    forall i, j :: 0 <= i < j < |windows| ==> windows[i].address != windows[j].address
  }

  function Find(windows: seq<Window>, address: string): (r: Option<nat>)
    ensures r.Some? ==> r.value < |windows| && windows[r.value].address == address
    ensures r.None? ==> address !in Keys(windows)
  {
    if windows == [] then None
    else if windows[0].address == address then Some(0)
    else
      var later := Find(windows[1..], address);
      assert windows == [windows[0]] + windows[1..];
      if later.None? then None else Some(later.value + 1)
  }

  function Running(windows: seq<Window>, now: int, l: Limits): seq<Window> {
    if windows == [] then []
    else
      var last := windows[|windows| - 1];
      Running(windows[..|windows| - 1], now, l) + if Over(last, now, l) then [] else [last]
  }

  /** Makes room for a new address: windows that are over go, then the oldest. */
  function Trim(windows: seq<Window>, now: int, l: Limits): seq<Window>
    requires ValidLimits(l)
  {
    if |windows| < l.maxAddresses then windows
    else
      var running := Running(windows, now, l);
      if |running| < l.maxAddresses then running else running[|running| - l.maxAddresses + 1..]
  }

  /** A running window moves to the end of the table, a restarted one keeps its place. */
  function Admit(windows: seq<Window>, address: string, now: int, l: Limits): (seq<Window>, bool)
    requires ValidLimits(l)
  {
    var found := Find(windows, address);
    if found.None? then (Trim(windows, now, l) + [Window(address, now, 1)], 1 <= l.maxAttempts)
    else
      var current := windows[found.value];
      if Over(current, now, l) then (windows[found.value := Window(address, now, 1)], 1 <= l.maxAttempts)
      else
        (windows[..found.value] + windows[found.value + 1..] + [current.(attempts := current.attempts + 1)],
         current.attempts + 1 <= l.maxAttempts)
  }

  // ------------------------------------------------------- the table's size

  lemma {:induction false} RunningIsPart(windows: seq<Window>, now: int, l: Limits)
    requires Distinct(windows)
    ensures Distinct(Running(windows, now, l)) && forall w :: w in Running(windows, now, l) ==>
            w in windows && !Over(w, now, l)
    decreases |windows|
  {
    if windows != [] {
      var n := |windows| - 1;
      RunningIsPart(windows[..n], now, l);
      var rest := Running(windows[..n], now, l);
      forall j | 0 <= j < |rest|
        ensures rest[j].address != windows[n].address
      {
        assert rest[j] in windows[..n];
        var i :| 0 <= i < n && windows[i] == rest[j];
      }
    }
  }

  lemma {:induction false} TrimIsPart(windows: seq<Window>, now: int, l: Limits)
    requires Distinct(windows) && ValidLimits(l)
    ensures Distinct(Trim(windows, now, l)) && forall w :: w in Trim(windows, now, l) ==> w in windows
    ensures |Trim(windows, now, l)| < l.maxAddresses
  {
    RunningIsPart(windows, now, l);
  }

  lemma {:induction false} RunningAppend(first: seq<Window>, second: seq<Window>, now: int, l: Limits)
    ensures Running(first + second, now, l) == Running(first, now, l) + Running(second, now, l)
    decreases |second|
  {
    if second == [] {
      assert first + second == first;
    } else {
      var n := |second| - 1;
      RunningAppend(first, second[..n], now, l);
      assert (first + second)[..|first| + n] == first + second[..n];
    }
  }

  /** Where a window stands among the running ones. */
  lemma {:induction false} RunningAround(windows: seq<Window>, now: int, l: Limits, i: nat)
    requires i < |windows|
    ensures Running(windows, now, l)
         == Running(windows[..i], now, l) + (if Over(windows[i], now, l) then [] else [windows[i]])
            + Running(windows[i + 1..], now, l)
  {
    hide Over;
    assert windows == windows[..i] + [windows[i]] + windows[i + 1..];
    RunningAppend(windows[..i] + [windows[i]], windows[i + 1..], now, l);
    RunningAppend(windows[..i], [windows[i]], now, l);
    assert [windows[i]][..0] == [];
  }

  lemma {:induction false} OneOfTheLast(running: seq<Window>, before: seq<Window>, w: Window, behind: seq<Window>,
                                        count: nat)
    requires Distinct(running) && running == before + [w] + behind && count <= |running|
    ensures w in running[|running| - count..] <==> |behind| < count
  {
    assert running[|before|] == w;
    if |behind| < count {
      assert running[|running| - count..][|before| - (|running| - count)] == w;
    }
  }

  /**
   * A full table makes room by dropping the windows that are over, and of the others
   * the oldest: one stays exactly when fewer than maximum - 1 running ones come behind it.
   */
  lemma {:induction false} TrimDropsTheOldest(windows: seq<Window>, now: int, l: Limits, i: nat)
    requires Distinct(windows) && ValidLimits(l) && i < |windows|
    ensures windows[i] in Trim(windows, now, l)
       <==> |windows| < l.maxAddresses
            || (!Over(windows[i], now, l) && |Running(windows[i + 1..], now, l)| < l.maxAddresses - 1)
  {
    hide Over, Running, Distinct;
    var running := Running(windows, now, l);
    RunningAround(windows, now, l, i);
    RunningIsPart(windows, now, l);
    if |windows| < l.maxAddresses { return; }
    TrimIsOfRunning(windows, now, l);
    if !Over(windows[i], now, l) {
      var kept := if |running| < l.maxAddresses then |running| else l.maxAddresses - 1;
      OneOfTheLast(running, Running(windows[..i], now, l), windows[i], Running(windows[i + 1..], now, l), kept);
    } else {
      assert windows[i] !in running;
    }
  }

  lemma TrimIsOfRunning(windows: seq<Window>, now: int, l: Limits)
    requires ValidLimits(l) && |windows| >= l.maxAddresses
    ensures var running := Running(windows, now, l);
      Trim(windows, now, l)
      == running[|running| - (if |running| < l.maxAddresses then |running| else l.maxAddresses - 1)..]
  {}

  /** The table never holds more than the maximum, whatever the clock and the addresses do. */
  lemma {:induction false} TableStaysBounded(windows: seq<Window>, address: string, now: int, l: Limits)
    requires ValidLimits(l) && Distinct(windows) && |windows| <= l.maxAddresses
    ensures Distinct(Admit(windows, address, now, l).0) && |Admit(windows, address, now, l).0| <= l.maxAddresses
  {
    var found := Find(windows, address);
    if found.None? {
      TrimIsPart(windows, now, l);
      var kept := Trim(windows, now, l);
      forall i | 0 <= i < |kept|
        ensures kept[i].address != address
      {
        assert kept[i] in windows && kept[i].address in Keys(windows);
      }
    }
  }

  // ------------------------------------------------------------ admission

  datatype Call = Call(address: string, time: int, admitted: bool)

  /** Admitted calls of an address with `low <= time < high`. */
  function Count(log: seq<Call>, address: string, low: int, high: int): nat {
    if log == [] then 0
    else
      var last := log[|log| - 1];
      Count(log[..|log| - 1], address, low, high)
      + (if last.admitted && last.address == address && low <= last.time < high then 1 else 0)
  }

  function Callers(log: seq<Call>): set<string> {
    set c | c in log :: c.address
  }

  lemma {:induction false} CountAppended(log: seq<Call>, c: Call, address: string, low: int, high: int)
    ensures Count(log + [c], address, low, high)
         == Count(log, address, low, high)
           + (if c.admitted && c.address == address && low <= c.time < high then 1 else 0)
  {
    assert (log + [c])[..|log|] == log;
  }

  lemma {:induction false} CountSplits(log: seq<Call>, address: string, low: int, middle: int, high: int)
    requires low <= middle <= high
    ensures Count(log, address, low, high) == Count(log, address, low, middle) + Count(log, address, middle, high)
    decreases |log|
  {
    if log != [] {
      CountSplits(log[..|log| - 1], address, low, middle, high);
    }
  }

  lemma {:induction false} NoCallers(log: seq<Call>, address: string, low: int, high: int)
    requires forall c :: c in log && c.address == address ==> c.time < low || c.time >= high
    ensures Count(log, address, low, high) == 0
    decreases |log|
  {
    if log != [] {
      assert log[|log| - 1] in log;
      NoCallers(log[..|log| - 1], address, low, high);
    }
  }

  /** Calls of one address and its window: who called, how often since the window started, and before it. */
  ghost predicate WindowFits(log: seq<Call>, w: Window, l: Limits) {
    && (exists c :: c in log && c.time == w.startedAt)
    && (forall c :: c in log && c.address == w.address ==> c.time < w.startedAt + l.windowMs)
    && (forall high :: Count(log, w.address, w.startedAt, high) <= w.attempts)
    && (forall high :: Count(log, w.address, w.startedAt, high) <= l.maxAttempts)
    && (forall low :: low > w.startedAt - l.windowMs ==> Count(log, w.address, low, w.startedAt) <= l.maxAttempts)
  }

  ghost predicate RateHolds(log: seq<Call>, address: string, l: Limits) {
    forall low, high :: high - low <= l.windowMs ==> Count(log, address, low, high) <= 2 * l.maxAttempts
  }

  ghost predicate Inv(log: seq<Call>, windows: seq<Window>, l: Limits) {
    && Distinct(windows)
    && Keys(windows) == Callers(log)
    && (forall w :: w in windows ==> WindowFits(log, w, l))
    && (forall address :: RateHolds(log, address, l))
  }

  predicate NotBefore(log: seq<Call>, now: int) {
    forall c :: c in log ==> c.time <= now
  }

  lemma {:induction false} CountEmpty(log: seq<Call>, address: string, low: int, high: int)
    requires high <= low
    ensures Count(log, address, low, high) == 0
  {
    NoCallers(log, address, low, high);
  }

  /** The window of an address that never called, or whose last window is over. */
  lemma {:induction false} FreshWindowFits(log: seq<Call>, address: string, now: int, l: Limits, before: Option<Window>)
    requires ValidLimits(l) && NotBefore(log, now) && RateHolds(log, address, l)
    requires before.None? ==> forall c :: c in log ==> c.address != address
    requires before.Some? ==>
             before.value.address == address && WindowFits(log, before.value, l)
             && now >= before.value.startedAt + l.windowMs
    ensures WindowFits(log + [Call(address, now, true)], Window(address, now, 1), l)
    ensures RateHolds(log + [Call(address, now, true)], address, l)
  {
    var call := Call(address, now, true);
    var all := log + [call];
    forall high
      ensures Count(all, address, now, high) <= 1
    {
      CountAppended(log, call, address, now, high);
      NoCallers(log, address, now, high);
    }
    forall low | low > now - l.windowMs
      ensures Count(all, address, low, now) <= l.maxAttempts
    {
      CountAppended(log, call, address, low, now);
      RecentCount(log, address, now, l, before, low, now);
    }
    forall low, high | high - low <= l.windowMs
      ensures Count(all, address, low, high) <= 2 * l.maxAttempts
    {
      CountAppended(log, call, address, low, high);
      if low <= now < high {
        CountSplits(log, address, low, now, high);
        NoCallers(log, address, now, high);
        RecentCount(log, address, now, l, before, low, now);
      }
    }
    assert forall c :: c in all && c.address == address ==> c.time < now + l.windowMs;
  }

  /** Less than one window back from a restart there are only calls of the window before. */
  lemma {:induction false} RecentCount(log: seq<Call>, address: string, now: int, l: Limits, before: Option<Window>,
                                       low: int, high: int)
    requires low > now - l.windowMs && high <= now
    requires before.None? ==> forall c :: c in log ==> c.address != address
    requires before.Some? ==>
             before.value.address == address && WindowFits(log, before.value, l)
             && now >= before.value.startedAt + l.windowMs
    ensures Count(log, address, low, high) <= l.maxAttempts
  {
    if before.None? {
      NoCallers(log, address, low, high);
    } else if high <= low {
      CountEmpty(log, address, low, high);
    } else {
      CountSplits(log, address, before.value.startedAt, low, high);
    }
  }

  /** One more call inside the running window. */
  lemma {:induction false} RunningWindowFits(log: seq<Call>, w: Window, now: int, l: Limits)
    requires ValidLimits(l) && WindowFits(log, w, l) && RateHolds(log, w.address, l) && !Over(w, now, l)
    ensures var call := Call(w.address, now, w.attempts + 1 <= l.maxAttempts);
            WindowFits(log + [call], w.(attempts := w.attempts + 1), l) && RateHolds(log + [call], w.address, l)
  {
    var call := Call(w.address, now, w.attempts + 1 <= l.maxAttempts);
    var all := log + [call];
    forall high
      ensures Count(all, w.address, w.startedAt, high) <= w.attempts + 1
              && Count(all, w.address, w.startedAt, high) <= l.maxAttempts
    {
      CountAppended(log, call, w.address, w.startedAt, high);
    }
    forall low | low > w.startedAt - l.windowMs
      ensures Count(all, w.address, low, w.startedAt) <= l.maxAttempts
    {
      CountAppended(log, call, w.address, low, w.startedAt);
    }
    forall low, high | high - low <= l.windowMs
      ensures Count(all, w.address, low, high) <= 2 * l.maxAttempts
    {
      CountAppended(log, call, w.address, low, high);
      if low <= now < high && call.admitted {
        if low <= w.startedAt {
          CountSplits(log, w.address, low, w.startedAt, high);
        } else {
          CountSplits(log, w.address, w.startedAt, low, high);
        }
      }
    }
  }

  /** A call of another address changes nothing. */
  lemma {:induction false} OthersStay(log: seq<Call>, c: Call, address: string, l: Limits)
    requires c.address != address
    ensures RateHolds(log, address, l) ==> RateHolds(log + [c], address, l)
    ensures forall w: Window :: w.address == address && WindowFits(log, w, l) ==> WindowFits(log + [c], w, l)
  {
    forall low, high
      ensures Count(log + [c], address, low, high) == Count(log, address, low, high)
    {
      CountAppended(log, c, address, low, high);
    }
  }

  lemma {:induction false} SubsetCount(xs: set<string>, ys: set<string>)
    requires xs <= ys
    ensures |xs| <= |ys|
    decreases |xs|
  {
    if xs != {} {
      var x :| x in xs;
      SubsetCount(xs - {x}, ys - {x});
    }
  }

  lemma {:induction false} KeysCount(windows: seq<Window>)
    requires Distinct(windows)
    ensures |Keys(windows)| == |windows|
    decreases |windows|
  {
    if windows != [] {
      KeysCount(windows[1..]);
      assert windows == [windows[0]] + windows[1..];
      assert Keys(windows) == {windows[0].address} + Keys(windows[1..]);
      assert windows[0].address !in Keys(windows[1..]);
    }
  }

  /** With room for every caller nothing is trimmed. */
  lemma {:induction false} RoomForAll(log: seq<Call>, windows: seq<Window>, address: string, now: int, l: Limits)
    requires ValidLimits(l) && Distinct(windows) && Keys(windows) == Callers(log) && address !in Keys(windows)
    requires |Callers(log) + {address}| <= l.maxAddresses
    ensures Trim(windows, now, l) == windows
  {
    KeysCount(windows);
  }

  lemma {:induction false} Replaced(windows: seq<Window>, i: nat, mine: Window)
    requires Distinct(windows) && i < |windows| && mine.address == windows[i].address
    ensures Keys(windows[i := mine]) == Keys(windows)
    ensures forall w :: w in windows[i := mine] ==> w == mine || (w in windows && w.address != mine.address)
  {
    var after := windows[i := mine];
    forall w | w in windows
      ensures w.address in Keys(after)
    {
      var k :| 0 <= k < |windows| && windows[k] == w;
      assert after[k].address == w.address && after[k] in after;
    }
  }

  lemma {:induction false} Without(windows: seq<Window>, i: nat)
    requires Distinct(windows) && i < |windows|
    ensures var rest := windows[..i] + windows[i + 1..];
            && windows[i].address !in Keys(rest)
            && Keys(rest) + {windows[i].address} == Keys(windows)
            && forall w :: w in rest ==> w in windows
  {
    var rest := windows[..i] + windows[i + 1..];
    assert forall k :: 0 <= k < |rest| ==> rest[k] == windows[if k < i then k else k + 1];
    assert forall w :: w in rest ==> w.address != windows[i].address;
    assert windows == windows[..i] + [windows[i]] + windows[i + 1..];
    assert forall w :: w in windows ==> w in rest || w == windows[i];
  }

  lemma {:induction false} Moved(windows: seq<Window>, i: nat, mine: Window)
    requires Distinct(windows) && i < |windows| && mine.address == windows[i].address
    ensures var after := windows[..i] + windows[i + 1..] + [mine];
            Keys(after) == Keys(windows) && forall w :: w in after ==>
              w == mine || (w in windows && w.address != mine.address)
  {
    hide Distinct;
    Without(windows, i);
    Appended(windows[..i] + windows[i + 1..], mine);
  }

  lemma {:induction false} Appended(windows: seq<Window>, mine: Window)
    requires mine.address !in Keys(windows)
    ensures Keys(windows + [mine]) == Keys(windows) + {mine.address}
    ensures forall w :: w in windows + [mine] ==> w == mine || (w in windows && w.address != mine.address)
  {
    assert mine in windows + [mine];
    assert forall w :: w in windows ==> w.address in Keys(windows);
  }

  /** The window that a call leaves for its address. */
  function Mine(windows: seq<Window>, address: string, now: int, l: Limits): Window {
    var found := Find(windows, address);
    if found.Some? && !Over(windows[found.value], now, l)
    then windows[found.value].(attempts := windows[found.value].attempts + 1) else Window(address, now, 1)
  }

  /** The table after a call: the caller's window is new, the others are as they were. */
  lemma {:induction false} TableAfter(windows: seq<Window>, address: string, now: int, l: Limits)
    requires ValidLimits(l) && Distinct(windows)
    requires Find(windows, address).None? ==> Trim(windows, now, l) == windows
    ensures var after := Admit(windows, address, now, l).0;
            && Keys(after) == Keys(windows) + {address}
            && forall w :: w in after ==> w == Mine(windows, address, now, l) || (w in windows && w.address != address)
  {
    hide Keys, Distinct, Trim, Over;
    var found := Find(windows, address);
    var mine := Mine(windows, address, now, l);
    if found.None? {
      Appended(windows, mine);
    } else {
      HasKey(windows, found.value);
      if Over(windows[found.value], now, l) {
        Replaced(windows, found.value, mine);
      } else {
        Moved(windows, found.value, mine);
      }
    }
  }

  lemma {:induction false} HasKey(windows: seq<Window>, i: nat)
    requires i < |windows|
    ensures Keys(windows) + {windows[i].address} == Keys(windows)
  {
    assert windows[i] in windows;
  }

  /** The caller's new window fits the log with the call, and its rate holds. */
  lemma {:induction false} MineFits(log: seq<Call>, windows: seq<Window>, address: string, now: int, l: Limits)
    requires ValidLimits(l) && Inv(log, windows, l) && NotBefore(log, now)
    ensures var all := log + [Call(address, now, Admit(windows, address, now, l).1)];
            WindowFits(all, Mine(windows, address, now, l), l) && RateHolds(all, address, l)
  {
    hide WindowFits, RateHolds, Count, Distinct, Trim;
    var found := Find(windows, address);
    if found.None? {
      assert forall c :: c in log ==> c.address in Callers(log);
      FreshWindowFits(log, address, now, l, None);
    } else {
      var w := windows[found.value];
      assert w in windows;
      if Over(w, now, l) {
        OverMeansLater(log, w, now, l);
        FreshWindowFits(log, address, now, l, Some(w));
      } else {
        RunningWindowFits(log, w, now, l);
      }
    }
  }

  lemma {:induction false} CallKeepsInv(log: seq<Call>, windows: seq<Window>, address: string, now: int, l: Limits)
    requires ValidLimits(l) && Inv(log, windows, l) && NotBefore(log, now)
             && |Callers(log) + {address}| <= l.maxAddresses
    ensures var (after, admitted) := Admit(windows, address, now, l);
            Inv(log + [Call(address, now, admitted)], after, l)
  {
    hide WindowFits, RateHolds, Count, Distinct, Admit, Keys, Mine, Trim;
    var (after, admitted) := Admit(windows, address, now, l);
    var call := Call(address, now, admitted);
    KeysCount(windows);
    SubsetCount(Keys(windows), Callers(log) + {address});
    if Find(windows, address).None? {
      RoomForAll(log, windows, address, now, l);
    }
    TableAfter(windows, address, now, l);
    MineFits(log, windows, address, now, l);
    TableStaysBounded(windows, address, now, l);
    forall a | a != address
      ensures RateHolds(log + [call], a, l)
    {
      OthersStay(log, call, a, l);
    }
    forall w | w in after
      ensures WindowFits(log + [call], w, l)
    {
      if w in windows && w.address != address {
        OthersStay(log, call, w.address, l);
      }
    }
    assert Callers(log + [call]) == Callers(log) + {address};
  }

  /** Under a clock that does not go back, a window that is over ended before now. */
  lemma OverMeansLater(log: seq<Call>, w: Window, now: int, l: Limits)
    requires Over(w, now, l) && WindowFits(log, w, l) && NotBefore(log, now)
    ensures now >= w.startedAt + l.windowMs
  {}

  // ------------------------------------------------------------- theorems

  /** The limiter over a sequence of calls with their clock readings. */
  function Run(calls: seq<(string, int)>, l: Limits): (seq<Call>, seq<Window>)
    requires ValidLimits(l)
  {
    if calls == [] then ([], [])
    else
      var (log, windows) := Run(calls[..|calls| - 1], l);
      var (address, now) := calls[|calls| - 1];
      var (after, admitted) := Admit(windows, address, now, l);
      (log + [Call(address, now, admitted)], after)
  }

  /** The table is bounded on every run, also when the clock jumps. */
  lemma {:induction false} TableIsBounded(calls: seq<(string, int)>, l: Limits)
    requires ValidLimits(l)
    ensures Distinct(Run(calls, l).1) && |Run(calls, l).1| <= l.maxAddresses
    decreases |calls|
  {
    hide Admit, Distinct;
    if calls == [] {
      assert Distinct([]) by { EmptyIsDistinct(); }
    } else {
      TableIsBounded(calls[..|calls| - 1], l);
      TableStaysBounded(Run(calls[..|calls| - 1], l).1, calls[|calls| - 1].0, calls[|calls| - 1].1, l);
    }
  }

  lemma EmptyIsDistinct()
    ensures Distinct([])
  {}

  predicate Monotone(calls: seq<(string, int)>) {
    forall i, j :: 0 <= i < j < |calls| ==> calls[i].1 <= calls[j].1
  }

  function CallersOf(calls: seq<(string, int)>): set<string> {
    set c | c in calls :: c.0
  }

  lemma {:induction false} LogIsCalls(calls: seq<(string, int)>, l: Limits)
    requires ValidLimits(l)
    ensures var log := Run(calls, l).0;
            |log| == |calls| && forall i :: 0 <= i < |calls| ==>
              log[i].address == calls[i].0 && log[i].time == calls[i].1
    decreases |calls|
  {
    hide Admit;
    if calls != [] {
      LogIsCalls(calls[..|calls| - 1], l);
    }
  }

  lemma {:induction false} LogOfCalls(calls: seq<(string, int)>, l: Limits, now: int)
    requires ValidLimits(l) && forall c :: c in calls ==> c.1 <= now
    ensures NotBefore(Run(calls, l).0, now) && Callers(Run(calls, l).0) == CallersOf(calls)
  {
    var log := Run(calls, l).0;
    LogIsCalls(calls, l);
    forall c | c in log
      ensures c.time <= now && c.address in CallersOf(calls)
    {
      var i :| 0 <= i < |log| && log[i] == c;
      assert calls[i] in calls;
    }
    forall a | a in CallersOf(calls)
      ensures a in Callers(log)
    {
      var c :| c in calls && c.0 == a;
      var i :| 0 <= i < |calls| && calls[i] == c;
      assert log[i] in log;
    }
  }

  lemma {:induction false} RunKeepsInv(calls: seq<(string, int)>, l: Limits)
    requires ValidLimits(l) && Monotone(calls) && |CallersOf(calls)| <= l.maxAddresses
    ensures Inv(Run(calls, l).0, Run(calls, l).1, l)
    decreases |calls|
  {
    hide Admit, Inv, NotBefore;
    if calls == [] {
      NoCallsAtAll(l);
    } else {
      var n := |calls| - 1;
      var (log, windows) := Run(calls[..n], l);
      assert calls[..n] + [calls[n]] == calls;
      assert CallersOf(calls) == CallersOf(calls[..n]) + {calls[n].0};
      SubsetCount(CallersOf(calls[..n]), CallersOf(calls));
      RunKeepsInv(calls[..n], l);
      LogOfCalls(calls[..n], l, calls[n].1);
      CallKeepsInv(log, windows, calls[n].0, calls[n].1, l);
    }
  }

  lemma NoCallsAtAll(l: Limits)
    ensures Inv([], [], l)
  {}

  /**
   * While the clock does not go back and no more addresses call than the table holds, every half-open interval of
   * the window's length admits at most twice the attempts of a window, for each address.
   */
  lemma {:induction false} AtMostTwoWindows(calls: seq<(string, int)>, l: Limits, address: string, from: int)
    requires ValidLimits(l) && Monotone(calls) && |CallersOf(calls)| <= l.maxAddresses
    ensures Count(Run(calls, l).0, address, from, from + l.windowMs) <= 2 * l.maxAttempts
  {
    hide Run, Count;
    RunKeepsInv(calls, l);
    assert RateHolds(Run(calls, l).0, address, l);
  }

  // ------------------------------------------- callers that keep the limit

  /** Calls of an address from `low` on, admitted or not. */
  function CallsSince(log: seq<Call>, address: string, low: int): nat {
    if log == [] then 0
    else
      var last := log[|log| - 1];
      CallsSince(log[..|log| - 1], address, low) + (if last.address == address && low <= last.time then 1 else 0)
  }

  lemma {:induction false} FewerLater(log: seq<Call>, address: string, low: int, later: int)
    requires low <= later
    ensures CallsSince(log, address, later) <= CallsSince(log, address, low)
    decreases |log|
  {
    if log != [] {
      FewerLater(log[..|log| - 1], address, low, later);
    }
  }

  lemma {:induction false} OneMoreCall(log: seq<Call>, c: Call, address: string, low: int)
    ensures CallsSince(log + [c], address, low)
         == CallsSince(log, address, low) + (if c.address == address && low <= c.time then 1 else 0)
  {
    assert (log + [c])[..|log|] == log;
  }

  /** No window counts more attempts than its address made since the window started. */
  ghost predicate CountsCalls(log: seq<Call>, windows: seq<Window>) {
    forall w :: w in windows ==> w.attempts <= CallsSince(log, w.address, w.startedAt)
  }

  lemma {:induction false} CallKeepsCounts(log: seq<Call>, windows: seq<Window>, address: string, now: int, l: Limits)
    requires ValidLimits(l) && Distinct(windows) && CountsCalls(log, windows)
    ensures var (after, admitted) := Admit(windows, address, now, l);
            CountsCalls(log + [Call(address, now, admitted)], after)
  {
    hide Trim, CallsSince;
    var (after, admitted) := Admit(windows, address, now, l);
    var call := Call(address, now, admitted);
    var found := Find(windows, address);
    TrimIsPart(windows, now, l);
    forall w | w in after ensures w.attempts <= CallsSince(log + [call], w.address, w.startedAt) {
      OneMoreCall(log, call, w.address, w.startedAt);
      if w == Window(address, now, 1) {
        assert CallsSince(log, address, now) >= 0;
      } else if found.Some? && w == windows[found.value].(attempts := windows[found.value].attempts + 1) {
        assert windows[found.value] in windows;
      } else {
        assert w in windows;
      }
    }
  }

  lemma {:induction false} RunCountsCalls(calls: seq<(string, int)>, l: Limits)
    requires ValidLimits(l)
    ensures CountsCalls(Run(calls, l).0, Run(calls, l).1)
    decreases |calls|
  {
    hide CountsCalls, Admit;
    if calls == [] {
      assert CountsCalls([], []) by { NothingCounted(); }
    } else {
      var n := |calls| - 1;
      RunCountsCalls(calls[..n], l);
      TableIsBounded(calls[..n], l);
      CallKeepsCounts(Run(calls[..n], l).0, Run(calls[..n], l).1, calls[n].0, calls[n].1, l);
    }
  }

  lemma NothingCounted()
    ensures CountsCalls([], [])
  {}

  /**
   * An address that made fewer calls than the limit in the last window is admitted,
   * on every run, whatever the clock and the other addresses did.
   */
  lemma {:induction false} QuietCallerIsAdmitted(calls: seq<(string, int)>, l: Limits, address: string, now: int)
    requires ValidLimits(l)
    requires CallsSince(Run(calls, l).0, address, now - l.windowMs + 1) < l.maxAttempts
    ensures Admit(Run(calls, l).1, address, now, l).1
  {
    hide Run, Trim;
    var (log, windows) := Run(calls, l);
    RunCountsCalls(calls, l);
    var found := Find(windows, address);
    if found.Some? && !Over(windows[found.value], now, l) {
      assert windows[found.value] in windows;
      FewerLater(log, address, now - l.windowMs + 1, windows[found.value].startedAt);
    }
  }

  // ----------------------------------------------------------- the closure

  class Admission {
    const limits: Limits
    var windows: seq<Window>

    ghost predicate Valid()
      reads this
    {
      ValidLimits(limits) && Distinct(windows) && |windows| <= limits.maxAddresses
    }

    constructor (l: Limits)
      requires ValidLimits(l)
      ensures Valid() && limits == l && windows == []
    {
      limits := l;
      windows := [];
    }

    /** A clock reading that is not a finite number admits nobody and changes nothing. */
    method Attempt(address: string, now: Option<int>) returns (admitted: bool)
      requires Valid()
      modifies this
      ensures Valid()
      ensures now.None? ==> !admitted && windows == old(windows)
      ensures now.Some? ==> (windows, admitted) == Admit(old(windows), address, now.value, limits)
    {
      hide Running, Trim, Over, Distinct;
      if now.None? { return false; }
      TableStaysBounded(windows, address, now.value, limits);
      var found := Find(windows, address);
      var restarts := found.Some? && Over(windows[found.value], now.value, limits);
      var current := Window(address, now.value, 0);
      if found.None? {
        MakeRoom(now.value);
      } else if !restarts {
        current := windows[found.value];
        windows := windows[..found.value] + windows[found.value + 1..];
      }
      current := current.(attempts := current.attempts + 1);
      windows := if restarts then windows[found.value := current] else windows + [current];
      return current.attempts <= limits.maxAttempts;
    }

    /** Drops the windows that are over, then the oldest ones, when the table is full. */
    method MakeRoom(now: int)
      requires ValidLimits(limits)
      modifies this
      ensures windows == Trim(old(windows), now, limits)
    {
      hide Running, Over;
      if |windows| < limits.maxAddresses { return; }
      windows := DropOver(windows, now);
      ghost var running := windows;
      while |windows| >= limits.maxAddresses
        invariant |windows| <= |running|
        invariant windows == running[|running| - |windows|..]
        invariant |windows| < limits.maxAddresses ==> |windows| == |running| || |windows| == limits.maxAddresses - 1
        decreases |windows|
      {
        windows := windows[1..];
      }
    }

    method DropOver(all: seq<Window>, now: int) returns (running: seq<Window>)
      ensures running == Running(all, now, limits)
    {
      hide Over;
      running := [];
      assert all[..0] == [];
      for i := 0 to |all|
        invariant running == Running(all[..i], now, limits)
      {
        assert all[..i + 1][..i] == all[..i];
        if !Over(all[i], now, limits) {
          running := running + [all[i]];
        }
      }
      assert all[..|all|] == all;
    }
  }
}
