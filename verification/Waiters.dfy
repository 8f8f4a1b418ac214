/** threadwait::poll (polling.cpp): one caller and, when there are several waiters, a thread
    for each of them. A transition system whose steps are the critical sections: what happens
    between taking and releasing the mutex is one step, except that the caller's scan of the
    waiters, which keeps the mutex, is one step per waiter. */
module Waiters {

  type WaiterId = nat
  type ThreadId = nat

  /** Where the caller is: not in poll, in the poll of its only waiter, going through the
      waiters with the mutex held, or waiting on the condition variable. */
  datatype Caller = Idle | Direct(waiter: WaiterId) | Scanning(todo: set<WaiterId>) | Waiting

  /** Where a thread is: in poll, about to lock, or asleep until a window opens. */
  datatype Job = Polling | Reported(val: int) | Asleep(val: int)

  datatype Thread = Thread(waiter: WaiterId, job: Job)

  /** A result that was added up. */
  datatype Count = Count(thread: ThreadId, waiter: WaiterId, val: int)

  /** A call that is over: what was counted while its window was open, and what it returned. */
  datatype Window = Window(counts: seq<Count>, result: int)

  datatype State = State(
    waiters: set<WaiterId>, busy: set<WaiterId>, open: bool, num: int,
    caller: Caller, threads: map<ThreadId, Thread>, next: ThreadId,
    past: seq<Window>, current: seq<Count>, returned: seq<int>)

  const INITIAL := State({}, {}, false, 0, Idle, map[], 0, [], [], [])

  datatype Move =
    | Add(waiter: WaiterId)
    | Call
    | Visit(waiter: WaiterId)
    | Open
    | Wake
    | Return(val: int)
    | Report(thread: ThreadId, val: int)
    | Lock(thread: ThreadId)

  /** Which moves are possible. Polls report -1 or a number of ready events; waiters are
      added between calls; the mutex is the caller's while it scans; a sleeping thread goes
      on only when the window is open; and the caller may wake at any time. */
  ghost predicate Enabled(s: State, m: Move) {
    match m
    case Add(_) => s.caller.Idle?
    case Call => s.caller.Idle?
    case Visit(w) => s.caller.Scanning? && w in s.caller.todo
    case Open => s.caller.Scanning? && s.caller.todo == {}
    case Wake => s.caller.Waiting?
    case Return(val) => s.caller.Direct? && val >= -1
    case Report(t, val) => t in s.threads && s.threads[t].job.Polling? && val >= -1
    case Lock(t) =>
      && t in s.threads && !s.caller.Scanning?
      && (s.threads[t].job.Reported? || (s.threads[t].job.Asleep? && s.open))
  }

  function Tally(num: int, val: int): int {
    if val == 0 then num else if val == -1 then -1 else if num != -1 then num + val else num
  }

  ghost function Step(s: State, m: Move): State
    requires Enabled(s, m)
  {
    match m
    case Add(w) => s.(waiters := s.waiters + {w})
    case Call =>
      if |s.waiters| == 1 then
        var w :| w in s.waiters;
        s.(caller := Direct(w))
      else s.(caller := Scanning(s.waiters))
    case Visit(w) =>
      var on := s.(caller := Scanning(s.caller.todo - {w}));
      if w in s.busy then on
      else on.(busy := s.busy + {w}, threads := s.threads[s.next := Thread(w, Polling)], next := s.next + 1)
    case Open => s.(num := 0, open := true, caller := Waiting, current := [])
    case Wake =>
      s.(open := false, caller := Idle, past := s.past + [Window(s.current, s.num)], current := [],
         returned := s.returned + [s.num])
    case Return(val) => s.(caller := Idle, returned := s.returned + [val])
    case Report(t, val) => s.(threads := s.threads[t := s.threads[t].(job := Reported(val))])
    case Lock(t) =>
      var thread := s.threads[t];
      if !s.open then s.(threads := s.threads[t := thread.(job := Asleep(thread.job.val))])
      else s.(num := Tally(s.num, thread.job.val), busy := s.busy - {thread.waiter}, threads := s.threads - {t},
              current := s.current + [Count(t, thread.waiter, thread.job.val)])
  }

  // ---- what a window adds up to ----

  function Sum(counts: seq<Count>): int {
    if counts == [] then 0 else Sum(counts[..|counts| - 1]) + counts[|counts| - 1].val
  }

  predicate Failed(counts: seq<Count>) { exists k :: 0 <= k < |counts| && counts[k].val == -1 }

  predicate Proper(counts: seq<Count>) { forall k | 0 <= k < |counts| :: counts[k].val >= -1 }

  /** -1 when a poll that was counted failed, and otherwise how many events all of them found. */
  function Verdict(counts: seq<Count>): int { if Failed(counts) then -1 else Sum(counts) }

  lemma {:induction false} SumIsNatural(counts: seq<Count>)
    requires Proper(counts) && !Failed(counts)
    ensures Sum(counts) >= 0
  {
    if counts != [] {
      var before, last := counts[..|counts| - 1], |counts| - 1;
      assert forall k | 0 <= k < |before| :: before[k] == counts[k];
      assert counts[last].val >= -1 && counts[last].val != -1;
      SumIsNatural(before);
    }
  }

  lemma TallyIsVerdict(counts: seq<Count>, count: Count)
    requires Proper(counts) && count.val >= -1
    ensures Proper(counts + [count]) && Verdict(counts + [count]) == Tally(Verdict(counts), count.val)
  {
    var all := counts + [count];
    assert all[..|counts|] == counts && all[|counts|] == count;
    assert forall k | 0 <= k < |counts| :: all[k] == counts[k];
    if Failed(counts) {
      var k :| 0 <= k < |counts| && counts[k].val == -1;
      assert all[k].val == -1;
    } else {
      SumIsNatural(counts);
    }
  }

  // ---- the invariant ----

  function Flatten(past: seq<Window>): seq<Count> {
    if past == [] then [] else Flatten(past[..|past| - 1]) + past[|past| - 1].counts
  }

  /** Everything that was ever counted, in order. */
  function Counts(s: State): seq<Count> { Flatten(s.past) + s.current }

  /** No two of the counts are of the same waiter. */
  predicate OnePerWaiter(counts: seq<Count>) {
    forall i, j | 0 <= i < j < |counts| :: counts[i].waiter != counts[j].waiter
  }

  /** A waiter is flagged exactly when it has a thread, and it has one at most. */
  ghost predicate Flagged(threads: map<ThreadId, Thread>, busy: set<WaiterId>) {
    && (forall t | t in threads :: threads[t].waiter in busy)
    && (forall w | w in busy :: exists t :: t in threads && threads[t].waiter == w)
    && (forall t, u | t in threads && u in threads && threads[t].waiter == threads[u].waiter :: t == u)
  }

  ghost predicate Flags(s: State) { Flagged(s.threads, s.busy) }

  /** Threads are used only when there are several waiters, so never during a direct poll. */
  ghost predicate Phases(s: State) {
    && s.busy <= s.waiters
    && (s.open <==> s.caller.Waiting?)
    && (|s.waiters| <= 1 ==> s.busy == {})
    && (s.caller.Direct? ==> s.waiters == {s.caller.waiter})
    && (s.caller.Scanning? ==> |s.waiters| != 1 && s.caller.todo <= s.waiters && s.waiters - s.caller.todo <= s.busy)
    && (forall t | t in s.threads && !s.threads[t].job.Polling? :: s.threads[t].job.val >= -1)
  }

  /** Every thread ever started is either still there or was counted, once. */
  ghost predicate Accounted(threads: map<ThreadId, Thread>, next: ThreadId, all: seq<Count>) {
    && (forall t | t in threads :: t < next)
    && (forall k | 0 <= k < |all| :: all[k].thread < next && all[k].thread !in threads)
    && (forall i, j | 0 <= i < j < |all| :: all[i].thread != all[j].thread)
    && (forall t | 0 <= t < next :: t in threads || exists k :: 0 <= k < |all| && all[k].thread == t)
  }

  ghost predicate Conserved(s: State) { Accounted(s.threads, s.next, Counts(s)) }

  ghost predicate Settled(w: Window) {
    Proper(w.counts) && OnePerWaiter(w.counts) && w.result == Verdict(w.counts)
  }

  /** Results are verdicts on what was counted; an open window covers every waiter. */
  ghost predicate Tallied(s: State) {
    && (forall k | 0 <= k < |s.past| :: Settled(s.past[k]))
    && Proper(s.current) && OnePerWaiter(s.current)
    && (forall k | 0 <= k < |s.current| :: s.current[k].waiter !in s.busy)
    && (s.open ==> s.num == Verdict(s.current) && forall w | w in s.waiters ::
                     w in s.busy || exists k :: 0 <= k < |s.current| && s.current[k].waiter == w)
    && (!s.open ==> s.current == [])
  }

  ghost predicate Inv(s: State) { Flags(s) && Phases(s) && Conserved(s) && Tallied(s) }

  lemma StepKeepsFlags(s: State, m: Move)
    requires Inv(s) && Enabled(s, m)
    ensures Flags(Step(s, m))
  {
    hide Phases, Tallied, Counts, Flagged, Tally;
    match m {
      case Visit(w) =>
        if w !in s.busy {
          assert s.next !in s.threads;
          OneFlagged(s.threads, s.busy, s.next, w);
        }
      case Report(t, val) => SameFlags(s.threads, s.busy, t, s.threads[t].(job := Reported(val)));
      case Lock(t) =>
        if s.open {
          OneCleared(s.threads, s.busy, t);
        } else {
          SameFlags(s.threads, s.busy, t, s.threads[t].(job := Asleep(s.threads[t].job.val)));
        }
      case _ =>
    }
  }

  lemma OneFlagged(threads: map<ThreadId, Thread>, busy: set<WaiterId>, t: ThreadId, w: WaiterId)
    requires Flagged(threads, busy) && t !in threads && w !in busy
    ensures Flagged(threads[t := Thread(w, Polling)], busy + {w})
  {
    var after := threads[t := Thread(w, Polling)];
    assert after[t].waiter == w;
    KeepsWitnesses(threads, busy, after);
  }

  lemma OneCleared(threads: map<ThreadId, Thread>, busy: set<WaiterId>, t: ThreadId)
    requires Flagged(threads, busy) && t in threads
    ensures Flagged(threads - {t}, busy - {threads[t].waiter})
  {
    forall w | w in busy - {threads[t].waiter}
      ensures exists u :: u in threads - {t} && (threads - {t})[u].waiter == w
    {
      var u :| u in threads && threads[u].waiter == w;
      assert u in threads - {t} && (threads - {t})[u].waiter == w;
    }
  }

  lemma SameFlags(threads: map<ThreadId, Thread>, busy: set<WaiterId>, t: ThreadId, thread: Thread)
    requires Flagged(threads, busy) && t in threads && thread.waiter == threads[t].waiter
    ensures Flagged(threads[t := thread], busy)
  {
    KeepsWitnesses(threads, busy, threads[t := thread]);
  }

  /** Flagged waiters still have threads when the threads are still there. */
  lemma KeepsWitnesses(threads: map<ThreadId, Thread>, busy: set<WaiterId>, after: map<ThreadId, Thread>)
    requires Flagged(threads, busy)
    requires forall t | t in threads :: t in after && after[t].waiter == threads[t].waiter
    ensures forall w | w in busy :: exists t :: t in after && after[t].waiter == w
  {
    forall w | w in busy
      ensures exists t :: t in after && after[t].waiter == w
    {
      var t :| t in threads && threads[t].waiter == w;
      assert t in after && after[t].waiter == w;
    }
  }

  lemma StepKeepsPhases(s: State, m: Move)
    requires Inv(s) && Enabled(s, m)
    ensures Phases(Step(s, m))
  {
    match m {
      case Call =>
        if |s.waiters| == 1 {
          var w := Step(s, m).caller.waiter;
          Singleton(s.waiters, w);
        }
      case Visit(w) => Several(s.waiters, w);
      case Add(w) => Smaller(s.waiters, w);
      case _ =>
    }
  }

  lemma Singleton(ws: set<WaiterId>, w: WaiterId)
    requires |ws| == 1 && w in ws
    ensures ws == {w}
  {
    assert |ws - {w}| == 0;
  }

  lemma Several(ws: set<WaiterId>, w: WaiterId)
    requires w in ws && |ws| != 1
    ensures |ws| > 1
  {}

  lemma Smaller(ws: set<WaiterId>, w: WaiterId)
    ensures |ws| <= |ws + {w}|
  {
    assert w in ws ==> ws + {w} == ws;
  }

  lemma StepKeepsConserved(s: State, m: Move)
    requires Inv(s) && Enabled(s, m)
    ensures Conserved(Step(s, m))
  {
    hide Accounted, Counts, Tally;
    CountsGrow(s, m);
    match m {
      case Visit(w) => OneStarted(s.threads, s.next, Counts(s), Thread(w, Polling));
      case Report(t, val) => SameThreads(s.threads, s.next, Counts(s), t, s.threads[t].(job := Reported(val)));
      case Lock(t) =>
        if s.open {
          OneCounted(s.threads, s.next, Counts(s), Count(t, s.threads[t].waiter, s.threads[t].job.val));
        } else {
          SameThreads(s.threads, s.next, Counts(s), t, s.threads[t].(job := Asleep(s.threads[t].job.val)));
        }
      case _ =>
    }
  }

  lemma OneStarted(threads: map<ThreadId, Thread>, next: ThreadId, all: seq<Count>, thread: Thread)
    requires Accounted(threads, next, all)
    ensures Accounted(threads[next := thread], next + 1, all)
  {}

  lemma SameThreads(threads: map<ThreadId, Thread>, next: ThreadId, all: seq<Count>, t: ThreadId, thread: Thread)
    requires Accounted(threads, next, all) && t in threads
    ensures Accounted(threads[t := thread], next, all)
  {}

  lemma OneCounted(threads: map<ThreadId, Thread>, next: ThreadId, all: seq<Count>, count: Count)
    requires Accounted(threads, next, all) && count.thread in threads
    ensures Accounted(threads - {count.thread}, next, all + [count])
  {
    var all' := all + [count];
    forall t | 0 <= t < next
      ensures t in threads - {count.thread} || exists k :: 0 <= k < |all'| && all'[k].thread == t
    {
      if t == count.thread {
        assert all'[|all|].thread == t;
      } else if t !in threads {
        var k :| 0 <= k < |all| && all[k].thread == t;
        assert all'[k].thread == t;
      }
    }
  }

  /** What is counted stays counted, and only threads that report while a window is open
      are added, to that window. */
  lemma CountsGrow(s: State, m: Move)
    requires Tallied(s) && Phases(s) && Enabled(s, m)
    ensures Counts(Step(s, m)) ==
              if m.Lock? && s.open
              then Counts(s) + [Count(m.thread, s.threads[m.thread].waiter, s.threads[m.thread].job.val)]
              else Counts(s)
    ensures m.Lock? && s.open ==> s.caller.Waiting? && Step(s, m).past == s.past
  {
    if m.Wake? {
      assert Step(s, m).past[..|s.past|] == s.past;
      assert Flatten(Step(s, m).past) == Flatten(s.past) + s.current;
    }
  }

  lemma StepKeepsTallied(s: State, m: Move)
    requires Inv(s) && Enabled(s, m)
    ensures Tallied(Step(s, m))
  {
    hide Verdict, Tally;
    match m {
      case Lock(t) =>
        if s.open {
          var count := Count(t, s.threads[t].waiter, s.threads[t].job.val);
          TallyIsVerdict(s.current, count);
          OneMoreCounted(s, t, count);
        }
      case Open => NothingCounted();
      case _ =>
    }
  }

  lemma NothingCounted()
    ensures Verdict([]) == 0
  {}

  lemma OneMoreCounted(s: State, t: ThreadId, count: Count)
    requires Inv(s) && s.open && t in s.threads && count.thread == t && count.waiter == s.threads[t].waiter
    ensures OnePerWaiter(s.current + [count])
    ensures forall k | 0 <= k < |s.current| + 1 :: (s.current + [count])[k].waiter !in s.busy - {count.waiter}
    ensures forall w | w in s.waiters ::
              w in s.busy - {count.waiter}
                || exists k :: 0 <= k < |s.current| + 1 && (s.current + [count])[k].waiter == w
  {
    var all := s.current + [count];
    forall w | w in s.waiters
      ensures w in s.busy - {count.waiter} || exists k :: 0 <= k < |s.current| + 1 && all[k].waiter == w
    {
      if w == count.waiter {
        assert all[|s.current|].waiter == w;
      } else if w !in s.busy {
        var k :| 0 <= k < |s.current| && s.current[k].waiter == w;
        assert all[k].waiter == w;
      }
    }
  }

  lemma StepKeepsInv(s: State, m: Move)
    requires Inv(s) && Enabled(s, m)
    ensures Inv(Step(s, m))
  {
    hide Flags, Phases, Conserved, Tallied;
    StepKeepsFlags(s, m);
    StepKeepsPhases(s, m);
    StepKeepsConserved(s, m);
    StepKeepsTallied(s, m);
  }

  // ---- whole runs ----

  ghost predicate IsRun(ms: seq<Move>)
    decreases |ms|, 0
  {
    ms == [] || (IsRun(ms[..|ms| - 1]) && Enabled(After(ms[..|ms| - 1]), ms[|ms| - 1]))
  }

  /** The state after any interleaving of the caller and the threads. */
  ghost function After(ms: seq<Move>): (s: State)
    requires IsRun(ms)
    ensures Inv(s)
    decreases |ms|, 1
  {
    if ms == [] then INITIAL
    else
      var s := After(ms[..|ms| - 1]);
      StepKeepsInv(s, ms[|ms| - 1]);
      Step(s, ms[|ms| - 1])
  }

  /** The polls of a waiter that are under way. */
  ghost predicate IsPolling(s: State, t: ThreadId, w: WaiterId) {
    t in s.threads && s.threads[t].waiter == w && s.threads[t].job.Polling?
  }

  /** A waiter is never polled twice at the same time, be it by threads or by the caller. */
  lemma OnePollPerWaiter(ms: seq<Move>, w: WaiterId, t: ThreadId, u: ThreadId)
    requires IsRun(ms) && IsPolling(After(ms), t, w)
    ensures IsPolling(After(ms), u, w) ==> t == u
    ensures !After(ms).caller.Direct?
  {
    assert Inv(After(ms));
  }

  /** A call with several waiters returns -1 exactly when a poll counted in its window failed,
      and otherwise the sum of what was counted there, at most once for each waiter. */
  lemma ResultsAreVerdicts(ms: seq<Move>, k: nat)
    requires IsRun(ms) && k < |After(ms).past|
    ensures var w := After(ms).past[k];
            && (w.result == -1 <==> Failed(w.counts)) && (!Failed(w.counts) ==> w.result == Sum(w.counts))
            && OnePerWaiter(w.counts)
  {
    assert Settled(After(ms).past[k]);
    if !Failed(After(ms).past[k].counts) {
      SumIsNatural(After(ms).past[k].counts);
    }
  }

  // ---- no result is counted twice, none is lost ----

  /** How much was counted before the k-th call. */
  function Before(past: seq<Window>, k: nat): nat
    requires k <= |past|
  {
    |Flatten(past[..k])|
  }

  lemma {:induction false} FlattenAt(past: seq<Window>, k: nat, i: nat)
    requires k < |past| && i < |past[k].counts|
    ensures Before(past, k) + i < Before(past, k + 1) <= |Flatten(past)|
    ensures Flatten(past)[Before(past, k) + i] == past[k].counts[i]
    decreases |past|
  {
    var shorter := past[..|past| - 1];
    assert past[..k + 1][..k] == past[..k];
    if k == |past| - 1 {
      assert past[..k + 1] == past;
    } else {
      FlattenAt(shorter, k, i);
      assert shorter[..k] == past[..k] && shorter[..k + 1] == past[..k + 1];
    }
  }

  lemma {:induction false} BeforeGrows(past: seq<Window>, j: nat, k: nat)
    requires j <= k <= |past|
    ensures Before(past, j) <= Before(past, k)
    decreases k - j
  {
    if j < k {
      assert past[..j + 1][..j] == past[..j];
      BeforeGrows(past, j + 1, k);
    }
  }

  /** Two different counts, of one call or of two, are of different polls. */
  lemma CountedOnce(ms: seq<Move>, j: nat, a: nat, k: nat, b: nat)
    requires IsRun(ms)
    requires var past := After(ms).past;
             j < |past| && k < |past| && a < |past[j].counts| && b < |past[k].counts|
    requires After(ms).past[j].counts[a].thread == After(ms).past[k].counts[b].thread
    ensures j == k && a == b
  {
    hide Step, Enabled, Flatten;
    var s := After(ms);
    var past := s.past;
    FlattenAt(past, j, a);
    FlattenAt(past, k, b);
    if j < k {
      BeforeGrows(past, j + 1, k);
    } else if k < j {
      BeforeGrows(past, k + 1, j);
    }
    var p, q := Before(past, j) + a, Before(past, k) + b;
    assert Counts(s)[p] == past[j].counts[a] && Counts(s)[q] == past[k].counts[b];
    assert Conserved(s);
  }

  /** Every poll that was started is under way, waiting to be counted, or counted. */
  lemma NoneIsLost(ms: seq<Move>, t: ThreadId)
    requires IsRun(ms) && t < After(ms).next
    ensures (t in After(ms).threads) != (exists k :: 0 <= k < |Counts(After(ms))| && Counts(After(ms))[k].thread == t)
  {
    assert Conserved(After(ms));
  }

  /** Counting happens only while a window is open, with the caller in it. */
  lemma CountedInAWindow(ms: seq<Move>, m: Move)
    requires IsRun(ms) && Enabled(After(ms), m) && Counts(Step(After(ms), m)) != Counts(After(ms))
    ensures m.Lock? && After(ms).open && After(ms).caller.Waiting?
    ensures Step(After(ms), m).past == After(ms).past && After(ms).current < Step(After(ms), m).current
  {
    CountsGrow(After(ms), m);
  }

  /** An open window covers every waiter: each has been counted in it or is still to report. */
  lemma WindowsCoverAll(ms: seq<Move>, w: WaiterId)
    requires IsRun(ms) && After(ms).open && w in After(ms).waiters
    ensures var s := After(ms);
            (exists k :: 0 <= k < |s.current| && s.current[k].waiter == w)
            != (exists t :: t in s.threads && s.threads[t].waiter == w)
  {
    assert Inv(After(ms));
  }

  // ---- what the calls return, from the moves alone ----

  /** A window has been opened and the caller has not woken since. */
  ghost predicate IsOpen(ms: seq<Move>) {
    ms != [] &&
    match ms[|ms| - 1]
    case Open => true
    case Wake => false
    case _ => IsOpen(ms[..|ms| - 1])
  }

  /** What the thread's poll reported. */
  ghost function ReportOf(ms: seq<Move>, t: ThreadId): int {
    if ms == [] then 0
    else
      match ms[|ms| - 1]
      case Report(u, val) => if u == t then val else ReportOf(ms[..|ms| - 1], t)
      case _ => ReportOf(ms[..|ms| - 1], t)
  }

  /** The reports of the threads that got the mutex since the window was opened. */
  ghost function Counted(ms: seq<Move>): seq<int> {
    if ms == [] then []
    else
      var before := ms[..|ms| - 1];
      match ms[|ms| - 1]
      case Open => []
      case Wake => []
      case Lock(t) => if IsOpen(before) then Counted(before) + [ReportOf(before, t)] else Counted(before)
      case _ => Counted(before)
  }

  function Total(vals: seq<int>): int { if vals == [] then 0 else Total(vals[..|vals| - 1]) + vals[|vals| - 1] }

  /** The results of all calls: of a single waiter what its poll reported, and of several -1 if one
      of the reports counted was, and their sum otherwise. */
  ghost function Answers(ms: seq<Move>): seq<int> {
    if ms == [] then []
    else
      var before := ms[..|ms| - 1];
      match ms[|ms| - 1]
      case Return(val) => Answers(before) + [val]
      case Wake => Answers(before) + [if -1 in Counted(before) then -1 else Total(Counted(before))]
      case _ => Answers(before)
  }

  function Vals(counts: seq<Count>): (vals: seq<int>)
    ensures |vals| == |counts| && forall k | 0 <= k < |vals| :: vals[k] == counts[k].val
  {
    seq(|counts|, k requires 0 <= k < |counts| => counts[k].val)
  }

  lemma {:induction false} ValsTotal(counts: seq<Count>)
    ensures Verdict(counts) == if -1 in Vals(counts) then -1 else Total(Vals(counts))
    ensures Sum(counts) == Total(Vals(counts))
  {
    if counts != [] {
      ValsTotal(counts[..|counts| - 1]);
      assert Vals(counts)[..|counts| - 1] == Vals(counts[..|counts| - 1]);
    }
    assert Failed(counts) <==> -1 in Vals(counts) by {
      if Failed(counts) {
        var k :| 0 <= k < |counts| && counts[k].val == -1;
        assert Vals(counts)[k] == -1;
      }
    }
  }

  /** What the state remembers of the moves. */
  ghost predicate Remembers(s: State, ms: seq<Move>) {
    && s.open == IsOpen(ms) && Vals(s.current) == Counted(ms) && s.returned == Answers(ms)
    && (forall t | t in s.threads && !s.threads[t].job.Polling? :: s.threads[t].job.val == ReportOf(ms, t))
  }

  lemma RemembersNext(s: State, m: Move, ms: seq<Move>)
    requires ms != [] && m == ms[|ms| - 1] && Inv(s) && Enabled(s, m) && Remembers(s, ms[..|ms| - 1])
    ensures Remembers(Step(s, m), ms)
  {
    hide Flags, Conserved, Verdict, Total;
    ValsTotal(s.current);
    if m.Lock? && s.open {
      var count := Count(m.thread, s.threads[m.thread].waiter, s.threads[m.thread].job.val);
      assert Vals(s.current + [count]) == Vals(s.current) + [count.val];
    }
  }

  /** Every call returns what the moves say. */
  lemma {:induction false} AnswersAre(ms: seq<Move>)
    requires IsRun(ms)
    ensures After(ms).returned == Answers(ms) && Remembers(After(ms), ms)
    decreases |ms|
  {
    if ms != [] {
      hide Step, Enabled, Inv, Remembers;
      AnswersAre(ms[..|ms| - 1]);
      RemembersNext(After(ms[..|ms| - 1]), ms[|ms| - 1], ms);
      Remembered(After(ms), ms);
    }
  }

  lemma Remembered(s: State, ms: seq<Move>)
    requires Remembers(s, ms)
    ensures s.returned == Answers(ms)
  {}

  /** A call polls its waiter itself exactly when there is just that one. */
  lemma AloneIsDirect(ms: seq<Move>)
    requires IsRun(ms) && Enabled(After(ms), Call)
    ensures var s, s' := After(ms), Step(After(ms), Call);
            && (s'.caller.Direct? <==> exists w :: s.waiters == {w})
            && (s'.caller.Direct? ==> s.waiters == {s'.caller.waiter} && s'.threads == map[])
            && (!s'.caller.Direct? ==> s'.caller == Scanning(s.waiters))
  {
    assert Inv(After(ms));
    var s := After(ms);
    if |s.waiters| == 1 {
      Singleton(s.waiters, Step(s, Call).caller.waiter);
    }
  }

  // ---- results can be late ----

  lemma OneMove(ms: seq<Move>, m: Move)
    requires IsRun(ms) && Enabled(After(ms), m)
    ensures IsRun(ms + [m]) && After(ms + [m]) == Step(After(ms), m)
  {
    assert (ms + [m])[..|ms|] == ms;
  }

  lemma NoMoves()
    ensures IsRun([]) && After([]) == INITIAL
  {}

  /** After two waiters were added and visited and a window was opened. */
  lemma TwoWaiters() returns (ms: seq<Move>)
    ensures IsRun(ms)
    ensures After(ms) == State({0, 1}, {0, 1}, true, 0, Waiting,
                               map[0 := Thread(0, Polling), 1 := Thread(1, Polling)], 2, [], [], [])
  {
    hide After, IsRun, Inv;
    NoMoves();
    OneMove([], Add(0));
    ms := [] + [Add(0)];
    OneMove(ms, Add(1));
    ms := ms + [Add(1)];
    assert After(ms).waiters == {0, 1};
    OneMove(ms, Call);
    ms := ms + [Call];
    assert |{0, 1}| == 2;
    OneMove(ms, Visit(0));
    ms := ms + [Visit(0)];
    OneMove(ms, Visit(1));
    ms := ms + [Visit(1)];
    assert After(ms).caller.todo == {};
    OneMove(ms, Open);
    ms := ms + [Open];
    assert After(ms).busy == {0, 1};
  }

  /** A poll may be counted in a later call than the one that started it: the first call here
      returns 0, and the second what the first one's poll found. No thread is started for the
      second call. */
  lemma LateResults() returns (ms: seq<Move>)
    ensures IsRun(ms) && After(ms).next == 2
    ensures After(ms).past == [Window([], 0), Window([Count(0, 0, 1)], 1)]
  {
    hide Step, After, IsRun, Inv;
    ms := FirstCall();
    ms := SecondCall(ms);
    ms := ItsResult(ms);
  }

  lemma FirstCall() returns (ms: seq<Move>)
    ensures IsRun(ms)
    ensures After(ms) == State({0, 1}, {0, 1}, false, 0, Idle,
                               map[0 := Thread(0, Asleep(1)), 1 := Thread(1, Polling)], 2, [Window([], 0)], [], [0])
  {
    hide After, IsRun, Inv;
    ms := TwoWaiters();
    OneMove(ms, Wake);
    ms := ms + [Wake];
    OneMove(ms, Report(0, 1));
    ms := ms + [Report(0, 1)];
    OneMove(ms, Lock(0));
    ms := ms + [Lock(0)];
  }

  lemma ItsResult(before: seq<Move>) returns (ms: seq<Move>)
    requires IsRun(before) && After(before).open && After(before).caller.Waiting? && After(before).num == 0
             && After(before).current == []
    requires 0 in After(before).threads && After(before).threads[0] == Thread(0, Asleep(1))
    ensures IsRun(ms) && After(ms).next == After(before).next
    ensures After(ms).past == After(before).past + [Window([Count(0, 0, 1)], 1)]
  {
    hide After, IsRun, Inv;
    ms := before;
    OneMove(ms, Lock(0));
    ms := ms + [Lock(0)];
    assert After(ms).current == [Count(0, 0, 1)] && After(ms).num == 1;
    OneMove(ms, Wake);
    ms := ms + [Wake];
  }

  lemma SecondCall(before: seq<Move>) returns (ms: seq<Move>)
    requires IsRun(before) && After(before).waiters == After(before).busy == {0, 1} && After(before).caller.Idle?
    ensures IsRun(ms) && After(ms) == After(before).(num := 0, open := true, caller := Waiting, current := [])
  {
    hide After, IsRun, Inv;
    ms := before;
    assert |{0, 1}| == 2;
    OneMove(ms, Call);
    ms := ms + [Call];
    OneMove(ms, Visit(0));
    ms := ms + [Visit(0)];
    OneMove(ms, Visit(1));
    ms := ms + [Visit(1)];
    assert After(ms).caller.todo == {};
    OneMove(ms, Open);
    ms := ms + [Open];
  }
}
