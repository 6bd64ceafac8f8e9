/** Filling the gaps: one download and one write per range, in any order (pull_massive, pull_ib and their
    workers in trader/data_service.py). */
module Backfill {
  import opened Common
  import opened BarStore
  import opened Gaps

  /** One download: the range asked for, the frame that came back, if one did, and whether a write of it goes
      through; one that raises changes no tick. */
  datatype Task = Task(symbol: string, range: Range, reply: Option<seq<Entry>>, writes: bool)

  /** The vendor answers within the days it was asked for, and tags its bars with the bar size. */
  predicate Honest(task: Task, library: string) {
    task.reply.Some? ==>
      Tagged(task.reply.value, library) && forall e :: e in task.reply.value ==> Covers(task.range, DayOf(e.date))
  }

  /** The rows a task adds. */
  function Frame(task: Task): seq<Entry> {
    if task.reply.Some? && task.writes then Possible(task.reply.value) else []
  }

  function RunTask(t: Table, task: Task): Table {
    Written(t, task.symbol, Frame(task))
  }

  function RunAll(t: Table, tasks: seq<Task>): Table {
    if tasks == [] then t else RunTask(RunAll(t, tasks[..|tasks| - 1]), tasks[|tasks| - 1])
  }

  /** No frame came back, or one with rows could not be written. */
  predicate Fails(task: Task) {
    task.reply.None? || (task.reply.value != [] && !task.writes)
  }

  /** One worker: a failed download or write is reported and leaves the ticks alone, an empty one writes nothing. */
  method Download(store: TickStore, task: Task) returns (ok: bool)
    modifies store
    ensures store.ticks == RunTask(old(store.ticks), task)
    ensures ok <==> task.reply.Some? && (task.reply.value == [] || task.writes)
    ensures ok ==> store.ticks == Written(old(store.ticks), task.symbol, Possible(task.reply.value))
    ensures !ok ==> store.ticks == old(store.ticks)
    ensures store.quarantined == old(store.quarantined)
            || (task.reply.Some? &&
                store.quarantined == old(store.quarantined) + Tag(task.symbol, Rejected(task.reply.value)))
    ensures ok ==> store.quarantined == old(store.quarantined) + Tag(task.symbol, Rejected(task.reply.value))
  {
    if task.reply.None? {
      return false;
    }
    if task.reply.value != [] {
      if !task.writes {
        var filtered: bool := *;
        if filtered {
          store.quarantined := store.quarantined + Tag(task.symbol, Rejected(task.reply.value));
        }
        return false;
      }
      store.Write(task.symbol, task.reply.value);
    }
    ok := true;
  }

  /** The workers, in the order in which they reach the table. */
  method Pull(store: TickStore, tasks: seq<Task>) returns (completed: nat, failed: nat, errors: seq<nat>)
    modifies store
    ensures store.ticks == RunAll(old(store.ticks), tasks)
    ensures completed + failed == |tasks| && failed == |errors|
    ensures forall i: nat :: i in errors <==> i < |tasks| && Fails(tasks[i])
  {
    hide RunTask;
    completed, failed, errors := 0, 0, [];
    for n := 0 to |tasks|
      invariant store.ticks == RunAll(old(store.ticks), tasks[..n])
      invariant completed + failed == n && failed == |errors|
      invariant forall i: nat :: i in errors <==> i < n && Fails(tasks[i])
    {
      assert tasks[..n + 1][..n] == tasks[..n];
      var ok := Download(store, tasks[n]);
      if ok {
        completed := completed + 1;
      } else {
        failed := failed + 1;
        errors := errors + [n];
      }
    }
    assert tasks[..|tasks|] == tasks;
  }

  // ------------------------------------------------------------ rows as a bag

  /** Whether running the task deletes the row. */
  predicate Erases(task: Task, s: Stored) {
    Frame(task) != []
    && Deletes(s, task.symbol, MinDate(Frame(task)), MaxDate(Frame(task)), Sizes(Frame(task)))
  }

  predicate ErasedByAny(tasks: seq<Task>, s: Stored) {
    exists task :: task in tasks && Erases(task, s)
  }

  function Added(tasks: seq<Task>): multiset<Stored> {
    if tasks == [] then multiset{}
    else Added(tasks[..|tasks| - 1]) + multiset(Tag(tasks[|tasks| - 1].symbol, Frame(tasks[|tasks| - 1])))
  }

  lemma TaskCount(t: Table, task: Task, s: Stored)
    ensures multiset(RunTask(t, task))[s]
            == (if Erases(task, s) then 0 else multiset(t)[s]) + multiset(Tag(task.symbol, Frame(task)))[s]
  {
    var f := Frame(task);
    if f == [] {
      assert Tag(task.symbol, f) == [];
    } else {
      KeptCount(t, task.symbol, MinDate(f), MaxDate(f), Sizes(f), s);
    }
  }

  /** No two tasks are for the same symbol and a common day, and none is run twice. */
  ghost predicate Disjoint(tasks: seq<Task>) {
    && (forall x :: x in tasks ==> multiset(tasks)[x] == 1)
    && (forall x, y :: x in tasks && y in tasks && x != y ==> Separate(x, y))
  }

  predicate Separate(a: Task, b: Task) {
    a.symbol != b.symbol || a.range.end < b.range.start || b.range.end < a.range.start
  }

  /** What an honest task touches lies on its own days. */
  lemma ErasesOwnDays(task: Task, library: string, s: Stored)
    requires Honest(task, library) && Erases(task, s)
    ensures s.symbol == task.symbol && Covers(task.range, DayOf(s.entry.date))
    ensures s.entry.barSize == Some(library)
  {
    var f := Frame(task);
    var first, last := Extremes(f);
    assert f[0] in f;
    assert library in Sizes(f);
    assert DayOf(first.date) <= DayOf(s.entry.date) <= DayOf(last.date);
  }

  lemma {:induction false} AddedOnOwnDays(tasks: seq<Task>, library: string, s: Stored)
    requires forall task :: task in tasks ==> Honest(task, library)
    requires Added(tasks)[s] > 0
    ensures exists task :: task in tasks && s.symbol == task.symbol && Covers(task.range, DayOf(s.entry.date))
  {
    var n := |tasks| - 1;
    assert tasks == tasks[..n] + [tasks[n]];
    var own := Tag(tasks[n].symbol, Frame(tasks[n]));
    if s in multiset(own) {
      assert s in own;
      var i :| 0 <= i < |own| && own[i] == s;
      assert Frame(tasks[n])[i] in Frame(tasks[n]);
      assert tasks[n] in tasks;
    } else {
      AddedOnOwnDays(tasks[..n], library, s);
    }
  }

  lemma FrontIsDisjoint(tasks: seq<Task>)
    requires tasks != [] && Disjoint(tasks)
    ensures var n := |tasks| - 1;
            Disjoint(tasks[..n]) && tasks[n] !in tasks[..n] && forall x :: x in tasks[..n] ==> Separate(x, tasks[n])
  {
    var n := |tasks| - 1;
    assert tasks == tasks[..n] + [tasks[n]];
    assert multiset(tasks) == multiset(tasks[..n]) + multiset{tasks[n]};
    forall x | x in tasks[..n]
      ensures multiset(tasks[..n])[x] == 1 && x != tasks[n]
    {
      assert x in tasks && x in multiset(tasks[..n]);
    }
  }

  /** What a task erases was not added by tasks on other days. */
  lemma ErasedWereNotAdded(front: seq<Task>, task: Task, library: string, s: Stored)
    requires Honest(task, library) && forall x :: x in front ==> Honest(x, library) && Separate(x, task)
    requires Erases(task, s)
    ensures Added(front)[s] == 0
  {
    hide Added, Erases, Honest;
    ErasesOwnDays(task, library, s);
    if Added(front)[s] > 0 {
      AddedOnOwnDays(front, library, s);
    }
  }

  /** The table after any tasks with disjoint ranges: what none of them erases, and what all of them add. */
  lemma {:induction false} RunAllCount(t: Table, tasks: seq<Task>, library: string, s: Stored)
    requires Disjoint(tasks) && forall task :: task in tasks ==> Honest(task, library)
    ensures multiset(RunAll(t, tasks))[s]
            == (if ErasedByAny(tasks, s) then 0 else multiset(t)[s]) + Added(tasks)[s]
  {
    hide Frame, RunTask, Erases, Disjoint, Separate, Honest, Tag;
    if tasks != [] {
      var n := |tasks| - 1;
      var front, task := tasks[..n], tasks[n];
      FrontIsDisjoint(tasks);
      assert tasks == front + [task];
      assert ErasedByAny(tasks, s) <==> ErasedByAny(front, s) || Erases(task, s);
      RunAllCount(t, front, library, s);
      TaskCount(RunAll(t, front), task, s);
      if Erases(task, s) {
        ErasedWereNotAdded(front, task, library, s);
      }
    }
  }

  /** How often a task's reply has a bar that can be stored. */
  function Brought(task: Task, s: Stored): nat {
    if task.writes && task.reply.Some? && s.symbol == task.symbol && !IsImpossible(s.entry)
    then multiset(task.reply.value)[s.entry] else 0
  }

  function BroughtByAll(tasks: seq<Task>, s: Stored): nat {
    if tasks == [] then 0 else BroughtByAll(tasks[..|tasks| - 1], s) + Brought(tasks[|tasks| - 1], s)
  }

  lemma {:induction false} AddedIsBrought(tasks: seq<Task>, s: Stored)
    ensures Added(tasks)[s] == BroughtByAll(tasks, s)
  {
    if tasks != [] {
      var n := |tasks| - 1;
      AddedIsBrought(tasks[..n], s);
      FrameIsBrought(tasks[n], s);
    }
  }

  lemma FrameIsBrought(task: Task, s: Stored)
    ensures multiset(Tag(task.symbol, Frame(task)))[s] == Brought(task, s)
  {
    TagCount(task.symbol, Frame(task), s);
    if task.writes && task.reply.Some? {
      PossibleCount(task.reply.value, s.entry);
    }
  }

  /** A possible bar of the reply that is written, dated no later than the row, and one dated no earlier. */
  predicate Sweeps(task: Task, s: Stored) {
    && task.writes && task.reply.Some? && s.symbol == task.symbol
    && (exists x :: x in task.reply.value && !IsImpossible(x) && x.date <= s.entry.date)
    && (exists y :: y in task.reply.value && !IsImpossible(y) && s.entry.date <= y.date)
  }

  /** What a task deletes: the rows of its symbol and bar size among the possible bars of its reply. */
  lemma ErasesIsSweeps(task: Task, library: string, s: Stored)
    requires Honest(task, library)
    ensures Erases(task, s) <==> Sweeps(task, s) && s.entry.barSize == Some(library)
  {
    var f := Frame(task);
    if f != [] {
      ReplacesIsDeletes(task.symbol, f, s);
      assert f[0] in f;
      if Sweeps(task, s) && s.entry.barSize == Some(library) {
        var x :| x in task.reply.value && !IsImpossible(x) && x.date <= s.entry.date;
        var y :| y in task.reply.value && !IsImpossible(y) && s.entry.date <= y.date;
        assert x in f && y in f && f[0].barSize == s.entry.barSize;
      }
    }
  }

  /** The table after any honest tasks on disjoint days, row by row: what none of them sweeps away, and every possible
      bar that came back, as often as it came. Nothing else is deleted, and nothing else added. */
  lemma BackfillStoresTheReplies(t: Table, tasks: seq<Task>, library: string, s: Stored)
    requires Disjoint(tasks) && forall task :: task in tasks ==> Honest(task, library)
    ensures multiset(RunAll(t, tasks))[s] ==
              (if s.entry.barSize == Some(library) && exists task :: task in tasks && Sweeps(task, s) then 0
               else multiset(t)[s])
              + BroughtByAll(tasks, s)
  {
    hide Honest, Disjoint, Erases, Sweeps, Added;
    RunAllCount(t, tasks, library, s);
    AddedIsBrought(tasks, s);
    forall task | task in tasks
      ensures Erases(task, s) <==> Sweeps(task, s) && s.entry.barSize == Some(library)
    {
      ErasesIsSweeps(task, library, s);
    }
  }

  lemma {:induction false} AddedIsABag(a: seq<Task>, b: seq<Task>)
    requires multiset(a) == multiset(b)
    ensures Added(a) == Added(b)
  {
    if a == [] {
      assert |multiset(b)| == 0;
    } else {
      var n := |a| - 1;
      var task := a[n];
      assert a == a[..n] + [task];
      assert task in multiset(b);
      var k :| 0 <= k < |b| && b[k] == task;
      assert b == b[..k] + [task] + b[k + 1..];
      var rest := b[..k] + b[k + 1..];
      assert multiset(rest) == multiset(b) - multiset{task};
      AddedIsABag(a[..n], rest);
      AddedAround(b[..k], task, b[k + 1..]);
      assert [task][..0] == [];
    }
  }

  lemma {:induction false} AddedAppend(a: seq<Task>, b: seq<Task>)
    ensures Added(a + b) == Added(a) + Added(b)
  {
    hide Frame, Tag;
    if b == [] {
      assert a + b == a;
    } else {
      assert (a + b)[..|a + b| - 1] == a + b[..|b| - 1];
      AddedAppend(a, b[..|b| - 1]);
    }
  }

  lemma {:induction false} AddedAround(before: seq<Task>, task: Task, after: seq<Task>)
    ensures Added(before + [task] + after) == Added(before + after) + Added([task])
  {
    AddedAppend(before + [task], after);
    AddedAppend(before, [task]);
    AddedAppend(before, after);
  }

  /** Workers on disjoint ranges leave the same rows in whatever order they get to write. */
  lemma AnyOrderGivesTheSameTable(t: Table, a: seq<Task>, b: seq<Task>, library: string)
    requires multiset(a) == multiset(b) && Disjoint(a)
    requires forall task :: task in a ==> Honest(task, library)
    ensures multiset(RunAll(t, a)) == multiset(RunAll(t, b))
  {
    hide RunAll, Added, Honest, Erases;
    assert forall task :: task in a <==> task in multiset(a);
    assert forall task :: task in b <==> task in multiset(b);
    AddedIsABag(a, b);
    forall s
      ensures multiset(RunAll(t, a))[s] == multiset(RunAll(t, b))[s]
    {
      RunAllCount(t, a, library, s);
      RunAllCount(t, b, library, s);
    }
  }

  // ------------------------------------------------------------ filling the gaps

  /** What a pull looks up for one security: its calendar, the days asked about, and the gaps found in them. */
  datatype Need = Need(symbol: string, calendar: seq<int>, start: int, end: int, ranges: seq<Range>)

  predicate WholeDays(start: int, end: int) {
    start % DAY == 0 && end % DAY == DAY - 1
  }

  /** The ranges of a need are what the search finds in the table. */
  ghost predicate IsNeed(t: Table, library: string, need: Need) {
    && Ascending(need.calendar) && WholeDays(need.start, need.end)
    && AreTheGaps(need.ranges, Sessions(need.calendar, need.start, need.end),
                  Present(t, library, need.symbol, need.start, need.end))
  }

  /** All needs are looked up before the first download; no security is asked for twice. */
  ghost predicate AreNeeds(t: Table, library: string, needs: set<Need>) {
    && (forall need :: need in needs ==> IsNeed(t, library, need))
    && (forall x, y :: x in needs && y in needs && x.symbol == y.symbol ==> x == y)
  }

  predicate Serves(task: Task, need: Need) {
    task.symbol == need.symbol && task.range in need.ranges
  }

  /** The tasks of all securities together, in the order in which they reach the table: one a gap at most. */
  ghost predicate FromGaps(tasks: seq<Task>, needs: set<Need>, library: string) {
    && (forall task :: task in tasks ==> Honest(task, library) && exists need :: need in needs && Serves(task, need))
    && (forall i, j :: 0 <= i < j < |tasks| ==> tasks[i].symbol != tasks[j].symbol || tasks[i].range != tasks[j].range)
  }

  lemma RunsAreNotEmpty(r: Range, sessions: seq<int>, present: set<int>)
    requires Ascending(sessions) && IsMaximalRun(r, sessions, present)
    ensures r.start <= r.end && r.start in sessions && r.end in sessions
  {
    var a, b :| 0 <= a <= b < |sessions| && IsRunAt(r, sessions, present, a, b);
  }

  /** Two different gaps of a security have no day in common. */
  lemma GapsAreApart(t: Table, library: string, need: Need, r: Range, q: Range)
    requires IsNeed(t, library, need) && r in need.ranges && q in need.ranges && r != q
    ensures r.end < q.start || q.end < r.start
  {
    var sessions, present := Sessions(need.calendar, need.start, need.end),
                             Present(t, library, need.symbol, need.start, need.end);
    var i :| 0 <= i < |need.ranges| && need.ranges[i] == r;
    var j :| 0 <= j < |need.ranges| && need.ranges[j] == q;
    RunsAreNotEmpty(r, sessions, present);
    RunsAreNotEmpty(q, sessions, present);
  }

  lemma GapTasksAreDisjoint(t: Table, library: string, needs: set<Need>, tasks: seq<Task>)
    requires AreNeeds(t, library, needs) && FromGaps(tasks, needs, library)
    ensures Disjoint(tasks)
  {
    hide IsNeed, Honest;
    forall i, j | 0 <= i < j < |tasks|
      ensures tasks[i] != tasks[j] && Separate(tasks[i], tasks[j]) && Separate(tasks[j], tasks[i])
    {
      assert tasks[i] in tasks && tasks[j] in tasks;
      if tasks[i].symbol == tasks[j].symbol {
        var need :| need in needs && Serves(tasks[i], need);
        var other :| other in needs && Serves(tasks[j], other);
        assert need == other;
        GapsAreApart(t, library, need, tasks[i].range, tasks[j].range);
      }
    }
    DistinctIsOnce(tasks);
  }

  lemma {:induction false} DistinctIsOnce(tasks: seq<Task>)
    requires forall i, j :: 0 <= i < j < |tasks| ==> tasks[i] != tasks[j]
    ensures forall x :: x in tasks ==> multiset(tasks)[x] == 1
  {
    if tasks != [] {
      var n := |tasks| - 1;
      DistinctIsOnce(tasks[..n]);
      assert tasks == tasks[..n] + [tasks[n]];
      assert tasks[n] !in tasks[..n];
      forall x | x in tasks
        ensures multiset(tasks)[x] == 1
      {
        if x == tasks[n] {
          assert x !in multiset(tasks[..n]);
        }
      }
    }
  }

  /** A bar with a close on a trading session is on no day of a gap. */
  lemma GoodBarsAreOutsideGaps(t: Table, library: string, need: Need, e: Entry)
    requires IsNeed(t, library, need)
    requires Stored(need.symbol, e) in t && e.barSize == Some(library) && HasClose(e)
    requires DayOf(e.date) in need.calendar
    ensures forall r :: r in need.ranges ==> !Covers(r, DayOf(e.date))
  {
    var sessions, present := Sessions(need.calendar, need.start, need.end),
                             Present(t, library, need.symbol, need.start, need.end);
    var day := DayOf(e.date);
    forall r | r in need.ranges
      ensures !Covers(r, day)
    {
      if Covers(r, day) {
        RunsAreNotEmpty(r, sessions, present);
        var k := DayIsPresent(t, library, need.symbol, need.calendar, need.start, need.end, e);
      }
    }
  }

  lemma DayIsPresent(t: Table, library: string, symbol: string, calendar: seq<int>, start: int, end: int, e: Entry)
    returns (k: nat)
    requires WholeDays(start, end) && DayOf(start) <= DayOf(e.date) <= DayOf(end)
    requires Stored(symbol, e) in t && e.barSize == Some(library) && HasClose(e) && DayOf(e.date) in calendar
    ensures k < |Sessions(calendar, start, end)| && Sessions(calendar, start, end)[k] == DayOf(e.date)
    ensures DayOf(e.date) in Present(t, library, symbol, start, end)
  {
    assert e in Pick(t, symbol, start, end, library);
    k :| 0 <= k < |Sessions(calendar, start, end)| && Sessions(calendar, start, end)[k] == DayOf(e.date);
  }

  /** The rows a pull must leave: of other bar sizes, of securities not asked for, and bars with a close on a
      session. */
  predicate Kept(s: Stored, needs: set<Need>, library: string) {
    s.entry.barSize == Some(library) ==>
      forall need :: need in needs && need.symbol == s.symbol ==>
        HasClose(s.entry) && DayOf(s.entry.date) in need.calendar
  }

  /** No gap task touches such a row. */
  lemma KeptRowsAreNotErased(t: Table, library: string, needs: set<Need>, tasks: seq<Task>, s: Stored)
    requires AreNeeds(t, library, needs) && FromGaps(tasks, needs, library)
    requires s in t && Kept(s, needs, library)
    ensures !ErasedByAny(tasks, s)
  {
    hide Erases, Honest, IsNeed;
    assert s == Stored(s.symbol, s.entry);
    forall task | task in tasks
      ensures !Erases(task, s)
    {
      if Erases(task, s) {
        ErasesOwnDays(task, library, s);
        var need :| need in needs && Serves(task, need);
        GoodBarsAreOutsideGaps(t, library, need, s.entry);
      }
    }
  }

  /** Filling the gaps of any securities together never deletes a bar with a close on a session of its security, nor
      any row of another security or bar size. */
  lemma {:induction false} BackfillKeepsGoodBars(t: Table, library: string, needs: set<Need>, tasks: seq<Task>,
                                                 s: Stored)
    requires AreNeeds(t, library, needs) && FromGaps(tasks, needs, library)
    requires s in t && Kept(s, needs, library)
    ensures s in RunAll(t, tasks)
  {
    hide AreNeeds, Honest, RunAll, ErasedByAny, Added;
    GapTasksAreDisjoint(t, library, needs, tasks);
    KeptRowsAreNotErased(t, library, needs, tasks, s);
    RunAllCount(t, tasks, library, s);
    assert s in multiset(t);
    assert s in multiset(RunAll(t, tasks));
  }

  lemma {:induction false} FrameIsAdded(tasks: seq<Task>, task: Task, e: Entry)
    requires task in tasks && e in Frame(task)
    ensures Added(tasks)[Stored(task.symbol, e)] > 0
  {
    var n := |tasks| - 1;
    assert tasks == tasks[..n] + [tasks[n]];
    if task == tasks[n] {
      var i :| 0 <= i < |Frame(task)| && Frame(task)[i] == e;
      assert Tag(task.symbol, Frame(task))[i] in Tag(task.symbol, Frame(task));
    } else {
      FrameIsAdded(tasks[..n], task, e);
    }
  }

  /** `e` came back for the task, can be stored, has a close, and is a bar of the day. */
  predicate Brings(task: Task, e: Entry, day: int) {
    && task.writes && task.reply.Some? && e in task.reply.value && !IsImpossible(e)
    && e.cells.close.Value? && !e.cells.close.num.NaN? && DayOf(e.date) == day
  }

  /** Some task for the security brought a possible bar with a close for the day. */
  ghost predicate Delivered(tasks: seq<Task>, symbol: string, day: int) {
    exists task, e :: task in tasks && task.symbol == symbol && Brings(task, e, day)
  }

  /** For each security: if every absent session of it was delivered, the next look for its gaps finds none, whatever
      became of the downloads for the others. */
  lemma BackfillClosesTheGaps(t: Table, library: string, needs: set<Need>, tasks: seq<Task>, need: Need, next: Need)
    requires AreNeeds(t, library, needs) && FromGaps(tasks, needs, library) && need in needs
    requires forall d :: d in Sessions(need.calendar, need.start, need.end)
                         && d !in Present(t, library, need.symbol, need.start, need.end) ==>
               Delivered(tasks, need.symbol, d)
    requires next == need.(ranges := next.ranges) && IsNeed(RunAll(t, tasks), library, next)
    ensures next.ranges == []
  {
    var sessions, present := Sessions(need.calendar, need.start, need.end),
                             Present(t, library, need.symbol, need.start, need.end);
    var after := Present(RunAll(t, tasks), library, need.symbol, need.start, need.end);
    assert IsNeed(t, library, need);
    GapTasksAreDisjoint(t, library, needs, tasks);
    forall d | d in sessions
      ensures d in after
    {
      if d in present {
        StaysPresent(t, library, needs, tasks, need, d);
      } else {
        BecomesPresent(t, library, need.symbol, need.start, need.end, tasks, d);
      }
    }
    if next.ranges != [] {
      HeadIn(next.ranges);
      RunsHaveAbsentDays(next.ranges[0], sessions, after);
    }
  }

  lemma RunsHaveAbsentDays(r: Range, sessions: seq<int>, present: set<int>)
    requires IsMaximalRun(r, sessions, present)
    ensures exists d :: d in sessions && d !in present
  {
    var a, b :| 0 <= a <= b < |sessions| && IsRunAt(r, sessions, present, a, b);
    assert sessions[a] in sessions;
  }

  lemma StaysPresent(t: Table, library: string, needs: set<Need>, tasks: seq<Task>, need: Need, d: int)
    requires AreNeeds(t, library, needs) && FromGaps(tasks, needs, library) && need in needs
    requires d in Sessions(need.calendar, need.start, need.end)
    requires d in Present(t, library, need.symbol, need.start, need.end)
    ensures d in Present(RunAll(t, tasks), library, need.symbol, need.start, need.end)
  {
    hide AreNeeds, FromGaps, RunAll;
    var e :| e in Pick(t, need.symbol, need.start, need.end, library) && HasClose(e) && DayOf(e.date) == d;
    OneNeedASymbol(t, library, needs, need);
    BackfillKeepsGoodBars(t, library, needs, tasks, Stored(need.symbol, e));
    assert e in Pick(RunAll(t, tasks), need.symbol, need.start, need.end, library);
  }

  lemma OneNeedASymbol(t: Table, library: string, needs: set<Need>, need: Need)
    requires AreNeeds(t, library, needs) && need in needs
    ensures IsNeed(t, library, need) && forall n :: n in needs && n.symbol == need.symbol ==> n == need
  {
  }

  lemma BecomesPresent(t: Table, library: string, symbol: string, start: int, end: int, tasks: seq<Task>, d: int)
    requires WholeDays(start, end) && DayOf(start) <= d <= DayOf(end)
    requires Disjoint(tasks) && forall task :: task in tasks ==> Honest(task, library)
    requires Delivered(tasks, symbol, d)
    ensures d in Present(RunAll(t, tasks), library, symbol, start, end)
  {
    var task, e :| task in tasks && task.symbol == symbol && Brings(task, e, d);
    assert e in Frame(task);
    assert e.barSize == Some(library) && start <= e.date <= end;
    FrameIsStored(t, library, tasks, task, e);
    assert e in Pick(RunAll(t, tasks), symbol, start, end, library);
  }

  lemma FrameIsStored(t: Table, library: string, tasks: seq<Task>, task: Task, e: Entry)
    requires Disjoint(tasks) && forall x :: x in tasks ==> Honest(x, library)
    requires task in tasks && e in Frame(task)
    ensures Stored(task.symbol, e) in RunAll(t, tasks)
  {
    FrameIsAdded(tasks, task, e);
    RunAllCount(t, tasks, library, Stored(task.symbol, e));
    assert Stored(task.symbol, e) in multiset(RunAll(t, tasks));
  }
}
