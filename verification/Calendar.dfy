/** The close calendar: business-day due dates and what can be done next (close calendar.ts). */
module Calendar {
  import opened Text

  /** Days since 1970-01-01, a Thursday. */
  type Day = int

  /** Zero is Sunday, six is Saturday. */
  function Weekday(d: Day): (w: nat)
    ensures w < 7
  {
    (d + 4) % 7
  }

  predicate IsWeekend(d: Day) {
    Weekday(d) == 0 || Weekday(d) == 6
  }

  predicate IsBusinessDay(d: Day, holidays: set<Day>) {
    !IsWeekend(d) && d !in holidays
  }

  /** How many business days there are after `from`, through `d`. */
  function BusinessDays(from: Day, d: Day, holidays: set<Day>): nat
    decreases d - from
  {
    if d <= from then 0 else BusinessDays(from, d - 1, holidays) + if IsBusinessDay(d, holidays) then 1 else 0
  }

  /** The least day by which exactly n business days have passed; the start itself when n is not positive. */
  ghost predicate IsNth(from: Day, n: int, holidays: set<Day>, d: Day) {
    if n <= 0 then d == from
    else d > from && BusinessDays(from, d, holidays) == n && forall e :: from <= e < d ==> BusinessDays(from, e, holidays) < n
  }

  // --- addBusinessDays ---------------------------------------------------------------------------------

  ghost function HolidaysAhead(d: Day, holidays: set<Day>): set<Day> {
    set h | h in holidays && h > d
  }

  /** How many weekend days come straight after a day. */
  function WeekendAhead(d: Day): nat {
    if Weekday(d) == 5 then 2 else if Weekday(d) == 6 then 1 else 0
  }

  /** Stepping onto a day that does not count uses up a holiday, or a day of the weekend. */
  lemma SkippedDayIsProgress(d: Day, holidays: set<Day>)
    requires !IsBusinessDay(d + 1, holidays)
    ensures HolidaysAhead(d + 1, holidays) < HolidaysAhead(d, holidays)
         || (HolidaysAhead(d + 1, holidays) <= HolidaysAhead(d, holidays) && WeekendAhead(d + 1) < WeekendAhead(d))
  {
    if d + 1 in holidays {
      assert d + 1 in HolidaysAhead(d, holidays) && d + 1 !in HolidaysAhead(d + 1, holidays);
    }
  }

  lemma SubsetIsNoLarger(a: set<Day>, b: set<Day>)
    requires a <= b
    ensures |a| <= |b| && (a < b ==> |a| < |b|)
  {
    assert b == a + (b - a) && a !! (b - a);
    assert |b| == |a| + |b - a|;
    if a < b {
      assert b - a != {};
    }
  }

  method AddBusinessDays(from: Day, n: int, holidays: set<Day>) returns (d: Day)
    ensures IsNth(from, n, holidays, d)
  {
    d := from;
    var added := 0;
    while added < n
      invariant from <= d && added == BusinessDays(from, d, holidays)
      invariant forall e :: from <= e < d ==> BusinessDays(from, e, holidays) < n
      invariant n <= 0 ==> d == from
      invariant added <= n || n <= 0
      invariant added == n > 0 ==> d > from
      decreases n - added, |HolidaysAhead(d, holidays)|, WeekendAhead(d)
    {
      ghost var before := d;
      d := d + 1;
      if IsBusinessDay(d, holidays) {
        added := added + 1;
      } else {
        SkippedDayIsProgress(before, holidays);
        SubsetIsNoLarger(HolidaysAhead(d, holidays), HolidaysAhead(before, holidays));
      }
    }
  }

  lemma {:induction false} CountGrows(from: Day, d: Day, e: Day, holidays: set<Day>)
    requires d <= e
    ensures BusinessDays(from, d, holidays) <= BusinessDays(from, e, holidays)
    decreases e - d
  {
    if d < e {
      CountGrows(from, d, e - 1, holidays);
    }
  }

  /** Asking for more business days gives a later day; asking for as many gives the same one. */
  lemma MoreDaysIsLater(from: Day, n: int, m: int, holidays: set<Day>, d: Day, e: Day)
    requires IsNth(from, n, holidays, d) && IsNth(from, m, holidays, e)
    ensures 0 <= n < m ==> d < e
    ensures n <= m ==> d <= e
    ensures n == m ==> d == e
  {
    if n > 0 && m > 0 {
      if d < e {
        CountGrows(from, d, e, holidays);
        assert BusinessDays(from, d, holidays) < m;
      } else if e < d {
        CountGrows(from, e, d, holidays);
        assert BusinessDays(from, e, holidays) < n;
      }
    }
  }

  // --- the calendar ------------------------------------------------------------------------------------------

  datatype Template = Template(id: string, offset: int, dependsOn: seq<string>)

  datatype CalendarEntry = CalendarEntry(task: Template, due: Day)

  ghost predicate IsCalendar(entries: seq<CalendarEntry>, periodEnd: Day, holidays: set<Day>, template: seq<Template>) {
    |entries| == |template| && forall i :: 0 <= i < |entries| ==>
      entries[i].task == template[i] && IsNth(periodEnd, template[i].offset, holidays, entries[i].due)
  }

  method BuildCloseCalendar(periodEnd: Day, holidays: set<Day>, template: seq<Template>) returns (entries: seq<CalendarEntry>)
    ensures IsCalendar(entries, periodEnd, holidays, template)
  {
    entries := [];
    for i := 0 to |template|
      invariant |entries| == i
      invariant forall j :: 0 <= j < i ==>
                  entries[j].task == template[j] && IsNth(periodEnd, template[j].offset, holidays, entries[j].due)
    {
      var due := AddBusinessDays(periodEnd, template[i].offset, holidays);
      entries := entries + [CalendarEntry(template[i], due)];
    }
  }

  /** Every dependency of a task is listed before it. */
  ghost predicate DependsOnEarlier(template: seq<Template>) {
    forall i, d :: 0 <= i < |template| && d in template[i].dependsOn ==> exists k :: 0 <= k < i && template[k].id == d
  }

  /** And is due no later, in business days. */
  ghost predicate OffsetsRespectDependencies(template: seq<Template>) {
    forall i, k :: 0 <= i < |template| && 0 <= k < |template| && template[k].id in template[i].dependsOn ==>
      template[k].offset <= template[i].offset
  }

  /** Then no task is due before something it depends on, whatever the period end and the holidays. */
  lemma DueDatesRespectDependencies(entries: seq<CalendarEntry>, periodEnd: Day, holidays: set<Day>, template: seq<Template>,
                                    i: nat, k: nat)
    requires IsCalendar(entries, periodEnd, holidays, template) && OffsetsRespectDependencies(template)
    requires i < |template| && k < |template| && template[k].id in template[i].dependsOn
    ensures entries[k].due <= entries[i].due
  {
    MoreDaysIsLater(periodEnd, template[k].offset, template[i].offset, holidays, entries[k].due, entries[i].due);
  }

  const DEFAULT_CLOSE_TEMPLATE := [
    Template("sync", 1, []), Template("reconcile_bank", 3, ["sync"]), Template("reconcile_subledgers", 3, ["sync"]),
    Template("review_adjustments", 4, ["reconcile_bank", "reconcile_subledgers"]),
    Template("trial_balance", 5, ["review_adjustments"]), Template("statements", 5, ["trial_balance"]),
    Template("seal_package", 6, ["statements"]), Template("deliver", 6, ["seal_package"])]

  lemma DefaultTemplateIsOrdered()
    ensures DependsOnEarlier(DEFAULT_CLOSE_TEMPLATE) && OffsetsRespectDependencies(DEFAULT_CLOSE_TEMPLATE)
  {
    var t := DEFAULT_CLOSE_TEMPLATE;
    forall i, d | 0 <= i < |t| && d in t[i].dependsOn ensures exists k :: 0 <= k < i && t[k].id == d {
      assert i > 0;
      if i <= 2 {
        assert t[0].id == d;
      } else if i == 3 {
        assert t[1].id == d || t[2].id == d;
      } else {
        assert t[i - 1].id == d;
      }
    }
    OffsetsGrow();
  }

  /** The default offsets never fall, and a later task is never depended on by an earlier one. */
  lemma OffsetsGrow()
    ensures OffsetsRespectDependencies(DEFAULT_CLOSE_TEMPLATE)
  {
    var t := DEFAULT_CLOSE_TEMPLATE;
    forall i, k | 0 <= i < |t| && 0 <= k < |t| && t[k].id in t[i].dependsOn ensures t[k].offset <= t[i].offset {
      if k > i {
        LaterIsNotDependedOn(i, k);
      }
    }
  }

  lemma LaterIsNotDependedOn(i: nat, k: nat)
    requires i < k < |DEFAULT_CLOSE_TEMPLATE|
    ensures DEFAULT_CLOSE_TEMPLATE[k].id !in DEFAULT_CLOSE_TEMPLATE[i].dependsOn
  {
    var t := DEFAULT_CLOSE_TEMPLATE;
    forall d | d in t[i].dependsOn ensures |d| != |t[k].id| {
    }
  }

  // --- status ---------------------------------------------------------------------------------------------------

  datatype TaskState = DONE | BLOCKED | OVERDUE | DUE_TODAY | UPCOMING

  function Outstanding(dependsOn: seq<string>, done: set<string>): seq<string> {
    if dependsOn == [] then []
    else if dependsOn[0] in done then Outstanding(dependsOn[1..], done)
    else [dependsOn[0]] + Outstanding(dependsOn[1..], done)
  }

  lemma {:induction false} NothingOutstanding(dependsOn: seq<string>, done: set<string>)
    ensures Outstanding(dependsOn, done) == [] <==> forall d :: d in dependsOn ==> d in done
  {
    if dependsOn != [] {
      NothingOutstanding(dependsOn[1..], done);
      assert dependsOn == [dependsOn[0]] + dependsOn[1..];
    }
  }

  function StateOf(e: CalendarEntry, asOf: Day, done: set<string>): TaskState {
    if e.task.id in done then DONE
    else if Outstanding(e.task.dependsOn, done) != [] then BLOCKED
    else if e.due < asOf then OVERDUE
    else if e.due == asOf then DUE_TODAY
    else UPCOMING
  }

  predicate Actionable(s: TaskState) {
    s == OVERDUE || s == DUE_TODAY || s == UPCOMING
  }

  datatype Status = Status(done: nat, overdue: nat, blocked: nat, remaining: int, complete: bool, nextUp: Option<CalendarEntry>)

  function Count(entries: seq<CalendarEntry>, asOf: Day, done: set<string>, s: TaskState): nat {
    if entries == [] then 0
    else
      var last := entries[|entries| - 1];
      Count(entries[..|entries| - 1], asOf, done, s) + if StateOf(last, asOf, done) == s then 1 else 0
  }

  /** The earliest due of the actionable tasks, the first listed among equals. */
  ghost predicate IsNextUp(entries: seq<CalendarEntry>, asOf: Day, done: set<string>, next: Option<CalendarEntry>) {
    match next
    case None => forall e :: e in entries ==> !Actionable(StateOf(e, asOf, done))
    case Some(n) =>
      exists k :: 0 <= k < |entries| && entries[k] == n && Actionable(StateOf(n, asOf, done))
        && forall j :: 0 <= j < |entries| && Actionable(StateOf(entries[j], asOf, done)) ==>
             n.due < entries[j].due || (n.due == entries[j].due && k <= j)
  }

  method CloseCalendarStatus(entries: seq<CalendarEntry>, asOf: Day, completed: seq<string>) returns (r: Status)
    ensures var done := set c | c in completed;
            && r.done == Count(entries, asOf, done, DONE) && r.overdue == Count(entries, asOf, done, OVERDUE)
            && r.blocked == Count(entries, asOf, done, BLOCKED) && r.remaining == |entries| - r.done
            && IsNextUp(entries, asOf, done, r.nextUp)
    ensures r.complete <==> forall e :: e in entries ==> e.task.id in completed
  {
    var doneSet := set c | c in completed;
    var done, overdue, blocked := 0, 0, 0;
    var best: nat := |entries|;
    for i := 0 to |entries|
      invariant done == Count(entries[..i], asOf, doneSet, DONE) <= i
      invariant overdue == Count(entries[..i], asOf, doneSet, OVERDUE)
      invariant blocked == Count(entries[..i], asOf, doneSet, BLOCKED)
      invariant done == i <==> forall j :: 0 <= j < i ==> entries[j].task.id in completed
      invariant best < i || best == |entries|
      invariant best == |entries| ==> forall j :: 0 <= j < i ==> !Actionable(StateOf(entries[j], asOf, doneSet))
      invariant best < |entries| ==> Actionable(StateOf(entries[best], asOf, doneSet))
      invariant best < |entries| ==> forall j :: 0 <= j < i && Actionable(StateOf(entries[j], asOf, doneSet)) ==>
             entries[best].due < entries[j].due || (entries[best].due == entries[j].due && best <= j)
    {
      assert entries[..i + 1][..i] == entries[..i];
      var s := StateOf(entries[i], asOf, doneSet);
      if s == DONE {
        done := done + 1;
      }
      if s == OVERDUE {
        overdue := overdue + 1;
      }
      if s == BLOCKED {
        blocked := blocked + 1;
      }
      if Actionable(s) && (best == |entries| || entries[i].due < entries[best].due) {
        best := i;
      }
    }
    assert entries[..|entries|] == entries;
    var nextUp := if best < |entries| then Some(entries[best]) else None;
    r := Status(done, overdue, blocked, |entries| - done, done == |entries|, nextUp);
  }

  /**
   * With dependencies listed before what needs them, there is always something to do next until
   * everything is done, and nothing after that.
   */
  lemma SomethingIsNextUntilComplete(entries: seq<CalendarEntry>, template: seq<Template>, asOf: Day, done: set<string>,
                                     next: Option<CalendarEntry>)
    requires |template| == |entries| && forall i :: 0 <= i < |entries| ==> entries[i].task == template[i]
    requires DependsOnEarlier(template) && IsNextUp(entries, asOf, done, next)
    ensures next.Some? <==> exists e :: e in entries && e.task.id !in done
  {
    if exists e :: e in entries && e.task.id !in done {
      var i := FirstOpen(entries, done, 0);
      forall d | d in template[i].dependsOn ensures d in done {
        var k :| 0 <= k < i && template[k].id == d;
        assert entries[k].task.id in done;
      }
      NothingOutstanding(template[i].dependsOn, done);
      assert entries[i] in entries && Actionable(StateOf(entries[i], asOf, done));
    }
  }

  /** The first task that is not done. */
  lemma {:induction false} FirstOpen(entries: seq<CalendarEntry>, done: set<string>, n: nat) returns (i: nat)
    requires n <= |entries| && forall j :: 0 <= j < n ==> entries[j].task.id in done
    requires exists e :: e in entries && e.task.id !in done
    ensures i < |entries| && entries[i].task.id !in done && forall j :: 0 <= j < i ==> entries[j].task.id in done
    decreases |entries| - n
  {
    var e :| e in entries && e.task.id !in done;
    var m :| 0 <= m < |entries| && entries[m] == e;
    if entries[n].task.id !in done {
      i := n;
    } else {
      i := FirstOpen(entries, done, n + 1);
    }
  }

  // --- what days and states mean ------------------------------------------------------------------------------

  /** Day zero, 1970-01-01, was a Thursday, the fourth day after Sunday, and weekdays follow one another. */
  lemma WeekdaysRun(d: Day)
    ensures Weekday(0) == 4 && Weekday(d + 1) == (if Weekday(d) == 6 then 0 else Weekday(d) + 1)
  {
  }

  /** Saturdays and Sundays are not business days, nor are holidays; every other day is one. */
  lemma BusinessDayIff(d: Day, holidays: set<Day>)
    ensures IsBusinessDay(d, holidays) <==> 1 <= Weekday(d) <= 5 && d !in holidays
    ensures IsWeekend(d) <==> Weekday(d) == 6 || Weekday(d) == 0
  {
  }

  ghost function BusinessDaysBetween(from: Day, d: Day, holidays: set<Day>): set<Day> {
    set e: Day | from < e <= d && 1 <= Weekday(e) <= 5 && e !in holidays
  }

  /** The count of business days is how many there are after the one day, through the other. */
  lemma {:induction false} BusinessDaysAreCounted(from: Day, d: Day, holidays: set<Day>)
    ensures BusinessDays(from, d, holidays) == |BusinessDaysBetween(from, d, holidays)|
    decreases d - from
  {
    if d <= from {
      assert BusinessDaysBetween(from, d, holidays) == {};
    } else {
      BusinessDaysAreCounted(from, d - 1, holidays);
      BusinessDayIff(d, holidays);
      assert BusinessDaysBetween(from, d, holidays)
          == BusinessDaysBetween(from, d - 1, holidays) + if IsBusinessDay(d, holidays) then {d} else {};
    }
  }

  /** A task is done, else blocked while something it depends on is not, else overdue, due today or upcoming by its date. */
  lemma StatesMean(e: CalendarEntry, asOf: Day, done: set<string>)
    ensures var s, waiting := StateOf(e, asOf, done), exists d :: d in e.task.dependsOn && d !in done;
            && (s == DONE <==> e.task.id in done)
            && (s == BLOCKED <==> e.task.id !in done && waiting)
            && (s == OVERDUE <==> e.task.id !in done && !waiting && asOf > e.due)
            && (s == DUE_TODAY <==> e.task.id !in done && !waiting && asOf == e.due)
            && (s == UPCOMING <==> e.task.id !in done && !waiting && asOf < e.due)
            && (Actionable(s) <==> e.task.id !in done && !waiting)
  {
    NothingOutstanding(e.task.dependsOn, done);
  }

  ghost function InState(entries: seq<CalendarEntry>, asOf: Day, done: set<string>, s: TaskState): set<nat> {
    set i: nat | i < |entries| && StateOf(entries[i], asOf, done) == s
  }

  /** The counts are of the tasks in each state. */
  lemma {:induction false} StatesAreCounted(entries: seq<CalendarEntry>, asOf: Day, done: set<string>, s: TaskState)
    ensures Count(entries, asOf, done, s) == |InState(entries, asOf, done, s)|
  {
    if entries == [] {
      assert InState(entries, asOf, done, s) == {};
    } else {
      var n: nat, front := |entries| - 1, entries[..|entries| - 1];
      StatesAreCounted(front, asOf, done, s);
      assert InState(entries, asOf, done, s)
          == InState(front, asOf, done, s) + if StateOf(entries[n], asOf, done) == s then {n} else {};
    }
  }
}
