/** One worker's ledger screen: the pay rule of the work form, the work and
    usage (cash advance) records, their filters, the merged date-ordered view
    and the signed total. Amounts are exact rupees. */
module WorkerDetail {
  import opened Common
  import opened WorkTypes

  /** The "work" / "driver" radio of a kundi entry. */
  datatype KundiType = WorkRole | DriverRole

  /** The "full" / "half" radio of a top-work entry. */
  datatype DayType = FullDay | HalfDay

  datatype WorkRecord = WorkRecord(
    id: string,
    workerId: string,
    workType: WorkType,
    date: Day,
    amount: real,
    isDriver: Option<bool>,
    brickCount: Option<real>,
    isHalfDay: Option<bool>,
    createdAt: string)

  datatype UsageRecord = UsageRecord(
    id: string,
    workerId: string,
    date: Day,
    amount: real,
    createdAt: string)

  // ---------------------------------------------------------------------------
  // Pay rule

  /** The amount the work form offers for the current selection. The fixed
      amounts written in the rule agree with the default table: a kundi driver
      earns the kundiDriver default, tractor and van drivers earn twice the
      default, a half day of top work earns exactly half. Brick carrying pays
      the per-thousand rate, rounded down. */
  function PayAmount(workType: WorkType, kundiType: KundiType, isDriver: bool,
                     brickCount: real, dayType: DayType): (amount: int)
    ensures workType == Kundi ==>
      amount == DefaultsOf(if kundiType == DriverRole then KundiDriver else Kundi).amount
    ensures workType == BrickCarry ==>
      amount as real <= brickCount * DefaultsOf(BrickCarry).amount as real / 1000.0 < amount as real + 1.0
    ensures workType == BrickLoadTractor || workType == BrickLoadVan ==>
      amount == (if isDriver then 2 else 1) * DefaultsOf(workType).amount
    ensures workType == TopWork ==>
      (if dayType == HalfDay then 2 * amount else amount) == DefaultsOf(TopWork).amount
    ensures workType == BrickBaking || workType == KundiDriver ==>
      amount == DefaultsOf(workType).amount
    ensures workType != BrickCarry ==> amount > 0
    ensures brickCount >= 0.0 ==> amount >= 0
  {
    var defaultConfig := DefaultsOf(workType);
    if workType == Kundi then
      (if kundiType == DriverRole then 500 else 400)
    else if workType == BrickCarry then
      (brickCount / 1000.0 * defaultConfig.amount as real).Floor
    else if workType == BrickLoadTractor then
      (if isDriver then 500 else 250)
    else if workType == BrickLoadVan then
      (if isDriver then 600 else 300)
    else if workType == TopWork then
      (if dayType == HalfDay then defaultConfig.amount / 2 else defaultConfig.amount)
    else
      defaultConfig.amount
  }

  /** The record sent to the store when work is saved. The driver flag is
      kept only for kundi, tractor and van work, the brick count only for
      brick carrying, the half-day flag only for top work. */
  function NewWorkRecord(id: string, workerId: string, workType: WorkType, date: Day, amount: real,
                         kundiType: KundiType, isDriver: bool, brickCount: real, dayType: DayType,
                         createdAt: string): (r: WorkRecord)
    ensures r.id == id && r.workerId == workerId && r.workType == workType
    ensures r.date == date && r.amount == amount && r.createdAt == createdAt
    ensures r.isDriver.Some? <==> workType in {Kundi, BrickLoadTractor, BrickLoadVan}
    ensures workType == Kundi ==> r.isDriver == Some(kundiType == DriverRole)
    ensures workType != Kundi && r.isDriver.Some? ==> r.isDriver == Some(isDriver)
    ensures r.brickCount.Some? <==> workType == BrickCarry
    ensures r.brickCount.Some? ==> r.brickCount.value == brickCount
    ensures r.isHalfDay.Some? <==> workType == TopWork
    ensures r.isHalfDay.Some? ==> r.isHalfDay.value == (dayType == HalfDay)
  {
    WorkRecord(
      id, workerId, workType, date, amount,
      if workType == Kundi then Some(kundiType == DriverRole)
      else if workType in {BrickLoadTractor, BrickLoadVan} then Some(isDriver)
      else None,
      if workType == BrickCarry then Some(brickCount) else None,
      if workType == TopWork then Some(dayType == HalfDay) else None,
      createdAt)
  }

  /** The pay rule applied to what a stored record keeps of the form. */
  function AmountFromRecord(r: WorkRecord): int {
    PayAmount(
      r.workType,
      if r.isDriver == Some(true) then DriverRole else WorkRole,
      r.isDriver.GetOr(false),
      r.brickCount.GetOr(0.0),
      if r.isHalfDay == Some(true) then HalfDay else FullDay)
  }

  /** A saved record keeps every input the pay rule used: when the amount was
      the one the rule offered, it can be derived again from the record. */
  lemma RecordDeterminesAmount(id: string, workerId: string, workType: WorkType, date: Day,
                               kundiType: KundiType, isDriver: bool, brickCount: real,
                               dayType: DayType, createdAt: string)
    ensures
      var amount := PayAmount(workType, kundiType, isDriver, brickCount, dayType);
      var r := NewWorkRecord(id, workerId, workType, date, amount as real,
                             kundiType, isDriver, brickCount, dayType, createdAt);
      AmountFromRecord(r) == amount
  {
    var amount := PayAmount(workType, kundiType, isDriver, brickCount, dayType);
    var r := NewWorkRecord(id, workerId, workType, date, amount as real,
                           kundiType, isDriver, brickCount, dayType, createdAt);
    match workType
    case Kundi =>
      assert r.isDriver == Some(kundiType == DriverRole);
    case BrickCarry =>
      assert r.brickCount == Some(brickCount);
    case TopWork =>
      assert r.isHalfDay == Some(dayType == HalfDay);
    case _ =>
  }

  // ---------------------------------------------------------------------------
  // Filters

  /** The work-type filter: "" (all), one work type, or "usage". */
  datatype TypeFilter = AllTypes | OnlyType(workType: WorkType) | UsageOnly

  function DateIs<R>(date: R -> Day, d: Day): R -> bool {
    (r: R) => date(r) == d
  }

  function WorkDate(r: WorkRecord): Day { r.date }
  function UsageDate(r: UsageRecord): Day { r.date }

  function TypeIs(t: WorkType): WorkRecord -> bool {
    (r: WorkRecord) => r.workType == t
  }

  /** A work record is listed when it has the filter date (if one is set)
      and the filter work type (if one other than "usage" is set). */
  predicate WorkShown(r: WorkRecord, dateFilter: Option<Day>, typeFilter: TypeFilter) {
    (dateFilter.Some? ==> r.date == dateFilter.value) &&
    (typeFilter.OnlyType? ==> r.workType == typeFilter.workType)
  }

  /** A usage record is listed when no work type other than "usage" is
      selected and it has the filter date (if one is set). */
  predicate UsageShown(r: UsageRecord, dateFilter: Option<Day>, typeFilter: TypeFilter) {
    !typeFilter.OnlyType? && (dateFilter.Some? ==> r.date == dateFilter.value)
  }

  function ShowsWork(dateFilter: Option<Day>, typeFilter: TypeFilter): WorkRecord -> bool {
    (x: WorkRecord) => WorkShown(x, dateFilter, typeFilter)
  }

  function ShowsUsage(dateFilter: Option<Day>, typeFilter: TypeFilter): UsageRecord -> bool {
    (x: UsageRecord) => UsageShown(x, dateFilter, typeFilter)
  }

  function FilterWork(records: seq<WorkRecord>, dateFilter: Option<Day>, typeFilter: TypeFilter): (r: seq<WorkRecord>)
    ensures Selects(r, records, ShowsWork(dateFilter, typeFilter))
  {
    var byDate := if dateFilter.Some? then Filter(DateIs(WorkDate, dateFilter.value), records) else records;
    assert Selects(byDate, records, (x: WorkRecord) => dateFilter.Some? ==> x.date == dateFilter.value) by {
      if dateFilter.Some? {
        FilterSelects(DateIs(WorkDate, dateFilter.value), records);
      } else {
        SubseqRefl(records);
      }
    }
    if typeFilter.OnlyType? then
      var byType := Filter(TypeIs(typeFilter.workType), byDate);
      FilterSelects(TypeIs(typeFilter.workType), byDate);
      SelectsTrans(byType, byDate, records,
        (x: WorkRecord) => dateFilter.Some? ==> x.date == dateFilter.value, TypeIs(typeFilter.workType));
      byType
    else
      byDate
  }

  function FilterUsage(records: seq<UsageRecord>, dateFilter: Option<Day>, typeFilter: TypeFilter): (r: seq<UsageRecord>)
    ensures typeFilter.OnlyType? ==> r == []
    ensures Selects(r, records, ShowsUsage(dateFilter, typeFilter))
  {
    var byDate := if dateFilter.Some? then Filter(DateIs(UsageDate, dateFilter.value), records) else records;
    assert Selects(byDate, records, (x: UsageRecord) => dateFilter.Some? ==> x.date == dateFilter.value) by {
      if dateFilter.Some? {
        FilterSelects(DateIs(UsageDate, dateFilter.value), records);
      } else {
        SubseqRefl(records);
      }
    }
    if typeFilter.OnlyType? then [] else byDate
  }

  // ---------------------------------------------------------------------------
  // Totals

  function WorkAmount(r: WorkRecord): real { r.amount }
  function UsageAmount(r: UsageRecord): real { r.amount }

  /** The signed total of the footer: earned minus taken. */
  function Balance(work: seq<WorkRecord>, usage: seq<UsageRecord>): (b: real)
    ensures work == [] && usage == [] ==> b == 0.0
    ensures (forall r | r in work :: r.amount >= 0.0) && (forall u | u in usage :: u.amount >= 0.0) ==>
      -Sum(UsageAmount, usage) <= b <= Sum(WorkAmount, work)
  {
    SumNonNegative(WorkAmount, work);
    SumNonNegative(UsageAmount, usage);
    Sum(WorkAmount, work) - Sum(UsageAmount, usage)
  }

  /** The total does not depend on the order of the records. */
  lemma BalanceOrderFree(work: seq<WorkRecord>, work': seq<WorkRecord>,
                         usage: seq<UsageRecord>, usage': seq<UsageRecord>)
    requires multiset(work) == multiset(work') && multiset(usage) == multiset(usage')
    ensures Balance(work, usage) == Balance(work', usage')
  {
    SumPermutation(WorkAmount, work, work');
    SumPermutation(UsageAmount, usage, usage');
  }

  /** A new work record adds its amount to the total. */
  lemma BalanceAfterPrependWork(w: WorkRecord, work: seq<WorkRecord>, usage: seq<UsageRecord>)
    ensures Balance([w] + work, usage) == Balance(work, usage) + w.amount
  {
    SumConcat(WorkAmount, [w], work);
    SumSingle(WorkAmount, w);
  }

  /** A new usage record takes its amount away from the total. */
  lemma BalanceAfterPrependUsage(u: UsageRecord, work: seq<WorkRecord>, usage: seq<UsageRecord>)
    ensures Balance(work, [u] + usage) == Balance(work, usage) - u.amount
  {
    SumConcat(UsageAmount, [u], usage);
    SumSingle(UsageAmount, u);
  }

  /** Math.abs, for the amount pre-filled when the total is clicked. */
  function Abs(x: real): (r: real)
    ensures r >= 0.0 && (r == x || r == -x)
  {
    if x < 0.0 then -x else x
  }

  // ---------------------------------------------------------------------------
  // Removing by id

  function WorkIdIsNot(id: string): WorkRecord -> bool {
    (r: WorkRecord) => r.id != id
  }

  function UsageIdIsNot(id: string): UsageRecord -> bool {
    (r: UsageRecord) => r.id != id
  }

  function RemoveWork(records: seq<WorkRecord>, id: string): (r: seq<WorkRecord>)
    ensures Selects(r, records, WorkIdIsNot(id))
    ensures forall x | x in r :: x.id != id
  {
    FilterSelects(WorkIdIsNot(id), records);
    Filter(WorkIdIsNot(id), records)
  }

  function RemoveUsage(records: seq<UsageRecord>, id: string): (r: seq<UsageRecord>)
    ensures Selects(r, records, UsageIdIsNot(id))
    ensures forall x | x in r :: x.id != id
  {
    FilterSelects(UsageIdIsNot(id), records);
    Filter(UsageIdIsNot(id), records)
  }

  /** Deleting a record that was just prepended, under an id used nowhere
      else, gives back the list as it was. */
  lemma RemoveAfterPrepend(w: WorkRecord, work: seq<WorkRecord>, u: UsageRecord, usage: seq<UsageRecord>)
    requires forall x | x in work :: x.id != w.id
    requires forall x | x in usage :: x.id != u.id
    ensures RemoveWork([w] + work, w.id) == work
    ensures RemoveUsage([u] + usage, u.id) == usage
  {
    FilterCons(WorkIdIsNot(w.id), w, work);
    FilterKeepsAll(WorkIdIsNot(w.id), work);
    FilterCons(UsageIdIsNot(u.id), u, usage);
    FilterKeepsAll(UsageIdIsNot(u.id), usage);
  }

  // ---------------------------------------------------------------------------
  // Merged view

  /** A row of the merged table, tagged with the list it came from. */
  datatype Entry = WorkEntry(work: WorkRecord) | UsageEntry(usage: UsageRecord) {
    function Date(): Day {
      match this
      case WorkEntry(w) => w.date
      case UsageEntry(u) => u.date
    }
  }

  function Tagged(work: seq<WorkRecord>, usage: seq<UsageRecord>): (t: seq<Entry>)
    ensures |t| == |work| + |usage|
    ensures forall i :: 0 <= i < |work| ==> t[i] == WorkEntry(work[i])
    ensures forall i :: 0 <= i < |usage| ==> t[|work| + i] == UsageEntry(usage[i])
  {
    seq(|work|, i requires 0 <= i < |work| => WorkEntry(work[i])) +
    seq(|usage|, i requires 0 <= i < |usage| => UsageEntry(usage[i]))
  }

  predicate SortedByDate(s: seq<Entry>) {
    forall i, j :: 0 <= i < j < |s| ==> s[i].Date() <= s[j].Date()
  }

  /** Places `e` before the first entry that is not older. */
  function InsertByDate(e: Entry, s: seq<Entry>): (r: seq<Entry>)
    requires SortedByDate(s)
    ensures SortedByDate(r)
    ensures multiset(r) == multiset(s) + multiset{e}
    ensures |r| == |s| + 1
    ensures r[0] == e || (s != [] && r[0] == s[0])
  {
    if s == [] || e.Date() <= s[0].Date() then [e] + s
    else
      var rest := InsertByDate(e, s[1..]);
      assert s == [s[0]] + s[1..];
      var r := [s[0]] + rest;
      assert SortedByDate(r) by {
        forall i, j | 0 <= i < j < |r| ensures r[i].Date() <= r[j].Date() {
          if i == 0 {
            assert r[1].Date() <= r[j].Date();
          }
        }
      }
      r
  }

  function SortByDate(s: seq<Entry>): (r: seq<Entry>)
    ensures SortedByDate(r)
    ensures multiset(r) == multiset(s)
  {
    if s == [] then []
    else
      assert s == [s[0]] + s[1..];
      InsertByDate(s[0], SortByDate(s[1..]))
  }

  /** The merged table: every work and usage record once, tagged with its
      origin, oldest first. */
  function MergeAndSort(work: seq<WorkRecord>, usage: seq<UsageRecord>): (r: seq<Entry>)
    ensures SortedByDate(r)
    ensures multiset(r) == multiset(Tagged(work, usage))
    ensures |r| == |work| + |usage|
  {
    var r := SortByDate(Tagged(work, usage));
    assert |r| == |multiset(r)|;
    r
  }

  /** The filter test that keeps the entries of one day. */
  function OnDate(d: Day): Entry -> bool {
    (e: Entry) => e.Date() == d
  }

  /** Inserting `e` in front of a sorted list keeps the entries of each day
      in the order of `[e] + s`: `e` goes before every entry of its own day. */
  lemma {:induction false} InsertByDateStable(e: Entry, s: seq<Entry>, d: Day)
    requires SortedByDate(s)
    ensures Filter(OnDate(d), InsertByDate(e, s)) == Filter(OnDate(d), [e] + s)
  {
    if s != [] && e.Date() > s[0].Date() {
      var rest := InsertByDate(e, s[1..]);
      assert s == [s[0]] + s[1..];
      assert InsertByDate(e, s) == [s[0]] + rest;
      InsertByDateStable(e, s[1..], d);
      FilterCons(OnDate(d), s[0], rest);
      FilterCons(OnDate(d), e, s[1..]);
      FilterCons(OnDate(d), e, s);
      FilterCons(OnDate(d), s[0], s[1..]);
    }
  }

  /** The sort is stable: the entries of each day keep their input order. */
  lemma {:induction false} SortByDateStable(s: seq<Entry>, d: Day)
    ensures Filter(OnDate(d), SortByDate(s)) == Filter(OnDate(d), s)
  {
    if s != [] {
      SortByDateStable(s[1..], d);
      InsertByDateStable(s[0], SortByDate(s[1..]), d);
      FilterCons(OnDate(d), s[0], SortByDate(s[1..]));
      FilterCons(OnDate(d), s[0], s[1..]);
      assert s == [s[0]] + s[1..];
    }
  }

  /** Within one day the merged table lists the work records first and then
      the usage records, each in its own list order. */
  lemma MergeAndSortStable(work: seq<WorkRecord>, usage: seq<UsageRecord>, d: Day)
    ensures Filter(OnDate(d), MergeAndSort(work, usage)) == Filter(OnDate(d), Tagged(work, usage))
  {
    SortByDateStable(Tagged(work, usage), d);
  }

  // ---------------------------------------------------------------------------
  // The screen

  datatype DeleteKind = DeleteWork | DeleteUsage | DeleteWorker
  datatype DeleteTarget = DeleteTarget(id: string, kind: DeleteKind)

  /** The state of the worker screen: the two record lists, the filters and
      the three forms (work, usage, delete confirmation). */
  class WorkerScreen {
    const workerId: string
    var workRecords: seq<WorkRecord>
    var usageRecords: seq<UsageRecord>
    var dateFilter: Option<Day>
    var typeFilter: TypeFilter
    var showWorkModal: bool
    var workDate: Day
    var workType: WorkType
    var workAmount: real
    var isDriver: bool
    var brickCount: real
    var dayType: DayType
    var kundiType: KundiType
    var showUsageModal: bool
    var usageAmount: Option<real>
    var usageDate: Day
    var showDeleteModal: bool
    var recordToDelete: Option<DeleteTarget>

    /** The screen once the worker's records have been fetched. */
    constructor (workerId: string, work: seq<WorkRecord>, usage: seq<UsageRecord>, today: Day)
      ensures this.workerId == workerId && workRecords == work && usageRecords == usage
      ensures dateFilter.None? && typeFilter == AllTypes
      ensures !showWorkModal && !showUsageModal && !showDeleteModal && recordToDelete.None?
      ensures workDate == today && usageDate == today && usageAmount.None?
      ensures workType == Kundi && workAmount == DefaultsOf(Kundi).amount as real
      ensures !isDriver && brickCount == 1000.0 && dayType == FullDay && kundiType == WorkRole
    {
      this.workerId := workerId;
      workRecords, usageRecords := work, usage;
      dateFilter, typeFilter := None, AllTypes;
      showWorkModal, showUsageModal, showDeleteModal := false, false, false;
      recordToDelete := None;
      workDate, usageDate := today, today;
      usageAmount := None;
      workType, workAmount := Kundi, 400.0;
      isDriver, brickCount, dayType, kundiType := false, 1000.0, FullDay, WorkRole;
    }

    /** The records listed under the current filters. */
    function ShownWork(): (r: seq<WorkRecord>)
      reads this
      ensures Selects(r, workRecords, ShowsWork(dateFilter, typeFilter))
    {
      FilterWork(workRecords, dateFilter, typeFilter)
    }

    function ShownUsage(): (r: seq<UsageRecord>)
      reads this
      ensures Selects(r, usageRecords, ShowsUsage(dateFilter, typeFilter))
    {
      FilterUsage(usageRecords, dateFilter, typeFilter)
    }

    /** Re-deriving the offered amount whenever a form input changes. While
        the form is closed nothing happens; while it is open the amount is the
        pay rule's value for the current inputs, whatever it was before. */
    method RefreshWorkAmount()
      modifies this`workAmount
      ensures !showWorkModal ==> workAmount == old(workAmount)
      ensures showWorkModal ==> workAmount == PayAmount(workType, kundiType, isDriver, brickCount, dayType) as real
    {
      if !showWorkModal {
        return;
      }
      workAmount := PayAmount(workType, kundiType, isDriver, brickCount, dayType) as real;
    }

    /** Saving the work form. On success the new record is put first and the
        form is reset; the reset amount is computed from the kundi role as it
        was before the reset. When the store call fails nothing changes. */
    method AddWork(ok: bool, id: string, createdAt: string, today: Day)
      modifies this
      ensures !ok ==> unchanged(this)
      ensures ok ==>
        workRecords == [NewWorkRecord(id, workerId, old(workType), old(workDate), old(workAmount),
                                      old(kundiType), old(isDriver), old(brickCount), old(dayType),
                                      createdAt)] + old(workRecords)
      ensures ok ==> Balance(workRecords, usageRecords) == old(Balance(workRecords, usageRecords)) + old(workAmount)
      ensures ok ==> workDate == today && workType == Kundi && kundiType == WorkRole
      ensures ok ==> workAmount == (if old(kundiType) == DriverRole then 500.0 else 400.0)
      ensures ok ==> !isDriver && brickCount == 1000.0 && dayType == FullDay && !showWorkModal
      ensures unchanged(this`usageRecords, this`dateFilter, this`typeFilter, this`showUsageModal,
                        this`usageAmount, this`usageDate, this`showDeleteModal, this`recordToDelete)
    {
      if !ok {
        return;
      }
      var record := NewWorkRecord(id, workerId, workType, workDate, workAmount,
                                  kundiType, isDriver, brickCount, dayType, createdAt);
      BalanceAfterPrependWork(record, workRecords, usageRecords);
      workRecords := [record] + workRecords;
      ResetWorkForm(today);
    }

    /** The reset after a successful save. */
    method ResetWorkForm(today: Day)
      modifies this`workDate, this`workType, this`workAmount, this`kundiType,
               this`isDriver, this`brickCount, this`dayType, this`showWorkModal
      ensures workDate == today && workType == Kundi && kundiType == WorkRole
      ensures workAmount == (if old(kundiType) == DriverRole then 500.0 else 400.0)
      ensures !isDriver && brickCount == 1000.0 && dayType == FullDay && !showWorkModal
    {
      workDate := today;
      workType := Kundi;
      workAmount := if kundiType == DriverRole then 500.0 else 400.0;
      kundiType := WorkRole;
      isDriver := false;
      brickCount := 1000.0;
      dayType := FullDay;
      showWorkModal := false;
    }

    /** Saving the usage form. An empty amount field does nothing; otherwise on
        success the new record is put first and the form is reset. */
    method AddUsage(ok: bool, id: string, createdAt: string, today: Day)
      modifies this
      ensures old(usageAmount).None? || !ok ==> unchanged(this)
      ensures old(usageAmount).Some? && ok ==>
        usageRecords == [UsageRecord(id, workerId, old(usageDate), old(usageAmount).value, createdAt)] + old(usageRecords) &&
        Balance(workRecords, usageRecords) == old(Balance(workRecords, usageRecords)) - old(usageAmount).value &&
        usageAmount.None? && usageDate == today && !showUsageModal
      ensures unchanged(this`workRecords, this`dateFilter, this`typeFilter, this`showWorkModal,
                        this`workDate, this`workType, this`workAmount, this`isDriver, this`brickCount,
                        this`dayType, this`kundiType, this`showDeleteModal, this`recordToDelete)
    {
      if usageAmount.None? {
        return;
      }
      if !ok {
        return;
      }
      var record := UsageRecord(id, workerId, usageDate, usageAmount.value, createdAt);
      BalanceAfterPrependUsage(record, workRecords, usageRecords);
      usageRecords := [record] + usageRecords;
      usageAmount := None;
      usageDate := today;
      showUsageModal := false;
    }

    /** Clicking the footer total opens the usage form pre-filled with the
        size of the listed balance. */
    method ClickTotal()
      modifies this`usageAmount, this`showUsageModal
      ensures usageAmount == Some(Abs(Balance(ShownWork(), ShownUsage())))
      ensures showUsageModal
    {
      var totalBalance := Balance(FilterWork(workRecords, dateFilter, typeFilter),
                                  FilterUsage(usageRecords, dateFilter, typeFilter));
      usageAmount := Some(Abs(totalBalance));
      showUsageModal := true;
    }

    /** A trash button: remember what to delete and ask for confirmation. */
    method RequestDelete(id: string, kind: DeleteKind)
      modifies this`recordToDelete, this`showDeleteModal
      ensures recordToDelete == Some(DeleteTarget(id, kind)) && showDeleteModal
    {
      recordToDelete := Some(DeleteTarget(id, kind));
      showDeleteModal := true;
    }

    /** Confirming a delete. With nothing selected nothing happens. Otherwise,
        when the store call succeeds, the records with that id leave the one
        list they belong to (deleting the worker leaves the screen, which is
        not modelled); whether or not it succeeded, the confirmation closes
        and the selection is cleared. */
    method ConfirmDelete(ok: bool)
      modifies this
      ensures old(recordToDelete).None? ==> unchanged(this)
      ensures old(recordToDelete).Some? ==> !showDeleteModal && recordToDelete.None?
      ensures old(recordToDelete).Some? && ok && old(recordToDelete).value.kind == DeleteWork ==>
        workRecords == RemoveWork(old(workRecords), old(recordToDelete).value.id)
      ensures old(recordToDelete).Some? && ok && old(recordToDelete).value.kind == DeleteUsage ==>
        usageRecords == RemoveUsage(old(usageRecords), old(recordToDelete).value.id)
      ensures !(old(recordToDelete).Some? && ok && old(recordToDelete).value.kind == DeleteWork) ==>
        workRecords == old(workRecords)
      ensures !(old(recordToDelete).Some? && ok && old(recordToDelete).value.kind == DeleteUsage) ==>
        usageRecords == old(usageRecords)
      ensures unchanged(this`dateFilter, this`typeFilter, this`showWorkModal, this`workDate,
                        this`workType, this`workAmount, this`isDriver, this`brickCount, this`dayType,
                        this`kundiType, this`showUsageModal, this`usageAmount, this`usageDate)
    {
      if recordToDelete.None? {
        return;
      }
      var target := recordToDelete.value;
      if ok {
        if target.kind == DeleteWork {
          workRecords := RemoveWork(workRecords, target.id);
        } else if target.kind == DeleteUsage {
          usageRecords := RemoveUsage(usageRecords, target.id);
        }
      }
      showDeleteModal := false;
      recordToDelete := None;
    }
  }
}
