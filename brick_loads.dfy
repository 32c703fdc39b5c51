/** The brick-load ledger: one customer's bulk brick order, with running totals
    kept on the load and an event log of deliveries and payments that feeds
    them. Amounts are exact rupees, quantities are in thousands of bricks. */
module BrickLoads {
  import opened Common

  datatype LogType = BrickLog | PaymentLog

  /** One delivery or payment event of a load. A payment carries no quantity
      and no rate. */
  datatype BrickLoadLog = BrickLoadLog(
    id: nat,
    date: Day,
    logType: LogType,
    brickQuantity: Option<real>,
    brickRate: Option<real>,
    amount: real)

  /** What one log adds to the load's total amount owed. */
  function BrickAmount(l: BrickLoadLog): real {
    if l.logType == BrickLog then l.amount else 0.0
  }

  /** What one log adds to the load's amount paid. */
  function PaymentAmount(l: BrickLoadLog): real {
    if l.logType == PaymentLog then l.amount else 0.0
  }

  /** What one log adds to the load's quantity; a missing quantity counts as 0. */
  function QuantityAmount(l: BrickLoadLog): real {
    if l.logType == BrickLog then l.brickQuantity.GetOr(0.0) else 0.0
  }

  /** The totals recomputed from the logs. */
  function BrickTotal(logs: seq<BrickLoadLog>): real { Sum(BrickAmount, logs) }
  function PaymentTotal(logs: seq<BrickLoadLog>): real { Sum(PaymentAmount, logs) }
  function QuantityTotal(logs: seq<BrickLoadLog>): real { Sum(QuantityAmount, logs) }

  /** The log written for a delivery of `count` bricks at `rate` rupees per
      thousand bricks. */
  function DeliveryLog(id: nat, date: Day, count: real, rate: real): (l: BrickLoadLog)
    ensures l.id == id && l.date == date && l.logType == BrickLog
    ensures l.brickQuantity.Some? && l.brickRate == Some(rate)
  {
    BrickLoadLog(id, date, BrickLog, Some(count / 1000.0), Some(rate), count * rate / 1000.0)
  }

  /** A delivery log records the count in thousands and charges the rate per
      thousand: a thousand times its quantity is the count, a thousand times
      its amount is count times rate. */
  lemma DeliveryLogAmounts(id: nat, date: Day, count: real, rate: real)
    ensures DeliveryLog(id, date, count, rate).brickQuantity.value * 1000.0 == count
    ensures DeliveryLog(id, date, count, rate).amount * 1000.0 == count * rate
    ensures BrickAmount(DeliveryLog(id, date, count, rate)) == DeliveryLog(id, date, count, rate).amount
    ensures QuantityAmount(DeliveryLog(id, date, count, rate)) == DeliveryLog(id, date, count, rate).brickQuantity.value
    ensures PaymentAmount(DeliveryLog(id, date, count, rate)) == 0.0
  {
  }

  /** The log written for a payment. */
  function PaymentLogOf(id: nat, date: Day, payment: real): (l: BrickLoadLog)
    ensures l.id == id && l.date == date && l.logType == PaymentLog
    ensures l.brickQuantity.None? && l.brickRate.None?
    ensures PaymentAmount(l) == payment && BrickAmount(l) == 0.0 && QuantityAmount(l) == 0.0
  {
    BrickLoadLog(id, date, PaymentLog, None, None, payment)
  }

  /** Array.prototype.find by id, as an index: the first log with that id. */
  function FindIndex(logs: seq<BrickLoadLog>, id: nat): (r: Option<nat>)
    ensures r.Some? ==> r.value < |logs| && logs[r.value].id == id
    ensures r.Some? ==> forall j :: 0 <= j < r.value ==> logs[j].id != id
    ensures r.None? ==> forall j :: 0 <= j < |logs| ==> logs[j].id != id
  {
    if logs == [] then None
    else if logs[0].id == id then Some(0)
    else
      match FindIndex(logs[1..], id)
      case None => None
      case Some(k) => Some(k + 1)
  }

  /** The logs left in the store after deleting every row with this id. */
  function RemoveLog(logs: seq<BrickLoadLog>, id: nat): seq<BrickLoadLog> {
    Filter(OtherThan(id), logs)
  }

  /** The filter test that keeps the logs whose id is not `id`. */
  function OtherThan(id: nat): BrickLoadLog -> bool {
    (l: BrickLoadLog) => l.id != id
  }

  predicate UniqueIds(logs: seq<BrickLoadLog>) {
    forall i, j :: 0 <= i < j < |logs| ==> logs[i].id != logs[j].id
  }

  /** With unique ids, deleting by id removes exactly the one log found. */
  lemma RemoveUnique(logs: seq<BrickLoadLog>, k: nat)
    requires UniqueIds(logs) && k < |logs|
    ensures RemoveLog(logs, logs[k].id) == logs[..k] + logs[k + 1..]
  {
    var p := OtherThan(logs[k].id);
    forall l | l in logs[..k] ensures p(l) {
      var j :| 0 <= j < k && logs[..k][j] == l;
    }
    forall l | l in logs[k + 1..] ensures p(l) {
      var j :| 0 <= j < |logs| - k - 1 && logs[k + 1..][j] == l;
      assert logs[k + 1 + j] == l;
    }
    assert logs == logs[..k] + [logs[k]] + logs[k + 1..];
    FilterDropOne(p, logs[..k], logs[k], logs[k + 1..]);
  }

  predicate IdsBelow(logs: seq<BrickLoadLog>, next: nat) {
    forall j :: 0 <= j < |logs| ==> logs[j].id < next
  }

  /** Appending a log whose id is `next` keeps the ids distinct and below
      `next + 1`. */
  lemma AppendKeepsIds(logs: seq<BrickLoadLog>, l: BrickLoadLog, next: nat)
    requires UniqueIds(logs) && IdsBelow(logs, next) && l.id == next
    ensures UniqueIds(logs + [l]) && IdsBelow(logs + [l], next + 1)
  {
    var r := logs + [l];
    assert forall j :: 0 <= j < |r| ==> r[j] == if j < |logs| then logs[j] else l;
  }

  /** Dropping one log keeps the ids distinct and below `next`. */
  lemma RemoveAtKeepsIds(logs: seq<BrickLoadLog>, k: nat, next: nat)
    requires UniqueIds(logs) && k < |logs|
    requires IdsBelow(logs, next)
    ensures UniqueIds(logs[..k] + logs[k + 1..])
    ensures IdsBelow(logs[..k] + logs[k + 1..], next)
  {
    var r := logs[..k] + logs[k + 1..];
    assert forall j :: 0 <= j < |r| ==> r[j] == if j < k then logs[j] else logs[j + 1];
  }

  /** Appending a log with a fresh id and then deleting that id finds it at
      the end and gives back the logs as they were. */
  lemma {:induction false} RemoveAfterAppend(logs: seq<BrickLoadLog>, l: BrickLoadLog)
    requires forall j :: 0 <= j < |logs| ==> logs[j].id != l.id
    ensures FindIndex(logs + [l], l.id) == Some(|logs|)
    ensures RemoveLog(logs + [l], l.id) == logs
  {
    if logs != [] {
      assert (logs + [l])[1..] == logs[1..] + [l];
      RemoveAfterAppend(logs[1..], l);
    }
    assert logs + [l] == logs + [l] + [];
    FilterDropOne(OtherThan(l.id), logs, l, []);
  }

  /** One more log adds exactly its own contribution to each recomputed
      total. */
  lemma AppendTotals(logs: seq<BrickLoadLog>, l: BrickLoadLog)
    ensures BrickTotal(logs + [l]) == BrickTotal(logs) + BrickAmount(l)
    ensures QuantityTotal(logs + [l]) == QuantityTotal(logs) + QuantityAmount(l)
    ensures PaymentTotal(logs + [l]) == PaymentTotal(logs) + PaymentAmount(l)
  {
    SumConcat(BrickAmount, logs, [l]);
    SumConcat(QuantityAmount, logs, [l]);
    SumConcat(PaymentAmount, logs, [l]);
    SumSingle(BrickAmount, l);
    SumSingle(QuantityAmount, l);
    SumSingle(PaymentAmount, l);
  }

  /** Dropping the log at `k` takes exactly its contribution out of each
      recomputed total. */
  lemma RemoveAtTotals(logs: seq<BrickLoadLog>, k: nat)
    requires k < |logs|
    ensures BrickTotal(logs[..k] + logs[k + 1..]) == BrickTotal(logs) - BrickAmount(logs[k])
    ensures QuantityTotal(logs[..k] + logs[k + 1..]) == QuantityTotal(logs) - QuantityAmount(logs[k])
    ensures PaymentTotal(logs[..k] + logs[k + 1..]) == PaymentTotal(logs) - PaymentAmount(logs[k])
  {
    SumRemoveAt(BrickAmount, logs, k);
    SumRemoveAt(QuantityAmount, logs, k);
    SumRemoveAt(PaymentAmount, logs, k);
  }

  /** The recomputed totals do not depend on the order of the logs. */
  lemma LogTotalsOrderFree(a: seq<BrickLoadLog>, b: seq<BrickLoadLog>)
    requires multiset(a) == multiset(b)
    ensures BrickTotal(a) == BrickTotal(b)
    ensures PaymentTotal(a) == PaymentTotal(b)
    ensures QuantityTotal(a) == QuantityTotal(b)
  {
    SumPermutation(BrickAmount, a, b);
    SumPermutation(PaymentAmount, a, b);
    SumPermutation(QuantityAmount, a, b);
  }

  /** The detail view's recomputation: one pass over the logs. */
  method CalculateLogTotals(logs: seq<BrickLoadLog>) returns (brickTotal: real, paymentTotal: real, balance: real)
    ensures brickTotal == BrickTotal(logs)
    ensures paymentTotal == PaymentTotal(logs)
    ensures balance == brickTotal - paymentTotal
  {
    brickTotal, paymentTotal := 0.0, 0.0;
    for i := 0 to |logs|
      invariant brickTotal == BrickTotal(logs[..i])
      invariant paymentTotal == PaymentTotal(logs[..i])
    {
      var log := logs[i];
      if log.logType == BrickLog {
        brickTotal := brickTotal + log.amount;
      } else if log.logType == PaymentLog {
        paymentTotal := paymentTotal + log.amount;
      }
      assert logs[..i + 1][..i] == logs[..i];
    }
    assert logs[..|logs|] == logs;
    balance := brickTotal - paymentTotal;
  }

  /** A load matches the search box when its lower-cased village name
      contains the lower-cased query, or its phone contains the query as
      typed. */
  predicate LoadMatches(load: BrickLoad, query: string) {
    Contains(Lower(load.villageName), Lower(query)) || Contains(load.phoneNumber, query)
  }

  /** The list shown under the search box. */
  function SearchLoads(loads: seq<BrickLoad>, query: string): (r: seq<BrickLoad>)
    ensures query == "" ==> r == loads
    ensures Selects(r, loads, l => LoadMatches(l, query))
  {
    if query != "" then
      FilterSelects((l: BrickLoad) => LoadMatches(l, query), loads);
      Filter((l: BrickLoad) => LoadMatches(l, query), loads)
    else
      SubseqRefl(loads);
      loads
  }

  /** One brick load as the detail screen holds it. The store assigns log ids;
      `nextLogId` stands for that and is never reused. */
  class BrickLoad {
    const id: nat
    const date: Day
    const villageName: string
    const phoneNumber: string
    const brickRate: real
    var brickQuantity: real
    var totalAmount: real
    var amountPaid: real
    var logs: seq<BrickLoadLog>
    var nextLogId: nat

    /** Log ids are distinct and below the next one to be handed out. */
    ghost predicate Valid()
      reads this
    {
      UniqueIds(logs) && IdsBelow(logs, nextLogId)
    }

    /** The running totals agree with the totals recomputed from the logs. */
    predicate Consistent()
      reads this
    {
      totalAmount == BrickTotal(logs) &&
      brickQuantity == QuantityTotal(logs) &&
      amountPaid == PaymentTotal(logs)
    }

    /** The amount still due; it is not clamped at zero. */
    function Pending(): (due: real)
      reads this
      ensures due < 0.0 <==> amountPaid > totalAmount
      ensures due + amountPaid == totalAmount
      ensures Consistent() ==> due == BrickTotal(logs) - PaymentTotal(logs)
    {
      totalAmount - amountPaid
    }

    /** Creating a load from the form: `count` bricks at `rate` per thousand,
        `paid` paid up front. A delivery log is always written; a payment log
        only when `paid` is positive. */
    constructor (id: nat, date: Day, villageName: string, phoneNumber: string,
                 count: real, rate: real, paid: real)
      ensures this.id == id && this.date == date
      ensures this.villageName == villageName && this.phoneNumber == phoneNumber
      ensures brickRate == rate
      ensures brickQuantity * 1000.0 == count
      ensures totalAmount * 1000.0 == count * rate
      ensures amountPaid == paid
      ensures logs == [DeliveryLog(0, date, count, rate)] +
                      (if paid > 0.0 then [PaymentLogOf(1, date, paid)] else [])
      ensures Valid()
      ensures Consistent() <==> paid >= 0.0
    {
      this.id := id;
      this.date := date;
      this.villageName := villageName;
      this.phoneNumber := phoneNumber;
      var brickQty := count / 1000.0;
      var total := count * rate / 1000.0;
      brickRate := rate;
      brickQuantity := brickQty;
      totalAmount := total;
      amountPaid := paid;
      var delivery := DeliveryLog(0, date, count, rate);
      DeliveryLogAmounts(0, date, count, rate);
      new;
      SumSingle(BrickAmount, delivery);
      SumSingle(QuantityAmount, delivery);
      SumSingle(PaymentAmount, delivery);
      if paid > 0.0 {
        var payment := PaymentLogOf(1, date, paid);
        logs := [delivery, payment];
        assert logs == [delivery] + [payment];
        SumConcat(BrickAmount, [delivery], [payment]);
        SumConcat(QuantityAmount, [delivery], [payment]);
        SumConcat(PaymentAmount, [delivery], [payment]);
        SumSingle(BrickAmount, payment);
        SumSingle(QuantityAmount, payment);
        SumSingle(PaymentAmount, payment);
      } else {
        logs := [delivery];
      }
      nextLogId := |logs|;
    }

    /** Appends a log under the next id and adds its contribution to the
        running totals. */
    method AppendLog(log: BrickLoadLog)
      requires Valid() && log.id == nextLogId
      modifies this
      ensures Valid() && nextLogId == old(nextLogId) + 1
      ensures logs == old(logs) + [log]
      ensures totalAmount == old(totalAmount) + BrickAmount(log)
      ensures brickQuantity == old(brickQuantity) + QuantityAmount(log)
      ensures amountPaid == old(amountPaid) + PaymentAmount(log)
      ensures old(Consistent()) ==> Consistent()
    {
      AppendTotals(logs, log);
      AppendKeepsIds(logs, log, nextLogId);
      logs := logs + [log];
      nextLogId := nextLogId + 1;
      totalAmount := totalAmount + BrickAmount(log);
      brickQuantity := brickQuantity + QuantityAmount(log);
      amountPaid := amountPaid + PaymentAmount(log);
    }

    /** Adds a contribution to the running totals without touching the logs. */
    method AddToTotals(brick: real, quantity: real, payment: real)
      modifies this`totalAmount, this`brickQuantity, this`amountPaid
      ensures totalAmount == old(totalAmount) + brick
      ensures brickQuantity == old(brickQuantity) + quantity
      ensures amountPaid == old(amountPaid) + payment
    {
      totalAmount := totalAmount + brick;
      brickQuantity := brickQuantity + quantity;
      amountPaid := amountPaid + payment;
    }

    /** A further delivery of `count` bricks at `rate` per thousand. Returns the
        id given to the new log. `stored` tells whether the store took the log:
        the handler does not look at the insert's result, so the totals rise
        either way, and only a stored log keeps them consistent. */
    method AddBrickLog(count: real, rate: real, date: Day, stored: bool) returns (logId: nat)
      requires Valid()
      modifies this
      ensures Valid()
      ensures logId == old(nextLogId)
      ensures stored ==> logs == old(logs) + [DeliveryLog(logId, date, count, rate)] && nextLogId == logId + 1
      ensures !stored ==> logs == old(logs) && nextLogId == old(nextLogId)
      ensures totalAmount == old(totalAmount) + DeliveryLog(logId, date, count, rate).amount
      ensures brickQuantity == old(brickQuantity) + DeliveryLog(logId, date, count, rate).brickQuantity.value
      ensures amountPaid == old(amountPaid)
      ensures stored && old(Consistent()) ==> Consistent()
      ensures !stored && old(Consistent()) && count * rate != 0.0 ==> !Consistent()
    {
      logId := nextLogId;
      var log := DeliveryLog(logId, date, count, rate);
      DeliveryLogAmounts(logId, date, count, rate);
      if stored {
        AppendLog(log);
      } else {
        AddToTotals(BrickAmount(log), QuantityAmount(log), PaymentAmount(log));
      }
    }

    /** A payment of `payment` rupees. Returns the id given to the new log.
        As for deliveries, the amount paid rises whether or not the store took
        the log. */
    method AddPayment(payment: real, date: Day, stored: bool) returns (logId: nat)
      requires Valid()
      modifies this
      ensures Valid()
      ensures logId == old(nextLogId)
      ensures stored ==> logs == old(logs) + [PaymentLogOf(logId, date, payment)] && nextLogId == logId + 1
      ensures !stored ==> logs == old(logs) && nextLogId == old(nextLogId)
      ensures amountPaid == old(amountPaid) + payment
      ensures totalAmount == old(totalAmount) && brickQuantity == old(brickQuantity)
      ensures stored && old(Consistent()) ==> Consistent()
      ensures !stored && old(Consistent()) && payment != 0.0 ==> !Consistent()
    {
      logId := nextLogId;
      var log := PaymentLogOf(logId, date, payment);
      if stored {
        AppendLog(log);
      } else {
        AddToTotals(0.0, 0.0, payment);
      }
    }

    /** Drops the log at index `k`. */
    method DropLogAt(k: nat)
      requires Valid() && k < |logs|
      modifies this`logs
      ensures Valid()
      ensures logs == old(logs)[..k] + old(logs)[k + 1..]
    {
      RemoveAtKeepsIds(logs, k, nextLogId);
      logs := logs[..k] + logs[k + 1..];
    }

    /** Takes one log's share off the running totals: a delivery lowers the
        amount and the quantity, a payment lowers the amount paid. */
    method SubtractFromTotals(l: BrickLoadLog)
      modifies this`totalAmount, this`brickQuantity, this`amountPaid
      ensures totalAmount == old(totalAmount) - BrickAmount(l)
      ensures brickQuantity == old(brickQuantity) - QuantityAmount(l)
      ensures amountPaid == old(amountPaid) - PaymentAmount(l)
    {
      if l.logType == BrickLog {
        totalAmount := totalAmount - l.amount;
        brickQuantity := brickQuantity - l.brickQuantity.GetOr(0.0);
      } else {
        amountPaid := amountPaid - l.amount;
      }
    }

    /** Deleting the log with id `logId`, undoing what it added to the totals.
        An id that is not in the list changes nothing. `stored` tells whether
        the store deleted the row: the handler does not look at the result, so
        the totals are lowered either way, and only a deleted row keeps them
        consistent. */
    method DeleteLog(logId: nat, stored: bool)
      requires Valid()
      modifies this
      ensures Valid() && nextLogId == old(nextLogId)
      ensures FindIndex(old(logs), logId).None? ==>
        logs == old(logs) && totalAmount == old(totalAmount) &&
        brickQuantity == old(brickQuantity) && amountPaid == old(amountPaid)
      ensures FindIndex(old(logs), logId).Some? ==>
        var removed := old(logs)[FindIndex(old(logs), logId).value];
        logs == (if stored then RemoveLog(old(logs), logId) else old(logs)) &&
        totalAmount == old(totalAmount) - BrickAmount(removed) &&
        brickQuantity == old(brickQuantity) - QuantityAmount(removed) &&
        amountPaid == old(amountPaid) - PaymentAmount(removed)
      ensures (stored || FindIndex(old(logs), logId).None?) && old(Consistent()) ==> Consistent()
      ensures !stored && FindIndex(old(logs), logId).Some? && old(Consistent()) ==>
        var removed := old(logs)[FindIndex(old(logs), logId).value];
        (Consistent() <==> BrickAmount(removed) == 0.0 && QuantityAmount(removed) == 0.0 &&
                           PaymentAmount(removed) == 0.0)
    {
      var found := FindIndex(logs, logId);
      if found.None? {
        return;
      }
      var k := found.value;
      var logToRemove := logs[k];
      if stored {
        RemoveUnique(logs, k);
        RemoveAtTotals(logs, k);
        DropLogAt(k);
      }
      SubtractFromTotals(logToRemove);
    }
  }

  /** Adding a delivery and then deleting the log it wrote leaves the load as
      it was. */
  method BrickLogRoundTrip(load: BrickLoad, count: real, rate: real, date: Day)
    requires load.Valid()
    modifies load
    ensures load.Valid()
    ensures load.logs == old(load.logs)
    ensures load.totalAmount == old(load.totalAmount)
    ensures load.brickQuantity == old(load.brickQuantity)
    ensures load.amountPaid == old(load.amountPaid)
  {
    ghost var before := load.logs;
    var logId := load.AddBrickLog(count, rate, date, true);
    RemoveAfterAppend(before, DeliveryLog(logId, date, count, rate));
    load.DeleteLog(logId, true);
  }

  /** Adding a payment and then deleting the log it wrote leaves the load as
      it was. */
  method PaymentRoundTrip(load: BrickLoad, payment: real, date: Day)
    requires load.Valid()
    modifies load
    ensures load.Valid()
    ensures load.logs == old(load.logs)
    ensures load.totalAmount == old(load.totalAmount)
    ensures load.brickQuantity == old(load.brickQuantity)
    ensures load.amountPaid == old(load.amountPaid)
  {
    ghost var before := load.logs;
    var logId := load.AddPayment(payment, date, true);
    RemoveAfterAppend(before, PaymentLogOf(logId, date, payment));
    load.DeleteLog(logId, true);
  }
}
