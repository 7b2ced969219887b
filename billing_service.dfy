/** Bills and payments (billing.service): creating bills, recording payments
    and the bill status that follows from the payments recorded against it. */
module Billing {
  import opened Common
  import opened Strings
  import opened Models
  import opened DataSync
  import opened BillingRepo

  /** `BILL-` followed by the creation time in milliseconds. */
  function BillNumber(now: Instant): (r: string)
    ensures |r| > 5 && r[..5] == "BILL-" && r[5..] == IntToString(now.epochMs)
  {
    "BILL-" + IntToString(now.epochMs)
  }

  /** The bill `createBill` makes of the caller's data. */
  function NewBill(draft: BillDraft, id: string, now: Instant): (b: Bill)
    ensures b.id == id && b.billNumber == BillNumber(now) && b.patientId == draft.patientId
    ensures b.totalAmount == draft.totalAmount && b.status == draft.status && b.items == draft.items
    ensures b.createdAt == now && b.updatedAt == now
  {
    Bill(id, BillNumber(now), draft.patientId, draft.visitId, draft.date, draft.items, draft.subTotal,
         draft.taxAmount, draft.discountAmount, draft.totalAmount, draft.status, now, now)
  }

  /** The payment `recordPayment` makes of the caller's data. */
  function NewPayment(draft: PaymentDraft, id: string, now: Instant): (p: Payment)
    ensures p.id == id && p.billId == draft.billId && p.amount == draft.amount
    ensures p.createdAt == now && p.updatedAt == now
  {
    Payment(id, draft.billId, draft.amount, draft.paymentMethod, draft.transactionId, draft.date, now, now)
  }

  function Amounts(payments: seq<Payment>): (r: seq<int>)
    ensures |r| == |payments| && forall i :: 0 <= i < |r| ==> r[i] == payments[i].amount
  {
    seq(|payments|, i requires 0 <= i < |payments| => payments[i].amount)
  }

  /** The total of the payments recorded against a bill. */
  function PaidAmount(payments: seq<Payment>, billId: string): int
  {
    Sum(Amounts(Filter(payments, (p: Payment) => p.billId == billId)))
  }

  /** Recording a payment raises its bill's paid amount by exactly the payment
      and leaves every other bill's paid amount alone. */
  lemma PaidAmountAppend(payments: seq<Payment>, p: Payment, billId: string)
    ensures PaidAmount(payments + [p], billId) == PaidAmount(payments, billId) + if p.billId == billId then p.amount else 0
  {
    var mine := (q: Payment) => q.billId == billId;
    FilterAppend(payments, [p], mine);
    var a, b := Filter(payments, mine), Filter([p], mine);
    assert Amounts(a + b) == Amounts(a) + Amounts(b);
    SumAppend(Amounts(a), Amounts(b));
    if p.billId == billId {
      assert b == [p];
      assert Sum(Amounts(b)) == p.amount by {
        assert Amounts(b) == [p.amount];
      }
    } else {
      assert b == [];
    }
  }

  /** The bill's status after its payments are counted: paid once the payments
      reach the total, partly paid while some positive amount is recorded, and
      otherwise what it was. */
  function SettledStatus(paid: int, total: int, current: BillStatus): (s: BillStatus)
    ensures s == Paid <==> paid >= total || (paid <= 0 && current == Paid)
    ensures 0 < paid < total ==> s == PartiallyPaid
    ensures paid <= 0 && paid < total ==> s == current
  {
    if paid >= total then Paid
    else if paid > 0 then PartiallyPaid
    else current
  }

  /** The bill list after `updateBillStatus(billId)`, given the stored bills
      and payments: the first bill with that id gets its settled status. */
  function WithSettledBill(bills: seq<Bill>, payments: seq<Payment>, billId: string): (r: seq<Bill>)
    ensures |r| == |bills|
    ensures var k := FindIndex(bills, (b: Bill) => b.id == billId);
      forall i :: 0 <= i < |bills| ==>
        r[i] == if i == k then bills[i].(status := SettledStatus(PaidAmount(payments, billId), bills[i].totalAmount, bills[i].status))
                else bills[i]
  {
    var k := FindIndex(bills, (b: Bill) => b.id == billId);
    if k == -1 then bills
    else bills[k := bills[k].(status := SettledStatus(PaidAmount(payments, billId), bills[k].totalAmount, bills[k].status))]
  }

  /** With the new payment counted, the first bill it is for is settled on its
      old paid amount plus the payment; no other bill changes. */
  lemma PaymentSettlesBill(bills: seq<Bill>, payments: seq<Payment>, p: Payment)
    ensures var k, r := FindIndex(bills, (b: Bill) => b.id == p.billId), WithSettledBill(bills, payments + [p], p.billId);
      && |r| == |bills|
      && (k != -1 ==> r[k] == bills[k].(status := SettledStatus(PaidAmount(payments, p.billId) + p.amount, bills[k].totalAmount, bills[k].status)))
      && (forall i :: 0 <= i < |bills| && i != k ==> r[i] == bills[i])
  {
    PaidAmountAppend(payments, p, p.billId);
  }

  class BillingService {
    /** The current bill list (the service's `billsSubject`). */
    var bills: seq<Bill>
    const repo: BillingRepository

    constructor(repo: BillingRepository)
      ensures this.repo == repo && bills == repo.GetBills()
    {
      this.repo := repo;
      bills := repo.GetBills();
    }

    /** `refreshBills()`. */
    method RefreshBills()
      modifies this`bills
      ensures bills == repo.GetBills()
    {
      bills := repo.GetBills();
    }

    /** `createBill(data)`: appends the bill to the stored list and re-reads it. */
    method CreateBill(draft: BillDraft, id: string, now: Instant, accepted: bool) returns (b: Bill)
      modifies this`bills, repo.store`items, repo.store`events
      ensures b == NewBill(draft, id, now)
      ensures repo.store.Wrote(BillsKey, BillList(old(repo.GetBills()) + [b]), accepted)
      ensures repo.GetPayments() == old(repo.GetPayments())
      ensures bills == repo.GetBills()
    {
      b := NewBill(draft, id, now);
      repo.AddBill(b, accepted);
      RefreshBills();
    }

    /** `updateBillStatus(billId)`: recomputes the status of the first stored
        bill with that id from the stored payments and saves all bills; an
        unknown id writes nothing. */
    method UpdateBillStatus(billId: string, accepted: bool)
      modifies this`bills, repo.store`items, repo.store`events
      ensures FindIndex(old(repo.GetBills()), (b: Bill) => b.id == billId) == -1 ==>
        unchanged(repo.store) && bills == old(bills)
      ensures FindIndex(old(repo.GetBills()), (b: Bill) => b.id == billId) != -1 ==>
        && repo.store.Wrote(BillsKey, BillList(WithSettledBill(old(repo.GetBills()), old(repo.GetPayments()), billId)), accepted)
        && repo.GetBills() == (if accepted then WithSettledBill(old(repo.GetBills()), old(repo.GetPayments()), billId) else old(repo.GetBills()))
        && bills == repo.GetBills()
      ensures repo.GetPayments() == old(repo.GetPayments())
    {
      var stored := repo.GetBills();
      var k := FindIndex(stored, (b: Bill) => b.id == billId);
      if k != -1 {
        var paid := PaidAmount(repo.GetPayments(), billId);
        var bill := stored[k];
        var updated := stored[k := bill.(status := SettledStatus(paid, bill.totalAmount, bill.status))];
        repo.SaveBills(updated, accepted);
        RefreshBills();
      }
    }

    /** `recordPayment(data)`: stores the payment, then settles its bill, in
        two separate writes that the browser may accept or reject one by one.
        The bill is settled against the payments the store holds after the
        first write, so a rejected payment leaves the bill as the old payments
        make it, and a rejected bill write leaves a stored payment with its
        bill unsettled. When both are accepted, the bill's status reflects the
        old paid amount plus this payment. */
    method RecordPayment(draft: PaymentDraft, id: string, now: Instant, paymentAccepted: bool, billsAccepted: bool)
      returns (p: Payment)
      modifies this`bills, repo.store`items, repo.store`events
      ensures p == NewPayment(draft, id, now)
      ensures repo.GetPayments() == (if paymentAccepted then old(repo.GetPayments()) + [p] else old(repo.GetPayments()))
      ensures FindIndex(old(repo.GetBills()), (b: Bill) => b.id == p.billId) == -1 ==>
        repo.GetBills() == old(repo.GetBills()) && bills == old(bills)
      ensures FindIndex(old(repo.GetBills()), (b: Bill) => b.id == p.billId) != -1 ==>
        && repo.GetBills() == (if billsAccepted then WithSettledBill(old(repo.GetBills()), repo.GetPayments(), p.billId)
                               else old(repo.GetBills()))
        && bills == repo.GetBills()
      ensures !paymentAccepted && !billsAccepted ==> unchanged(repo.store)
      ensures paymentAccepted && billsAccepted ==>
        repo.GetBills() == WithSettledBill(old(repo.GetBills()), old(repo.GetPayments()) + [p], p.billId)
    {
      p := NewPayment(draft, id, now);
      repo.AddPayment(p, paymentAccepted);
      UpdateBillStatus(p.billId, billsAccepted);
    }

    /** `getBillsByPatient(patientId)`, read from the store. */
    function GetBillsByPatient(patientId: string): (r: seq<Bill>)
      reads repo.store
      ensures forall i :: 0 <= i < |r| ==> r[i] in repo.GetBills() && r[i].patientId == patientId
      ensures forall i :: 0 <= i < |repo.GetBills()| && repo.GetBills()[i].patientId == patientId ==> repo.GetBills()[i] in r
      ensures Subsequence(r, repo.GetBills())
      ensures forall b :: multiset(r)[b] == if b.patientId == patientId then multiset(repo.GetBills())[b] else 0
    {
      FilterSubsequence(repo.GetBills(), (b: Bill) => b.patientId == patientId);
      FilterMultiset(repo.GetBills(), (b: Bill) => b.patientId == patientId);
      Filter(repo.GetBills(), (b: Bill) => b.patientId == patientId)
    }
  }
}
