/** Persistence of bills and payments (billing.repository). */
module BillingRepo {
  import opened Common
  import opened Models
  import opened DataSync

  const BillsKey: string := "bills"
  const PaymentsKey: string := "payments"

  class BillingRepository {
    const store: DataSyncService<Doc>

    constructor(store: DataSyncService<Doc>)
      ensures this.store == store
    {
      this.store := store;
    }

    /** `getBills()`: the stored bills, or none. */
    function GetBills(): (r: seq<Bill>)
      reads store
      ensures r == [] || (BillsKey in store.items && store.items[BillsKey] == Json(BillList(r)))
      ensures BillsKey in store.items && store.items[BillsKey].Json? && store.items[BillsKey].value.BillList? ==>
        r == store.items[BillsKey].value.bills
    {
      var d := store.GetItem(BillsKey, BillList([]));
      if d.BillList? then d.bills else []
    }

    /** `getPayments()`: the stored payments, or none. */
    function GetPayments(): (r: seq<Payment>)
      reads store
      ensures r == [] || (PaymentsKey in store.items && store.items[PaymentsKey] == Json(PaymentList(r)))
      ensures PaymentsKey in store.items && store.items[PaymentsKey].Json? && store.items[PaymentsKey].value.PaymentList? ==>
        r == store.items[PaymentsKey].value.payments
    {
      var d := store.GetItem(PaymentsKey, PaymentList([]));
      if d.PaymentList? then d.payments else []
    }

    /** `saveBills(bills)`: replaces the bills; the payments stay. */
    method SaveBills(bills: seq<Bill>, accepted: bool)
      modifies store`items, store`events
      ensures store.Wrote(BillsKey, BillList(bills), accepted)
      ensures GetBills() == if accepted then bills else old(GetBills())
      ensures GetPayments() == old(GetPayments())
    {
      store.SetItem(BillsKey, BillList(bills), accepted);
    }

    /** `savePayments(payments)`: replaces the payments; the bills stay. */
    method SavePayments(payments: seq<Payment>, accepted: bool)
      modifies store`items, store`events
      ensures store.Wrote(PaymentsKey, PaymentList(payments), accepted)
      ensures GetPayments() == if accepted then payments else old(GetPayments())
      ensures GetBills() == old(GetBills())
    {
      store.SetItem(PaymentsKey, PaymentList(payments), accepted);
    }

    /** `addBill(bill)`: appends one bill. */
    method AddBill(bill: Bill, accepted: bool)
      modifies store`items, store`events
      ensures store.Wrote(BillsKey, BillList(old(GetBills()) + [bill]), accepted)
      ensures GetBills() == if accepted then old(GetBills()) + [bill] else old(GetBills())
      ensures GetPayments() == old(GetPayments())
    {
      var bills := GetBills();
      SaveBills(bills + [bill], accepted);
    }

    /** `addPayment(payment)`: appends one payment. */
    method AddPayment(payment: Payment, accepted: bool)
      modifies store`items, store`events
      ensures store.Wrote(PaymentsKey, PaymentList(old(GetPayments()) + [payment]), accepted)
      ensures GetPayments() == if accepted then old(GetPayments()) + [payment] else old(GetPayments())
      ensures GetBills() == old(GetBills())
    {
      var payments := GetPayments();
      SavePayments(payments + [payment], accepted);
    }
  }
}
