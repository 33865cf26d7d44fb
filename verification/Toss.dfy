/** The in-memory sandbox of the payment provider: one record per payment key. */
module Toss {
  import opened Rows

  function RecordAfterConfirm(
    records: map<PaymentKey, ProviderRecord>, key: PaymentKey, order: OrderId, amount: nat): ProviderRecord
  {
    if key in records then records[key] else ProviderRecord(order, amount, ProviderStatus.Done)
  }

  function AfterConfirm(
    records: map<PaymentKey, ProviderRecord>, key: PaymentKey, order: OrderId, amount: nat)
    : map<PaymentKey, ProviderRecord>
  {
    records[key := RecordAfterConfirm(records, key, order, amount)]
  }

  // Cancelling or refunding keeps the order and the amount of a known record.
  function AfterReverse(records: map<PaymentKey, ProviderRecord>, key: PaymentKey, status: ProviderStatus)
    : map<PaymentKey, ProviderRecord>
  {
    if key in records then records[key := records[key].(status := status)] else records
  }

  class Sandbox {
    var records: map<PaymentKey, ProviderRecord>

    constructor ()
      ensures records == map[]
    {
      records := map[];
    }

    method Confirm(key: PaymentKey, order: OrderId, amount: nat) returns (record: ProviderRecord)
      modifies this
      ensures record == RecordAfterConfirm(old(records), key, order, amount)
      ensures records == AfterConfirm(old(records), key, order, amount)
    {
      if key in records {
        record := records[key];
        assert records == records[key := record];
        return;
      }
      record := ProviderRecord(order, amount, ProviderStatus.Done);
      records := records[key := record];
    }

    method Cancel(key: PaymentKey) returns (record: Option<ProviderRecord>)
      modifies this
      ensures record.Some? <==> key in old(records)
      ensures record.None? ==> records == old(records)
      ensures record.Some? ==> record.value == old(records)[key].(status := ProviderStatus.Canceled)
      ensures records == AfterReverse(old(records), key, ProviderStatus.Canceled)
    {
      if key !in records {
        return None;
      }
      var cancelled := records[key].(status := ProviderStatus.Canceled);
      records := records[key := cancelled];
      record := Some(cancelled);
    }

    method Refund(key: PaymentKey) returns (record: Option<ProviderRecord>)
      modifies this
      ensures record.Some? <==> key in old(records)
      ensures record.None? ==> records == old(records)
      ensures record.Some? ==> record.value == old(records)[key].(status := ProviderStatus.Refunded)
      ensures records == AfterReverse(old(records), key, ProviderStatus.Refunded)
    {
      if key !in records {
        return None;
      }
      var refunded := records[key].(status := ProviderStatus.Refunded);
      records := records[key := refunded];
      record := Some(refunded);
    }

    method Lookup(key: PaymentKey) returns (record: Option<ProviderRecord>)
      ensures record == if key in records then Some(records[key]) else None
    {
      record := if key in records then Some(records[key]) else None;
    }
  }

  // ---------- What later calls leave of a payment ----------

  datatype Call =
    | ConfirmCall(key: PaymentKey, order: OrderId, amount: nat)
    | CancelCall(key: PaymentKey)
    | RefundCall(key: PaymentKey)

  function AfterCall(records: map<PaymentKey, ProviderRecord>, call: Call): map<PaymentKey, ProviderRecord> {
    match call
    case ConfirmCall(key, order, amount) => AfterConfirm(records, key, order, amount)
    case CancelCall(key) => AfterReverse(records, key, ProviderStatus.Canceled)
    case RefundCall(key) => AfterReverse(records, key, ProviderStatus.Refunded)
  }

  function AfterCalls(records: map<PaymentKey, ProviderRecord>, calls: seq<Call>): map<PaymentKey, ProviderRecord> {
    if calls == [] then records else AfterCall(AfterCalls(records, calls[..|calls| - 1]), calls[|calls| - 1])
  }

  // The last reversal of the key decides; a confirmation never does.
  function LastReversal(calls: seq<Call>, key: PaymentKey): ProviderStatus {
    if calls == [] then ProviderStatus.Done
    else
      match calls[|calls| - 1]
      case CancelCall(k) => if k == key then ProviderStatus.Canceled else LastReversal(calls[..|calls| - 1], key)
      case RefundCall(k) => if k == key then ProviderStatus.Refunded else LastReversal(calls[..|calls| - 1], key)
      case ConfirmCall(_, _, _) => LastReversal(calls[..|calls| - 1], key)
  }

  // Whatever is called after the first confirmation of a key, a lookup finds its order and its amount, and
  // the status of the last reversal.
  lemma {:induction false} FirstConfirmationStands(records: map<PaymentKey, ProviderRecord>, key: PaymentKey, order: OrderId,
                                                   amount: nat, calls: seq<Call>)
    requires key !in records
    ensures var after := AfterCalls(AfterConfirm(records, key, order, amount), calls);
            key in after && after[key] == ProviderRecord(order, amount, LastReversal(calls, key))
  {
    if calls != [] {
      FirstConfirmationStands(records, key, order, amount, calls[..|calls| - 1]);
    }
  }
}
