/** The payment-method chart: how many transactions were paid through each of the three
    known methods. The thirty-day cutoff the helper computes is never applied, so the
    model takes no date at all. */
module PaymentMethods {
  import opened Records

  datatype Bucket = Bucket(name: string, value: int)

  const MethodNames: seq<string> := ["MPESA", "Cash", "Bank Transfer"]

  /** Transactions paid through exactly `name` (an empty `paidThrough` never counts). */
  function CountPaidThrough(txs: seq<Transaction>, name: string): nat
    decreases |txs|
  {
    if |txs| == 0 then 0
    else
      var t := txs[|txs| - 1];
      CountPaidThrough(txs[..|txs| - 1], name) + (if t.paidThrough != "" && t.paidThrough == name then 1 else 0)
  }

  /** `getPaymentMethodData`: three buckets in the order M-PESA, cash, bank transfer,
      each holding its count. */
  method GetPaymentMethodData(txs: seq<Transaction>) returns (r: seq<Bucket>)
    ensures |r| == 3
    ensures forall k :: 0 <= k < 3 ==> r[k].name == MethodNames[k] && r[k].value == CountPaidThrough(txs, MethodNames[k])
  {
    var values := new int[3](_ => 0);
    var i := 0;
    while i < |txs|
      invariant 0 <= i <= |txs|
      invariant forall k :: 0 <= k < 3 ==> values[k] == CountPaidThrough(txs[..i], MethodNames[k])
    {
      assert txs[..i + 1][..i] == txs[..i];
      var t := txs[i];
      if t.paidThrough != "" {
        var j := 0;
        while j < 3 && MethodNames[j] != t.paidThrough
          invariant 0 <= j <= 3
          invariant forall k :: 0 <= k < j ==> MethodNames[k] != t.paidThrough
        {
          j := j + 1;
        }
        if j < 3 {
          values[j] := values[j] + 1;
        }
      }
      i := i + 1;
    }
    assert txs[..i] == txs;
    r := [Bucket(MethodNames[0], values[0]), Bucket(MethodNames[1], values[1]), Bucket(MethodNames[2], values[2])];
  }

  /** A transaction paid through anything else leaves every bucket unchanged. */
  lemma UnknownMethodIgnored(txs: seq<Transaction>, t: Transaction)
    requires t.paidThrough !in MethodNames
    ensures forall k :: 0 <= k < 3 ==> CountPaidThrough(txs + [t], MethodNames[k]) == CountPaidThrough(txs, MethodNames[k])
  {
    assert (txs + [t])[..|txs|] == txs;
  }

  /** The three buckets together never count more transactions than there are. */
  lemma {:induction false} BucketsBounded(txs: seq<Transaction>)
    ensures CountPaidThrough(txs, MethodNames[0]) + CountPaidThrough(txs, MethodNames[1])
      + CountPaidThrough(txs, MethodNames[2]) <= |txs|
    decreases |txs|
  {
    if |txs| > 0 {
      BucketsBounded(txs[..|txs| - 1]);
    }
  }
}
