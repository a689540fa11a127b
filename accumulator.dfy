/** The deduplicating accumulator behind `checkTransactions`: which records a
    poll counts, which identifiers it marks as seen, and how much it adds to
    the running total. `Scan` is the specification the server's poll loop
    is proved against; the lemmas are what it guarantees across records and
    across polls. */
module Accumulator {
  import opened Wrappers
  import opened Decimal
  import opened Ledger

  /** One counted transfer: its identifier and the AR amount added. */
  datatype Entry = Entry(id: string, amount: real)

  /** The outcome of one pass over a batch: the records counted, in order,
      and the identifier whose log line threw, if one did. That identifier
      was already marked as seen when the exception ended the pass. */
  datatype ScanResult = ScanResult(counted: seq<Entry>, aborted: Option<string>)

  /** Largest magnitude, in seconds, that `new Date(t * 1000)` accepts. */
  const MaxDateSeconds: int := 8640000000000

  /** `tx.id` is truthy. */
  predicate HasId(tx: TxRecord)
  {
    tx.id.Some? && tx.id.value != ""
  }

  /** The record passes the first guard of the loop: a truthy id not yet in
      the processed set. */
  predicate Unseen(tx: TxRecord, seen: set<string>)
  {
    HasId(tx) && tx.id.value !in seen
  }

  /** The record passes the second guard: it is addressed to the monitored
      wallet and its quantity is truthy (present, not NaN, not zero). */
  predicate Qualifies(tx: TxRecord, address: string)
  {
    tx.target == address && tx.quantity.Some? && tx.quantity.value != 0.0
  }

  /** The log line of a counted record throws: `tx.owner.slice` on a missing
      owner, or `toISOString` on a truthy timestamp whose milliseconds fall
      outside the Date range of plus or minus 8.64e15. A timestamp of 0 or
      none prints 'pending' and cannot throw. */
  predicate LogFails(tx: TxRecord): (fails: bool)
    ensures tx.owner.None? ==> fails
    ensures tx.owner.Some? && (tx.timestamp.None? || tx.timestamp == Some(0)) ==> !fails
    ensures tx.owner.Some? && tx.timestamp.Some? && tx.timestamp.value != 0 ==>
      (fails <==> !(-8640000000000000 <= tx.timestamp.value * 1000 <= 8640000000000000))
  {
    || tx.owner.None?
    || (tx.timestamp.Some? && tx.timestamp.value != 0 &&
        (tx.timestamp.value > MaxDateSeconds || tx.timestamp.value < -MaxDateSeconds))
  }

  /** `parseFloat((quantity / 1e12).toFixed(6))`: the winston quantity in AR,
      rounded to six decimals. The amount is a whole number of micro-AR, the
      one nearest to the quantity in AR, a tie going away from zero; these
      clauses determine it uniquely. */
  function TipAmount(quantity: real): (amount: real)
    ensures quantity >= 0.0 ==> amount >= 0.0
    ensures quantity <= 0.0 ==> amount <= 0.0
    ensures -0.0000005 <= amount - quantity / WinstonPerAr <= 0.0000005
    ensures (amount * 1000000.0).Floor as real == amount * 1000000.0
    ensures var micro := quantity / WinstonPerAr * 1000000.0;
      quantity >= 0.0 ==> micro - 0.5 < amount * 1000000.0 <= micro + 0.5
    ensures var micro := quantity / WinstonPerAr * 1000000.0;
      quantity < 0.0 ==> micro - 0.5 <= amount * 1000000.0 < micro + 0.5
  {
    var micro := ToFixed(quantity / WinstonPerAr, 6);
    assert Pow10(6) == 1000000;
    micro as real / 1000000.0
  }

  /** Any whole number of micro-AR that rounds the quantity as `toFixed(6)`
      does is `TipAmount`'s value: the contract leaves no choice. */
  lemma TipAmountUnique(quantity: real, a: real)
    requires (a * 1000000.0).Floor as real == a * 1000000.0
    requires var micro := quantity / WinstonPerAr * 1000000.0;
      quantity >= 0.0 ==> micro - 0.5 < a * 1000000.0 <= micro + 0.5
    requires var micro := quantity / WinstonPerAr * 1000000.0;
      quantity < 0.0 ==> micro - 0.5 <= a * 1000000.0 < micro + 0.5
    ensures a == TipAmount(quantity)
  {
    var t := TipAmount(quantity);
    var n, m := (a * 1000000.0).Floor, (t * 1000000.0).Floor;
    assert -1 < n - m < 1;
    assert n == m;
    assert a * 1000000.0 == t * 1000000.0;
  }

  /** Concrete roundings: 5e12 winston is 5 AR; one winston rounds to 0;
      1.5e6 winston is a tie at 1.5 micro-AR and goes up to 0.000002. */
  lemma TipAmountExamples()
    ensures TipAmount(5000000000000.0) == 5.0
    ensures TipAmount(1.0) == 0.0
    ensures TipAmount(1500000.0) == 0.000002
  {
    TipAmountUnique(5000000000000.0, 5.0);
    TipAmountUnique(1.0, 0.0);
    TipAmountUnique(1500000.0, 0.000002);
  }

  function Ids(es: seq<Entry>): set<string>
  {
    set e | e in es :: e.id
  }

  /** No identifier is counted twice. */
  predicate Distinct(es: seq<Entry>)
  {
    forall i, j :: 0 <= i < j < |es| ==> es[i].id != es[j].id
  }

  function Sum(es: seq<Entry>): real
  {
    if es == [] then 0.0 else es[0].amount + Sum(es[1..])
  }

  /** Every identifier a pass adds to the processed set. */
  function Marked(s: ScanResult): set<string>
  {
    Ids(s.counted) + if s.aborted.Some? then {s.aborted.value} else {}
  }

  /** The identifiers of the records in `txs` that pass both guards against
      `seen`. */
  function QualifyingIds(seen: set<string>, txs: seq<TxRecord>, address: string): set<string>
  {
    set tx | tx in txs && Unseen(tx, seen) && Qualifies(tx, address) :: tx.id.value
  }

  /** The loop of `checkTransactions` over one batch, as written: a record
      with a missing or already-seen id is skipped; one that fails the
      target/quantity test is skipped WITHOUT being marked; one that passes
      is marked, then logged, then added. If its log line throws, the pass
      ends there, with the id marked and nothing added. */
  function Scan(seen: set<string>, txs: seq<TxRecord>, address: string): (s: ScanResult)
    ensures Ids(s.counted) !! seen
    ensures Distinct(s.counted)
    ensures s.aborted.Some? ==> s.aborted.value !in seen && s.aborted.value !in Ids(s.counted)
    decreases |txs|
  {
    if txs == [] then ScanResult([], None)
    else
      var tx := txs[0];
      if !(Unseen(tx, seen) && Qualifies(tx, address)) then Scan(seen, txs[1..], address)
      else if LogFails(tx) then ScanResult([], Some(tx.id.value))
      else
        var rest := Scan(seen + {tx.id.value}, txs[1..], address);
        var e := Entry(tx.id.value, TipAmount(tx.quantity.value));
        assert Ids([e] + rest.counted) == {e.id} + Ids(rest.counted);
        ScanResult([e] + rest.counted, rest.aborted)
  }

  /** One turn of the poll loop, as a step in proving the loop against
      `Scan`: after the entries `acc` of the first `i` records, with the
      processed set at `seen`, the record `txs[i]` either changes nothing,
      ends the pass, or appends its entry. */
  lemma PollStep(seen0: set<string>, txs: seq<TxRecord>, i: nat, acc: seq<Entry>, seen: set<string>, address: string)
    requires i < |txs|
    requires var s := Scan(seen, txs[i..], address);
      Scan(seen0, txs, address) == ScanResult(acc + s.counted, s.aborted)
    ensures var tx := txs[i];
      !(Unseen(tx, seen) && Qualifies(tx, address)) ==>
        var s := Scan(seen, txs[i + 1..], address);
        Scan(seen0, txs, address) == ScanResult(acc + s.counted, s.aborted)
    ensures var tx := txs[i];
      Unseen(tx, seen) && Qualifies(tx, address) && LogFails(tx) ==>
        Scan(seen0, txs, address) == ScanResult(acc, Some(tx.id.value))
    ensures var tx := txs[i];
      Unseen(tx, seen) && Qualifies(tx, address) && !LogFails(tx) ==>
        var e := Entry(tx.id.value, TipAmount(tx.quantity.value));
        var s := Scan(seen + {tx.id.value}, txs[i + 1..], address);
        && Scan(seen0, txs, address) == ScanResult((acc + [e]) + s.counted, s.aborted)
        && Sum(acc + [e]) == Sum(acc) + e.amount
        && Ids(acc + [e]) == Ids(acc) + {e.id}
  {
    var tx := txs[i];
    assert txs[i..][0] == tx && txs[i..][1..] == txs[i + 1..];
    if Unseen(tx, seen) && Qualifies(tx, address) {
      if LogFails(tx) {
        assert acc + [] == acc;
      } else {
        var e := Entry(tx.id.value, TipAmount(tx.quantity.value));
        var s := Scan(seen + {tx.id.value}, txs[i + 1..], address);
        assert (acc + [e]) + s.counted == acc + ([e] + s.counted);
        SumAppend(acc, [e]);
        IdsAppend(acc, [e]);
      }
    }
  }

  // ---- small facts -----------------------------------------------------------

  lemma {:induction false} SumAppend(a: seq<Entry>, b: seq<Entry>)
    ensures Sum(a + b) == Sum(a) + Sum(b)
    decreases |a|
  {
    if a == [] {
      assert a + b == b;
    } else {
      assert (a + b)[1..] == a[1..] + b;
      SumAppend(a[1..], b);
    }
  }

  lemma IdsAppend(a: seq<Entry>, b: seq<Entry>)
    ensures Ids(a + b) == Ids(a) + Ids(b)
  {
    forall x | x in Ids(a + b) ensures x in Ids(a) + Ids(b) {
      var e :| e in a + b && e.id == x;
    }
    forall x | x in Ids(a) + Ids(b) ensures x in Ids(a + b) {
      if x in Ids(a) {
        var e :| e in a && e.id == x;
        assert e in a + b;
      } else {
        var e :| e in b && e.id == x;
        assert e in a + b;
      }
    }
  }

  lemma DistinctAppend(a: seq<Entry>, b: seq<Entry>)
    requires Distinct(a) && Distinct(b) && Ids(a) !! Ids(b)
    ensures Distinct(a + b)
  {
    forall i, j | 0 <= i < j < |a + b| ensures (a + b)[i].id != (a + b)[j].id {
      if j < |a| {
        assert (a + b)[i] == a[i] && (a + b)[j] == a[j];
      } else if i >= |a| {
        assert (a + b)[i] == b[i - |a|] && (a + b)[j] == b[j - |a|];
      } else {
        assert (a + b)[i] == a[i] && a[i] in a && a[i].id in Ids(a);
        assert (a + b)[j] == b[j - |a|] && b[j - |a|] in b && b[j - |a|].id in Ids(b);
      }
    }
  }

  lemma QualifyingIdsCons(seen: set<string>, txs: seq<TxRecord>, address: string)
    requires txs != []
    ensures var tx := txs[0];
      QualifyingIds(seen, txs, address) ==
        (if Unseen(tx, seen) && Qualifies(tx, address) then {tx.id.value} else {}) +
        QualifyingIds(seen, txs[1..], address)
  {
    assert forall tx :: tx in txs <==> tx == txs[0] || tx in txs[1..];
  }

  lemma QualifyingIdsMark(seen: set<string>, xs: set<string>, txs: seq<TxRecord>, address: string)
    ensures QualifyingIds(seen + xs, txs, address) == QualifyingIds(seen, txs, address) - xs
  {
  }

  // ---- one poll --------------------------------------------------------------

  /** A pass marks only identifiers of records that passed both guards, so a
      record with a missing id, an already-seen id, a foreign target or a
      falsy quantity never enters the processed set on its own account.
      When no log line throws, the pass marks exactly those identifiers. */
  lemma {:induction false} ScanMarksQualifying(seen: set<string>, txs: seq<TxRecord>, address: string)
    ensures Marked(Scan(seen, txs, address)) <= QualifyingIds(seen, txs, address)
    ensures Scan(seen, txs, address).aborted.None? ==>
      Marked(Scan(seen, txs, address)) == QualifyingIds(seen, txs, address)
    decreases |txs|
  {
    if txs != [] {
      var tx := txs[0];
      QualifyingIdsCons(seen, txs, address);
      if !(Unseen(tx, seen) && Qualifies(tx, address)) {
        ScanMarksQualifying(seen, txs[1..], address);
      } else if !LogFails(tx) {
        var x := tx.id.value;
        var rest := Scan(seen + {x}, txs[1..], address);
        var e := Entry(x, TipAmount(tx.quantity.value));
        ScanMarksQualifying(seen + {x}, txs[1..], address);
        QualifyingIdsMark(seen, {x}, txs[1..], address);
        IdsAppend([e], rest.counted);
        assert Ids([e]) == {x};
      }
    }
  }

  /** Every counted amount is the rounded AR value of a record that passed
      both guards under that identifier. */
  lemma {:induction false} ScanCountsQualifyingAmounts(seen: set<string>, txs: seq<TxRecord>, address: string)
    ensures forall e :: e in Scan(seen, txs, address).counted ==>
      exists tx :: tx in txs && Unseen(tx, seen) && Qualifies(tx, address) &&
        tx.id.value == e.id && e.amount == TipAmount(tx.quantity.value)
    decreases |txs|
  {
    if txs != [] {
      var tx := txs[0];
      assert forall t :: t in txs[1..] ==> t in txs;
      if !(Unseen(tx, seen) && Qualifies(tx, address)) {
        ScanCountsQualifyingAmounts(seen, txs[1..], address);
      } else if !LogFails(tx) {
        ScanCountsQualifyingAmounts(seen + {tx.id.value}, txs[1..], address);
      }
    }
  }

  /** A batch in which nothing passes both guards changes nothing: no id is
      marked, nothing is added, nothing is counted (so nothing is sent). */
  lemma {:induction false} ScanWithoutQualifyingIsNoOp(seen: set<string>, txs: seq<TxRecord>, address: string)
    requires QualifyingIds(seen, txs, address) == {}
    ensures Scan(seen, txs, address) == ScanResult([], None)
    decreases |txs|
  {
    if txs != [] {
      QualifyingIdsCons(seen, txs, address);
      ScanWithoutQualifyingIsNoOp(seen, txs[1..], address);
    }
  }

  /** Polling the same batch again right after a pass that ran to the end
      counts nothing and marks nothing. */
  lemma RescanCountsNothing(seen: set<string>, txs: seq<TxRecord>, address: string)
    requires Scan(seen, txs, address).aborted.None?
    ensures Scan(seen + Marked(Scan(seen, txs, address)), txs, address) == ScanResult([], None)
  {
    var m := Marked(Scan(seen, txs, address));
    ScanMarksQualifying(seen, txs, address);
    QualifyingIdsMark(seen, m, txs, address);
    ScanWithoutQualifyingIsNoOp(seen + m, txs, address);
  }

  /** With non-negative quantities a poll never lowers the total. */
  lemma {:induction false} ScanAddsNonNegative(seen: set<string>, txs: seq<TxRecord>, address: string)
    requires forall i :: 0 <= i < |txs| && txs[i].quantity.Some? ==> txs[i].quantity.value >= 0.0
    ensures Sum(Scan(seen, txs, address).counted) >= 0.0
    decreases |txs|
  {
    if txs != [] {
      var tx := txs[0];
      if !(Unseen(tx, seen) && Qualifies(tx, address)) {
        ScanAddsNonNegative(seen, txs[1..], address);
      } else if !LogFails(tx) {
        ScanAddsNonNegative(seen + {tx.id.value}, txs[1..], address);
      }
    }
  }

  // ---- repeated polls --------------------------------------------------------

  /** The entries counted by consecutive polls over `batches`, starting from
      the processed set `seen`. */
  function CountedOver(seen: set<string>, batches: seq<seq<TxRecord>>, address: string): seq<Entry>
    decreases |batches|
  {
    if batches == [] then []
    else
      var s := Scan(seen, batches[0], address);
      s.counted + CountedOver(seen + Marked(s), batches[1..], address)
  }

  /** The processed set after consecutive polls. */
  function SeenAfter(seen: set<string>, batches: seq<seq<TxRecord>>, address: string): set<string>
    decreases |batches|
  {
    if batches == [] then seen
    else SeenAfter(seen + Marked(Scan(seen, batches[0], address)), batches[1..], address)
  }

  /** The running total after consecutive polls, each adding its own pass. */
  function TotalAfter(total: real, seen: set<string>, batches: seq<seq<TxRecord>>, address: string): real
    decreases |batches|
  {
    if batches == [] then total
    else
      var s := Scan(seen, batches[0], address);
      TotalAfter(total + Sum(s.counted), seen + Marked(s), batches[1..], address)
  }

  /** However often a transfer is delivered, across however many polls, its
      identifier is counted at most once, never one seen before the first
      poll, and the processed set only grows. */
  lemma {:induction false} PollsCountEachIdOnce(seen: set<string>, batches: seq<seq<TxRecord>>, address: string)
    ensures Distinct(CountedOver(seen, batches, address))
    ensures Ids(CountedOver(seen, batches, address)) !! seen
    ensures seen + Ids(CountedOver(seen, batches, address)) <= SeenAfter(seen, batches, address)
    decreases |batches|
  {
    if batches != [] {
      var s := Scan(seen, batches[0], address);
      var seen' := seen + Marked(s);
      var rest := CountedOver(seen', batches[1..], address);
      PollsCountEachIdOnce(seen', batches[1..], address);
      IdsAppend(s.counted, rest);
      DistinctAppend(s.counted, rest);
    }
  }

  /** After consecutive polls the total is the starting total plus the amount
      of every counted entry, once each. */
  lemma {:induction false} TotalAfterPolls(total: real, seen: set<string>, batches: seq<seq<TxRecord>>, address: string)
    ensures TotalAfter(total, seen, batches, address) == total + Sum(CountedOver(seen, batches, address))
    decreases |batches|
  {
    if batches != [] {
      var s := Scan(seen, batches[0], address);
      TotalAfterPolls(total + Sum(s.counted), seen + Marked(s), batches[1..], address);
      SumAppend(s.counted, CountedOver(seen + Marked(s), batches[1..], address));
    }
  }

  // ---- the lost tip and its correction -------------------------------------

  /** A qualifying record without an owner: the pass marks it and adds
      nothing, and the next poll of the same batch skips it as seen, so its
      amount is never added. */
  lemma LostTipExample()
    ensures var tx := TxRecord(Some("tip"), None, "wallet", Some(5.0 * WinstonPerAr), None, None);
      var first := Scan({}, [tx], "wallet");
      && Qualifies(tx, "wallet")
      && "tip" in Marked(first)
      && Sum(first.counted) == 0.0
      && Scan(Marked(first), [tx], "wallet") == ScanResult([], None)
  {
  }

  /** The pass as evidently intended: a record that passes both guards is
      marked and added together, whatever its log line does. */
  function ScanIntended(seen: set<string>, txs: seq<TxRecord>, address: string): (counted: seq<Entry>)
    ensures Ids(counted) !! seen
    ensures Distinct(counted)
    decreases |txs|
  {
    if txs == [] then []
    else
      var tx := txs[0];
      if !(Unseen(tx, seen) && Qualifies(tx, address)) then ScanIntended(seen, txs[1..], address)
      else
        var rest := ScanIntended(seen + {tx.id.value}, txs[1..], address);
        var e := Entry(tx.id.value, TipAmount(tx.quantity.value));
        assert Ids([e] + rest) == {e.id} + Ids(rest);
        [e] + rest
  }

  /** In the intended pass every identifier that enters the processed set
      has its amount added: the marked set is exactly the counted ids, which
      are exactly the qualifying ones. */
  lemma {:induction false} IntendedScanCountsEveryMarkedId(seen: set<string>, txs: seq<TxRecord>, address: string)
    ensures Ids(ScanIntended(seen, txs, address)) == QualifyingIds(seen, txs, address)
    decreases |txs|
  {
    if txs != [] {
      var tx := txs[0];
      QualifyingIdsCons(seen, txs, address);
      if !(Unseen(tx, seen) && Qualifies(tx, address)) {
        IntendedScanCountsEveryMarkedId(seen, txs[1..], address);
      } else {
        var x := tx.id.value;
        var rest := ScanIntended(seen + {x}, txs[1..], address);
        IntendedScanCountsEveryMarkedId(seen + {x}, txs[1..], address);
        QualifyingIdsMark(seen, {x}, txs[1..], address);
        IdsAppend([Entry(x, TipAmount(tx.quantity.value))], rest);
      }
    }
  }

  /** Where no log line throws, the code as written and the intended pass
      agree. */
  lemma {:induction false} ScanAgreesWhenLogsSucceed(seen: set<string>, txs: seq<TxRecord>, address: string)
    requires forall i :: 0 <= i < |txs| ==> !LogFails(txs[i])
    ensures Scan(seen, txs, address) == ScanResult(ScanIntended(seen, txs, address), None)
    decreases |txs|
  {
    if txs != [] {
      var tx := txs[0];
      assert !LogFails(txs[0]);
      if !(Unseen(tx, seen) && Qualifies(tx, address)) {
        ScanAgreesWhenLogsSucceed(seen, txs[1..], address);
      } else {
        ScanAgreesWhenLogsSucceed(seen + {tx.id.value}, txs[1..], address);
      }
    }
  }

  // ---- normalisation meets the guards ---------------------------------------

  /** A REST history item without a target is normalised to target `''`, so
      it never passes the target test against a non-empty address. */
  lemma UntargetedRestItemNeverQualifies(address: string, tx: RestTx)
    requires address != "" && tx.target.None?
    ensures !Qualifies(FromRest(tx), address)
  {
  }

  /** A GraphQL reply with one readable edge with an unseen id, a non-zero `ar`
      amount, an owner and a timestamp in the Date range is counted as one
      entry: the node's id with `ar * 1e12` winston, rounded back to AR. */
  lemma GraphQLTipCounted(address: string, seen: set<string>, node: GqlNode, rest: RestReply)
    requires node.id.Some? && node.id.value != "" && node.id.value !in seen
    requires node.owner.Some? && node.owner.value.address.Some?
    requires node.quantity.Some? && node.quantity.value.ar.Some? && node.quantity.value.ar.value != 0.0
    requires node.block.Some? && node.block.value.timestamp.Some? ==>
      -MaxDateSeconds <= node.block.value.timestamp.value <= MaxDateSeconds
    ensures var reply := GqlBody(false, Some(GqlData(Some(GqlTransactions(Some([GqlEdge(Some(node))]))))));
      Scan(seen, FetchTransactions(address, reply, rest), address)
        == ScanResult([Entry(node.id.value, TipAmount(node.quantity.value.ar.value * WinstonPerAr))], None)
  {
    var edge := GqlEdge(Some(node));
    var reply := GqlBody(false, Some(GqlData(Some(GqlTransactions(Some([edge]))))));
    var txs := FetchTransactions(address, reply, rest);
    var tx := FromEdge(address, edge).value;
    assert NormaliseEdges(address, [edge]).Some?;
    assert txs == [tx];
    assert tx.owner.Some? && tx.timestamp == (if node.block.Some? then node.block.value.timestamp else None);
    assert Unseen(tx, seen) && Qualifies(tx, address) && !LogFails(tx);
    assert txs[1..] == [];
  }
}
