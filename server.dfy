/** The server's mutable state and the handlers that change it: the poll
    step `checkTransactions`, `sendGoalUpdate` and the broadcast over the
    connected widgets, the connection handler, the `/update-tips` override
    and `updateExchangeRate`. */
module Server {
  import opened Wrappers
  import opened Ledger
  import opened Accumulator
  import opened Goal

  /** The WebSocket ready states; only `Open` sockets are written to. */
  datatype ReadyState = Connecting | Open | Closing | Closed

  /** A connected widget: its socket state, changed by the transport, and
      every message written to it so far. */
  class Client {
    var state: ReadyState
    var sent: seq<GoalUpdate>

    constructor (state: ReadyState)
      ensures this.state == state && sent == []
    {
      this.state := state;
      sent := [];
    }
  }

  /** What a client with socket state `state` receives when `msgs` are sent
      to it one by one. */
  function Delivered(state: ReadyState, msgs: seq<GoalUpdate>): seq<GoalUpdate>
  {
    if state == Open then msgs else []
  }

  /** The snapshots of one poll, one per counted entry: the k-th carries the
      total after the first k+1 entries were added to `start`. */
  function Updates(start: real, goal: real, rate: real, es: seq<Entry>): (ms: seq<GoalUpdate>)
    requires goal > 0.0
    ensures |ms| == |es|
  {
    seq(|es|, k requires 0 <= k < |es| => GoalSnapshot(start + Sum(es[..k + 1]), goal, rate))
  }

  /** The /update-tips body's `amount`: absent (or null), a JSON number, or a
      string that `Number` and `parseFloat` both read as `parsed` (`None` for
      an empty or non-numeric string). */
  datatype AmountField = Absent | Number(x: real) | Text(parsed: Option<real>)

  /** `!amount || isNaN(amount)` rejects; otherwise `parseFloat(amount)`.
      A number zero is falsy and so rejected, while the string "0" is not. */
  function ParseAmount(amount: AmountField): (r: Option<real>)
    ensures r.None? <==> amount.Absent? || amount == Number(0.0) || amount == Text(None)
    ensures r.Some? ==> amount == Number(r.value) || amount == Text(Some(r.value))
  {
    match amount
    case Absent => None
    case Number(x) => if x == 0.0 then None else Some(x)
    case Text(parsed) => parsed
  }

  /** The HTTP answer of /update-tips: 400, or `{ success: true, current }`. */
  datatype TipsReply = BadRequest | Accepted(current: real)

  /** The outcome of the exchange-rate GET: an exception (network failure or
      a body without `arweave`), or the `arweave.usd` price. */
  datatype RateReply = RateUnavailable | RateQuote(usd: real)

  predicate ClientsDistinct(clients: seq<Client>)
  {
    forall i, j :: 0 <= i < j < |clients| ==> clients[i] != clients[j]
  }

  /** The logs `logs` of clients in states `states` after `msgs` were sent to
      each of them in turn: open clients receive all of `msgs`, the others
      nothing. */
  function Extend(logs: seq<seq<GoalUpdate>>, states: seq<ReadyState>, msgs: seq<GoalUpdate>): (r: seq<seq<GoalUpdate>>)
    requires |logs| == |states|
    ensures |r| == |logs|
    ensures forall k :: 0 <= k < |logs| ==> r[k] == logs[k] + Delivered(states[k], msgs)
  {
    seq(|logs|, k requires 0 <= k < |logs| => logs[k] + Delivered(states[k], msgs))
  }

  /** The module-level state of the server: the monitored wallet
      (`YOUR_AR_ADDRESS`), the goal (`MONTHLY_GOAL_AR`), the processed set
      (`processedTxs`), the total (`currentTipsAR`), the rate (`AR_TO_USD`)
      and the connected clients (`wss.clients`). */
  class TipGoal {
    const address: string
    const goal: real
    var processed: set<string>
    var total: real
    var rate: real
    var clients: seq<Client>

    ghost predicate Valid()
      reads this
    {
      address != "" && goal > 0.0 && ClientsDistinct(clients)
    }

    /** The message log of every connected client, in order. */
    ghost function Logs(): (logs: seq<seq<GoalUpdate>>)
      reads this, clients
      ensures |logs| == |clients|
      ensures forall k :: 0 <= k < |clients| ==> logs[k] == clients[k].sent
    {
      seq(|clients|, k requires 0 <= k < |clients| reads this, clients => clients[k].sent)
    }

    /** The socket state of every connected client, in order. */
    ghost function States(): (states: seq<ReadyState>)
      reads this, clients
      ensures |states| == |clients|
      ensures forall k :: 0 <= k < |clients| ==> states[k] == clients[k].state
    {
      seq(|clients|, k requires 0 <= k < |clients| reads this, clients => clients[k].state)
    }

    /** Start-up: the rate is unknown (zero) and nothing has been seen. */
    constructor (address: string, goal: real, starting: real)
      requires address != "" && goal > 0.0
      ensures Valid()
      ensures this.address == address && this.goal == goal
      ensures processed == {} && total == starting && rate == 0.0 && clients == []
    {
      this.address := address;
      this.goal := goal;
      processed := {};
      total := starting;
      rate := 0.0;
      clients := [];
    }

    /** `sendGoalUpdate(ws)`: the current snapshot, written only to an open
        socket. */
    method SendGoalUpdate(c: Client)
      requires Valid()
      modifies c
      ensures c.state == old(c.state)
      ensures c.sent == old(c.sent) + Delivered(c.state, [GoalSnapshot(total, goal, rate)])
    {
      if c.state == Open {
        c.sent := c.sent + [GoalSnapshot(total, goal, rate)];
      }
    }

    /** `wss.clients.forEach(sendGoalUpdate)`: every open client receives the
        current snapshot once; the others receive nothing. */
    method Broadcast()
      requires Valid()
      modifies clients
      ensures States() == old(States())
      ensures Logs() == Extend(old(Logs()), States(), [GoalSnapshot(total, goal, rate)])
    {
      var i := 0;
      while i < |clients|
        invariant 0 <= i <= |clients|
        invariant forall k :: 0 <= k < |clients| ==> clients[k].state == old(clients[k].state)
        invariant forall k :: 0 <= k < i ==>
          clients[k].sent == old(clients[k].sent) + Delivered(clients[k].state, [GoalSnapshot(total, goal, rate)])
        invariant forall k :: i <= k < |clients| ==> clients[k].sent == old(clients[k].sent)
      {
        SendGoalUpdate(clients[i]);
        i := i + 1;
      }
    }

    /** The `connection` handler: the new client joins the set and receives
        the current snapshot at once; nobody else receives anything. */
    method Connect(c: Client)
      requires Valid() && c !in clients
      modifies this, c
      ensures Valid()
      ensures clients == old(clients) + [c]
      ensures processed == old(processed) && total == old(total) && rate == old(rate)
      ensures c.state == old(c.state)
      ensures c.sent == old(c.sent) + Delivered(c.state, [GoalSnapshot(total, goal, rate)])
      ensures forall k :: 0 <= k < |old(clients)| ==> clients[k].sent == old(clients[k].sent)
    {
      clients := clients + [c];
      SendGoalUpdate(c);
    }

    /** `checkTransactions`, given what the two upstream queries produced:
        fetch the batch, then run the loop over it. */
    method CheckTransactions(graphql: GqlResponse, rest: RestReply)
      requires Valid()
      modifies this, clients
      ensures Valid() && clients == old(clients) && rate == old(rate)
      ensures States() == old(States())
      ensures var s := Scan(old(processed), FetchTransactions(address, graphql, rest), address);
        && processed == old(processed) + Marked(s)
        && total == old(total) + Sum(s.counted)
        && Logs() == Extend(old(Logs()), States(), Updates(old(total), goal, rate, s.counted))
    {
      var txs := FetchTransactions(address, graphql, rest);
      ApplyBatch(txs);
    }

    /** The loop of `checkTransactions` over one fetched batch. An empty
        batch returns before any change. Otherwise the processed set grows
        by exactly the identifiers the pass marks, the total by the amounts
        it counts, and each open client receives one snapshot per counted
        record, carrying the total at that point; the rate, the client set
        and the socket states are untouched. */
    method ApplyBatch(txs: seq<TxRecord>)
      requires Valid()
      modifies this, clients
      ensures Valid() && clients == old(clients) && rate == old(rate)
      ensures States() == old(States())
      ensures var s := Scan(old(processed), txs, address);
        && processed == old(processed) + Marked(s)
        && total == old(total) + Sum(s.counted)
        && Logs() == Extend(old(Logs()), States(), Updates(old(total), goal, rate, s.counted))
    {
      ghost var acc: seq<Entry> := [];
      PollStart(processed, Logs(), total, txs, address, goal, rate, States());
      if |txs| == 0 {
        PollFinish(processed, Logs(), total, txs, acc, address, goal, rate, States(), processed, total, Logs());
        return;
      }
      var i := 0;
      while i < |txs|
        invariant Valid() && clients == old(clients) && rate == old(rate)
        invariant States() == old(States())
        invariant PollAt(old(processed), old(Logs()), old(total), txs, i, acc, address, goal, rate,
                         States(), processed, total, Logs())
      {
        var failed;
        failed, acc := PollRecord(old(processed), old(Logs()), old(total), txs, i, acc);
        if failed {
          return;
        }
        i := i + 1;
      }
      PollFinish(old(processed), old(Logs()), old(total), txs, acc, address, goal, rate, States(), processed, total, Logs());
    }

    /** One turn of the loop of `ApplyBatch`: the per-record step on
        `txs[i]`, after which the poll either goes on at `i + 1` with the
        entries `acc'`, or has ended (`failed`) in the final state `Scan`
        describes. */
    method PollRecord(ghost seen0: set<string>, ghost logs0: seq<seq<GoalUpdate>>, ghost total0: real,
                      txs: seq<TxRecord>, i: nat, ghost acc: seq<Entry>)
      returns (failed: bool, ghost acc': seq<Entry>)
      requires Valid() && i < |txs|
      requires PollAt(seen0, logs0, total0, txs, i, acc, address, goal, rate, States(), processed, total, Logs())
      modifies this, clients
      ensures Valid() && clients == old(clients) && rate == old(rate)
      ensures States() == old(States())
      ensures !failed ==>
        PollAt(seen0, logs0, total0, txs, i + 1, acc', address, goal, rate, States(), processed, total, Logs())
      ensures failed ==>
        var s := Scan(seen0, txs, address);
        && processed == seen0 + Marked(s)
        && total == total0 + Sum(s.counted)
        && Logs() == Extend(logs0, States(), Updates(total0, goal, rate, s.counted))
    {
      ghost var seen, tot, logs := processed, total, Logs();
      failed := ApplyIfNew(txs[i]);
      acc' := PollAdvance(seen0, logs0, total0, txs, i, acc, address, goal, rate,
                          States(), seen, tot, logs, failed, processed, total, Logs());
    }

    /** One turn of the poll loop on record `tx` (the accumulator's
        apply-if-new step). A record with a missing or already-processed id,
        a foreign target or a falsy quantity changes nothing. Otherwise its
        id is marked; then, unless its log line throws (`failed`, which ends
        the poll), its rounded amount is added and every open client
        receives one snapshot of the new total. */
    method ApplyIfNew(tx: TxRecord) returns (failed: bool)
      requires Valid()
      modifies this, clients
      ensures Valid() && clients == old(clients) && rate == old(rate)
      ensures States() == old(States())
      ensures !(Unseen(tx, old(processed)) && Qualifies(tx, address)) ==>
        && !failed && processed == old(processed) && total == old(total)
        && Logs() == old(Logs())
      ensures Unseen(tx, old(processed)) && Qualifies(tx, address) ==>
        && failed == LogFails(tx)
        && processed == old(processed) + {tx.id.value}
      ensures Unseen(tx, old(processed)) && Qualifies(tx, address) && failed ==>
        total == old(total) && Logs() == old(Logs())
      ensures Unseen(tx, old(processed)) && Qualifies(tx, address) && !failed ==>
        && total == old(total) + TipAmount(tx.quantity.value)
        && Logs() == Extend(old(Logs()), States(), [GoalSnapshot(total, goal, rate)])
    {
      failed := false;
      if !HasId(tx) || tx.id.value in processed {
        return;
      }
      if tx.target == address && tx.quantity.Some? && tx.quantity.value != 0.0 {
        var amount := TipAmount(tx.quantity.value);
        processed := processed + {tx.id.value};
        if LogFails(tx) {
          failed := true;
          return;
        }
        total := total + amount;
        Broadcast();
      }
    }

    /** The /update-tips handler. A missing, falsy or non-numeric amount gets
        a 400 and changes nothing. Otherwise the total is REPLACED by the
        amount (not added to), every open client receives one snapshot, and
        the reply echoes the new total. */
    method UpdateTips(amount: AmountField) returns (reply: TipsReply)
      requires Valid()
      modifies this, clients
      ensures Valid() && clients == old(clients)
      ensures processed == old(processed) && rate == old(rate)
      ensures States() == old(States())
      ensures ParseAmount(amount).None? ==>
        reply == BadRequest && total == old(total) && Logs() == old(Logs())
      ensures ParseAmount(amount).Some? ==>
        && total == ParseAmount(amount).value
        && reply == Accepted(total)
        && Logs() == Extend(old(Logs()), States(), [GoalSnapshot(total, goal, rate)])
    {
      match ParseAmount(amount)
      case None =>
        reply := BadRequest;
      case Some(v) =>
        total := v;
        Broadcast();
        reply := Accepted(total);
    }

    /** `updateExchangeRate`: a quote replaces the cached rate; a failed
        fetch keeps the previous one. Nothing is broadcast either way. */
    method UpdateExchangeRate(reply: RateReply)
      requires Valid()
      modifies this`rate
      ensures Valid()
      ensures reply.RateQuote? ==> rate == reply.usd
      ensures reply.RateUnavailable? ==> rate == old(rate)
    {
      if reply.RateQuote? {
        rate := reply.usd;
      }
    }
  }

  lemma DeliveredAppend(state: ReadyState, a: seq<GoalUpdate>, b: seq<GoalUpdate>)
    ensures Delivered(state, a + b) == Delivered(state, a) + Delivered(state, b)
  {
  }

  lemma ExtendNothing(logs: seq<seq<GoalUpdate>>, states: seq<ReadyState>)
    requires |logs| == |states|
    ensures Extend(logs, states, []) == logs
  {
    forall k | 0 <= k < |logs| ensures Extend(logs, states, [])[k] == logs[k] {
      assert logs[k] + [] == logs[k];
    }
  }

  /** Sending `a` and then `b` is sending `a + b`. */
  lemma ExtendAppend(logs: seq<seq<GoalUpdate>>, states: seq<ReadyState>, a: seq<GoalUpdate>, b: seq<GoalUpdate>)
    requires |logs| == |states|
    ensures Extend(Extend(logs, states, a), states, b) == Extend(logs, states, a + b)
  {
    var mid := Extend(logs, states, a);
    var lhs := Extend(mid, states, b);
    var rhs := Extend(logs, states, a + b);
    forall k | 0 <= k < |logs| ensures lhs[k] == rhs[k] {
      var da, db := Delivered(states[k], a), Delivered(states[k], b);
      DeliveredAppend(states[k], a, b);
      assert lhs[k] == (logs[k] + da) + db;
      assert rhs[k] == logs[k] + (da + db);
    }
  }

  /** Adding one entry to a poll adds exactly one snapshot at the end,
      carrying the total after that entry. */
  lemma UpdatesAppend(start: real, goal: real, rate: real, es: seq<Entry>, e: Entry)
    requires goal > 0.0
    ensures Updates(start, goal, rate, es + [e])
         == Updates(start, goal, rate, es) + [GoalSnapshot(start + Sum(es + [e]), goal, rate)]
  {
    var es' := es + [e];
    var lhs := Updates(start, goal, rate, es');
    var rhs := Updates(start, goal, rate, es) + [GoalSnapshot(start + Sum(es'), goal, rate)];
    forall k | 0 <= k < |es'| ensures lhs[k] == rhs[k] {
      if k < |es| {
        assert es'[..k + 1] == es[..k + 1];
      } else {
        assert es'[..k + 1] == es';
      }
    }
  }

  /** One counted record in a poll: the logs after the entries `acc`,
      followed by one broadcast of the new total, are the logs after
      `acc + [e]`. */
  lemma BatchLogStep(logs0: seq<seq<GoalUpdate>>, states: seq<ReadyState>, start: real, goal: real, rate: real,
                     acc: seq<Entry>, e: Entry)
    requires |logs0| == |states| && goal > 0.0
    ensures Extend(Extend(logs0, states, Updates(start, goal, rate, acc)), states,
                   [GoalSnapshot(start + Sum(acc) + e.amount, goal, rate)])
         == Extend(logs0, states, Updates(start, goal, rate, acc + [e]))
  {
    SumAppend(acc, [e]);
    assert Sum([e]) == e.amount;
    UpdatesAppend(start, goal, rate, acc, e);
    ExtendAppend(logs0, states, Updates(start, goal, rate, acc), [GoalSnapshot(start + Sum(acc + [e]), goal, rate)]);
  }

  /** Part-way through a poll of `txs` from the state (`seen0`, `total0`,
      `logs0`): the records before `i` produced the entries `acc`; the
      processed set, total and logs (`seen`, `tot`, `logs`) are the
      starting ones advanced by `acc`; and `Scan` of the rest completes
      `Scan` of the whole batch. */
  ghost predicate PollAt(seen0: set<string>, logs0: seq<seq<GoalUpdate>>, total0: real,
                         txs: seq<TxRecord>, i: nat, acc: seq<Entry>, address: string, goal: real, rate: real,
                         states: seq<ReadyState>, seen: set<string>, tot: real, logs: seq<seq<GoalUpdate>>)
  {
    && goal > 0.0 && i <= |txs| && |logs0| == |states|
    && (var s := Scan(seen, txs[i..], address);
        Scan(seen0, txs, address) == ScanResult(acc + s.counted, s.aborted))
    && seen == seen0 + Ids(acc)
    && tot == total0 + Sum(acc)
    && logs == Extend(logs0, states, Updates(total0, goal, rate, acc))
  }

  /** One turn of the poll loop: given what the per-record step did to the
      processed set, total and logs (`seen'`, `tot'`, `logs'`), either the
      poll goes on at `i + 1` with the entries `acc'`, or the record's log
      line threw (`failed`) and the state is the final one `Scan`
      describes. */
  lemma PollAdvance(seen0: set<string>, logs0: seq<seq<GoalUpdate>>, total0: real,
                    txs: seq<TxRecord>, i: nat, acc: seq<Entry>, address: string, goal: real, rate: real,
                    states: seq<ReadyState>, seen: set<string>, tot: real, logs: seq<seq<GoalUpdate>>,
                    failed: bool, seen': set<string>, tot': real, logs': seq<seq<GoalUpdate>>)
    returns (acc': seq<Entry>)
    requires i < |txs| && PollAt(seen0, logs0, total0, txs, i, acc, address, goal, rate, states, seen, tot, logs)
    requires var tx := txs[i];
      !(Unseen(tx, seen) && Qualifies(tx, address)) ==> !failed && seen' == seen && tot' == tot && logs' == logs
    requires var tx := txs[i];
      Unseen(tx, seen) && Qualifies(tx, address) ==> failed == LogFails(tx) && seen' == seen + {tx.id.value}
    requires var tx := txs[i];
      Unseen(tx, seen) && Qualifies(tx, address) && failed ==> tot' == tot && logs' == logs
    requires var tx := txs[i];
      Unseen(tx, seen) && Qualifies(tx, address) && !failed ==>
        && tot' == tot + TipAmount(tx.quantity.value)
        && logs' == Extend(logs, states, [GoalSnapshot(tot', goal, rate)])
    ensures !failed ==> PollAt(seen0, logs0, total0, txs, i + 1, acc', address, goal, rate, states, seen', tot', logs')
    ensures failed ==>
      var s := Scan(seen0, txs, address);
      && seen' == seen0 + Marked(s)
      && tot' == total0 + Sum(s.counted)
      && logs' == Extend(logs0, states, Updates(total0, goal, rate, s.counted))
  {
    var tx := txs[i];
    PollStep(seen0, txs, i, acc, seen, address);
    acc' := acc;
    if !(Unseen(tx, seen) && Qualifies(tx, address)) {
      assert seen' == seen && tot' == tot && logs' == logs;
    } else if failed {
      assert Scan(seen0, txs, address) == ScanResult(acc, Some(tx.id.value));
    } else {
      var e := Entry(tx.id.value, TipAmount(tx.quantity.value));
      BatchLogStep(logs0, states, total0, goal, rate, acc, e);
      acc' := acc + [e];
      assert seen' == seen0 + Ids(acc') && tot' == total0 + Sum(acc');
    }
  }

  /** A poll starts at record 0 with no entries and the state unchanged. */
  lemma PollStart(seen0: set<string>, logs0: seq<seq<GoalUpdate>>, total0: real,
                  txs: seq<TxRecord>, address: string, goal: real, rate: real, states: seq<ReadyState>)
    requires goal > 0.0 && |logs0| == |states|
    ensures PollAt(seen0, logs0, total0, txs, 0, [], address, goal, rate, states, seen0, total0, logs0)
  {
    assert Ids([]) == {};
    assert Updates(total0, goal, rate, []) == [];
    ExtendNothing(logs0, states);
    assert txs[0..] == txs && [] + Scan(seen0, txs, address).counted == Scan(seen0, txs, address).counted;
  }

  /** A poll that has gone through every record is in the final state
      `Scan` describes. */
  lemma PollFinish(seen0: set<string>, logs0: seq<seq<GoalUpdate>>, total0: real,
                   txs: seq<TxRecord>, acc: seq<Entry>, address: string, goal: real, rate: real,
                   states: seq<ReadyState>, seen: set<string>, tot: real, logs: seq<seq<GoalUpdate>>)
    requires PollAt(seen0, logs0, total0, txs, |txs|, acc, address, goal, rate, states, seen, tot, logs)
    ensures var s := Scan(seen0, txs, address);
      && seen == seen0 + Marked(s)
      && tot == total0 + Sum(s.counted)
      && logs == Extend(logs0, states, Updates(total0, goal, rate, s.counted))
  {
    assert txs[|txs|..] == [] && acc + [] == acc && Ids([]) == {};
  }
}
