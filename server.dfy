/**
 * The order store and the reconciliation tick (Server.swift): on every tick
 * the server walks a snapshot of the store's keys, asks the ledger for the
 * transfers of each pending order's sender, marks the order completed with
 * the most recent transfer and broadcasts a completion notice.
 */
module Server {
  import opened Wrappers
  import opened Orders
  import Lisk
  import Sockets

  /** `Config.storeAddress`: the merchant's ledger account. */
  const StoreAddress: string := "17206648368948385036L"

  /**
   * The ledger as the tick sees it: `lisk.transactions(senderId:recipientId:)`,
   * which either throws or returns the list oldest first
   * (`(s, r) => Lisk.Transactions(s, r, respond)` is one such ledger).
   */
  type Ledger = (string, string) -> Result<seq<Lisk.Transaction>, Lisk.FetchError>

  predicate Distinct(keys: seq<string>) {
    forall i, j :: 0 <= i < j < |keys| ==> keys[i] != keys[j]
  }

  /** `keys` is what `store.keys()` returns: every key of the store, once each, in some order. */
  predicate IsSnapshot(keys: seq<string>, store: map<string, Order>) {
    && Distinct(keys)
    && (forall i :: 0 <= i < |keys| ==> keys[i] in store)
    && (forall k :: k in store ==> k in keys)
  }

  /** Every order is stored under its own sender. */
  ghost predicate WellKeyed(store: map<string, Order>) {
    forall k :: k in store ==> store[k].senderId == k
  }

  /** Every stored order satisfies the order invariant. */
  ghost predicate WellFormedStore(store: map<string, Order>) {
    forall k :: k in store ==> WellFormed(store[k])
  }

  // ----- allOrders and the reuse guard -----

  /** The orders `allOrders` collects, walking `keys` and skipping keys that have no entry. */
  function Collected(store: map<string, Order>, keys: seq<string>): seq<Order>
    decreases |keys|
  {
    if keys == [] then []
    else
      var last := keys[|keys| - 1];
      Collected(store, keys[..|keys| - 1]) + (if last in store then [store[last]] else [])
  }

  lemma {:induction false} CollectedContains(store: map<string, Order>, keys: seq<string>, k: string)
    requires k in keys && k in store
    ensures store[k] in Collected(store, keys)
    decreases |keys|
  {
    var last := keys[|keys| - 1];
    if k != last {
      assert k in keys[..|keys| - 1];
      CollectedContains(store, keys[..|keys| - 1], k);
    }
  }

  lemma {:induction false} CollectedFromStore(store: map<string, Order>, keys: seq<string>)
    ensures |Collected(store, keys)| <= |keys|
    ensures forall o :: o in Collected(store, keys) ==> o in store.Values
    decreases |keys|
  {
    if keys != [] {
      CollectedFromStore(store, keys[..|keys| - 1]);
    }
  }

  /** `allOrders.map { $0.transactionId }`. Its ensures only spell out the comprehension for the solver. */
  function TransactionIds(orders: seq<Order>): (ids: seq<Option<string>>)
    ensures |ids| == |orders|
    ensures forall i :: 0 <= i < |orders| ==> ids[i] == orders[i].transactionId
  {
    seq(|orders|, i requires 0 <= i < |orders| => orders[i].transactionId)
  }

  /**
   * The guard of lines 44-49: does some collected id equal the pending
   * order's own, non-nil, transaction id?
   */
  predicate Reused(order: Order, previous: seq<Option<string>>) {
    exists i :: 0 <= i < |previous| && order.transactionId != None && previous[i] == order.transactionId
  }

  /**
   * Because `allOrders` contains the order itself, the guard skips an order
   * exactly when its own transaction id is set, whatever the other orders hold.
   */
  lemma GuardIsSelfMatch(store: map<string, Order>, all: seq<string>, k: string)
    requires k in all && k in store
    ensures Reused(store[k], TransactionIds(Collected(store, all))) <==> store[k].transactionId.Some?
  {
    var orders := Collected(store, all);
    if store[k].transactionId.Some? {
      CollectedContains(store, all, k);
      var j :| 0 <= j < |orders| && orders[j] == store[k];
      assert TransactionIds(orders)[j] == store[k].transactionId;
    }
  }

  // ----- One step of the tick -----

  datatype Step = Skip | Settle(order: Order) | Abort(error: Lisk.FetchError)

  /** What the loop body does for `key`, given the store as it is at that moment. */
  function StepAt(store: map<string, Order>, all: seq<string>, key: string, ledger: Ledger): Step {
    if key !in store || store[key].status != Pending then Skip
    else
      var order := store[key];
      if Reused(order, TransactionIds(Collected(store, all))) then Skip
      else
        match ledger(order.senderId, StoreAddress)
        case Failure(e) => Abort(e)
        case Success(txs) =>
          if |txs| == 0 then Skip
          else Settle(NewOrder(key, order.item, Some(txs[|txs| - 1].id), Completed))
  }

  /** A settlement replaces a pending entry, under its own key, by its completed form. */
  lemma SettleShape(store: map<string, Order>, all: seq<string>, key: string, ledger: Ledger)
    requires StepAt(store, all, key, ledger).Settle?
    ensures var o := StepAt(store, all, key, ledger).order;
            && key in store && store[key].status == Pending
            && o.senderId == key && o.item == store[key].item
            && o.status == Completed && o.transactionId.Some?
  {
  }

  /**
   * A pending order with no transaction id settles as soon as the ledger
   * lists a transfer, with the most recent one; the ids used by other
   * completed orders play no part.
   */
  lemma PaidOrderSettles(store: map<string, Order>, all: seq<string>, key: string, ledger: Ledger,
                         txs: seq<Lisk.Transaction>)
    requires key in store && store[key].status == Pending && store[key].transactionId == None
    requires ledger(store[key].senderId, StoreAddress) == Success(txs) && |txs| > 0
    ensures StepAt(store, all, key, ledger) == Settle(Order(Some(txs[|txs| - 1].id), key, store[key].item, Completed))
  {
  }

  /** The step for a key depends on its own entry only (given the key is in the snapshot). */
  lemma StepIsLocal(s1: map<string, Order>, s2: map<string, Order>, all: seq<string>, key: string, ledger: Ledger)
    requires key in all && key in s1 && key in s2 && s1[key] == s2[key]
    ensures StepAt(s1, all, key, ledger) == StepAt(s2, all, key, ledger)
  {
    GuardIsSelfMatch(s1, all, key);
    GuardIsSelfMatch(s2, all, key);
  }

  // ----- The tick -----

  /** The store and the notices broadcast so far, and the error that ended the tick, if one did. */
  datatype TickState = TickState(store: map<string, Order>, sent: seq<OrderResult>, error: Option<Lisk.FetchError>)

  /** The store after a step: a settlement overwrites the entry of its sender. */
  function Applied(store: map<string, Order>, step: Step): map<string, Order> {
    match step
    case Settle(o) => store[o.senderId := o]
    case _ => store
  }

  /** The notices a step broadcasts: one for a settlement, none otherwise. */
  function NoticesOf(step: Step): seq<OrderResult> {
    match step
    case Settle(o) => [CompletionNotice(o.senderId)]
    case _ => []
  }

  /** The error a step throws, if it throws. */
  function ThrownBy(step: Step): Option<Lisk.FetchError> {
    match step
    case Abort(e) => Some(e)
    case _ => None
  }

  /** One turn of the loop; once an error is thrown the `catch` has left the loop and nothing more happens. */
  function Advance(t: TickState, all: seq<string>, key: string, ledger: Ledger): TickState {
    if t.error.Some? then t
    else
      var step := StepAt(t.store, all, key, ledger);
      TickState(Applied(t.store, step), t.sent + NoticesOf(step), ThrownBy(step))
  }

  /** The loop over `keys`, from state `t`; `all` is the snapshot `allOrders` walks. */
  function TickFrom(t: TickState, all: seq<string>, keys: seq<string>, ledger: Ledger): TickState
    decreases |keys|
  {
    if keys == [] then t
    else Advance(TickFrom(t, all, keys[..|keys| - 1], ledger), all, keys[|keys| - 1], ledger)
  }

  /** A whole tick over the snapshot `keys` of `store`. */
  function TickOver(store: map<string, Order>, keys: seq<string>, ledger: Ledger): TickState {
    TickFrom(TickState(store, [], None), keys, keys, ledger)
  }

  /** The loop over the first `i + 1` keys is the loop over the first `i`, then one more turn. */
  lemma PrefixStep(t: TickState, all: seq<string>, keys: seq<string>, ledger: Ledger, i: nat)
    requires i < |keys|
    ensures TickFrom(t, all, keys[..i + 1], ledger) == Advance(TickFrom(t, all, keys[..i], ledger), all, keys[i], ledger)
  {
    assert keys[..i + 1][..i] == keys[..i];
  }

  /** The same, with the turn spelled out for each kind of step. */
  lemma PrefixTurn(t: TickState, all: seq<string>, keys: seq<string>, ledger: Ledger, i: nat, state: TickState)
    requires i < |keys| && state == TickFrom(t, all, keys[..i], ledger) && state.error.None?
    ensures var step := StepAt(state.store, all, keys[i], ledger);
            TickFrom(t, all, keys[..i + 1], ledger) ==
              match step
              case Skip => state
              case Abort(e) => state.(error := Some(e))
              case Settle(o) => TickState(state.store[o.senderId := o], state.sent + [CompletionNotice(o.senderId)], None)
  {
    PrefixStep(t, all, keys, ledger, i);
  }

  /** The loop over all keys is the loop over the first `i`, then the loop over the rest. */
  lemma SplitAt(t: TickState, all: seq<string>, keys: seq<string>, ledger: Ledger, i: nat)
    requires i <= |keys|
    ensures TickFrom(t, all, keys, ledger) == TickFrom(TickFrom(t, all, keys[..i], ledger), all, keys[i..], ledger)
  {
    TickFromAppend(t, all, keys[..i], keys[i..], ledger);
    assert keys[..i] + keys[i..] == keys;
  }

  /** A key of a duplicate-free sequence occurs neither before nor after its position. */
  lemma DistinctPosition(keys: seq<string>, i: nat)
    requires Distinct(keys) && i < |keys|
    ensures keys[i] !in keys[..i] && keys[i] !in keys[i + 1..]
  {
  }

  lemma {:induction false} TickFromAppend(t: TickState, all: seq<string>, a: seq<string>, b: seq<string>, ledger: Ledger)
    ensures TickFrom(t, all, a + b, ledger) == TickFrom(TickFrom(t, all, a, ledger), all, b, ledger)
    decreases |b|
  {
    if b == [] {
      assert a + b == a;
    } else {
      TickFromAppend(t, all, a, b[..|b| - 1], ledger);
      assert (a + b)[..|a + b| - 1] == a + b[..|b| - 1];
    }
  }

  /** After the error the rest of the loop does nothing. */
  lemma {:induction false} AbortedTickStops(t: TickState, all: seq<string>, keys: seq<string>, ledger: Ledger)
    requires t.error.Some?
    ensures TickFrom(t, all, keys, ledger) == t
    decreases |keys|
  {
    if keys != [] {
      AbortedTickStops(t, all, keys[..|keys| - 1], ledger);
    }
  }

  /** A tick neither adds nor removes keys, and notices are only ever appended. */
  lemma {:induction false} TickKeepsKeys(t: TickState, all: seq<string>, keys: seq<string>, ledger: Ledger)
    ensures TickFrom(t, all, keys, ledger).store.Keys == t.store.Keys
    ensures |t.sent| <= |TickFrom(t, all, keys, ledger).sent|
    ensures TickFrom(t, all, keys, ledger).sent[..|t.sent|] == t.sent
    decreases |keys|
  {
    if keys != [] {
      var p := TickFrom(t, all, keys[..|keys| - 1], ledger);
      TickKeepsKeys(t, all, keys[..|keys| - 1], ledger);
      if p.error.None? && StepAt(p.store, all, keys[|keys| - 1], ledger).Settle? {
        SettleShape(p.store, all, keys[|keys| - 1], ledger);
      }
    }
  }

  /** A tick never modifies an entry that is already completed. */
  lemma {:induction false} TickKeepsCompleted(t: TickState, all: seq<string>, keys: seq<string>, ledger: Ledger, k: string)
    requires k in t.store && t.store[k].status == Completed
    ensures k in TickFrom(t, all, keys, ledger).store
    ensures TickFrom(t, all, keys, ledger).store[k] == t.store[k]
    decreases |keys|
  {
    if keys != [] {
      var p := TickFrom(t, all, keys[..|keys| - 1], ledger);
      TickKeepsCompleted(t, all, keys[..|keys| - 1], ledger, k);
      if p.error.None? && StepAt(p.store, all, keys[|keys| - 1], ledger).Settle? {
        SettleShape(p.store, all, keys[|keys| - 1], ledger);
      }
    }
  }

  /** A key the loop does not visit keeps its entry. */
  lemma {:induction false} TickLeavesUnvisited(t: TickState, all: seq<string>, keys: seq<string>, ledger: Ledger, k: string)
    requires k !in keys
    ensures k in TickFrom(t, all, keys, ledger).store <==> k in t.store
    ensures k in t.store ==> TickFrom(t, all, keys, ledger).store[k] == t.store[k]
    decreases |keys|
  {
    if keys != [] {
      var p := TickFrom(t, all, keys[..|keys| - 1], ledger);
      assert k !in keys[..|keys| - 1];
      TickLeavesUnvisited(t, all, keys[..|keys| - 1], ledger, k);
      if p.error.None? && StepAt(p.store, all, keys[|keys| - 1], ledger).Settle? {
        SettleShape(p.store, all, keys[|keys| - 1], ledger);
      }
    }
  }

  /** A tick keeps every order under its own sender and every order well formed. */
  lemma {:induction false} TickKeepsInvariants(t: TickState, all: seq<string>, keys: seq<string>, ledger: Ledger)
    requires WellKeyed(t.store) && WellFormedStore(t.store)
    ensures WellKeyed(TickFrom(t, all, keys, ledger).store)
    ensures WellFormedStore(TickFrom(t, all, keys, ledger).store)
    decreases |keys|
  {
    if keys != [] {
      var p := TickFrom(t, all, keys[..|keys| - 1], ledger);
      TickKeepsInvariants(t, all, keys[..|keys| - 1], ledger);
      if p.error.None? && StepAt(p.store, all, keys[|keys| - 1], ledger).Settle? {
        SettleShape(p.store, all, keys[|keys| - 1], ledger);
      }
    }
  }

  /** The senders named by a sequence of notices. Its ensures only spell out the comprehension for the solver. */
  function NoticeSenders(sent: seq<OrderResult>): (ids: seq<string>)
    ensures |ids| == |sent|
    ensures forall i :: 0 <= i < |sent| ==> ids[i] == sent[i].senderid
  {
    seq(|sent|, i requires 0 <= i < |sent| => sent[i].senderid)
  }

  /**
   * A sender is named by a notice exactly when the tick took its entry from
   * pending to completed, and only visited keys are named.
   */
  lemma {:induction false} NoticesNameSettled(s: map<string, Order>, all: seq<string>, keys: seq<string>, ledger: Ledger)
    requires Distinct(keys)
    ensures var r := TickFrom(TickState(s, [], None), all, keys, ledger);
            && (forall k :: k in NoticeSenders(r.sent) <==>
                  k in s && k in r.store && s[k].status == Pending && r.store[k].status == Completed)
            && (forall k :: k in NoticeSenders(r.sent) ==> k in keys)
    decreases |keys|
  {
    var t := TickState(s, [], None);
    var r := TickFrom(t, all, keys, ledger);
    if keys == [] {
      forall k | k in s && k in r.store && s[k].status == Pending
        ensures r.store[k].status != Completed
      {
      }
    } else {
      var init := keys[..|keys| - 1];
      var x := keys[|keys| - 1];
      assert Distinct(init);
      assert x !in init;
      var p := TickFrom(t, all, init, ledger);
      NoticesNameSettled(s, all, init, ledger);
      TickKeepsKeys(t, all, init, ledger);
      TickLeavesUnvisited(t, all, init, ledger, x);
      forall k | k in init
        ensures k in keys
      {
      }
      if p.error.None? && StepAt(p.store, all, x, ledger).Settle? {
        var o := StepAt(p.store, all, x, ledger).order;
        SettleShape(p.store, all, x, ledger);
        assert r == TickState(p.store[x := o], p.sent + [CompletionNotice(x)], None);
        assert NoticeSenders(r.sent) == NoticeSenders(p.sent) + [x];
      } else {
        assert r.store == p.store && r.sent == p.sent;
      }
    }
  }

  /** No sender is named by two notices, and every notice is the completion notice of its sender. */
  lemma {:induction false} NoticesAreDistinct(s: map<string, Order>, all: seq<string>, keys: seq<string>, ledger: Ledger)
    requires Distinct(keys)
    ensures var r := TickFrom(TickState(s, [], None), all, keys, ledger);
            && Distinct(NoticeSenders(r.sent))
            && (forall i :: 0 <= i < |r.sent| ==> r.sent[i] == CompletionNotice(r.sent[i].senderid))
    decreases |keys|
  {
    if keys != [] {
      var t := TickState(s, [], None);
      var init := keys[..|keys| - 1];
      var x := keys[|keys| - 1];
      assert Distinct(init);
      assert x !in init;
      var p := TickFrom(t, all, init, ledger);
      NoticesAreDistinct(s, all, init, ledger);
      if p.error.None? && StepAt(p.store, all, x, ledger).Settle? {
        NoticesNameSettled(s, all, init, ledger);
        SettleShape(p.store, all, x, ledger);
        var r := TickFrom(t, all, keys, ledger);
        assert r.sent == p.sent + [CompletionNotice(x)];
        assert NoticeSenders(r.sent) == NoticeSenders(p.sent) + [x];
        assert x !in NoticeSenders(p.sent);
      }
    }
  }

  /**
   * Exactly one notice per order the tick completes: a sender is named by a
   * notice exactly when its entry went from pending to completed, no sender
   * is named twice, and every notice is the completion notice for its sender.
   */
  lemma NoticesMatchSettlements(s: map<string, Order>, all: seq<string>, keys: seq<string>, ledger: Ledger)
    requires Distinct(keys)
    ensures var r := TickFrom(TickState(s, [], None), all, keys, ledger);
            && (forall k :: k in NoticeSenders(r.sent) <==>
                  k in s && k in r.store && s[k].status == Pending && r.store[k].status == Completed)
            && (forall k :: k in NoticeSenders(r.sent) ==> k in keys)
            && Distinct(NoticeSenders(r.sent))
            && (forall i :: 0 <= i < |r.sent| ==> r.sent[i] == CompletionNotice(r.sent[i].senderid))
  {
    NoticesNameSettled(s, all, keys, ledger);
    NoticesAreDistinct(s, all, keys, ledger);
  }

  /**
   * The loop reaches a pending key `keys[i]` (no earlier key made the ledger
   * throw) and the ledger lists transfers for it: the entry ends the tick
   * completed with the most recent transfer's id, under the same key with
   * the same item, and a notice for it was broadcast.
   */
  lemma TickSettlesPaidOrder(s: map<string, Order>, keys: seq<string>, ledger: Ledger, i: nat,
                             txs: seq<Lisk.Transaction>)
    requires Distinct(keys) && i < |keys|
    requires keys[i] in s && s[keys[i]].status == Pending && s[keys[i]].transactionId == None
    requires TickFrom(TickState(s, [], None), keys, keys[..i], ledger).error.None?
    requires ledger(s[keys[i]].senderId, StoreAddress) == Success(txs) && |txs| > 0
    ensures var r := TickOver(s, keys, ledger);
            && keys[i] in r.store
            && r.store[keys[i]] == Order(Some(txs[|txs| - 1].id), keys[i], s[keys[i]].item, Completed)
            && CompletionNotice(keys[i]) in r.sent
  {
    var k := keys[i];
    var t := TickState(s, [], None);
    var p := TickFrom(t, keys, keys[..i], ledger);
    DistinctPosition(keys, i);
    TickLeavesUnvisited(t, keys, keys[..i], ledger, k);
    PaidOrderSettles(p.store, keys, k, ledger, txs);
    var o := Order(Some(txs[|txs| - 1].id), k, s[k].item, Completed);
    PrefixStep(t, keys, keys, ledger, i);
    var q := TickFrom(t, keys, keys[..i + 1], ledger);
    assert StepAt(p.store, keys, k, ledger) == Settle(o);
    assert q == Advance(p, keys, k, ledger);
    assert q == TickState(p.store[k := o], p.sent + [CompletionNotice(k)], None);
    SplitAt(t, keys, keys, ledger, i + 1);
    var r := TickFrom(q, keys, keys[i + 1..], ledger);
    assert r == TickOver(s, keys, ledger);
    TickKeepsCompleted(q, keys, keys[i + 1..], ledger, k);
    TickKeepsKeys(q, keys, keys[i + 1..], ledger);
    var last := |q.sent| - 1;
    assert q.sent[last] == CompletionNotice(k);
    assert r.sent[..|q.sent|] == q.sent;
    assert r.sent[last] == r.sent[..|q.sent|][last];
  }

  /** For a pending key whose ledger list is empty the entry is left alone and no notice names it. */
  lemma TickSkipsUnpaidOrder(s: map<string, Order>, keys: seq<string>, ledger: Ledger, i: nat)
    requires Distinct(keys) && i < |keys|
    requires keys[i] in s && s[keys[i]].status == Pending && s[keys[i]].transactionId == None
    requires ledger(s[keys[i]].senderId, StoreAddress) == Success([])
    ensures var r := TickOver(s, keys, ledger);
            && keys[i] in r.store && r.store[keys[i]] == s[keys[i]]
            && keys[i] !in NoticeSenders(r.sent)
  {
    var k := keys[i];
    var t := TickState(s, [], None);
    var p := TickFrom(t, keys, keys[..i], ledger);
    DistinctPosition(keys, i);
    TickLeavesUnvisited(t, keys, keys[..i], ledger, k);
    PrefixStep(t, keys, keys, ledger, i);
    var q := TickFrom(t, keys, keys[..i + 1], ledger);
    assert q.store == p.store;
    SplitAt(t, keys, keys, ledger, i + 1);
    TickLeavesUnvisited(q, keys, keys[i + 1..], ledger, k);
    NoticesMatchSettlements(s, keys, keys, ledger);
  }

  /** Once the turn for `keys[i]` has thrown, the tick's outcome is fixed. */
  lemma AbortEndsTick(t: TickState, all: seq<string>, keys: seq<string>, ledger: Ledger, i: nat)
    requires i < |keys| && TickFrom(t, all, keys[..i + 1], ledger).error.Some?
    ensures TickFrom(t, all, keys, ledger) == TickFrom(t, all, keys[..i + 1], ledger)
  {
    SplitAt(t, all, keys, ledger, i + 1);
    AbortedTickStops(TickFrom(t, all, keys[..i + 1], ledger), all, keys[i + 1..], ledger);
  }

  /** Before the loop reaches a key, that key still holds its original entry. */
  lemma NotYetVisited(s: map<string, Order>, keys: seq<string>, ledger: Ledger, i: nat, j: nat)
    requires Distinct(keys) && i <= j < |keys| && keys[j] in s
    ensures var p := TickFrom(TickState(s, [], None), keys, keys[..i], ledger);
            keys[j] in p.store && p.store[keys[j]] == s[keys[j]]
  {
    assert keys[j] !in keys[..i];
    TickLeavesUnvisited(TickState(s, [], None), keys, keys[..i], ledger, keys[j]);
  }

  /**
   * The ledger throws for the pending key `keys[i]`: the tick ends there.
   * The updates made for the earlier keys stay, no later notice is sent,
   * and `keys[i]` and every later key keep the entry they had.
   */
  lemma TickAbortsOnLedgerError(s: map<string, Order>, keys: seq<string>, ledger: Ledger, i: nat, e: Lisk.FetchError)
    requires Distinct(keys) && i < |keys|
    requires keys[i] in s && s[keys[i]].status == Pending && s[keys[i]].transactionId == None
    requires TickFrom(TickState(s, [], None), keys, keys[..i], ledger).error.None?
    requires ledger(s[keys[i]].senderId, StoreAddress) == Failure(e)
    ensures var p := TickFrom(TickState(s, [], None), keys, keys[..i], ledger);
            TickOver(s, keys, ledger) == TickState(p.store, p.sent, Some(e))
    ensures forall j :: i <= j < |keys| && keys[j] in s ==>
              keys[j] in TickOver(s, keys, ledger).store && TickOver(s, keys, ledger).store[keys[j]] == s[keys[j]]
  {
    var t := TickState(s, [], None);
    var p := TickFrom(t, keys, keys[..i], ledger);
    NotYetVisited(s, keys, ledger, i, i);
    assert StepAt(p.store, keys, keys[i], ledger) == Abort(e);
    PrefixTurn(t, keys, keys, ledger, i, p);
    AbortEndsTick(t, keys, keys, ledger, i);
    forall j | i <= j < |keys| && keys[j] in s
      ensures keys[j] in p.store && p.store[keys[j]] == s[keys[j]]
    {
      NotYetVisited(s, keys, ledger, i, j);
    }
  }

  /** Helper for `TickIsIdempotent`: the second tick changes nothing on any prefix and fails where the first did. */
  lemma {:induction false} SecondTickPrefix(s: map<string, Order>, keys: seq<string>, ledger: Ledger, n: nat)
    requires IsSnapshot(keys, s) && n <= |keys|
    ensures var r := TickOver(s, keys, ledger);
            TickFrom(TickState(r.store, [], None), keys, keys[..n], ledger)
              == TickState(r.store, [], TickFrom(TickState(s, [], None), keys, keys[..n], ledger).error)
  {
    var r := TickOver(s, keys, ledger);
    var t := TickState(s, [], None);
    var u := TickState(r.store, [], None);
    if n == 0 {
      assert keys[..0] == [];
    } else {
      var i := n - 1;
      var x := keys[i];
      SecondTickPrefix(s, keys, ledger, i);
      PrefixStep(t, keys, keys, ledger, i);
      PrefixStep(u, keys, keys, ledger, i);
      var p := TickFrom(t, keys, keys[..i], ledger);
      var pn := TickFrom(t, keys, keys[..n], ledger);
      if p.error.None? {
        DistinctPosition(keys, i);
        TickLeavesUnvisited(t, keys, keys[..i], ledger, x);
        SplitAt(t, keys, keys, ledger, n);
        TickLeavesUnvisited(pn, keys, keys[n..], ledger, x);
        match StepAt(p.store, keys, x, ledger)
        case Skip =>
          StepIsLocal(p.store, r.store, keys, x, ledger);
        case Settle(o) =>
          SettleShape(p.store, keys, x, ledger);
          TickKeepsCompleted(pn, keys, keys[n..], ledger, x);
        case Abort(e) =>
          AbortedTickStops(pn, keys, keys[n..], ledger);
      }
    }
  }

  /**
   * Running a second tick against the same ledger changes nothing and
   * broadcasts nothing; it fails where the first failed, if it did.
   */
  lemma TickIsIdempotent(s: map<string, Order>, keys: seq<string>, ledger: Ledger)
    requires IsSnapshot(keys, s)
    ensures var r := TickOver(s, keys, ledger);
            TickOver(r.store, keys, ledger) == TickState(r.store, [], r.error)
  {
    SecondTickPrefix(s, keys, ledger, |keys|);
    assert keys[..|keys|] == keys;
  }

  // ----- Submissions -----

  /** The store after `socketServiceDidReceive(order:)`: the entry for the order's sender is overwritten. */
  function Submit(store: map<string, Order>, order: Order): (s: map<string, Order>)
    ensures s.Keys == store.Keys + {order.senderId}
    ensures s[order.senderId] == order
    ensures forall k :: k in store && k != order.senderId ==> s[k] == store[k]
  {
    store[order.senderId := order]
  }

  /** A submitted order (pending, no transaction id) keeps both store invariants, even over a completed entry. */
  lemma SubmitKeepsInvariants(store: map<string, Order>, senderId: string, item: string)
    requires WellKeyed(store) && WellFormedStore(store)
    ensures WellKeyed(Submit(store, NewOrder(senderId, item)))
    ensures WellFormedStore(Submit(store, NewOrder(senderId, item)))
  {
  }

  /**
   * Nothing stops a transfer from settling twice: an order re-submitted
   * after completion is completed again with the same transfer, as soon as
   * that transfer is still the most recent one the ledger lists.
   */
  lemma ResubmittedOrderSettlesAgain(store: map<string, Order>, all: seq<string>, k: string, item: string,
                                     ledger: Ledger, txs: seq<Lisk.Transaction>)
    requires k in store && store[k].status == Completed && store[k].transactionId.Some?
    requires ledger(k, StoreAddress) == Success(txs) && |txs| > 0
    requires txs[|txs| - 1].id == store[k].transactionId.value
    ensures StepAt(Submit(store, NewOrder(k, item)), all, k, ledger)
              == Settle(Order(store[k].transactionId, k, item, Completed))
  {
    PaidOrderSettles(Submit(store, NewOrder(k, item)), all, k, ledger, txs);
  }

  // ----- Concrete runs -----

  /** A ledger that lists one transfer `transferId` from `payer` to the store, and nothing for anyone else. */
  function PayingLedger(payer: string, transferId: string): Ledger {
    (senderId: string, recipientId: string) =>
      if senderId == payer && recipientId == StoreAddress
      then Success([Lisk.Transaction(transferId, 0, payer, Some(StoreAddress), 100, 10)])
      else Success([])
  }

  /** One pending order for "S1", who has paid with "T1": one tick completes it with "T1" and broadcasts one notice. */
  lemma WidgetScenario()
    ensures var r := TickOver(map["S1" := NewOrder("S1", "widget")], ["S1"], PayingLedger("S1", "T1"));
            && r.store == map["S1" := Order(Some("T1"), "S1", "widget", Completed)]
            && r.sent == [OrderResult("S1", "completed")]
            && r.error == None
  {
    var s := map["S1" := NewOrder("S1", "widget")];
    var keys := ["S1"];
    GuardIsSelfMatch(s, keys, "S1");
    assert keys[..0] == [];
  }

  /**
   * The same transfer settles two orders: after "S1" is completed with
   * "T1", a re-submission by "S1" is completed again with "T1" on the next
   * tick, and a second notice is broadcast.
   */
  lemma ResubmissionSettlesTwice()
    ensures var ledger := PayingLedger("S1", "T1");
            var first := TickOver(map["S1" := NewOrder("S1", "widget")], ["S1"], ledger);
            var again := Submit(first.store, NewOrder("S1", "gadget"));
            var second := TickOver(again, ["S1"], ledger);
            && first.store["S1"].transactionId == Some("T1")
            && second.store["S1"] == Order(Some("T1"), "S1", "gadget", Completed)
            && second.sent == [OrderResult("S1", "completed")]
  {
    var ledger := PayingLedger("S1", "T1");
    WidgetScenario();
    var first := TickOver(map["S1" := NewOrder("S1", "widget")], ["S1"], ledger);
    var again := Submit(first.store, NewOrder("S1", "gadget"));
    assert again == map["S1" := NewOrder("S1", "gadget")];
    GuardIsSelfMatch(again, ["S1"], "S1");
    assert ["S1"][..0] == [];
  }

  /**
   * A ledger error for one payer stops the tick: "B" has paid, but because
   * the ledger throws for "A", visited first, "B" stays pending this tick.
   */
  lemma LedgerErrorDelaysLaterPayer()
    ensures var ledger: Ledger := (senderId: string, recipientId: string) =>
              if senderId == "A" then Failure(Lisk.TransportFailure)
              else Success([Lisk.Transaction("T9", 0, "B", Some(StoreAddress), 100, 10)]);
            var s := map["A" := NewOrder("A", "book"), "B" := NewOrder("B", "pen")];
            var r := TickOver(s, ["A", "B"], ledger);
            && r.store == s && r.sent == [] && r.error == Some(Lisk.TransportFailure)
  {
    var ledger: Ledger := (senderId: string, recipientId: string) =>
      if senderId == "A" then Failure(Lisk.TransportFailure)
      else Success([Lisk.Transaction("T9", 0, "B", Some(StoreAddress), 100, 10)]);
    var s := map["A" := NewOrder("A", "book"), "B" := NewOrder("B", "pen")];
    var keys := ["A", "B"];
    var t := TickState(s, [], None);
    GuardIsSelfMatch(s, keys, "A");
    assert keys[..1] == ["A"] && keys[..1][..0] == [];
    PrefixStep(t, keys, keys, ledger, 0);
    assert TickFrom(t, keys, keys[..1], ledger) == TickState(s, [], Some(Lisk.TransportFailure));
    AbortEndsTick(t, keys, keys, ledger, 0);
  }

  /**
   * The messages one turn adds to the delivery log: a settlement sends the
   * completion notice once to every registered connection, any other step sends nothing.
   */
  ghost predicate TurnDeliveries(step: Step, senderId: string, before: seq<Sockets.Delivery>,
                                 after: seq<Sockets.Delivery>, conn: map<string, Sockets.Connection>)
  {
    if step.Settle?
    then |before| <= |after| && Sockets.FanOut(after[|before|..], conn, CompletionNotice(senderId))
    else after == before
  }

  // ----- The server object -----

  class Server {
    /** The order store: sender id to order (its TTL is 0, so entries never expire). */
    var store: map<string, Order>
    const socket: Sockets.SocketService

    constructor ()
      ensures store == map[]
      ensures fresh(socket) && socket.Valid() && socket.conn == map[] && socket.broadcasts == []
      ensures socket.deliveries == [] && socket.closed == []
    {
      store := map[];
      socket := new Sockets.SocketService();
    }

    /** `socketServiceDidReceive(order:)`: store the order under its sender, replacing any entry. */
    method SocketServiceDidReceive(order: Order)
      modifies this
      ensures store == Submit(old(store), order)
    {
      store := store[order.senderId := order];
    }

    /** A text message reaching the socket service, with its delegate call forwarded here. */
    method ReceivedText(decoded: Option<Sockets.Submission>, from: Sockets.Connection)
      modifies this
      ensures decoded.None? ==> store == old(store)
      ensures decoded.Some? ==> store == Submit(old(store), NewOrder(decoded.value.senderId, decoded.value.item))
    {
      var call := socket.ReceivedText(decoded, from);
      if call.Some? {
        SocketServiceDidReceive(call.value);
      }
    }

    /** `allOrders`: the stored orders, walking `keys` (a snapshot of the store's keys). */
    method AllOrders(keys: seq<string>) returns (orders: seq<Order>)
      ensures orders == Collected(store, keys)
      ensures forall k :: k in keys && k in store ==> store[k] in orders
      ensures forall o :: o in orders ==> o in store.Values
    {
      orders := [];
      var i := 0;
      while i < |keys|
        invariant 0 <= i <= |keys|
        invariant orders == Collected(store, keys[..i])
      {
        assert keys[..i + 1][..i] == keys[..i];
        if keys[i] in store {
          orders := orders + [store[keys[i]]];
        }
        i := i + 1;
      }
      assert keys[..|keys|] == keys;
      forall k | k in keys && k in store
        ensures store[k] in orders
      {
        CollectedContains(store, keys, k);
      }
      CollectedFromStore(store, keys);
    }

    /**
     * One turn of the tick's loop, for `senderId`: skip it, settle it and
     * broadcast the notice, or report that the ledger threw.
     */
    method Visit(senderId: string, keys: seq<string>, ledger: Ledger) returns (thrown: Option<Lisk.FetchError>)
      requires socket.Valid()
      modifies this, socket
      ensures var step := StepAt(old(store), keys, senderId, ledger);
              && store == Applied(old(store), step)
              && socket.broadcasts == old(socket.broadcasts) + NoticesOf(step)
              && thrown == ThrownBy(step)
      ensures socket.Valid() && socket.conn == old(socket.conn) && socket.closed == old(socket.closed)
      ensures old(socket.deliveries) <= socket.deliveries
      ensures TurnDeliveries(StepAt(old(store), keys, senderId, ledger), senderId,
                             old(socket.deliveries), socket.deliveries, socket.conn)
    {
      thrown := None;
      if senderId in store && store[senderId].status == Pending {
        var order := store[senderId];
        var previous := AllOrders(keys);
        if !Reused(order, TransactionIds(previous)) {
          var txs := ledger(order.senderId, StoreAddress);
          if txs.Failure? {
            thrown := Some(txs.error);
            return;
          }
          if |txs.value| > 0 {
            var tx := txs.value[|txs.value| - 1];
            var anOrder := NewOrder(senderId, order.item, Some(tx.id), Completed);
            store := store[anOrder.senderId := anOrder];
            var message := CompletionNotice(anOrder.senderId);
            socket.Broadcast(message);
          }
        }
      }
    }

    /**
     * The metronome's tick over the key snapshot `keys`. A ledger error
     * leaves the loop (the `do/catch` is around all of it); each completed
     * order's notice is broadcast, once, after the order is written.
     */
    /** The socket still has the registry `conn0` and the closed log `closed0`, and extends `deliveries0`. */
    ghost predicate SocketKept(conn0: map<string, Sockets.Connection>, closed0: seq<Sockets.Connection>,
                               deliveries0: seq<Sockets.Delivery>)
      reads this, socket
    {
      socket.Valid() && socket.conn == conn0 && socket.closed == closed0 && deliveries0 <= socket.deliveries
    }

    method Tick(keys: seq<string>, ledger: Ledger)
      requires IsSnapshot(keys, store)
      requires socket.Valid()
      modifies this, socket
      ensures var r := TickOver(old(store), keys, ledger);
              store == r.store && socket.broadcasts == old(socket.broadcasts) + r.sent
      ensures socket.Valid() && socket.conn == old(socket.conn) && socket.closed == old(socket.closed)
      ensures old(socket.deliveries) <= socket.deliveries
    {
      ghost var start := TickState(store, [], None);
      ghost var state := start;
      ghost var conn0 := socket.conn;
      ghost var closed0 := socket.closed;
      ghost var deliveries0 := socket.deliveries;
      ghost var broadcasts0 := socket.broadcasts;
      var i := 0;
      while i < |keys|
        invariant 0 <= i <= |keys|
        invariant state == TickFrom(start, keys, keys[..i], ledger)
        invariant state.error.None? && state.store == store
        invariant socket.broadcasts == broadcasts0 + state.sent
        invariant SocketKept(conn0, closed0, deliveries0)
      {
        ghost var step := StepAt(store, keys, keys[i], ledger);
        PrefixStep(start, keys, keys, ledger, i);
        var thrown := Visit(keys[i], keys, ledger);
        state := TickState(store, state.sent + NoticesOf(step), thrown);
        if thrown.Some? {
          AbortEndsTick(start, keys, keys, ledger, i);
          return;
        }
        i := i + 1;
      }
      assert keys[..|keys|] == keys;
    }
  }
}
