/**
  The live transaction feed: each inbound stream message of kind "utx" becomes a
  Transaction record {from, to, total}, which is prepended to a history kept newest
  first and cut to twenty entries. The displayed total is the sum over that history.
  Amounts are integer satoshis (the sum of the outputs' `value` fields).
 */
module Transactions {

  datatype Option<+T> = None | Some(value: T)

  /** `prev_out` of an input; its `addr` may be absent. */
  datatype PrevOut = PrevOut(addr: Option<string>)

  /** One entry of `x.inputs`; its `prev_out` may be absent. */
  datatype Input = Input(prevOut: Option<PrevOut>)

  /** One entry of `x.out`: an optional receiving address and a value in satoshis. */
  datatype Output = Output(addr: Option<string>, value: int)

  /** The `x` payload of an unconfirmed-transaction message. */
  datatype Tx = Tx(inputs: seq<Input>, out: seq<Output>)

  /** A parsed stream message: its `op` and, when present, its `x` payload. */
  datatype Message = Message(op: string, x: Option<Tx>)

  /** The record derived from one accepted message. */
  datatype Transaction = Transaction(from: string, to: string, total: int)

  const Unknown := "Unknown"
  const UtxOp := "utx"
  /** The number of records the history keeps. */
  const Capacity := 20

  function Min(a: int, b: int): int { if a <= b then a else b }

  // ---------------------------------------------------------------------------
  // Sums

  /** The sum of a sequence of integers, first element first. */
  function Sum(xs: seq<int>): int
  {
    if xs == [] then 0 else xs[0] + Sum(xs[1..])
  }

  /**
    `xs.reduce((sum, v) => sum + v, acc)`: a left fold from the first element, which
    adds the structural sum to the seed.
   */
  function Reduce(acc: int, xs: seq<int>): (r: int)
    ensures r == acc + Sum(xs)
    decreases xs
  {
    if xs == [] then acc else Reduce(acc + xs[0], xs[1..])
  }

  /** The sum distributes over concatenation. */
  lemma {:induction false} SumAppend(a: seq<int>, b: seq<int>)
    ensures Sum(a + b) == Sum(a) + Sum(b)
  {
    if a == [] {
      assert a + b == b;
    } else {
      assert (a + b)[1..] == a[1..] + b;
      SumAppend(a[1..], b);
    }
  }

  /** The `value` of every output, in order. */
  function Values(outs: seq<Output>): (r: seq<int>)
    ensures |r| == |outs|
  {
    seq(|outs|, i requires 0 <= i < |outs| => outs[i].value)
  }

  /** The `total` of every record, in order. */
  function Totals(h: seq<Transaction>): (r: seq<int>)
    ensures |r| == |h|
  {
    seq(|h|, i requires 0 <= i < |h| => h[i].total)
  }

  // ---------------------------------------------------------------------------
  // Deriving a record from a message

  /** JavaScript's `a || "Unknown"` for an optional string: absent and "" are falsy. */
  function OrUnknown(a: Option<string>): (r: string)
    ensures r != ""
    ensures a.Some? && a.value != "" ==> r == a.value
    ensures r != Unknown ==> a == Some(r)
  {
    if a.Some? && a.value != "" then a.value else Unknown
  }

  /** `inputs[0]?.prev_out?.addr || "Unknown"`. */
  function Sender(inputs: seq<Input>): (r: string)
    ensures r != ""
    ensures |inputs| == 0 ==> r == Unknown
    ensures |inputs| > 0 && inputs[0].prevOut.Some? && inputs[0].prevOut.value.addr.Some?
            && inputs[0].prevOut.value.addr.value != ""
            ==> r == inputs[0].prevOut.value.addr.value
    ensures r != Unknown ==>
              |inputs| > 0 && inputs[0].prevOut == Some(PrevOut(Some(r)))
  {
    if |inputs| > 0 && inputs[0].prevOut.Some? then OrUnknown(inputs[0].prevOut.value.addr)
    else Unknown
  }

  /** `outputs[0]?.addr || "Unknown"`. */
  function Recipient(outs: seq<Output>): (r: string)
    ensures r != ""
    ensures |outs| == 0 ==> r == Unknown
    ensures |outs| > 0 && outs[0].addr.Some? && outs[0].addr.value != ""
            ==> r == outs[0].addr.value
    ensures r != Unknown ==> |outs| > 0 && outs[0].addr == Some(r)
  {
    if |outs| > 0 then OrUnknown(outs[0].addr) else Unknown
  }

  /** The record for one "utx" payload; its total is computed as the source does, by reduce. */
  function Derive(tx: Tx): (r: Transaction)
    ensures r.from == Sender(tx.inputs) && r.to == Recipient(tx.out)
    ensures r.total == Sum(Values(tx.out))
    ensures tx.out == [] ==> r.total == 0
  {
    Transaction(Sender(tx.inputs), Recipient(tx.out), Reduce(0, Values(tx.out)))
  }

  /** The record a message contributes, if any: only "utx" messages that carry `x`. */
  function Accept(m: Message): (r: Option<Transaction>)
    ensures r.Some? <==> m.op == UtxOp && m.x.Some?
    ensures r.Some? ==> r.value == Derive(m.x.value)
  {
    if m.op == UtxOp && m.x.Some? then Some(Derive(m.x.value)) else None
  }

  /**
    One input from "A" and one output of 150000000 satoshis to "B series" give the
    record {from: "A", to: "B series", total: 150000000} (1.5 BTC).
   */
  lemma ExampleRecord()
    ensures Derive(Tx([Input(Some(PrevOut(Some("A"))))], [Output(Some("B series"), 150000000)]))
            == Transaction("A", "B series", 150000000)
  {
  }

  /** A message with no inputs is credited to "Unknown". */
  lemma NoInputsIsUnknown(outs: seq<Output>)
    ensures Derive(Tx([], outs)).from == Unknown
  {
  }

  // ---------------------------------------------------------------------------
  // The bounded history

  /** `[t, ...h.slice(0, 19)]`. */
  function Push(h: seq<Transaction>, t: Transaction): (r: seq<Transaction>)
    ensures |r| == Min(|h| + 1, Capacity)
    ensures r[0] == t
    ensures forall i :: 1 <= i < |r| ==> r[i] == h[i - 1]
  {
    [t] + h[..Min(|h|, Capacity - 1)]
  }

  /** The history after one message arrives. */
  function Step(h: seq<Transaction>, m: Message): (r: seq<Transaction>)
    ensures Accept(m).None? ==> r == h
    ensures Accept(m).Some? ==>
              |r| == Min(|h| + 1, Capacity) && r[0] == Accept(m).value
              && forall i :: 1 <= i < |r| ==> r[i] == h[i - 1]
  {
    match Accept(m)
    case Some(t) => Push(h, t)
    case None => h
  }

  /** A message that is not an accepted "utx" leaves the history exactly as it was. */
  lemma StepIgnores(h: seq<Transaction>, m: Message)
    requires m.op != UtxOp || m.x.None?
    ensures Step(h, m) == h
  {
  }

  /** The history after messages arrive in order, first message first. */
  function Replay(h: seq<Transaction>, ms: seq<Message>): (r: seq<Transaction>)
    ensures |h| <= Capacity ==> |r| <= Capacity
    decreases |ms|
  {
    if ms == [] then h else Replay(Step(h, ms[0]), ms[1..])
  }

  /** The records of the accepted messages, in arrival order. */
  function Accepted(ms: seq<Message>): seq<Transaction>
  {
    if ms == [] then []
    else (match Accept(ms[0]) case Some(t) => [t] case None => []) + Accepted(ms[1..])
  }

  function Reverse<T>(s: seq<T>): (r: seq<T>)
    ensures |r| == |s|
  {
    if s == [] then [] else Reverse(s[1..]) + [s[0]]
  }

  lemma {:induction false} ReverseIndex<T>(s: seq<T>)
    ensures forall i :: 0 <= i < |s| ==> Reverse(s)[i] == s[|s| - 1 - i]
  {
    if s != [] {
      ReverseIndex(s[1..]);
    }
  }

  /** Pushing onto a window behind a prefix `x` is the same as cutting `x + [t] + h`. */
  lemma WindowPush(x: seq<Transaction>, h: seq<Transaction>, t: Transaction)
    requires |h| <= Capacity
    ensures (x + Push(h, t))[..Min(|x| + |Push(h, t)|, Capacity)]
            == ((x + [t]) + h)[..Min(|x| + 1 + |h|, Capacity)]
  {
  }

  /** Reversing a sequence with a new head puts that head last. */
  lemma ReverseCons<T>(t: T, s: seq<T>)
    ensures Reverse([t] + s) == Reverse(s) + [t]
  {
  }

  /**
    However many messages arrive, the history is the accepted records newest first,
    followed by the earlier history, cut to Capacity: nothing but the oldest entries
    is ever dropped, and ignored messages leave no trace.
   */
  lemma {:induction false} ReplayWindow(h: seq<Transaction>, ms: seq<Message>)
    requires |h| <= Capacity
    ensures Replay(h, ms)
            == (Reverse(Accepted(ms)) + h)[..Min(|Accepted(ms)| + |h|, Capacity)]
    decreases |ms|
  {
    if ms == [] {
      assert Reverse(Accepted(ms)) + h == h;
    } else {
      var m, rest := ms[0], ms[1..];
      var h' := Step(h, m);
      assert Replay(h, ms) == Replay(h', rest);
      ReplayWindow(h', rest);
      var ar := Accepted(rest);
      match Accept(m)
      case None =>
        assert Accepted(ms) == ar;
        assert h' == h;
      case Some(t) =>
        assert Accepted(ms) == [t] + ar;
        ReverseCons(t, ar);
        assert h' == Push(h, t);
        WindowPush(Reverse(ar), h, t);
    }
  }

  /** The first n entries of a reversal are the last n elements, newest first. */
  lemma ReverseWindow<T>(s: seq<T>, n: nat)
    requires n <= |s|
    ensures |Reverse(s)[..n]| == n
    ensures forall i :: 0 <= i < n ==> Reverse(s)[..n][i] == s[|s| - 1 - i]
  {
    ReverseIndex(s);
  }

  /**
    Starting from an empty history, the history after any messages holds the last
    min(n, 20) accepted records, newest at index 0.
   */
  lemma FromEmpty(ms: seq<Message>)
    ensures |Replay([], ms)| == Min(|Accepted(ms)|, Capacity)
    ensures forall i :: 0 <= i < |Replay([], ms)| ==>
              Replay([], ms)[i] == Accepted(ms)[|Accepted(ms)| - 1 - i]
  {
    var e: seq<Transaction> := [];
    var acc := Accepted(ms);
    ReplayWindow(e, ms);
    assert Replay(e, ms) == (Reverse(acc) + e)[..Min(|acc| + |e|, Capacity)];
    assert Reverse(acc) + e == Reverse(acc);
    ReverseWindow(acc, Min(|acc|, Capacity));
  }

  /** When every message is an accepted "utx", the accepted records are all of them. */
  lemma {:induction false} AllAccepted(ms: seq<Message>)
    requires forall k :: 0 <= k < |ms| ==> ms[k].op == UtxOp && ms[k].x.Some?
    ensures |Accepted(ms)| == |ms|
    ensures forall k :: 0 <= k < |ms| ==> Accepted(ms)[k] == Derive(ms[k].x.value)
  {
    if ms != [] {
      AllAccepted(ms[1..]);
    }
  }

  /**
    After twenty or more consecutive "utx" messages from an empty history, the history
    holds exactly the records of the last twenty, newest first.
   */
  lemma LastTwenty(ms: seq<Message>)
    requires |ms| >= Capacity
    requires forall k :: 0 <= k < |ms| ==> ms[k].op == UtxOp && ms[k].x.Some?
    ensures |Replay([], ms)| == Capacity
    ensures forall i :: 0 <= i < Capacity ==>
              Replay([], ms)[i] == Derive(ms[|ms| - 1 - i].x.value)
  {
    FromEmpty(ms);
    AllAccepted(ms);
  }

  /**
    The total over the history after a push is the old total plus the new record's,
    minus the total of the one record evicted when the history was full.
   */
  lemma PushTotal(h: seq<Transaction>, t: Transaction)
    requires |h| <= Capacity
    ensures Sum(Totals(Push(h, t)))
            == t.total + Sum(Totals(h)) - (if |h| == Capacity then h[Capacity - 1].total else 0)
  {
    var k := Min(|h|, Capacity - 1);
    var ts := Totals(h);
    assert Totals(Push(h, t)) == [t.total] + ts[..k];
    assert ([t.total] + ts[..k])[1..] == ts[..k];
    if |h| == Capacity {
      assert ts == ts[..k] + [ts[k]];
      SumAppend(ts[..k], [ts[k]]);
    } else {
      assert ts[..k] == ts;
    }
  }

  // ---------------------------------------------------------------------------
  // The component state

  /** The feed's `transactions` state; the socket that drives it is not modelled. */
  class Ledger {
    var transactions: seq<Transaction>

    ghost predicate Valid()
      reads this
    {
      |transactions| <= Capacity
    }

    constructor ()
      ensures Valid() && transactions == []
    {
      transactions := [];
    }

    /** The `onmessage` handler, with the message already parsed. */
    method OnMessage(m: Message)
      requires Valid()
      modifies this
      ensures Valid()
      ensures transactions == Step(old(transactions), m)
      ensures TotalSum() == old(TotalSum()) + (if Accept(m).Some? then
                Accept(m).value.total - (if |old(transactions)| == Capacity
                                         then old(transactions)[Capacity - 1].total else 0)
              else 0)
    {
      var a := Accept(m);
      if a.Some? {
        PushTotal(transactions, a.value);
        transactions := Push(transactions, a.value);
      }
    }

    /** The history-clearing part of `reset`. */
    method Reset()
      modifies this
      ensures Valid() && transactions == []
      ensures TotalSum() == 0
    {
      transactions := [];
    }

    /** `totalSum`: a reduce over the history, equal to the sum of its totals. */
    function TotalSum(): (s: int)
      reads this
      ensures s == Sum(Totals(transactions))
    {
      Reduce(0, Totals(transactions))
    }
  }
}
