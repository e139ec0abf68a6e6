/**
 * The debounce rule of the consumer loop in `main`, stated on values.
 *
 * One cycle of the loop performs a blocking receive (value `v`), one
 * non-blocking receive (`second`) and, only when that second receive found a
 * value, a drain phase of exactly `DrainSlots` sleep-then-try_recv slots. The
 * outcomes of those receives fully determine the settled value; this module
 * states the rule on the outcomes (`Settle`) and on a FIFO queue together with
 * the values the producer sends during each drain slot (`CycleOf`).
 */
module Coalescing {
  import opened Options

  /** Number of sleep-then-try_recv slots in one drain phase (`0..10`). */
  const DrainSlots: nat := 10

  /** Largest number of values one cycle can take off the channel. */
  const MaxPerCycle: nat := 2 + DrainSlots

  /** Receive `i` delivered a value and no later receive in `outs` did. */
  predicate IsLastDelivery<T>(outs: seq<Option<T>>, i: int)
  {
    0 <= i < |outs| && outs[i].Some? && forall j | i < j < |outs| :: outs[j].None?
  }

  /** The last value a run of receive outcomes delivered (`filter_map(..).last()`). */
  function LastReceived<T>(outs: seq<Option<T>>): (r: Option<T>)
    ensures r.None? <==> AllNone(outs)
  {
    if outs == [] then None
    else
      var later := LastReceived(outs[1..]);
      if later.Some? then later else outs[0]
  }

  /** `LastReceived` names the receive that delivered last. */
  lemma {:induction false} LastReceivedIsLastDelivery<T>(outs: seq<Option<T>>)
    requires !AllNone(outs)
    ensures exists i :: IsLastDelivery(outs, i) && outs[i] == LastReceived(outs)
    decreases |outs|
  {
    var later := LastReceived(outs[1..]);
    if later.Some? {
      LastReceivedIsLastDelivery(outs[1..]);
      var i :| IsLastDelivery(outs[1..], i) && outs[1..][i] == later;
      assert IsLastDelivery(outs, i + 1);
    } else {
      assert IsLastDelivery(outs, 0);
    }
  }

  /**
   * The settled value of one cycle: `spam.unwrap_or(v)`, where `spam` is
   * `None` when the second receive found nothing and otherwise the last
   * drained value, or `x` when the drain phase received nothing.
   */
  function Settle<T>(v: T, second: Option<T>, drained: seq<Option<T>>): (r: T)
    ensures second.None? ==> r == v
    ensures second.Some? && AllNone(drained) ==> r == second.value
    ensures second.Some? && !AllNone(drained) ==>
      exists i :: IsLastDelivery(drained, i) && drained[i] == Some(r)
  {
    var spam := if second.Some? then LastReceived(drained).Or(second) else None;
    if second.Some? && !AllNone(drained) then
      LastReceivedIsLastDelivery(drained);
      spam.UnwrapOr(v)
    else
      spam.UnwrapOr(v)
  }

  /** Every value the cycle took off the channel, in the order it received them. */
  function Received<T>(v: T, second: Option<T>, drained: seq<Option<T>>): seq<T>
  {
    if second.Some? then [v, second.value] + Somes(drained) else [v]
  }

  /** `LastReceived` is the last element of `Somes`: the most recent delivery. */
  lemma {:induction false} LastReceivedIsLastValue<T>(outs: seq<Option<T>>)
    ensures var vs := Somes(outs);
      LastReceived(outs) == if vs == [] then None else Some(vs[|vs| - 1])
    decreases |outs|
  {
    if outs != [] {
      LastReceivedIsLastValue(outs[1..]);
    }
  }

  /** A receive appended at the end becomes the last delivery if it delivered. */
  lemma {:induction false} LastReceivedSnoc<T>(outs: seq<Option<T>>, o: Option<T>)
    ensures LastReceived(outs + [o]) == o.Or(LastReceived(outs))
    decreases |outs|
  {
    if outs == [] {
      assert ([o])[1..] == [];
    } else {
      assert (outs + [o])[1..] == outs[1..] + [o];
      LastReceivedSnoc(outs[1..], o);
    }
  }

  /** The settled value is the most recent value the cycle received. */
  lemma SettleIsLastReceived<T>(v: T, second: Option<T>, drained: seq<Option<T>>)
    ensures var rs := Received(v, second, drained);
      Settle(v, second, drained) == rs[|rs| - 1]
  {
    LastReceivedIsLastValue(drained);
  }

  /** Every value of `slots`, concatenated in order. */
  function Flatten<T>(slots: seq<seq<T>>): seq<T>
  {
    if slots == [] then [] else slots[0] + Flatten(slots[1..])
  }

  /** What a drain phase took off the queue and what it left there. */
  datatype DrainResult<T> = DrainResult(outcomes: seq<Option<T>>, rest: seq<T>)

  /**
   * The drain phase on a FIFO queue `q`: during slot `i` the producer sends
   * `slots[i]`, then one try_recv takes the head of the queue if there is one.
   * An empty read does not end the phase.
   */
  function Drain<T>(q: seq<T>, slots: seq<seq<T>>): (d: DrainResult<T>)
    ensures |d.outcomes| == |slots|
    ensures Somes(d.outcomes) + d.rest == q + Flatten(slots)
    decreases |slots|
  {
    if slots == [] then DrainResult([], q)
    else
      var arrived := q + slots[0];
      var o: Option<T> := if arrived == [] then None else Some(arrived[0]);
      var left := if arrived == [] then [] else arrived[1..];
      var d' := Drain(left, slots[1..]);
      DrainStepConserves(q, slots, o, left, d');
      DrainResult([o] + d'.outcomes, d'.rest)
  }

  /** The first slot of a drain phase, then the rest of the phase. */
  lemma DrainFirstSlot<T>(q: seq<T>, slots: seq<seq<T>>)
    requires slots != []
    ensures var arrived := q + slots[0];
      var o: Option<T> := if arrived == [] then None else Some(arrived[0]);
      var d' := Drain(if arrived == [] then [] else arrived[1..], slots[1..]);
      Drain(q, slots) == DrainResult([o] + d'.outcomes, d'.rest)
  {
  }

  /** One slot of the drain phase loses and invents nothing. */
  lemma DrainStepConserves<T>(q: seq<T>, slots: seq<seq<T>>, o: Option<T>, left: seq<T>,
                              d': DrainResult<T>)
    requires slots != []
    requires (if o.Some? then [o.value] else []) + left == q + slots[0]
    requires Somes(d'.outcomes) + d'.rest == left + Flatten(slots[1..])
    ensures Somes([o] + d'.outcomes) + d'.rest == q + Flatten(slots)
  {
    SomesCons(o, d'.outcomes);
    Regroup(if o.Some? then [o.value] else [], Somes(d'.outcomes), d'.rest,
            left, Flatten(slots[1..]), q, slots[0]);
  }

  lemma SomesCons<T>(o: Option<T>, outs: seq<Option<T>>)
    ensures Somes([o] + outs) == (if o.Some? then [o.value] else []) + Somes(outs)
  {
    assert ([o] + outs)[1..] == outs;
  }

  /** Concatenation regrouped: `g + v + r == q + s + f` when `v + r == l + f` and `g + l == q + s`. */
  lemma Regroup<T>(g: seq<T>, v: seq<T>, r: seq<T>, l: seq<T>, f: seq<T>, q: seq<T>, s: seq<T>)
    requires v + r == l + f && g + l == q + s
    ensures g + v + r == q + (s + f)
  {
    AppendAssoc(g, v, r);
    AppendAssoc(g, l, f);
    AppendAssoc(q, s, f);
  }

  /**
   * An empty read does not end the drain phase: every slot in which the
   * producer sent something ends with a successful receive.
   */
  lemma {:induction false} SendingSlotIsRead<T>(q: seq<T>, slots: seq<seq<T>>, i: nat)
    requires i < |slots| && slots[i] != []
    ensures Drain(q, slots).outcomes[i].Some?
    decreases |slots|
  {
    if i > 0 {
      var arrived := q + slots[0];
      var left := if arrived == [] then [] else arrived[1..];
      SendingSlotIsRead(left, slots[1..], i - 1);
    }
  }

  /**
   * A slot reads nothing only when nothing is waiting: if slot `i` comes
   * back empty, every value queued or sent up to and including that slot
   * was already received, in order, by the slots before it.
   */
  lemma {:induction false} EmptyReadMeansDrained<T>(q: seq<T>, slots: seq<seq<T>>, i: nat)
    requires i < |slots| && Drain(q, slots).outcomes[i].None?
    ensures Somes(Drain(q, slots).outcomes[..i]) == q + Flatten(slots[..i + 1])
    decreases |slots|
  {
    var arrived := q + slots[0];
    var o: Option<T> := if arrived == [] then None else Some(arrived[0]);
    var left := if arrived == [] then [] else arrived[1..];
    var d' := Drain(left, slots[1..]);
    var outs := Drain(q, slots).outcomes;
    DrainFirstSlot(q, slots);
    assert outs == [o] + d'.outcomes;
    FlattenPrefix(slots, i);
    if i == 0 {
      assert arrived == [];
      assert outs[..0] == [];
    } else {
      assert d'.outcomes[i - 1] == outs[i];
      EmptyReadMeansDrained(left, slots[1..], i - 1);
      var got := Somes(d'.outcomes[..i - 1]);
      var f := Flatten(slots[1..][..i]);
      var ov := if o.Some? then [o.value] else [];
      assert ov + left == q + slots[0] by {
        HeadTail(arrived);
      }
      EmptyReadStep(o, left, got, q, slots[0], f);
      ConsPrefix(o, d'.outcomes, i);
      SomesCons(o, d'.outcomes[..i - 1]);
    }
  }

  lemma HeadTail<T>(s: seq<T>)
    ensures s != [] ==> [s[0]] + s[1..] == s
  {
  }

  lemma FlattenPrefix<T>(slots: seq<seq<T>>, i: nat)
    requires i < |slots|
    ensures Flatten(slots[..i + 1]) == slots[0] + Flatten(slots[1..][..i])
  {
    assert slots[..i + 1][1..] == slots[1..][..i];
  }

  lemma ConsPrefix<T>(o: T, xs: seq<T>, i: nat)
    requires 0 < i <= |xs| + 1
    ensures ([o] + xs)[..i] == [o] + xs[..i - 1]
  {
  }

  lemma EmptyReadStep<T>(o: Option<T>, left: seq<T>, got: seq<T>, q: seq<T>, s: seq<T>, f: seq<T>)
    requires (if o.Some? then [o.value] else []) + left == q + s
    requires got == left + f
    ensures (if o.Some? then [o.value] else []) + got == q + (s + f)
  {
    Regroup(if o.Some? then [o.value] else [], left, f, left, f, q, s);
  }

  /**
   * On an empty queue, a drain phase in which at most one value is sent per
   * slot receives every one of them and leaves nothing queued.
   */
  lemma {:induction false} SparseDrainReadsAll<T>(slots: seq<seq<T>>)
    requires forall i | 0 <= i < |slots| :: |slots[i]| <= 1
    ensures Drain([], slots).rest == []
    ensures Somes(Drain([], slots).outcomes) == Flatten(slots)
    decreases |slots|
  {
    if slots != [] {
      DrainFirstSlot([], slots);
      var arrived: seq<T> := [] + slots[0];
      assert arrived == [] || arrived[1..] == [];
      SparseDrainReadsAll(slots[1..]);
    }
  }

  /** One cycle of the consumer loop on a queue. */
  datatype CycleResult<T> = CycleResult(settled: T, received: seq<T>, rest: seq<T>)

  /**
   * One cycle on the queue `q` that the blocking receive found non-empty:
   * the values received in order, the settled value and what stays queued.
   * `slots` are only sent when a drain phase runs.
   */
  function CycleOf<T>(q: seq<T>, slots: seq<seq<T>>): (c: CycleResult<T>)
    requires q != []
    ensures c.received + c.rest == q + (if |q| >= 2 then Flatten(slots) else [])
    ensures 1 <= |c.received| <= 2 + |slots|
    ensures c.settled == c.received[|c.received| - 1]
  {
    var v := q[0];
    if |q| == 1 then
      CycleResult(Settle(v, None, []), Received(v, None, []), [])
    else
      var x := q[1];
      var d := Drain(q[2..], slots);
      SettleIsLastReceived(v, Some(x), d.outcomes);
      CycleConserves(q, slots);
      CycleResult(Settle(v, Some(x), d.outcomes), Received(v, Some(x), d.outcomes), d.rest)
  }

  lemma DrainedCycleConserves<T>(v: T, x: T, tail: seq<T>, slots: seq<seq<T>>)
    ensures var d := Drain(tail, slots);
      Received(v, Some(x), d.outcomes) + d.rest == [v, x] + (tail + Flatten(slots))
  {
    var d := Drain(tail, slots);
    var vs := Somes(d.outcomes);
    assert Received(v, Some(x), d.outcomes) == [v, x] + vs;
    AppendAssoc([v, x], vs, d.rest);
  }

  /** A cycle with a drain phase takes or leaves every value that was sent. */
  lemma CycleConserves<T>(q: seq<T>, slots: seq<seq<T>>)
    requires |q| >= 2
    ensures var d := Drain(q[2..], slots);
      Received(q[0], Some(q[1]), d.outcomes) + d.rest == q + Flatten(slots)
  {
    var head, tail := [q[0], q[1]], q[2..];
    DrainedCycleConserves(q[0], q[1], tail, slots);
    AppendAssoc(head, tail, Flatten(slots));
    SplitAfterTwo(q);
  }

  lemma SplitAfterTwo<T>(q: seq<T>)
    requires |q| >= 2
    ensures q == [q[0], q[1]] + q[2..]
  {
  }

  lemma AppendAssoc<T>(a: seq<T>, b: seq<T>, c: seq<T>)
    ensures a + b + c == a + (b + c)
  {
  }

  lemma {:induction false} FlattenEmpty<T>(slots: seq<seq<T>>)
    requires forall i | 0 <= i < |slots| :: slots[i] == []
    ensures Flatten(slots) == []
    decreases |slots|
  {
    if slots != [] {
      FlattenEmpty(slots[1..]);
    }
  }

  lemma {:induction false} SomesAllSome<T>(outs: seq<Option<T>>)
    requires forall i | 0 <= i < |outs| :: outs[i].Some?
    ensures |Somes(outs)| == |outs|
    decreases |outs|
  {
    if outs != [] {
      SomesAllSome(outs[1..]);
    }
  }

  /** A lone value (the second receive finds nothing) is settled immediately. */
  lemma LoneValueSettles<T>(v: T, slots: seq<seq<T>>)
    ensures CycleOf([v], slots) == CycleResult(v, [v], [])
  {
  }

  /**
   * When a second value `x` is queued behind `v` and nothing more arrives
   * during the drain phase, `x` is settled and `v` is discarded.
   */
  lemma QuietDrainSettlesOnSecond<T>(v: T, x: T, slots: seq<seq<T>>)
    requires forall i | 0 <= i < |slots| :: slots[i] == []
    ensures CycleOf([v, x], slots) == CycleResult(x, [v, x], [])
  {
    FlattenEmpty(slots);
    var d := Drain([v, x][2..], slots);
    assert Somes(d.outcomes) + d.rest == [];
  }

  /** The settled value was sent on the channel; it is never synthesized. */
  lemma SettledWasSent<T>(q: seq<T>, slots: seq<seq<T>>)
    requires q != []
    ensures CycleOf(q, slots).settled in q + Flatten(slots)
  {
    var c := CycleOf(q, slots);
    assert c.settled in c.received + c.rest;
    if |q| < 2 {
      assert q + Flatten(slots) == q + [] + Flatten(slots);
    }
  }

  /**
   * A cycle takes a prefix of what was sent, at most `MaxPerCycle` values,
   * and settles on the last of them; the rest stays queued in order.
   */
  lemma CycleTakesPrefix<T>(q: seq<T>, slots: seq<seq<T>>)
    requires q != [] && |slots| == DrainSlots
    ensures var c := CycleOf(q, slots);
      var sent := q + (if |q| >= 2 then Flatten(slots) else []);
      var k := |c.received|;
      1 <= k <= MaxPerCycle && k <= |sent| &&
      c.received == sent[..k] && c.rest == sent[k..] && c.settled == sent[k - 1]
  {
  }

  /**
   * A burst that sends a value in every drain slot is cut at the slot bound:
   * the cycle takes exactly `MaxPerCycle` values and leaves the rest, in
   * order, for the next cycle.
   */
  lemma {:induction false} LongBurstIsCut<T>(q: seq<T>, slots: seq<seq<T>>)
    requires |q| >= 2 && |slots| == DrainSlots
    requires forall i | 0 <= i < |slots| :: slots[i] != []
    ensures var c := CycleOf(q, slots);
      var sent := q + Flatten(slots);
      |sent| >= MaxPerCycle && c.received == sent[..MaxPerCycle] &&
      c.rest == sent[MaxPerCycle..] && c.settled == sent[MaxPerCycle - 1]
  {
    var d := Drain(q[2..], slots);
    forall i | 0 <= i < |slots| ensures d.outcomes[i].Some? {
      SendingSlotIsRead(q[2..], slots, i);
    }
    SomesAllSome(d.outcomes);
    CycleTakesPrefix(q, slots);
  }

  /**
   * A burst that fits the window settles on its last value: after `v` and
   * `x`, at most one value per drain slot, the cycle receives the whole
   * burst, leaves nothing queued and settles on the most recent value.
   */
  lemma BurstSettlesOnLast<T>(v: T, x: T, slots: seq<seq<T>>)
    requires forall i | 0 <= i < |slots| :: |slots[i]| <= 1
    ensures var c := CycleOf([v, x], slots);
      var sent := [v, x] + Flatten(slots);
      c.rest == [] && c.received == sent && c.settled == sent[|sent| - 1]
  {
    assert [v, x][2..] == [];
    SparseDrainReadsAll(slots);
    var c := CycleOf([v, x], slots);
    assert c.received + [] == c.received;
  }

  /**
   * A burst of four readings (in hundredths): 10 and 32 are queued, 55 and 78
   * arrive in the first two drain slots and the remaining slots stay quiet;
   * only 78 is settled.
   */
  lemma BurstExample(quiet: seq<seq<int>>)
    requires forall i | 0 <= i < |quiet| :: quiet[i] == []
    ensures CycleOf([10, 32], [[55], [78]] + quiet).settled == 78
  {
    var slots := [[55], [78]] + quiet;
    assert forall i | 0 <= i < |slots| :: |slots[i]| <= 1;
    BurstSettlesOnLast(10, 32, slots);
    FlattenEmpty(quiet);
    assert slots[1..][1..] == quiet;
    assert Flatten(slots) == [55, 78];
  }
}
