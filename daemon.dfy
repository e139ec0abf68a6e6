/**
 * The consumer loop of `main`, run on the channel: each cycle receives,
 * drains and settles, then formats one notification body.
 */
module Daemon {
  import opened Options
  import opened Coalescing
  import opened Channels
  import opened Notifier

  /**
   * After `i` slots of the drain phase on `q`, the receives so far were
   * `outs` and the queue is `cur`: finishing from there gives the same phase.
   */
  ghost predicate DrainedSoFar<T>(q: seq<T>, slots: seq<seq<T>>, i: nat, outs: seq<Option<T>>, cur: seq<T>)
  {
    i <= |slots| &&
    var d := Drain(cur, slots[i..]);
    Drain(q, slots) == DrainResult(outs + d.outcomes, d.rest)
  }

  lemma DrainedOneMore<T>(q: seq<T>, slots: seq<seq<T>>, i: nat, outs: seq<Option<T>>,
                          before: seq<T>, r: Option<T>, after: seq<T>)
    requires DrainedSoFar(q, slots, i, outs, before) && i < |slots|
    requires var arrived := before + slots[i];
      r == (if arrived == [] then None else Some(arrived[0])) &&
      after == (if arrived == [] then [] else arrived[1..])
    ensures DrainedSoFar(q, slots, i + 1, outs + [r], after)
  {
    DrainFirstSlot(before, slots[i..]);
    assert slots[i..][0] == slots[i] && slots[i..][1..] == slots[i + 1..];
    var later := Drain(after, slots[i + 1..]);
    AppendAssoc(outs, [r], later.outcomes);
  }

  /**
   * The drain phase: `slots.len()` sleep-then-`try_recv` slots, keeping the
   * last value received (`filter_map(..).last()`); the producer sends
   * `slots[i]` during the sleep of slot `i`.
   */
  method DrainPhase<T>(ch: Channel<T>, slots: seq<seq<T>>) returns (s: Option<T>)
    modifies ch
    ensures s == LastReceived(Drain(old(ch.queue), slots).outcomes)
    ensures ch.queue == Drain(old(ch.queue), slots).rest
  {
    ghost var q := ch.queue;
    s := None;
    ghost var outs: seq<Option<T>> := [];
    assert slots[0..] == slots;
    for i := 0 to |slots|
      invariant s == LastReceived(outs)
      invariant DrainedSoFar(q, slots, i, outs, ch.queue)
    {
      ghost var before := ch.queue;
      ch.SendAll(slots[i]);  // the producer runs while the consumer sleeps
      var r := ch.TryRecv();
      if r.Some? {
        s := r;
      }
      LastReceivedSnoc(outs, r);
      DrainedOneMore(q, slots, i, outs, before, r, ch.queue);
      outs := outs + [r];
    }
    assert slots[|slots|..] == [];
    assert outs + [] == outs;
  }

  /**
   * One cycle of the loop on the channel. The blocking `recv` has a value to
   * return; during drain slot `i` the producer sends `slots[i]` before the
   * slot's `try_recv`.
   */
  method RunCycle<T>(ch: Channel<T>, slots: seq<seq<T>>) returns (settled: T, drained: bool)
    requires ch.queue != []
    requires |slots| == DrainSlots
    modifies ch
    ensures settled == CycleOf(old(ch.queue), slots).settled
    ensures ch.queue == CycleOf(old(ch.queue), slots).rest
    ensures drained <==> |old(ch.queue)| >= 2
  {
    ghost var q := ch.queue;
    var v := ch.Recv();
    var second := ch.TryRecv();
    drained := second.Some?;
    var spam: Option<T> := None;
    if second.Some? {
      assert ch.queue == q[2..];
      var s := DrainPhase(ch, slots);
      spam := s.Or(second);
    }
    settled := spam.UnwrapOr(v);
  }

  /** The options the loop uses (`title`, `message`, `icon`, `timeout`). */
  datatype Config = Config(title: string, message: string, icon: Option<string>, timeoutMs: U32)

  /**
   * What the producer sends around one cycle: `pending` before the cycle's
   * blocking `recv` returns, then `slots[i]` during drain slot `i`. When no
   * drain phase runs, the slot values arrive after the cycle and wait on the
   * queue for the next one.
   */
  datatype Burst<T> = Burst(pending: seq<T>, slots: seq<seq<T>>)

  ghost predicate WellTimed<T>(bursts: seq<Burst<T>>)
  {
    forall k | 0 <= k < |bursts| :: |bursts[k].slots| == DrainSlots
  }

  /** Everything the producer sends over a run, in order. */
  function AllSent<T>(bursts: seq<Burst<T>>): seq<T>
  {
    if bursts == [] then []
    else bursts[0].pending + Flatten(bursts[0].slots) + AllSent(bursts[1..])
  }

  /** The slot values no drain phase received in their slot: all of them unless `q` drains. */
  function Late<T>(q: seq<T>, slots: seq<seq<T>>): seq<T>
  {
    if |q| >= 2 then [] else Flatten(slots)
  }

  /** The queue after one burst: what the cycle left, if one ran, then the late slot values. */
  function After<T>(q: seq<T>, b: Burst<T>): seq<T>
    requires |b.slots| == DrainSlots
  {
    var arrived := q + b.pending;
    (if arrived == [] then [] else CycleOf(arrived, b.slots).rest) + Late(arrived, b.slots)
  }

  /** Values settled, all values received in order, and what is left queued. */
  datatype RunResult<T> = RunResult(settled: seq<T>, received: seq<T>, rest: seq<T>)

  /**
   * The loop over a run of bursts, starting from queue `q`: one settled
   * value per cycle. When a burst's pending values leave the queue empty the
   * consumer is still blocked in `recv` and no cycle runs.
   */
  function Run<T>(q: seq<T>, bursts: seq<Burst<T>>): (r: RunResult<T>)
    requires WellTimed(bursts)
    ensures |r.settled| <= |bursts|
    ensures r.received + r.rest == q + AllSent(bursts)
    ensures forall i | 0 <= i < |r.settled| :: r.settled[i] in r.received
    decreases |bursts|
  {
    if bursts == [] then RunResult([], [], q)
    else
      var b := bursts[0];
      var arrived := q + b.pending;
      var r := Run(After(q, b), bursts[1..]);
      if arrived == [] then
        BurstConserves(q, bursts, [], r.received, r.rest);
        r
      else
        var c := CycleOf(arrived, b.slots);
        BurstConserves(q, bursts, c.received, r.received, r.rest);
        assert c.settled in c.received;
        RunResult([c.settled] + r.settled, c.received + r.received, r.rest)
  }

  /** One burst: what its cycle received, then the rest of the run, is everything sent. */
  lemma BurstConserves<T>(q: seq<T>, bursts: seq<Burst<T>>, cr: seq<T>, rr: seq<T>, rs: seq<T>)
    requires WellTimed(bursts) && bursts != []
    requires cr == (var arrived := q + bursts[0].pending;
      if arrived == [] then [] else CycleOf(arrived, bursts[0].slots).received)
    requires rr + rs == After(q, bursts[0]) + AllSent(bursts[1..])
    ensures cr + rr + rs == q + AllSent(bursts)
  {
    var b := bursts[0];
    var arrived := q + b.pending;
    var flat := Flatten(b.slots);
    var late := Late(arrived, b.slots);
    var drained := if |arrived| >= 2 then flat else [];
    var cs := if arrived == [] then [] else CycleOf(arrived, b.slots).rest;
    assert drained + late == flat;
    assert cr + cs == arrived + drained;
    RunStepConserves(cr, cs, arrived, drained, late, flat, rr, rs, AllSent(bursts[1..]), q, b.pending);
  }

  /** One burst of a run loses and invents no value. */
  lemma RunStepConserves<T>(cr: seq<T>, cs: seq<T>, arrived: seq<T>, drained: seq<T>, late: seq<T>,
                            flat: seq<T>, rr: seq<T>, rs: seq<T>, later: seq<T>, q: seq<T>, p: seq<T>)
    requires cr + cs == arrived + drained && arrived == q + p && drained + late == flat
    requires rr + rs == cs + late + later
    ensures cr + rr + rs == q + (p + flat + later)
  {
    AppendAssoc(cr, rr, rs);
    calc {
      cr + (rr + rs);
      cr + (cs + late + later);
      { AppendAssoc(cs, late, later); AppendAssoc(cr, cs, late + later); }
      arrived + drained + (late + later);
      { AppendAssoc(arrived, drained, late + later); AppendAssoc(drained, late, later); }
      q + p + (flat + later);
      { AppendAssoc(q, p, flat + later); AppendAssoc(p, flat, later); }
      q + (p + flat + later);
    }
  }

  /** The values a run settles on were all sent: by the queue or by the producer. */
  lemma RunNeverSynthesizes<T>(q: seq<T>, bursts: seq<Burst<T>>)
    requires WellTimed(bursts)
    ensures var r := Run(q, bursts);
      forall i | 0 <= i < |r.settled| :: r.settled[i] in q + AllSent(bursts)
  {
    var r := Run(q, bursts);
    forall i | 0 <= i < |r.settled| ensures r.settled[i] in q + AllSent(bursts) {
      assert r.settled[i] in r.received + r.rest;
    }
  }

  /**
   * After `k` bursts the loop has settled `done`, received `got` and the
   * queue is `cur`: finishing the run from there gives the same run.
   */
  ghost predicate ServedSoFar<T>(q: seq<T>, bursts: seq<Burst<T>>, k: nat, done: seq<T>, got: seq<T>,
                                 cur: seq<T>)
    requires WellTimed(bursts)
  {
    k <= |bursts| &&
    var r := Run(cur, bursts[k..]);
    Run(q, bursts) == RunResult(done + r.settled, got + r.received, r.rest)
  }

  lemma ServedOneMore<T>(q: seq<T>, bursts: seq<Burst<T>>, k: nat, done: seq<T>, got: seq<T>,
                         before: seq<T>)
    requires WellTimed(bursts) && k < |bursts| && ServedSoFar(q, bursts, k, done, got, before)
    ensures var arrived := before + bursts[k].pending;
      if arrived == [] then
        ServedSoFar(q, bursts, k + 1, done, got, After(before, bursts[k]))
      else
        var c := CycleOf(arrived, bursts[k].slots);
        ServedSoFar(q, bursts, k + 1, done + [c.settled], got + c.received, After(before, bursts[k]))
  {
    assert bursts[k..][0] == bursts[k] && bursts[k..][1..] == bursts[k + 1..];
    var arrived := before + bursts[k].pending;
    var later := Run(After(before, bursts[k]), bursts[k + 1..]);
    if arrived != [] {
      var c := CycleOf(arrived, bursts[k].slots);
      AppendAssoc(done, [c.settled], later.settled);
      AppendAssoc(got, c.received, later.received);
    }
  }

  /** The notification `notify` builds for a settled percentage under `conf`. */
  function Note(conf: Config, p: Byte): Notification
  {
    Compose(Body(conf.message, p), conf.title, conf.icon, conf.timeoutMs)
  }

  /** One notification per settled value, in order. */
  ghost predicate NotesFor<T>(notes: seq<Notification>, conf: Config, percent: T -> Byte, settled: seq<T>)
  {
    |notes| == |settled| && forall i | 0 <= i < |notes| :: notes[i] == Note(conf, percent(settled[i]))
  }

  lemma NotesForOneMore<T>(notes: seq<Notification>, conf: Config, percent: T -> Byte, settled: seq<T>, v: T)
    requires NotesFor(notes, conf, percent, settled)
    ensures NotesFor(notes + [Note(conf, percent(v))], conf, percent, settled + [v])
  {
  }

  /**
   * One burst on the channel: the producer's pending values, then a cycle
   * if the consumer has something to receive, then the slot values no drain
   * phase was there to receive.
   */
  method ServeBurst<T>(ch: Channel<T>, b: Burst<T>) returns (settled: Option<T>)
    requires |b.slots| == DrainSlots
    modifies ch
    ensures var arrived := old(ch.queue) + b.pending;
      settled == (if arrived == [] then None else Some(CycleOf(arrived, b.slots).settled)) &&
      ch.queue == After(old(ch.queue), b)
  {
    ch.SendAll(b.pending);
    if ch.queue == [] {
      ch.SendAll(Flatten(b.slots));
      return None;
    }
    var fval, drained := RunCycle(ch, b.slots);
    if !drained {
      ch.SendAll(Flatten(b.slots));  // the values arrive after the cycle
    } else {
      assert ch.queue + [] == ch.queue;
    }
    return Some(fval);
  }

  /**
   * The loop of `main` over a run of bursts: each cycle settles one value
   * and builds exactly one notification for it. Dispatching the
   * notification is left to the desktop; its failure only gets logged.
   */
  method Serve<T>(ch: Channel<T>, conf: Config, percent: T -> Byte, bursts: seq<Burst<T>>)
    returns (notes: seq<Notification>)
    requires WellTimed(bursts)
    modifies ch
    ensures var r := Run(old(ch.queue), bursts);
      ch.queue == r.rest && |notes| == |r.settled| &&
      forall i | 0 <= i < |notes| :: notes[i] == Note(conf, percent(r.settled[i]))
  {
    ghost var q := ch.queue;
    ghost var done: seq<T> := [];
    ghost var got: seq<T> := [];
    notes := [];
    assert bursts[0..] == bursts;
    for k := 0 to |bursts|
      invariant ServedSoFar(q, bursts, k, done, got, ch.queue)
      invariant NotesFor(notes, conf, percent, done)
    {
      ghost var before := ch.queue;
      ghost var arrived := before + bursts[k].pending;
      ServedOneMore(q, bursts, k, done, got, before);
      var settled := ServeBurst(ch, bursts[k]);
      if settled.Some? {
        ghost var c := CycleOf(arrived, bursts[k].slots);
        assert settled.value == c.settled;
        NotesForOneMore(notes, conf, percent, done, c.settled);
        notes := notes + [Note(conf, percent(settled.value))];
        done := done + [c.settled];
        got := got + c.received;
      } else {
        assert arrived == [];
      }
    }
    assert bursts[|bursts|..] == [];
  }
}
