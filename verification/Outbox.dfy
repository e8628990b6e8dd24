/** The outbox protocol: summaries are produced, drained in batches, and each batch is acknowledged or
    put back. */
module Outbox {

  /** `inFlight` holds the batches that were drained and not settled yet. */
  datatype State<T> = State(outbox: seq<T>, inFlight: seq<seq<T>>, acknowledged: seq<T>, produced: seq<T>)

  /** Acknowledge and Requeue settle the batch at position i. */
  datatype Op<T> = Produce(items: seq<T>) | Drain | Acknowledge(i: nat) | Requeue(i: nat)

  function Without<T>(batches: seq<seq<T>>, i: nat): seq<seq<T>>
    requires i < |batches|
  {
    batches[..i] + batches[i + 1..]
  }

  predicate Enabled<T>(s: State<T>, op: Op<T>)
  {
    (op.Acknowledge? || op.Requeue?) ==> op.i < |s.inFlight|
  }

  function Apply<T>(s: State<T>, op: Op<T>): State<T>
    requires Enabled(s, op)
  {
    match op
    case Produce(items) => s.(outbox := s.outbox + items, produced := s.produced + items)
    case Drain => s.(outbox := [], inFlight := s.inFlight + [s.outbox])
    case Acknowledge(i) => s.(inFlight := Without(s.inFlight, i), acknowledged := s.acknowledged + s.inFlight[i])
    case Requeue(i) => s.(inFlight := Without(s.inFlight, i), outbox := s.inFlight[i] + s.outbox)
  }

  /** All batches in flight, in the order they were drained. */
  function Flat<T>(batches: seq<seq<T>>): seq<T>
  {
    if batches == [] then [] else Flat(batches[..|batches| - 1]) + batches[|batches| - 1]
  }

  predicate Legal<T>(ops: seq<Op<T>>)
    decreases |ops|, 0
  {
    ops == [] || (Legal(ops[..|ops| - 1]) && Enabled(Run(ops[..|ops| - 1]), ops[|ops| - 1]))
  }

  function Run<T>(ops: seq<Op<T>>): State<T>
    requires Legal(ops)
    decreases |ops|, 1
  {
    if ops == [] then State([], [], [], []) else Apply(Run(ops[..|ops| - 1]), ops[|ops| - 1])
  }

  /** No summary is lost or duplicated. */
  ghost predicate ExactlyOnce<T>(s: State<T>)
  {
    multiset(s.acknowledged) + multiset(Flat(s.inFlight)) + multiset(s.outbox) == multiset(s.produced)
  }

  /** They are also in order. */
  ghost predicate InOrder<T>(s: State<T>)
  {
    s.acknowledged + Flat(s.inFlight) + s.outbox == s.produced
  }

  lemma {:induction false} FlatConcat<T>(a: seq<seq<T>>, b: seq<seq<T>>)
    ensures Flat(a + b) == Flat(a) + Flat(b)
  {
    if b == [] {
      assert a + b == a;
    } else {
      var n := |b| - 1;
      FlatConcat(a, b[..n]);
      FrontOf(a, b);
      Associates(Flat(a), Flat(b[..n]), b[n]);
    }
  }

  lemma FrontOf<T>(a: seq<T>, b: seq<T>)
    requires b != []
    ensures (a + b)[..|a + b| - 1] == a + b[..|b| - 1] && (a + b)[|a + b| - 1] == b[|b| - 1]
  {
  }

  lemma Associates<T>(a: seq<T>, b: seq<T>, c: seq<T>)
    ensures (a + b) + c == a + (b + c)
  {
  }

  lemma FlatOne<T>(b: seq<T>)
    ensures Flat([b]) == b
  {
    assert [b][..0] == [];
  }

  /** Taking a batch out. */
  lemma TakeOut<T>(batches: seq<seq<T>>, i: nat)
    requires i < |batches|
    ensures Flat(batches) == Flat(batches[..i]) + batches[i] + Flat(batches[i + 1..])
    ensures Flat(Without(batches, i)) == Flat(batches[..i]) + Flat(batches[i + 1..])
  {
    SplitAt(batches, i);
    FlatThree(batches[..i], batches[i], batches[i + 1..]);
    FlatConcat(batches[..i], batches[i + 1..]);
  }

  lemma SplitAt<T>(s: seq<T>, i: nat)
    requires i < |s|
    ensures s == s[..i] + [s[i]] + s[i + 1..]
  {
  }

  lemma FlatThree<T>(a: seq<seq<T>>, b: seq<T>, c: seq<seq<T>>)
    ensures Flat(a + [b] + c) == Flat(a) + b + Flat(c)
  {
    FlatConcat(a + [b], c);
    FlatConcat(a, [b]);
    FlatOne(b);
  }

  lemma StepKeepsEach<T>(s: State<T>, op: Op<T>)
    requires Enabled(s, op) && ExactlyOnce(s)
    ensures ExactlyOnce(Apply(s, op))
  {
    match op
    case Produce(items) =>
    case Drain =>
      FlatConcat(s.inFlight, [s.outbox]);
      FlatOne(s.outbox);
    case Acknowledge(i) => TakeOut(s.inFlight, i);
    case Requeue(i) => TakeOut(s.inFlight, i);
  }

  /** Exactly once, in every run: with any number of batches in flight, settled in any order. */
  lemma {:induction false} RunIsExactlyOnce<T>(ops: seq<Op<T>>)
    requires Legal(ops)
    ensures ExactlyOnce(Run(ops))
  {
    if ops != [] {
      RunIsExactlyOnce(ops[..|ops| - 1]);
      StepKeepsEach(Run(ops[..|ops| - 1]), ops[|ops| - 1]);
    }
  }

  /** Settling keeps the order if the oldest batch is acknowledged, or the newest is put back. */
  predicate Orderly<T>(s: State<T>, op: Op<T>)
    requires Enabled(s, op)
  {
    && (op.Acknowledge? ==> op.i == 0)
    && (op.Requeue? ==> op.i == |s.inFlight| - 1)
  }

  predicate AllOrderly<T>(ops: seq<Op<T>>)
    requires Legal(ops)
  {
    ops == [] || (AllOrderly(ops[..|ops| - 1]) && Orderly(Run(ops[..|ops| - 1]), ops[|ops| - 1]))
  }

  lemma StepKeepsOrder<T>(s: State<T>, op: Op<T>)
    requires Enabled(s, op) && InOrder(s) && Orderly(s, op)
    ensures InOrder(Apply(s, op))
  {
    match op
    case Produce(items) => assert s.acknowledged + Flat(s.inFlight) + (s.outbox + items) == s.produced + items;
    case Drain => DrainKeepsOrder(s);
    case Acknowledge(i) => FirstBatch(s);
    case Requeue(i) => LastBatch(s);
  }

  lemma DrainKeepsOrder<T>(s: State<T>)
    requires InOrder(s)
    ensures InOrder(Apply(s, Drain))
  {
    FlatConcat(s.inFlight, [s.outbox]);
    FlatOne(s.outbox);
    assert s.acknowledged + (Flat(s.inFlight) + s.outbox) + [] == s.produced;
  }

  /** Acknowledging a batch moves it in front of those drained earlier. */
  lemma AcknowledgeMoves<T>(s: State<T>, i: nat)
    requires i < |s.inFlight|
    ensures var earlier, batch, later := Flat(s.inFlight[..i]), s.inFlight[i], Flat(s.inFlight[i + 1..]);
      && (InOrder(s) <==> s.acknowledged + (earlier + batch) + (later + s.outbox) == s.produced)
      && (InOrder(Apply(s, Acknowledge(i))) <==> s.acknowledged + (batch + earlier) + (later + s.outbox) == s.produced)
  {
    TakeOut(s.inFlight, i);
    var earlier, batch, later := Flat(s.inFlight[..i]), s.inFlight[i], Flat(s.inFlight[i + 1..]);
    Regroup(s.acknowledged, earlier, batch, later, s.outbox);
    Regroup(s.acknowledged, batch, earlier, later, s.outbox);
  }

  lemma Regroup<T>(a: seq<T>, b: seq<T>, c: seq<T>, d: seq<T>, e: seq<T>)
    ensures a + (b + c + d) + e == a + (b + c) + (d + e)
    ensures (a + b) + (c + d) + e == a + (b + c) + (d + e)
  {
  }

  /** Putting a batch back moves it behind those drained later. */
  lemma RequeueMoves<T>(s: State<T>, i: nat)
    requires i < |s.inFlight|
    ensures var before, batch, later := s.acknowledged + Flat(s.inFlight[..i]), s.inFlight[i],
      Flat(s.inFlight[i + 1..]);
      && (InOrder(s) <==> before + (batch + later) + s.outbox == s.produced)
      && (InOrder(Apply(s, Requeue(i))) <==> before + (later + batch) + s.outbox == s.produced)
  {
    TakeOut(s.inFlight, i);
    RegroupBack(s.acknowledged, Flat(s.inFlight[..i]), s.inFlight[i], Flat(s.inFlight[i + 1..]), s.outbox);
  }

  lemma RegroupBack<T>(a: seq<T>, b: seq<T>, c: seq<T>, d: seq<T>, e: seq<T>)
    ensures a + (b + c + d) + e == (a + b) + (c + d) + e
    ensures a + (b + d) + (c + e) == (a + b) + (d + c) + e
  {
  }

  lemma FirstBatch<T>(s: State<T>)
    requires s.inFlight != [] && InOrder(s)
    ensures InOrder(Apply(s, Acknowledge(0)))
  {
    AcknowledgeMoves(s, 0);
    assert Flat(s.inFlight[..0]) == [];
    assert [] + s.inFlight[0] == s.inFlight[0] + [];
  }

  lemma LastBatch<T>(s: State<T>)
    requires s.inFlight != [] && InOrder(s)
    ensures InOrder(Apply(s, Requeue(|s.inFlight| - 1)))
  {
    var n := |s.inFlight| - 1;
    RequeueMoves(s, n);
    assert Flat(s.inFlight[n + 1..]) == [];
    assert [] + s.inFlight[n] == s.inFlight[n] + [];
  }

  lemma {:induction false} OrderlyRunsKeepOrder<T>(ops: seq<Op<T>>)
    requires Legal(ops) && AllOrderly(ops)
    ensures InOrder(Run(ops))
  {
    if ops != [] {
      OrderlyRunsKeepOrder(ops[..|ops| - 1]);
      StepKeepsOrder(Run(ops[..|ops| - 1]), ops[|ops| - 1]);
    }
  }

  // Exactly when a step keeps the order.

  predicate Distinct<T(==)>(s: seq<T>)
  {
    forall i, j :: 0 <= i < j < |s| ==> s[i] != s[j]
  }

  /** Two lists without common elements commute exactly if one is empty. */
  lemma CommuteIff<T>(a: seq<T>, b: seq<T>)
    requires Distinct(a + b)
    ensures a + b == b + a <==> a == [] || b == []
  {
    if a != [] && b != [] {
      assert (a + b)[0] == a[0] && (a + b)[|a|] == b[0] && (b + a)[0] == b[0];
    }
  }

  lemma Cancels<T>(front: seq<T>, x: seq<T>, y: seq<T>, back: seq<T>)
    ensures front + x + back == front + y + back <==> x == y
  {
    if front + x + back == front + y + back {
      assert |x| == |y|;
      assert (front + x + back)[|front|..|front| + |x|] == x && (front + y + back)[|front|..|front| + |y|] == y;
    }
  }

  lemma MiddleIsDistinct<T>(front: seq<T>, x: seq<T>, back: seq<T>)
    requires Distinct(front + x + back)
    ensures Distinct(x)
  {
    var all := front + x + back;
    forall i, j | 0 <= i < j < |x| ensures x[i] != x[j] {
      assert all[|front| + i] == x[i] && all[|front| + j] == x[j];
    }
  }

  /** With distinct summaries, putting a batch back keeps the order exactly if the batch is empty or
      nothing that was drained later is still in flight. */
  lemma RequeueKeepsOrderIff<T>(s: State<T>, i: nat)
    requires InOrder(s) && Distinct(s.produced) && i < |s.inFlight|
    ensures InOrder(Apply(s, Requeue(i))) <==> s.inFlight[i] == [] || Flat(s.inFlight[i + 1..]) == []
  {
    var before, batch, later := s.acknowledged + Flat(s.inFlight[..i]), s.inFlight[i], Flat(s.inFlight[i + 1..]);
    RequeueMoves(s, i);
    MiddleIsDistinct(before, batch + later, s.outbox);
    CommuteIff(batch, later);
    Cancels(before, later + batch, batch + later, s.outbox);
  }

  /** Likewise, acknowledging a batch keeps the order exactly if the batch is empty or nothing that was
      drained earlier is still in flight. */
  lemma AcknowledgeKeepsOrderIff<T>(s: State<T>, i: nat)
    requires InOrder(s) && Distinct(s.produced) && i < |s.inFlight|
    ensures InOrder(Apply(s, Acknowledge(i))) <==> s.inFlight[i] == [] || Flat(s.inFlight[..i]) == []
  {
    var earlier, batch, later := Flat(s.inFlight[..i]), s.inFlight[i], Flat(s.inFlight[i + 1..]);
    AcknowledgeMoves(s, i);
    MiddleIsDistinct(s.acknowledged, earlier + batch, later + s.outbox);
    CommuteIff(earlier, batch);
    Cancels(s.acknowledged, batch + earlier, earlier + batch, later + s.outbox);
  }

  ghost predicate Harmless<T>(s: State<T>, op: Op<T>)
    requires Enabled(s, op)
  {
    && (op.Acknowledge? ==> s.inFlight[op.i] == [] || Flat(s.inFlight[..op.i]) == [])
    && (op.Requeue? ==> s.inFlight[op.i] == [] || Flat(s.inFlight[op.i + 1..]) == [])
  }

  ghost predicate AllHarmless<T>(ops: seq<Op<T>>)
    requires Legal(ops)
  {
    ops == [] || (AllHarmless(ops[..|ops| - 1]) && Harmless(Run(ops[..|ops| - 1]), ops[|ops| - 1]))
  }

  ghost predicate AlwaysInOrder<T>(ops: seq<Op<T>>)
    requires Legal(ops)
  {
    InOrder(Run(ops)) && (ops == [] || AlwaysInOrder(ops[..|ops| - 1]))
  }

  /** A run of distinct summaries is in order throughout if and only if no step settles a batch past
      summaries that are still in flight. */
  lemma {:induction false} RunKeepsOrderIff<T>(ops: seq<Op<T>>)
    requires Legal(ops) && Distinct(Run(ops).produced)
    ensures AlwaysInOrder(ops) <==> AllHarmless(ops)
  {
    if ops != [] {
      var s, op := Run(ops[..|ops| - 1]), ops[|ops| - 1];
      assert Run(ops).produced[..|s.produced|] == s.produced;
      assert Distinct(s.produced) by {
        assert forall i :: 0 <= i < |s.produced| ==> s.produced[i] == Run(ops).produced[i];
      }
      RunKeepsOrderIff(ops[..|ops| - 1]);
      if InOrder(s) { HarmlessIff(s, op); }
    }
  }

  lemma HarmlessIff<T>(s: State<T>, op: Op<T>)
    requires Enabled(s, op) && InOrder(s) && Distinct(s.produced)
    ensures InOrder(Apply(s, op)) <==> Harmless(s, op)
  {
    match op
    case Acknowledge(i) => AcknowledgeKeepsOrderIff(s, i);
    case Requeue(i) => RequeueKeepsOrderIff(s, i);
    case _ => StepKeepsOrder(s, op);
  }

  /** One batch at a time. */
  predicate OneBatch<T>(ops: seq<Op<T>>)
    requires Legal(ops)
  {
    ops == [] || (OneBatch(ops[..|ops| - 1]) && |Run(ops).inFlight| <= 1)
  }

  lemma {:induction false} OneBatchIsOrderly<T>(ops: seq<Op<T>>)
    requires Legal(ops) && OneBatch(ops)
    ensures AllOrderly(ops) && |Run(ops).inFlight| <= 1
  {
    if ops != [] { OneBatchIsOrderly(ops[..|ops| - 1]); }
  }

  /** With one batch in flight, acknowledged ++ in flight ++ outbox is everything ever produced, in order. */
  lemma OneBatchKeepsOrder<T>(ops: seq<Op<T>>)
    requires Legal(ops) && OneBatch(ops)
    ensures InOrder(Run(ops))
  {
    OneBatchIsOrderly(ops);
    OrderlyRunsKeepOrder(ops);
  }

  /** With two batches in flight, putting the older one back first reverses them. */
  lemma TwoBatchesCanSwap<T>(x: T, y: T)
    requires x != y
    ensures var ops := [Produce([x]), Drain, Produce([y]), Drain, Requeue(0), Requeue(0)];
      Legal(ops) && Run(ops).outbox == [y, x] && Run(ops).produced == [x, y]
  {
    var ops: seq<Op<T>> := [];
    ops := OneMore(ops, Produce([x]));
    ops := OneMore(ops, Drain);
    ops := OneMore(ops, Produce([y]));
    ops := OneMore(ops, Drain);
    ops := OneMore(ops, Requeue(0));
    ops := OneMore(ops, Requeue(0));
    assert ops == [Produce([x]), Drain, Produce([y]), Drain, Requeue(0), Requeue(0)];
  }

  lemma OneMore<T>(ops: seq<Op<T>>, op: Op<T>) returns (more: seq<Op<T>>)
    requires Legal(ops) && Enabled(Run(ops), op)
    ensures more == ops + [op] && Legal(more) && Run(more) == Apply(Run(ops), op)
  {
    more := ops + [op];
    assert more[..|ops|] == ops;
  }
}
