/**
 * Sequential behaviour of the queue as a pure reference semantics over
 * sequences, the replay of an operation script on the linked-list queue,
 * and the single-threaded test script of queue_test.c.
 */
module QueueScript {
  import opened Wrappers
  import opened FifoQueue

  /** One call a single thread makes on the queue. */
  datatype Action<T> = Put(item: T) | Take | TryTake

  /** What a call reports: nothing for a put, the removed item together with
      the value of visited() right after the removal, or "nothing to take". */
  datatype Observation<T> = Appended | Removed(item: T, visited: nat) | Empty

  /** The abstract queue: pending items from head to tail and removals so far. */
  datatype Model<T> = Model(pending: seq<T>, visited: nat)

  /** The state initQueue establishes. */
  function Initial<T>(): (m: Model<T>)
  {
    Model([], 0)
  }

  /** A single caller never blocks: a blocking take needs a pending item. */
  predicate CanStep<T>(m: Model<T>, a: Action<T>)
  {
    !(a.Take? && m.pending == [])
  }

  function Step<T>(m: Model<T>, a: Action<T>): (r: (Model<T>, Observation<T>))
    requires CanStep(m, a)
  {
    match a
    case Put(x) => (Model(m.pending + [x], m.visited), Appended)
    case _ =>
      if m.pending == [] then (m, Empty)
      else (Model(m.pending[1..], m.visited + 1), Removed(m.pending[0], m.visited + 1))
  }

  predicate Runnable<T>(m: Model<T>, acts: seq<Action<T>>)
    decreases |acts|
  {
    acts == [] || (CanStep(m, acts[0]) && Runnable(Step(m, acts[0]).0, acts[1..]))
  }

  /** The final model and the observations of running `acts` from `m`. */
  function Run<T>(m: Model<T>, acts: seq<Action<T>>): (r: (Model<T>, seq<Observation<T>>))
    requires Runnable(m, acts)
    decreases |acts|
  {
    if acts == [] then (m, [])
    else
      var (m', o) := Step(m, acts[0]);
      var (fin, obs) := Run(m', acts[1..]);
      (fin, [o] + obs)
  }

  /** Running a non-empty script takes its first step, then runs the rest. */
  lemma RunUnfold<T>(m: Model<T>, acts: seq<Action<T>>)
    requires Runnable(m, acts) && acts != []
    ensures CanStep(m, acts[0]) && Runnable(Step(m, acts[0]).0, acts[1..])
    ensures Run(m, acts).1 == [Step(m, acts[0]).1] + Run(Step(m, acts[0]).0, acts[1..]).1
  {
  }

  /** The items of the put actions, in order. */
  function Puts<T>(acts: seq<Action<T>>): (items: seq<T>)
  {
    if acts == [] then []
    else (if acts[0].Put? then [acts[0].item] else []) + Puts(acts[1..])
  }

  /** The removed items among the observations, in order. */
  function Items<T>(obs: seq<Observation<T>>): (items: seq<T>)
  {
    if obs == [] then []
    else (if obs[0].Removed? then [obs[0].item] else []) + Items(obs[1..])
  }

  /** The visited() values reported with the removals, in order. */
  function Counts<T>(obs: seq<Observation<T>>): (counts: seq<nat>)
  {
    if obs == [] then []
    else (if obs[0].Removed? then [obs[0].visited] else []) + Counts(obs[1..])
  }

  /** FIFO: what was pending, followed by everything put, is exactly what
      was removed (in removal order) followed by what is still pending.
      Hence every item put is handed out at most once, in put order. */
  lemma {:induction false} RunIsFifo<T>(m: Model<T>, acts: seq<Action<T>>)
    requires Runnable(m, acts)
    ensures Items(Run(m, acts).1) + Run(m, acts).0.pending == m.pending + Puts(acts)
    decreases |acts|
  {
    if acts != [] {
      var (m', o) := Step(m, acts[0]);
      RunIsFifo(m', acts[1..]);
      var rest := Run(m', acts[1..]);
      assert Run(m, acts).1 == [o] + rest.1;
      assert Items([o] + rest.1) == (if o.Removed? then [o.item] else []) + Items(rest.1) by {
        assert ([o] + rest.1)[1..] == rest.1;
      }
      match acts[0]
      case Put(x) =>
        calc {
          Items(Run(m, acts).1) + Run(m, acts).0.pending;
          Items(rest.1) + rest.0.pending;
          m.pending + [x] + Puts(acts[1..]);
          m.pending + Puts(acts);
        }
      case _ =>
        if m.pending != [] {
          calc {
            Items(Run(m, acts).1) + Run(m, acts).0.pending;
            [m.pending[0]] + (Items(rest.1) + rest.0.pending);
            [m.pending[0]] + (m.pending[1..] + Puts(acts[1..]));
            { assert m.pending == [m.pending[0]] + m.pending[1..]; }
            m.pending + Puts(acts);
          }
        }
    }
  }

  /** Counters: the k-th removal (from 0) reports visited() == m.visited + k + 1,
      visited never decreases, and pending plus visited grows by one per put. */
  lemma {:induction false} RunCounts<T>(m: Model<T>, acts: seq<Action<T>>)
    requires Runnable(m, acts)
    ensures |Counts(Run(m, acts).1)| == Run(m, acts).0.visited - m.visited
    ensures forall k :: 0 <= k < |Counts(Run(m, acts).1)| ==>
      Counts(Run(m, acts).1)[k] == m.visited + k + 1
    ensures |Run(m, acts).0.pending| + Run(m, acts).0.visited == |m.pending| + m.visited + |Puts(acts)|
    decreases |acts|
  {
    if acts != [] {
      var (m', o) := Step(m, acts[0]);
      RunCounts(m', acts[1..]);
      var rest := Run(m', acts[1..]);
      assert Run(m, acts).1 == [o] + rest.1;
      assert Counts([o] + rest.1) == (if o.Removed? then [o.visited] else []) + Counts(rest.1) by {
        assert ([o] + rest.1)[1..] == rest.1;
      }
    }
  }

  /** The abstract model of a queue object. */
  ghost function ModelOf<T>(q: Queue<T>): (m: Model<T>)
    reads q
  {
    Model(q.contents, q.visitedCount)
  }

  /** One iteration of the test loop: perform `a` on `q` and observe it,
      reading visited() after every removal. */
  method Perform<T>(q: Queue<T>, a: Action<T>) returns (o: Observation<T>)
    requires q.Valid() && CanStep(ModelOf(q), a)
    modifies q, q.tail
    ensures q.Valid() && (q.tail == null || q.tail == old(q.tail) || fresh(q.tail))
    ensures Step(old(ModelOf(q)), a) == (ModelOf(q), o)
  {
    match a {
      case Put(x) =>
        q.Enqueue(x);
        o := Appended;
      case Take =>
        var x := q.Dequeue();
        var v := q.Visited();
        o := Removed(x, v);
      case TryTake =>
        var r := q.TryDequeue();
        if r.Some? {
          var v := q.Visited();
          o := Removed(r.value, v);
        } else {
          o := Empty;
        }
    }
  }

  /** Runs `acts` on a freshly initialised linked-list queue, as the
      single-threaded test does, and destroys the queue at the end. */
  method Replay<T>(acts: seq<Action<T>>) returns (obs: seq<Observation<T>>)
    requires Runnable(Initial(), acts)
    ensures obs == Run(Initial(), acts).1
  {
    var q := new Queue<T>();
    var i := 0;
    obs := [];
    while i < |acts|
      invariant 0 <= i <= |acts|
      invariant q.Valid() && fresh(q) && (q.tail == null || fresh(q.tail))
      invariant Runnable(ModelOf(q), acts[i..])
      invariant Run(Initial(), acts).1 == obs + Run(ModelOf(q), acts[i..]).1
    {
      ghost var m := ModelOf(q);
      RunUnfold(m, acts[i..]);
      assert acts[i..][0] == acts[i] && acts[i..][1..] == acts[i + 1..];
      ghost var later := Run(m, acts[i..]).1;
      var o := Perform(q, acts[i]);
      ghost var rest := Run(ModelOf(q), acts[i + 1..]).1;
      assert later == [o] + rest;
      assert (obs + [o]) + rest == obs + ([o] + rest);
      obs := obs + [o];
      i := i + 1;
    }
    var _ := q.Destroy();
  }

  /** The action list of the single-threaded test: k > 0 enqueues the k-th
      address, k <= 0 dequeues and expects the (-k)-th address. The 37
      entries are written in groups of three, the steps the proof below
      takes. */
  const TestActions: seq<int> :=
    [1, 2, 3] + [-1, 4, 5] + [6, -2, -3] + [-4, 7, 8] + [9, 10, 11] + [12, 13, 14] +
    [15, 16, 17] + [-5, -6, -7] + [-8, -9, -10] + [-11, -12, -13] + [18, 19, -14] +
    [-15, -16, -17] + [-18]

  function ToAction(k: int): (a: Action<int>)
  {
    if k > 0 then Put(k) else Take
  }

  function ToActions(ks: seq<int>): (r: seq<Action<int>>)
    ensures |r| == |ks| && forall i :: 0 <= i < |ks| ==> r[i] == ToAction(ks[i])
  {
    if ks == [] then [] else [ToAction(ks[0])] + ToActions(ks[1..])
  }

  lemma ToActionsAppend(a: seq<int>, b: seq<int>)
    ensures ToActions(a + b) == ToActions(a) + ToActions(b)
  {
  }

  /** A script of the test's shape: the action list `ks`, then two
      tryDequeue calls. */
  function ScriptOf(ks: seq<int>): (acts: seq<Action<int>>)
  {
    ToActions(ks) + [TryTake, TryTake]
  }

  /** The whole script of the single-threaded test. */
  function TestScript(): (acts: seq<Action<int>>)
  {
    ScriptOf(TestActions)
  }

  /** The checks the test makes inside its loop: after each dequeue, the
      returned item is the expected address and visited() equals its index. */
  predicate Passes(ks: seq<int>, obs: seq<Observation<int>>)
  {
    |ks| == |obs| &&
    (ks != [] ==>
      (ks[0] <= 0 ==> obs[0] == Removed(-ks[0], -ks[0])) && Passes(ks[1..], obs[1..]))
  }

  /** Passes is exactly the per-position check, in both directions. */
  lemma {:induction false} PassesEveryDequeue(ks: seq<int>, obs: seq<Observation<int>>)
    ensures Passes(ks, obs) <==>
      |ks| == |obs| && forall i :: 0 <= i < |ks| && ks[i] <= 0 ==> obs[i] == Removed(-ks[i], -ks[i])
    decreases |ks|
  {
    if ks != [] && |ks| == |obs| {
      PassesEveryDequeue(ks[1..], obs[1..]);
      if forall i :: 0 <= i < |ks| && ks[i] <= 0 ==> obs[i] == Removed(-ks[i], -ks[i]) {
        forall i | 0 <= i < |ks| - 1 && ks[1..][i] <= 0
          ensures obs[1..][i] == Removed(-ks[1..][i], -ks[1..][i])
        {
          assert ks[1..][i] == ks[i + 1] && obs[1..][i] == obs[i + 1];
        }
      }
      if Passes(ks, obs) {
        forall i | 0 <= i < |ks| && ks[i] <= 0
          ensures obs[i] == Removed(-ks[i], -ks[i])
        {
          if i > 0 {
            assert ks[1..][i - 1] == ks[i] && obs[1..][i - 1] == obs[i];
          }
        }
      }
    }
  }

  lemma {:induction false} PassesAppend(a: seq<int>, b: seq<int>, oa: seq<Observation<int>>, ob: seq<Observation<int>>)
    requires Passes(a, oa) && Passes(b, ob)
    ensures Passes(a + b, oa + ob)
    decreases |a|
  {
    if a != [] {
      PassesAppend(a[1..], b, oa[1..], ob);
      assert (a + b)[1..] == a[1..] + b && (oa + ob)[1..] == oa[1..] + ob;
    } else {
      assert a + b == b && oa + ob == ob;
    }
  }

  /** Running two scripts one after the other is running their concatenation. */
  lemma {:induction false} RunAppend<T>(m: Model<T>, a: seq<Action<T>>, b: seq<Action<T>>)
    requires Runnable(m, a) && Runnable(Run(m, a).0, b)
    ensures Runnable(m, a + b)
    ensures Run(m, a + b).0 == Run(Run(m, a).0, b).0
    ensures Run(m, a + b).1 == Run(m, a).1 + Run(Run(m, a).0, b).1
    decreases |a|
  {
    if a == [] {
      assert a + b == b;
    } else {
      var m' := Step(m, a[0]).0;
      RunAppend(m', a[1..], b);
      assert (a + b)[0] == a[0] && (a + b)[1..] == a[1..] + b;
      RunUnfold(m, a + b);
      RunUnfold(m, a);
    }
  }

  /** The test actions `ks` run from the initial model to `m`, observe
      `obs`, and pass the test's checks. */
  predicate ReplaysTo(ks: seq<int>, m: Model<int>, obs: seq<Observation<int>>)
  {
    Segment(ks, Initial(), m, obs)
  }

  /** The test actions `ks` run from `m` to `m'`, observe `obs` and pass the
      test's checks. */
  predicate Segment(ks: seq<int>, m: Model<int>, m': Model<int>, obs: seq<Observation<int>>)
  {
    var acts := ToActions(ks);
    Runnable(m, acts) && Run(m, acts).0 == m' && Run(m, acts).1 == obs && Passes(ks, obs)
  }

  lemma Extend(ks: seq<int>, m: Model<int>, obs: seq<Observation<int>>,
               more: seq<int>, m': Model<int>, moreObs: seq<Observation<int>>)
    requires ReplaysTo(ks, m, obs) && Segment(more, m, m', moreObs)
    ensures ReplaysTo(ks + more, m', obs + moreObs)
  {
    ToActionsAppend(ks, more);
    RunAppend(Initial(), ToActions(ks), ToActions(more));
    PassesAppend(ks, more, obs, moreObs);
  }

  // The test actions, three at a time, with the model before and after.

  lemma TestSegment0()
    ensures Segment([1, 2, 3], Model([], 0), Model([1, 2, 3], 0), [Appended, Appended, Appended])
  {
  }

  lemma TestSegment1()
    ensures Segment([-1, 4, 5], Model([1, 2, 3], 0), Model([2, 3, 4, 5], 1), [Removed(1, 1), Appended, Appended])
  {
  }

  lemma TestSegment2()
    ensures Segment([6, -2, -3], Model([2, 3, 4, 5], 1), Model([4, 5, 6], 3), [Appended, Removed(2, 2), Removed(3, 3)])
  {
  }

  lemma TestSegment3()
    ensures Segment([-4, 7, 8], Model([4, 5, 6], 3), Model([5, 6, 7, 8], 4), [Removed(4, 4), Appended, Appended])
  {
  }

  lemma TestSegment4()
    ensures Segment([9, 10, 11], Model([5, 6, 7, 8], 4), Model([5, 6, 7, 8, 9, 10, 11], 4), [Appended, Appended, Appended])
  {
  }

  lemma TestSegment5()
    ensures Segment([12, 13, 14], Model([5, 6, 7, 8, 9, 10, 11], 4), Model([5, 6, 7, 8, 9, 10, 11, 12, 13, 14], 4), [Appended, Appended, Appended])
  {
  }

  lemma TestSegment6()
    ensures Segment([15, 16, 17], Model([5, 6, 7, 8, 9, 10, 11, 12, 13, 14], 4), Model([5, 6, 7, 8, 9, 10, 11, 12, 13, 14, 15, 16, 17], 4), [Appended, Appended, Appended])
  {
  }

  lemma TestSegment7()
    ensures Segment([-5, -6, -7], Model([5, 6, 7, 8, 9, 10, 11, 12, 13, 14, 15, 16, 17], 4), Model([8, 9, 10, 11, 12, 13, 14, 15, 16, 17], 7), [Removed(5, 5), Removed(6, 6), Removed(7, 7)])
  {
  }

  lemma TestSegment8()
    ensures Segment([-8, -9, -10], Model([8, 9, 10, 11, 12, 13, 14, 15, 16, 17], 7), Model([11, 12, 13, 14, 15, 16, 17], 10), [Removed(8, 8), Removed(9, 9), Removed(10, 10)])
  {
  }

  lemma TestSegment9()
    ensures Segment([-11, -12, -13], Model([11, 12, 13, 14, 15, 16, 17], 10), Model([14, 15, 16, 17], 13), [Removed(11, 11), Removed(12, 12), Removed(13, 13)])
  {
  }

  lemma TestSegment10()
    ensures Segment([18, 19, -14], Model([14, 15, 16, 17], 13), Model([15, 16, 17, 18, 19], 14), [Appended, Appended, Removed(14, 14)])
  {
  }

  lemma TestSegment11()
    ensures Segment([-15, -16, -17], Model([15, 16, 17, 18, 19], 14), Model([18, 19], 17), [Removed(15, 15), Removed(16, 16), Removed(17, 17)])
  {
  }

  lemma TestSegment12()
    ensures Segment([-18], Model([18, 19], 17), Model([19], 18), [Removed(18, 18)])
  {
  }

  lemma TestLoopFirstHalf()
    ensures ReplaysTo([1, 2, 3] + [-1, 4, 5] + [6, -2, -3] + [-4, 7, 8] + [9, 10, 11] + [12, 13, 14], Model([5, 6, 7, 8, 9, 10, 11, 12, 13, 14], 4), [Appended, Appended, Appended] + [Removed(1, 1), Appended, Appended] + [Appended, Removed(2, 2), Removed(3, 3)] + [Removed(4, 4), Appended, Appended] + [Appended, Appended, Appended] + [Appended, Appended, Appended])
  {
    TestSegment0();
    Extend([], Initial(), [], [1, 2, 3], Model([1, 2, 3], 0), [Appended, Appended, Appended]);
    TestSegment1();
    Extend([1, 2, 3], Model([1, 2, 3], 0), [Appended, Appended, Appended], [-1, 4, 5], Model([2, 3, 4, 5], 1), [Removed(1, 1), Appended, Appended]);
    TestSegment2();
    Extend([1, 2, 3] + [-1, 4, 5], Model([2, 3, 4, 5], 1), [Appended, Appended, Appended] + [Removed(1, 1), Appended, Appended], [6, -2, -3], Model([4, 5, 6], 3), [Appended, Removed(2, 2), Removed(3, 3)]);
    TestSegment3();
    Extend([1, 2, 3] + [-1, 4, 5] + [6, -2, -3], Model([4, 5, 6], 3), [Appended, Appended, Appended] + [Removed(1, 1), Appended, Appended] + [Appended, Removed(2, 2), Removed(3, 3)], [-4, 7, 8], Model([5, 6, 7, 8], 4), [Removed(4, 4), Appended, Appended]);
    TestSegment4();
    Extend([1, 2, 3] + [-1, 4, 5] + [6, -2, -3] + [-4, 7, 8], Model([5, 6, 7, 8], 4), [Appended, Appended, Appended] + [Removed(1, 1), Appended, Appended] + [Appended, Removed(2, 2), Removed(3, 3)] + [Removed(4, 4), Appended, Appended], [9, 10, 11], Model([5, 6, 7, 8, 9, 10, 11], 4), [Appended, Appended, Appended]);
    TestSegment5();
    Extend([1, 2, 3] + [-1, 4, 5] + [6, -2, -3] + [-4, 7, 8] + [9, 10, 11], Model([5, 6, 7, 8, 9, 10, 11], 4), [Appended, Appended, Appended] + [Removed(1, 1), Appended, Appended] + [Appended, Removed(2, 2), Removed(3, 3)] + [Removed(4, 4), Appended, Appended] + [Appended, Appended, Appended], [12, 13, 14], Model([5, 6, 7, 8, 9, 10, 11, 12, 13, 14], 4), [Appended, Appended, Appended]);
  }

  lemma TestLoopSecondHalf(ks: seq<int>, obs: seq<Observation<int>>)
    requires ReplaysTo(ks, Model([5, 6, 7, 8, 9, 10, 11, 12, 13, 14], 4), obs)
    ensures ReplaysTo(ks + [15, 16, 17] + [-5, -6, -7] + [-8, -9, -10] + [-11, -12, -13] + [18, 19, -14] + [-15, -16, -17] + [-18], Model([19], 18), obs + [Appended, Appended, Appended] + [Removed(5, 5), Removed(6, 6), Removed(7, 7)] + [Removed(8, 8), Removed(9, 9), Removed(10, 10)] + [Removed(11, 11), Removed(12, 12), Removed(13, 13)] + [Appended, Appended, Removed(14, 14)] + [Removed(15, 15), Removed(16, 16), Removed(17, 17)] + [Removed(18, 18)])
  {
    TestSegment6();
    Extend(ks, Model([5, 6, 7, 8, 9, 10, 11, 12, 13, 14], 4), obs, [15, 16, 17], Model([5, 6, 7, 8, 9, 10, 11, 12, 13, 14, 15, 16, 17], 4), [Appended, Appended, Appended]);
    TestSegment7();
    Extend(ks + [15, 16, 17], Model([5, 6, 7, 8, 9, 10, 11, 12, 13, 14, 15, 16, 17], 4), obs + [Appended, Appended, Appended], [-5, -6, -7], Model([8, 9, 10, 11, 12, 13, 14, 15, 16, 17], 7), [Removed(5, 5), Removed(6, 6), Removed(7, 7)]);
    TestSegment8();
    Extend(ks + [15, 16, 17] + [-5, -6, -7], Model([8, 9, 10, 11, 12, 13, 14, 15, 16, 17], 7), obs + [Appended, Appended, Appended] + [Removed(5, 5), Removed(6, 6), Removed(7, 7)], [-8, -9, -10], Model([11, 12, 13, 14, 15, 16, 17], 10), [Removed(8, 8), Removed(9, 9), Removed(10, 10)]);
    TestSegment9();
    Extend(ks + [15, 16, 17] + [-5, -6, -7] + [-8, -9, -10], Model([11, 12, 13, 14, 15, 16, 17], 10), obs + [Appended, Appended, Appended] + [Removed(5, 5), Removed(6, 6), Removed(7, 7)] + [Removed(8, 8), Removed(9, 9), Removed(10, 10)], [-11, -12, -13], Model([14, 15, 16, 17], 13), [Removed(11, 11), Removed(12, 12), Removed(13, 13)]);
    TestSegment10();
    Extend(ks + [15, 16, 17] + [-5, -6, -7] + [-8, -9, -10] + [-11, -12, -13], Model([14, 15, 16, 17], 13), obs + [Appended, Appended, Appended] + [Removed(5, 5), Removed(6, 6), Removed(7, 7)] + [Removed(8, 8), Removed(9, 9), Removed(10, 10)] + [Removed(11, 11), Removed(12, 12), Removed(13, 13)], [18, 19, -14], Model([15, 16, 17, 18, 19], 14), [Appended, Appended, Removed(14, 14)]);
    TestSegment11();
    Extend(ks + [15, 16, 17] + [-5, -6, -7] + [-8, -9, -10] + [-11, -12, -13] + [18, 19, -14], Model([15, 16, 17, 18, 19], 14), obs + [Appended, Appended, Appended] + [Removed(5, 5), Removed(6, 6), Removed(7, 7)] + [Removed(8, 8), Removed(9, 9), Removed(10, 10)] + [Removed(11, 11), Removed(12, 12), Removed(13, 13)] + [Appended, Appended, Removed(14, 14)], [-15, -16, -17], Model([18, 19], 17), [Removed(15, 15), Removed(16, 16), Removed(17, 17)]);
    TestSegment12();
    Extend(ks + [15, 16, 17] + [-5, -6, -7] + [-8, -9, -10] + [-11, -12, -13] + [18, 19, -14] + [-15, -16, -17], Model([18, 19], 17), obs + [Appended, Appended, Appended] + [Removed(5, 5), Removed(6, 6), Removed(7, 7)] + [Removed(8, 8), Removed(9, 9), Removed(10, 10)] + [Removed(11, 11), Removed(12, 12), Removed(13, 13)] + [Appended, Appended, Removed(14, 14)] + [Removed(15, 15), Removed(16, 16), Removed(17, 17)], [-18], Model([19], 18), [Removed(18, 18)]);
  }

  /** The loop of the test runs from the initial queue to the queue holding
      only the 19th pointer, and all its checks pass. */
  lemma TestLoop() returns (obs: seq<Observation<int>>)
    ensures ReplaysTo(TestActions, Model([19], 18), obs)
  {
    TestLoopFirstHalf();
    TestLoopSecondHalf([1, 2, 3] + [-1, 4, 5] + [6, -2, -3] + [-4, 7, 8] + [9, 10, 11] + [12, 13, 14], [Appended, Appended, Appended] + [Removed(1, 1), Appended, Appended] + [Appended, Removed(2, 2), Removed(3, 3)] + [Removed(4, 4), Appended, Appended] + [Appended, Appended, Appended] + [Appended, Appended, Appended]);
    obs := [Appended, Appended, Appended] + [Removed(1, 1), Appended, Appended] + [Appended, Removed(2, 2), Removed(3, 3)] + [Removed(4, 4), Appended, Appended] + [Appended, Appended, Appended] + [Appended, Appended, Appended] + [Appended, Appended, Appended] + [Removed(5, 5), Removed(6, 6), Removed(7, 7)] + [Removed(8, 8), Removed(9, 9), Removed(10, 10)] + [Removed(11, 11), Removed(12, 12), Removed(13, 13)] + [Appended, Appended, Removed(14, 14)] + [Removed(15, 15), Removed(16, 16), Removed(17, 17)] + [Removed(18, 18)];
  }

  /** The two tryDequeue calls after the loop. */
  lemma TestTries()
    ensures Runnable(Model([19], 18), [TryTake, TryTake])
    ensures Run(Model([19], 18), [TryTake, TryTake]).0 == Model([], 19)
    ensures Run(Model([19], 18), [TryTake, TryTake]).1 == [Removed(19, 19), Empty]
  {
  }

  /** The checks of the test for the action list `ks`: every dequeue of the
      loop returns the expected address and visited() then equals that
      index; the first tryDequeue succeeds with the 19th address and the
      second fails. */
  predicate ChecksPass(ks: seq<int>, obs: seq<Observation<int>>)
  {
    |obs| == |ks| + 2 &&
    (forall i :: 0 <= i < |ks| && ks[i] <= 0 ==> obs[i] == Removed(-ks[i], -ks[i])) &&
    obs[|ks|].Removed? && obs[|ks|].item == 19 &&
    obs[|ks| + 1] == Empty
  }

  predicate TestPasses(obs: seq<Observation<int>>)
  {
    ChecksPass(TestActions, obs)
  }

  /** An action list whose loop passes and leaves only the 19th pointer
      pending passes the whole test. */
  lemma ScriptPasses(ks: seq<int>, loop: seq<Observation<int>>)
    requires ReplaysTo(ks, Model([19], 18), loop)
    ensures Runnable(Initial(), ScriptOf(ks))
    ensures ChecksPass(ks, Run(Initial(), ScriptOf(ks)).1)
  {
    TestTries();
    RunAppend(Initial(), ToActions(ks), [TryTake, TryTake]);
    PassesEveryDequeue(ks, loop);
    var obs := Run(Initial(), ScriptOf(ks)).1;
    assert obs == loop + [Removed(19, 19), Empty];
    forall i | 0 <= i < |ks| && ks[i] <= 0
      ensures obs[i] == Removed(-ks[i], -ks[i])
    {
      assert obs[i] == loop[i];
    }
  }

  /** The single-threaded test never blocks and passes against the model. */
  lemma SingleThreadedTest()
    ensures Runnable(Initial(), TestScript())
    ensures TestPasses(Run(Initial(), TestScript()).1)
  {
    var loop := TestLoop();
    ScriptPasses(TestActions, loop);
  }

  /** ... and therefore passes against the linked-list queue. */
  method RunSingleThreadedTest() returns (obs: seq<Observation<int>>)
    ensures TestPasses(obs)
  {
    SingleThreadedTest();
    obs := Replay(TestScript());
  }
}
