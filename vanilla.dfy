/**
 * VanillaController (models/vanilla.py): the time-step loop that couples a
 * network to a neural data structure.
 *
 * The network is the opaque function `network.compute`, (input, previous read)
 * -> (output, (v, u, d)). The data structure is the opaque transition
 * `structStep`, (structure state, (v, u, d)) -> (new state, new read). Both are
 * fixed when the controller is built.
 *
 * The input tensor (batch x time x width in the source) is held time-major,
 * as one batch x width slice per time step, so `xs[:, t, :]` is `xs[t]`
 * and `xs.size(1)` is `|xs|`.
 *
 * As in network_base.dfy, a specification on values (Session and the functions
 * over it) comes first, and the class is proved to follow it.
 */
module Vanilla {
  import opened Wrappers
  import opened Tensors
  import opened NetworkBase

  /** The controller's session state; every field is None until the first
      initialisation, as in the source's constructor. */
  datatype Session<R, Y, S> = Session(
    bufferIn: Option<seq<Matrix>>,
    bufferOut: Option<seq<Y>>,
    t: nat,
    zeros: Option<Matrix>,
    read: Option<R>,
    structState: Option<S>)

  /** The state the constructor leaves behind. */
  function Idle<R, Y, S>(): (s: Session<R, Y, S>)
    ensures Consistent(s) && s.read.None? && s.bufferOut.None?
  {
    Session(None, None, 0, None, None, None)
  }

  /** The invariant every reachable session keeps: the cursor never passes the
      input length, and a read value exists only in an initialised session. */
  predicate Consistent<R, Y, S>(s: Session<R, Y, S>) {
    (match s.bufferIn
     case None => s.t == 0
     case Some(xs) => s.t <= |xs|) &&
    (s.read.Some? ==>
       s.bufferIn.Some? && s.bufferOut.Some? && s.zeros.Some? && s.structState.Some?)
  }

  /** A session on which forward succeeds. */
  predicate Ready<R, Y, S>(s: Session<R, Y, S>) {
    Consistent(s) && s.read.Some?
  }

  /** The input seen at time k: slice k while the input lasts, the pad afterwards. */
  function InputAt(xs: seq<Matrix>, zeros: Matrix, k: nat): Matrix {
    if k < |xs| then xs[k] else zeros
  }

  /** _read_input: the next input and the new cursor. */
  function NextInput(xs: seq<Matrix>, zeros: Matrix, t: nat): (r: (Matrix, nat))
    requires t <= |xs|
    ensures r.0 == InputAt(xs, zeros, t)
    ensures r.1 == Min(t + 1, |xs|) && r.1 <= |xs|
  {
    if t < |xs| then (xs[t], t + 1) else (zeros, t)
  }

  /** _init_buffer(batch_size, xs) */
  function AfterInitBuffer<R, Y, S>(s: Session<R, Y, S>, inputSize: nat, batchSize: nat, xs: seq<Matrix>)
    : (r: Session<R, Y, S>)
    ensures Consistent(s) ==> Consistent(r)
  {
    s.(bufferIn := Some(xs), bufferOut := Some([]), t := 0, zeros := Some(Zeros(batchSize, inputSize)))
  }

  /** init_controller(batch_size, xs): _init_buffer, plus a fresh structure and
      initial read supplied by the caller. It sets every field of the session,
      so the result does not depend on the session before. */
  function AfterInitController<R, Y, S>(inputSize: nat, batchSize: nat,
                                         xs: seq<Matrix>, struct0: S, read0: R): (r: Session<R, Y, S>)
    ensures Ready(r)
  {
    AfterInitBuffer(Idle(), inputSize, batchSize, xs).(structState := Some(struct0), read := Some(read0))
  }

  /** What one successful forward call did. */
  datatype StepRecord<R, Y, E, S> = StepRecord(
    input: Matrix,
    prevRead: R,
    output: Y,
    instr: Instr<E>,
    structBefore: S,
    structAfter: S,
    newRead: R)

  /** One successful forward call: next input, network, structure, output. */
  function Step<R, Y, E, S>(compute: (Matrix, R) -> (Y, Instr<E>), structStep: (S, Instr<E>) -> (S, R),
                            s: Session<R, Y, S>): (r: (Session<R, Y, S>, StepRecord<R, Y, E, S>))
    requires Ready(s)
    ensures Ready(r.0)
  {
    var (x, t') := NextInput(s.bufferIn.value, s.zeros.value, s.t);
    var (y, instr) := compute(x, s.read.value);
    var (st', r') := structStep(s.structState.value, instr);
    (s.(t := t', bufferOut := Some(s.bufferOut.value + [y]), read := Some(r'), structState := Some(st')),
     StepRecord(x, s.read.value, y, instr, s.structState.value, st', r'))
  }

  /** n successful forward calls in a row, with what each of them did. */
  function Run<R, Y, E, S>(compute: (Matrix, R) -> (Y, Instr<E>), structStep: (S, Instr<E>) -> (S, R),
                           s: Session<R, Y, S>, n: nat): (r: (Session<R, Y, S>, seq<StepRecord<R, Y, E, S>>))
    requires Ready(s)
    ensures Ready(r.0) && |r.1| == n
    decreases n
  {
    if n == 0 then (s, [])
    else
      var (s', recs) := Run(compute, structStep, s, n - 1);
      var (s'', rec) := Step(compute, structStep, s');
      (s'', recs + [rec])
  }

  function Inputs<R, Y, E, S>(recs: seq<StepRecord<R, Y, E, S>>): (xs: seq<Matrix>)
    ensures |xs| == |recs| && forall i :: 0 <= i < |recs| ==> xs[i] == recs[i].input
  {
    seq(|recs|, i requires 0 <= i < |recs| => recs[i].input)
  }

  function Outputs<R, Y, E, S>(recs: seq<StepRecord<R, Y, E, S>>): (ys: seq<Y>)
    ensures |ys| == |recs| && forall i :: 0 <= i < |recs| ==> ys[i] == recs[i].output
  {
    seq(|recs|, i requires 0 <= i < |recs| => recs[i].output)
  }

  function Instrs<R, Y, E, S>(recs: seq<StepRecord<R, Y, E, S>>): (ins: seq<Instr<E>>)
    ensures |ins| == |recs| && forall i :: 0 <= i < |recs| ==> ins[i] == recs[i].instr
  {
    seq(|recs|, i requires 0 <= i < |recs| => recs[i].instr)
  }

  /** The steps are linked: each passes on the read and the structure state the
      one before it produced, starting from those of s and ending in those of s'. */
  ghost predicate Chained<R, Y, E, S>(s: Session<R, Y, S>, recs: seq<StepRecord<R, Y, E, S>>, s': Session<R, Y, S>) {
    if recs == [] then s'.read == s.read && s'.structState == s.structState
    else
      s.read.Some? && s.structState.Some? &&
      recs[0].prevRead == s.read.value && recs[0].structBefore == s.structState.value &&
      (forall i :: 0 < i < |recs| ==>
         recs[i].prevRead == recs[i - 1].newRead && recs[i].structBefore == recs[i - 1].structAfter) &&
      s'.read == Some(recs[|recs| - 1].newRead) && s'.structState == Some(recs[|recs| - 1].structAfter)
  }

  /** n forward calls from any ready session: the cursor moves by n but stops at
      the input length, step i sees the input at time t + i, and each step adds
      its output at the end of the output buffer. */
  lemma {:induction false} RunSteps<R, Y, E, S>(compute: (Matrix, R) -> (Y, Instr<E>),
                                                structStep: (S, Instr<E>) -> (S, R),
                                                s: Session<R, Y, S>, n: nat)
    requires Ready(s)
    ensures var r := Run(compute, structStep, s, n);
      r.0.bufferIn == s.bufferIn && r.0.zeros == s.zeros && r.0.t == Min(s.t + n, |s.bufferIn.value|)
    ensures var r := Run(compute, structStep, s, n);
      r.0.bufferOut == Some(s.bufferOut.value + Outputs(r.1))
    ensures var recs := Run(compute, structStep, s, n).1;
      forall i :: 0 <= i < n ==> recs[i].input == InputAt(s.bufferIn.value, s.zeros.value, s.t + i)
    decreases n
  {
    if n > 0 {
      RunSteps(compute, structStep, s, n - 1);
      var (s1, recs1) := Run(compute, structStep, s, n - 1);
      var (s2, rec) := Step(compute, structStep, s1);
      var recs := recs1 + [rec];
      assert Run(compute, structStep, s, n) == (s2, recs);
      var xs, z := s.bufferIn.value, s.zeros.value;
      assert rec.input == InputAt(xs, z, s.t + n - 1) by {
        assert rec.input == InputAt(xs, z, s1.t);
        assert s1.t == Min(s.t + n - 1, |xs|);
      }
      assert s1.bufferOut == Some(s.bufferOut.value + Outputs(recs1));
      assert s2.bufferOut == Some(s1.bufferOut.value + [rec.output]);
      assert Outputs(recs) == Outputs(recs1) + [rec.output];
      assert s.bufferOut.value + Outputs(recs) == (s.bufferOut.value + Outputs(recs1)) + [rec.output];
      forall i | 0 <= i < n - 1
        ensures recs[i].input == InputAt(xs, z, s.t + i)
      {
        assert recs[i] == recs1[i];
      }
    } else {
      assert s.bufferOut.value + Outputs<R, Y, E, S>([]) == s.bufferOut.value;
    }
  }

  /** n forward calls from any ready session: every step applies the network to
      its input and the previous read and the structure to the network's
      instructions, and the reads and structure states are threaded from one
      step to the next. */
  lemma {:induction false} RunChained<R, Y, E, S>(compute: (Matrix, R) -> (Y, Instr<E>),
                                                  structStep: (S, Instr<E>) -> (S, R),
                                                  s: Session<R, Y, S>, n: nat)
    requires Ready(s)
    ensures var recs := Run(compute, structStep, s, n).1;
      forall i :: 0 <= i < n ==>
        (recs[i].output, recs[i].instr) == compute(recs[i].input, recs[i].prevRead) &&
        (recs[i].structAfter, recs[i].newRead) == structStep(recs[i].structBefore, recs[i].instr)
    ensures var r := Run(compute, structStep, s, n);
      Chained(s, r.1, r.0)
    decreases n
  {
    if n > 0 {
      RunChained(compute, structStep, s, n - 1);
      var (s1, recs1) := Run(compute, structStep, s, n - 1);
      var (s2, rec) := Step(compute, structStep, s1);
      var recs := recs1 + [rec];
      assert Run(compute, structStep, s, n) == (s2, recs);
      forall i | 0 <= i < n - 1
        ensures recs[i] == recs1[i]
      {
      }
      assert rec.prevRead == s1.read.value && rec.structBefore == s1.structState.value;
      if n > 1 {
        forall i | 0 < i < n
          ensures recs[i].prevRead == recs[i - 1].newRead && recs[i].structBefore == recs[i - 1].structAfter
        {
          if i == n - 1 {
            assert recs[i - 1] == recs1[n - 2];
          }
        }
      }
      assert Chained(s, recs, s2);
    }
  }

  function Repeat<T>(x: T, k: nat): (r: seq<T>)
    ensures |r| == k && forall i :: 0 <= i < k ==> r[i] == x
  {
    seq(k, _ => x)
  }

  /** n forward calls after init_controller(batch_size, xs): the cursor is
      min(n, |xs|); the network was fed xs in order and then zero pads of shape
      batch_size x input_size; the first step got the initial read and
      structure; the output buffer holds exactly the n outputs, in order. */
  lemma RunFromInit<R, Y, E, S>(compute: (Matrix, R) -> (Y, Instr<E>), structStep: (S, Instr<E>) -> (S, R),
                                inputSize: nat, batchSize: nat,
                                xs: seq<Matrix>, struct0: S, read0: R, n: nat)
    ensures var r := Run(compute, structStep, AfterInitController(inputSize, batchSize, xs, struct0, read0), n);
      r.0.t == Min(n, |xs|)
    ensures var recs := Run(compute, structStep, AfterInitController(inputSize, batchSize, xs, struct0, read0), n).1;
      var k := Min(n, |xs|);
      Inputs(recs) == xs[..k] + Repeat(Zeros(batchSize, inputSize), n - k)
    ensures var r := Run(compute, structStep, AfterInitController(inputSize, batchSize, xs, struct0, read0), n);
      r.0.bufferOut == Some(Outputs(r.1)) && |r.0.bufferOut.value| == n
    ensures var recs := Run(compute, structStep, AfterInitController(inputSize, batchSize, xs, struct0, read0), n).1;
      n > 0 ==> recs[0].prevRead == read0 && recs[0].structBefore == struct0
  {
    var s0 := AfterInitController(inputSize, batchSize, xs, struct0, read0);
    var z := Zeros(batchSize, inputSize);
    assert s0.bufferIn == Some(xs) && s0.zeros == Some(z) && s0.t == 0;
    assert s0.bufferOut == Some([]) && s0.read == Some(read0) && s0.structState == Some(struct0);
    RunSteps(compute, structStep, s0, n);
    RunChained(compute, structStep, s0, n);
    var r := Run(compute, structStep, s0, n);
    var recs := r.1;
    var k := Min(n, |xs|);
    var expected := xs[..k] + Repeat(z, n - k);
    assert |expected| == n;
    forall i | 0 <= i < n
      ensures Inputs(recs)[i] == expected[i]
    {
      assert recs[i].input == InputAt(xs, z, i);
    }
    assert Inputs(recs) == expected;
    assert [] + Outputs(recs) == Outputs(recs);
  }

  /** read_output on a list: the oldest entry and the rest, or None on an empty list. */
  function PopFront<Y>(buf: seq<Y>): (Option<Y>, seq<Y>) {
    if |buf| > 0 then (Some(buf[0]), buf[1..]) else (None, buf)
  }

  /** k read_output calls in a row: what they returned, and what is left. */
  function Drain<Y>(buf: seq<Y>, k: nat): (r: (seq<Option<Y>>, seq<Y>))
    ensures |r.0| == k
    decreases k
  {
    if k == 0 then ([], buf)
    else
      var (first, rest) := PopFront(buf);
      var (more, left) := Drain(rest, k - 1);
      ([first] + more, left)
  }

  function Somes<T>(xs: seq<T>): (r: seq<Option<T>>)
    ensures |r| == |xs| && forall i :: 0 <= i < |xs| ==> r[i] == Some(xs[i])
  {
    seq(|xs|, i requires 0 <= i < |xs| => Some(xs[i]))
  }

  /** First in, first out: k reads return the oldest min(k, |buf|) entries in
      order, then None for every read of an empty buffer; what is left are the
      entries not yet read. */
  lemma {:induction false} DrainFifo<Y>(buf: seq<Y>, k: nat)
    ensures var m := Min(k, |buf|);
      Drain(buf, k) == (Somes(buf[..m]) + Repeat<Option<Y>>(None, k - m), buf[m..])
    decreases k
  {
    var m := Min(k, |buf|);
    if k == 0 {
      assert Somes(buf[..0]) + Repeat<Option<Y>>(None, 0) == [];
    } else if |buf| == 0 {
      DrainFifo(buf, k - 1);
      assert PopFront(buf) == (None, buf);
      assert Repeat<Option<Y>>(None, k) == [None] + Repeat<Option<Y>>(None, k - 1);
      assert buf[0..] == buf;
      assert m == 0;
      var d := Drain(buf, k - 1);
      assert Min(k - 1, |buf|) == 0;
      assert Somes(buf[..0]) == [];
      assert Somes(buf[..0]) + Repeat<Option<Y>>(None, k - 1) == Repeat<Option<Y>>(None, k - 1);
      assert d == (Repeat<Option<Y>>(None, k - 1), buf);
      assert Drain(buf, k) == ([None] + d.0, d.1);
      assert Somes(buf[..m]) + Repeat<Option<Y>>(None, k - m) == Repeat<Option<Y>>(None, k);
    } else {
      var rest := buf[1..];
      DrainFifo(rest, k - 1);
      assert Min(k - 1, |rest|) == m - 1;
      assert PopFront(buf) == (Some(buf[0]), rest);
      assert rest[..m - 1] == buf[1..m];
      assert rest[m - 1..] == buf[m..];
      assert Somes(buf[..m]) == [Some(buf[0])] + Somes(buf[1..m]);
      var tail := Repeat<Option<Y>>(None, k - m);
      assert [Some(buf[0])] + (Somes(buf[1..m]) + tail) == Somes(buf[..m]) + tail;
    }
  }

  /** The outputs come out of read_output in exactly the order forward made
      them: after init_controller and n forward calls, k reads return the
      outputs of the first min(k, n) steps, then None. */
  lemma OutputsInOrder<R, Y, E, S>(compute: (Matrix, R) -> (Y, Instr<E>), structStep: (S, Instr<E>) -> (S, R),
                                   inputSize: nat, batchSize: nat,
                                   xs: seq<Matrix>, struct0: S, read0: R, n: nat, k: nat)
    ensures var s0 := AfterInitController(inputSize, batchSize, xs, struct0, read0);
      var (s', recs) := Run(compute, structStep, s0, n);
      var m := Min(k, n);
      s'.bufferOut.Some? &&
      Drain(s'.bufferOut.value, k).0 == Somes(Outputs(recs)[..m]) + Repeat<Option<Y>>(None, k - m)
  {
    RunFromInit(compute, structStep, inputSize, batchSize, xs, struct0, read0, n);
    var s0 := AfterInitController(inputSize, batchSize, xs, struct0, read0);
    var (s', recs) := Run(compute, structStep, s0, n);
    DrainFifo(s'.bufferOut.value, k);
  }

  /** One more step of a run, and the log entry it adds. */
  lemma RunLoggedSnoc<R, Y, E, S>(compute: (Matrix, R) -> (Y, Instr<E>), structStep: (S, Instr<E>) -> (S, R),
                                  s: Session<R, Y, S>, log: LogState<E>, j: nat)
    requires Ready(s) && WellFormed(log)
    ensures var r := Run(compute, structStep, s, j);
      var step := Step(compute, structStep, r.0);
      Run(compute, structStep, s, j + 1) == (step.0, r.1 + [step.1]) &&
      ApplyAll(log, RecordOps(Instrs(r.1 + [step.1]))) == AfterRecord(ApplyAll(log, RecordOps(Instrs(r.1))), step.1.instr)
  {
    var r := Run(compute, structStep, s, j);
    var step := Step(compute, structStep, r.0);
    assert Instrs(r.1 + [step.1]) == Instrs(r.1) + [step.1.instr];
    assert RecordOps(Instrs(r.1 + [step.1])) == RecordOps(Instrs(r.1)) + [RecordOp(step.1.instr)];
    ApplyAllSnoc(log, RecordOps(Instrs(r.1)), RecordOp(step.1.instr));
  }

  const NotInitialized := "The data structure has not been initialized."

  class VanillaController<R, Y, E, S> {
    const inputSize: nat
    const readSize: nat
    const outputSize: nat
    const network: SimpleStructNetwork<Matrix, R, Y, E>
    const structStep: (S, Instr<E>) -> (S, R)

    var read: Option<R>
    var structState: Option<S>
    var bufferIn: Option<seq<Matrix>>
    var bufferOut: Option<seq<Y>>
    var t: nat
    var zeros: Option<Matrix>

    ghost predicate Valid()
      reads this, network, network.logData
    {
      network.Valid() && Consistent(State())
    }

    ghost function State(): Session<R, Y, S>
      reads this
    {
      Session(bufferIn, bufferOut, t, zeros, read, structState)
    }

    constructor (inputSize: nat, readSize: nat, outputSize: nat,
                 compute: (Matrix, R) -> (Y, Instr<E>), structStep: (S, Instr<E>) -> (S, R), zero: E)
      ensures Valid() && fresh(network)
      ensures State() == Idle()
      ensures network.State() == Initial(readSize, zero) && network.compute == compute
      ensures network.inputSize == inputSize && network.readSize == readSize && network.outputSize == outputSize
      ensures this.inputSize == inputSize && this.readSize == readSize && this.outputSize == outputSize
      ensures this.structStep == structStep
    {
      this.inputSize := inputSize;
      this.readSize := readSize;
      this.outputSize := outputSize;
      this.structStep := structStep;
      network := new SimpleStructNetwork(inputSize, readSize, outputSize, compute, zero);
      read := None;
      structState := None;
      bufferIn := None;
      bufferOut := None;
      t := 0;
      zeros := None;
    }

    /** _init_buffer */
    method InitBuffer(batchSize: nat, xs: seq<Matrix>)
      requires Valid()
      modifies this
      ensures Valid()
      ensures bufferIn == Some(xs) && bufferOut == Some([]) && t == 0
      ensures zeros == Some(Zeros(batchSize, inputSize))
      ensures State() == AfterInitBuffer(old(State()), inputSize, batchSize, xs)
    {
      bufferIn := Some(xs);
      bufferOut := Some([]);
      t := 0;
      zeros := Some(Zeros(batchSize, inputSize));
    }

    /** init_controller: _init_buffer, a fresh structure, and the initial read. */
    method InitController(batchSize: nat, xs: seq<Matrix>, struct0: S, read0: R)
      requires Valid()
      modifies this
      ensures Valid()
      ensures State() == AfterInitController(inputSize, batchSize, xs, struct0, read0)
    {
      InitBuffer(batchSize, xs);
      structState := Some(struct0);
      read := Some(read0);
    }

    /** forward: rejects an uninitialised read; otherwise feeds the next input and
        the previous read to the network, its instructions to the structure, and
        its output to the output buffer. A failing log write raises out of the
        network after the input has been consumed. */
    method Forward() returns (outcome: Outcome<Exception>)
      requires Valid()
      modifies this, network, network.logData
      ensures Valid() && network.logData == old(network.logData)
      ensures old(read).None? ==>
        outcome == Fail(RuntimeError(NotInitialized)) &&
        State() == old(State()) && network.State() == old(network.State())
      ensures old(read).Some? ==>
        var (s', rec) := Step(network.compute, structStep, old(State()));
        network.State() == AfterRecord(old(network.State()), rec.instr) &&
        if RecordFails(old(network.State())) then
          outcome == Fail(IndexError) && State() == old(State()).(t := s'.t)
        else
          outcome == Pass && State() == s'
    {
      if read.None? {
        return Fail(RuntimeError(NotInitialized));
      }
      var x := ReadInput();
      var y, instr;
      outcome, y, instr := network.Forward(x, read.value);
      if outcome.Fail? {
        return;
      }
      var st', r' := structStep(structState.value, instr).0, structStep(structState.value, instr).1;
      read := Some(r');
      structState := Some(st');
      WriteOutput(y);
    }

    /** _read_input */
    method ReadInput() returns (x: Matrix)
      requires Valid() && bufferIn.Some? && zeros.Some?
      modifies this`t
      ensures Valid()
      ensures (x, t) == NextInput(bufferIn.value, zeros.value, old(t))
    {
      if t < |bufferIn.value| {
        t := t + 1;
        return bufferIn.value[t - 1];
      } else {
        return zeros.value;
      }
    }

    /** read_output: the oldest output, None on an empty buffer; TypeError when
        no buffer has been initialised (len(None)). */
    method ReadOutput() returns (r: Result<Option<Y>, Exception>)
      requires Valid()
      modifies this`bufferOut
      ensures Valid()
      ensures old(bufferOut).None? ==> r == Failure(TypeError) && bufferOut == old(bufferOut)
      ensures old(bufferOut).Some? ==>
        var (first, rest) := PopFront(old(bufferOut).value);
        r == Success(first) && bufferOut == Some(rest)
    {
      if bufferOut.None? {
        return Failure(TypeError);
      }
      if |bufferOut.value| > 0 {
        var first := bufferOut.value[0];
        bufferOut := Some(bufferOut.value[1..]);
        return Success(Some(first));
      } else {
        return Success(None);
      }
    }

    /** _write_output; only forward calls it, after initialisation. */
    method WriteOutput(value: Y)
      requires Valid() && bufferOut.Some?
      modifies this`bufferOut
      ensures Valid()
      ensures bufferOut == Some(old(bufferOut).value + [value])
    {
      bufferOut := Some(bufferOut.value + [value]);
    }

    /** trace, without the evaluation mode and the plot: re-initialise with batch
        size 1, log with capacity |traceX| while forward runs |traceX| times,
        then stop logging. Every instruction triple is recorded, in order. An
        exception from a forward call ends the trace as it is, logging still on. */
    method Trace(traceX: seq<Matrix>, struct0: S, read0: R) returns (outcome: Outcome<Exception>)
      requires Valid()
      modifies this, network, network.logData
      ensures Valid()
      ensures network.readSize >= 1 || |traceX| == 0 ==>
        var r := Run(network.compute, structStep, AfterInitController(inputSize, 1, traceX, struct0, read0), |traceX|);
        outcome == Pass && State() == r.0 &&
        network.State() == AfterStopLog(ApplyAll(AfterStartLog(old(network.State()), Some(|traceX|)), RecordOps(Instrs(r.1))))
      ensures network.readSize >= 1 ==>
        !network.logEnabled && network.logData != null &&
        network.logDataSize == |traceX| && network.currLogEntry == |traceX|
      ensures network.readSize >= 1 ==>
        var recs := Run(network.compute, structStep, AfterInitController(inputSize, 1, traceX, struct0, read0), |traceX|).1;
        network.logData != null &&
        forall c :: 0 <= c < |traceX| ==>
          network.logData[PopRow, c] == recs[c].instr.u &&
          network.logData[PushRow, c] == recs[c].instr.d &&
          network.logData[ValueRow, c] == recs[c].instr.v
      ensures network.readSize == 0 && |traceX| > 0 ==>
        outcome == Fail(IndexError) &&
        State() == AfterInitController(inputSize, 1, traceX, struct0, read0).(t := 1) &&
        network.State() == AfterStartLog(old(network.State()), Some(|traceX|))
    {
      ghost var log := network.State();
      InitController(1, traceX, struct0, read0);
      var maxLength := |traceX|;
      network.StartLog(Some(maxLength));
      if network.readSize == 0 {
        NothingRecordedWithoutValueRow(network.State(), Instrs(Run(network.compute, structStep, State(), maxLength).1));
      }
      outcome := ForwardSteps(maxLength);
      if outcome.Pass? {
        network.StopLog();
        if network.readSize >= 1 {
          TraceTable(log, maxLength, Run(network.compute, structStep, AfterInitController(inputSize, 1, traceX, struct0, read0), maxLength).1);
        }
      }
    }

    /** The loop of trace: forward called n times, ending at the first exception.
        It runs after init_controller, so the read is set. With read_size 0 and
        logging on with room left, the first call raises; otherwise every call
        succeeds and its instructions go to the log. */
    method ForwardSteps(n: nat) returns (outcome: Outcome<Exception>)
      requires Valid() && read.Some?
      modifies this, network, network.logData
      ensures Valid() && network.logData == old(network.logData)
      ensures var r := Run(network.compute, structStep, old(State()), n);
        !(network.readSize == 0 && Writes(old(network.State())) && n > 0) ==>
          outcome == Pass && State() == r.0 &&
          network.State() == ApplyAll(old(network.State()), RecordOps(Instrs(r.1)))
      ensures network.readSize == 0 && Writes(old(network.State())) && n > 0 ==>
        outcome == Fail(IndexError) &&
        State() == old(State()).(t := Step(network.compute, structStep, old(State())).0.t) &&
        network.State() == old(network.State())
    {
      ghost var s0 := State();
      ghost var log0 := network.State();
      outcome := Pass;
      for j := 0 to n
        invariant Valid() && outcome == Pass && network.logData == old(network.logData)
        invariant var r := Run(network.compute, structStep, s0, j);
          State() == r.0 && network.State() == ApplyAll(log0, RecordOps(Instrs(r.1)))
        invariant network.readSize == 0 ==> network.State() == log0
        invariant network.readSize == 0 && Writes(log0) ==> j == 0
      {
        RunLoggedSnoc(network.compute, structStep, s0, log0, j);
        outcome := Forward();
        if outcome.Fail? {
          break;
        }
      }
    }

    /** The table a trace leaves behind, read off the array. */
    lemma TraceTable(log: LogState<E>, n: nat, recs: seq<StepRecord<R, Y, E, S>>)
      requires WellFormed(log) && log.readSize >= 1 && |recs| == n
      requires network.Valid()
      requires network.State() == AfterStopLog(ApplyAll(AfterStartLog(log, Some(n)), RecordOps(Instrs(recs))))
      ensures !network.logEnabled && network.logData != null
      ensures network.logDataSize == n && network.currLogEntry == n
      ensures forall c :: 0 <= c < n ==>
        network.logData[PopRow, c] == recs[c].instr.u &&
        network.logData[PushRow, c] == recs[c].instr.d &&
        network.logData[ValueRow, c] == recs[c].instr.v
    {
      StartThenRecords(log, n, Instrs(recs));
    }
  }
}
