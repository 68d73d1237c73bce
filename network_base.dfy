/**
 * The reporting part of SimpleStructNetwork (models/networks/base.py): a bounded
 * table that records, one column per time step, the instructions a network gives
 * to its neural data structure.
 *
 * The source keeps the enable flag in an attribute named `_log`, the same name as
 * the recording method, so the attribute shadows the method. Here the flag is
 * `logEnabled` and the recording method is `Record`.
 *
 * The first half of the module is a specification on values (LogState and the
 * After* functions); the class below updates an array in place and is proved to
 * follow it.
 */
module NetworkBase {
  import opened Wrappers

  /** The instructions (v, u, d): push value v, pop strength u, push strength d.
      All three are written into cells of the log table, so they share its
      element type. */
  datatype Instr<E> = Instr(v: E, u: E, d: E)

  /** Row layout of the log table. */
  const PopRow: nat := 0
  const PushRow: nat := 1
  const ValueRow: nat := 2

  /** A table indexed [row][column], as numpy's log_data[row, column]. */
  type Table<E> = seq<seq<E>>

  predicate Shaped<E>(t: Table<E>, rows: nat, cols: nat) {
    |t| == rows && forall r :: 0 <= r < rows ==> |t[r]| == cols
  }

  /** np.zeros([rows, cols]), with `z` the zero of the element type. */
  function Filled<E>(rows: nat, cols: nat, z: E): (t: Table<E>)
    ensures Shaped(t, rows, cols)
    ensures forall r, c :: 0 <= r < rows && 0 <= c < cols ==> t[r][c] == z
  {
    seq(rows, _ => seq(cols, _ => z))
  }

  /** t with cell (r, c) replaced by x. */
  function Update<E>(t: Table<E>, r: nat, c: nat, x: E): Table<E>
    requires r < |t| && c < |t[r]|
  {
    t[r := t[r][c := x]]
  }

  lemma TablesEqual<E>(t1: Table<E>, t2: Table<E>, rows: nat, cols: nat)
    requires Shaped(t1, rows, cols) && Shaped(t2, rows, cols)
    requires forall r, c :: 0 <= r < rows && 0 <= c < cols ==> t1[r][c] == t2[r][c]
    ensures t1 == t2
  {
    forall r | 0 <= r < rows
      ensures t1[r] == t2[r]
    {
      assert |t1[r]| == |t2[r]| == cols;
    }
  }

  /** The reporting state of one network: `readSize` and `zero` are fixed at
      construction; `data` is None until the first init_log. */
  datatype LogState<E> = LogState(
    readSize: nat,
    zero: E,
    enabled: bool,    // _log, the attribute
    data: Option<Table<E>>,  // _log_data
    size: nat,        // _log_data_size, the capacity
    entries: nat)     // _curr_log_entry

  /** The invariant every reachable state keeps: the counter never passes the
      capacity, and the table has 2 + read_size rows and one column per entry. */
  predicate WellFormed<E>(s: LogState<E>) {
    s.entries <= s.size &&
    match s.data
    case None => s.size == 0
    case Some(t) => Shaped(t, 2 + s.readSize, s.size)
  }

  /** The state SimpleStructNetwork.__init__ leaves behind. */
  function Initial<E>(readSize: nat, zero: E): (s: LogState<E>)
    ensures WellFormed(s) && !s.enabled && s.entries == 0
  {
    LogState(readSize, zero, false, None, 0, 0)
  }

  /** init_log(n): a fresh all-zero table of n columns, counter reset. */
  function AfterInitLog<E>(s: LogState<E>, n: nat): (r: LogState<E>)
    ensures WellFormed(r)
    ensures r.enabled == s.enabled && r.size == n && r.entries == 0
  {
    s.(data := Some(Filled(2 + s.readSize, n, s.zero)), size := n, entries := 0)
  }

  /** start_log(n): logging on, and a fresh table only when a size is given. */
  function AfterStartLog<E>(s: LogState<E>, n: Option<nat>): (r: LogState<E>)
    requires WellFormed(s)
    ensures WellFormed(r) && r.enabled
  {
    match n
    case None => s.(enabled := true)
    case Some(k) => AfterInitLog(s.(enabled := true), k)
  }

  /** stop_log(): logging off. */
  function AfterStopLog<E>(s: LogState<E>): (r: LogState<E>)
    requires WellFormed(s)
    ensures WellFormed(r) && !r.enabled
    ensures r.(enabled := s.enabled) == s
  {
    s.(enabled := false)
  }

  /** Whether _log gets past its two early returns and writes a column. */
  predicate Writes<E>(s: LogState<E>) {
    s.enabled && s.entries < s.size
  }

  /** The write of v into row 2 raises IndexError when the table has only two
      rows (read_size 0); it is the first write, so nothing has changed. */
  predicate RecordFails<E>(s: LogState<E>) {
    Writes(s) && ValueRow >= 2 + s.readSize
  }

  /** _log(v, u, d): the state after the call (unchanged when it raises). */
  function AfterRecord<E>(s: LogState<E>, i: Instr<E>): (r: LogState<E>)
    requires WellFormed(s)
    ensures WellFormed(r)
    ensures r.readSize == s.readSize && r.zero == s.zero && r.enabled == s.enabled && r.size == s.size
    ensures !Writes(s) || RecordFails(s) ==> r == s
    ensures Writes(s) && !RecordFails(s) ==>
      r.entries == s.entries + 1 && r.data.Some? && s.data.Some? &&
      forall row, col :: 0 <= row < 2 + s.readSize && 0 <= col < s.size ==>
        r.data.value[row][col] ==
          if col != s.entries then s.data.value[row][col]
          else if row == PopRow then i.u
          else if row == PushRow then i.d
          else if row == ValueRow then i.v
          else s.data.value[row][col]
  {
    if !s.enabled then s
    else if s.entries >= s.size then s
    else if RecordFails(s) then s
    else
      var c := s.entries;
      var t := s.data.value;
      var t1 := Update(t, ValueRow, c, i.v);
      var t2 := Update(t1, PopRow, c, i.u);
      var t3 := Update(t2, PushRow, c, i.d);
      s.(data := Some(t3), entries := c + 1)
  }

  /** One call a client can make on the reporting interface. */
  datatype LogOp<E> =
    | InitLogOp(n: nat)
    | StartLogOp(size: Option<nat>)
    | StopLogOp
    | RecordOp(instr: Instr<E>)

  function Apply<E>(s: LogState<E>, op: LogOp<E>): (r: LogState<E>)
    requires WellFormed(s)
    ensures WellFormed(r)
  {
    match op
    case InitLogOp(n) => AfterInitLog(s, n)
    case StartLogOp(n) => AfterStartLog(s, n)
    case StopLogOp => AfterStopLog(s)
    case RecordOp(i) => AfterRecord(s, i)
  }

  /** The state after a whole sequence of calls, in order. Its contract is the
      invariant: however the calls are interleaved, the counter stays within
      the capacity and the table keeps its shape. */
  function ApplyAll<E>(s: LogState<E>, ops: seq<LogOp<E>>): (r: LogState<E>)
    requires WellFormed(s)
    ensures WellFormed(r) && r.entries <= r.size
    ensures r.readSize == s.readSize && r.zero == s.zero
    decreases |ops|
  {
    if ops == [] then s else Apply(ApplyAll(s, ops[..|ops| - 1]), ops[|ops| - 1])
  }

  lemma ApplyAllSnoc<E>(s: LogState<E>, ops: seq<LogOp<E>>, op: LogOp<E>)
    requires WellFormed(s)
    ensures ApplyAll(s, ops + [op]) == Apply(ApplyAll(s, ops), op)
  {
    assert (ops + [op])[..|ops|] == ops;
  }

  function RecordOps<E>(instrs: seq<Instr<E>>): (ops: seq<LogOp<E>>)
    ensures |ops| == |instrs| && forall k :: 0 <= k < |instrs| ==> ops[k] == RecordOp(instrs[k])
  {
    seq(|instrs|, k requires 0 <= k < |instrs| => RecordOp(instrs[k]))
  }

  /** start_log(n) followed by k recordings: the first min(k, n) columns hold the
      recorded triples in call order (u in row 0, d in row 1, v in row 2), every
      other cell is still zero, and the rest of the calls were dropped. */
  lemma {:induction false} StartThenRecords<E>(s: LogState<E>, n: nat, instrs: seq<Instr<E>>)
    requires WellFormed(s) && s.readSize >= 1
    ensures var r := ApplyAll(AfterStartLog(s, Some(n)), RecordOps(instrs));
      var k := Min(|instrs|, n);
      r.enabled && r.size == n && r.entries == k && r.data.Some? &&
      Shaped(r.data.value, 2 + s.readSize, n) &&
      (forall c :: 0 <= c < k ==>
        r.data.value[PopRow][c] == instrs[c].u &&
        r.data.value[PushRow][c] == instrs[c].d &&
        r.data.value[ValueRow][c] == instrs[c].v) &&
      (forall row, c :: 0 <= row < 2 + s.readSize && 0 <= c < n && (k <= c || ValueRow < row) ==>
        r.data.value[row][c] == s.zero)
    decreases |instrs|
  {
    var s0 := AfterStartLog(s, Some(n));
    if instrs == [] {
      assert RecordOps(instrs) == [];
    } else {
      var m := |instrs| - 1;
      var prefix := instrs[..m];
      StartThenRecords(s, n, prefix);
      assert RecordOps(instrs) == RecordOps(prefix) + [RecordOp(instrs[m])];
      ApplyAllSnoc(s0, RecordOps(prefix), RecordOp(instrs[m]));
      var p := ApplyAll(s0, RecordOps(prefix));
      assert p.entries == Min(m, n);
      assert p.readSize == s.readSize && p.enabled;
    }
  }

  /** With read_size 0 the table has no push-value row, so every recording call
      either returns early or raises: nothing is ever recorded. */
  lemma {:induction false} NothingRecordedWithoutValueRow<E>(s: LogState<E>, instrs: seq<Instr<E>>)
    requires WellFormed(s) && s.readSize == 0
    ensures ApplyAll(s, RecordOps(instrs)) == s
    decreases |instrs|
  {
    if instrs != [] {
      var m := |instrs| - 1;
      NothingRecordedWithoutValueRow(s, instrs[..m]);
      assert RecordOps(instrs) == RecordOps(instrs[..m]) + [RecordOp(instrs[m])];
      ApplyAllSnoc(s, RecordOps(instrs[..m]), RecordOp(instrs[m]));
    } else {
      assert RecordOps(instrs) == [];
    }
  }

  /** The table of an array, row by row. */
  ghost function TableOf<E>(a: array2<E>): (t: Table<E>)
    reads a
    ensures Shaped(t, a.Length0, a.Length1)
    ensures forall r, c :: 0 <= r < a.Length0 && 0 <= c < a.Length1 ==> t[r][c] == a[r, c]
  {
    seq(a.Length0, r requires 0 <= r < a.Length0 reads a =>
      seq(a.Length1, c requires 0 <= c < a.Length1 reads a => a[r, c]))
  }

  /** A network used with a SimpleStruct, reduced to its reporting tools. The
      network's computation itself is `compute`, an opaque function of the input
      and the previous read. */
  class SimpleStructNetwork<X, R, Y, E> {
    const inputSize: nat
    const readSize: nat
    const outputSize: nat
    const compute: (X, R) -> (Y, Instr<E>)
    /** The zero of the table's element type (0.0 for numpy's float table). */
    const zero: E

    var logEnabled: bool
    var logData: array2?<E>
    var logDataSize: nat
    var currLogEntry: nat

    ghost predicate Valid()
      reads this, logData
    {
      currLogEntry <= logDataSize &&
      (logData == null ==> logDataSize == 0) &&
      (logData != null ==> logData.Length0 == 2 + readSize && logData.Length1 == logDataSize)
    }

    /** The abstract reporting state. */
    ghost function State(): (s: LogState<E>)
      reads this, logData
      ensures Valid() ==> WellFormed(s)
    {
      LogState(readSize, zero, logEnabled,
               if logData == null then None else Some(TableOf(logData)),
               logDataSize, currLogEntry)
    }

    constructor (inputSize: nat, readSize: nat, outputSize: nat,
                 compute: (X, R) -> (Y, Instr<E>), zero: E)
      ensures Valid() && State() == Initial(readSize, zero)
      ensures this.inputSize == inputSize && this.readSize == readSize && this.outputSize == outputSize
      ensures this.compute == compute && this.zero == zero
    {
      this.inputSize := inputSize;
      this.readSize := readSize;
      this.outputSize := outputSize;
      this.compute := compute;
      this.zero := zero;
      logEnabled := false;
      logData := null;
      logDataSize := 0;
      currLogEntry := 0;
    }

    /** init_log */
    method InitLog(logSize: nat)
      requires Valid()
      modifies this
      ensures Valid() && logData != null && fresh(logData)
      ensures State() == AfterInitLog(old(State()), logSize)
    {
      logData := new E[2 + readSize, logSize]((r, c) => zero);
      logDataSize := logSize;
      currLogEntry := 0;
      TablesEqual(TableOf(logData), Filled(2 + readSize, logSize, zero), 2 + readSize, logSize);
    }

    /** start_log; `logSize` is None when the optional argument is omitted. */
    method StartLog(logSize: Option<nat>)
      requires Valid()
      modifies this
      ensures Valid()
      ensures logSize.Some? ==> logData != null && fresh(logData)
      ensures logSize.None? ==> logData == old(logData)
      ensures State() == AfterStartLog(old(State()), logSize)
    {
      logEnabled := true;
      if logSize.Some? {
        InitLog(logSize.value);
      }
    }

    /** stop_log */
    method StopLog()
      requires Valid()
      modifies this
      ensures Valid() && logData == old(logData)
      ensures State() == AfterStopLog(old(State()))
    {
      logEnabled := false;
    }

    /** _log(v, u, d), the recording method. */
    method Record(v: E, u: E, d: E) returns (outcome: Outcome<Exception>)
      requires Valid()
      modifies this, logData
      ensures Valid() && logData == old(logData)
      ensures outcome == if RecordFails(old(State())) then Fail(IndexError) else Pass
      ensures State() == AfterRecord(old(State()), Instr(v, u, d))
    {
      if !logEnabled {
        return Pass;
      } else if currLogEntry >= logDataSize {
        return Pass;
      }
      if ValueRow >= logData.Length0 {
        return Fail(IndexError);
      }
      ghost var before := State();
      logData[ValueRow, currLogEntry] := v;
      logData[PopRow, currLogEntry] := u;
      logData[PushRow, currLogEntry] := d;
      currLogEntry := currLogEntry + 1;
      outcome := Pass;
      ghost var expected := AfterRecord(before, Instr(v, u, d));
      TablesEqual(TableOf(logData), expected.data.value, 2 + readSize, logDataSize);
    }

    /** The forward pass of a concrete network: the opaque computation, whose
        instructions are recorded before they are returned. A failing record
        raises out of the forward pass. */
    method Forward(x: X, r: R) returns (outcome: Outcome<Exception>, y: Y, instr: Instr<E>)
      requires Valid()
      modifies this, logData
      ensures Valid() && logData == old(logData)
      ensures (y, instr) == compute(x, r)
      ensures outcome == if RecordFails(old(State())) then Fail(IndexError) else Pass
      ensures State() == AfterRecord(old(State()), instr)
    {
      y, instr := compute(x, r).0, compute(x, r).1;
      outcome := Record(instr.v, instr.u, instr.d);
    }
  }
}
