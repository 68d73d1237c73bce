# StackNN controller step loop and instruction log

A model of two pieces of the StackNN neural-stack library:

- **The vanilla controller** (`VanillaController`). It feeds an input sequence to a network one time step at a time. Each step:
  1. takes the next input slice, or a zero pad once the sequence is exhausted;
  2. gives the network that input and the previous read from the neural data structure;
  3. passes the network's instruction triple (push value `v`, pop strength `u`, push strength `d`) to the data structure;
  4. keeps the structure's new read;
  5. appends the network's output to a first-in-first-out output buffer.

  `trace` re-initialises the controller for one input and runs one step per time step, with the network's instruction log switched on.
- **The reporting tools of `SimpleStructNetwork`.** This is a bounded instruction log: an enable flag, a table with `2 + read_size` rows and one column per logged step, and an entry counter. Recording writes one column (`u` in row 0, `d` in row 1, `v` in row 2) and advances the counter. It is silently a no-op when logging is off or the table is full.

Both are imperative in the source, and both have the same two layers in the model.

- **The specification is written on values.**
  - `NetworkBase.LogState` with `Initial`, `AfterInitLog`, `AfterStartLog`, `AfterStopLog`, `AfterRecord` and `ApplyAll`.
  - `Vanilla.Session` with `AfterInitBuffer`, `NextInput`, `Step`, `Run` and `Drain`.
  - Lemmas prove what these imply over whole runs.
- **Classes mutate fields.**
  - `NetworkBase.SimpleStructNetwork` keeps its table in a two-dimensional array and updates it in place.
  - `Vanilla.VanillaController` keeps its buffers, cursor, read and structure state as fields.
  - Each method's postcondition ties the new state, read through `State()`, to the specification function of the old state.

The network and the data structure are not part of this model. They are opaque, deterministic functions:

- the network is `compute: (input, read) -> (output, Instr(v, u, d))`;
- the structure is `structStep: (state, Instr) -> (state', read)`.

Tensors are values of type `Tensors.Matrix`, and log-table entries have a generic element type `E` with a given zero.

Modelling decisions and assumptions:

- **Time-major input.** The source's input tensor has shape batch × time × width. The model holds it as a sequence of batch × width matrices. Time slice `t` is `xs[t]`, and the sequence length `xs.size(1)` is `|xs|`.
- **Network calls record their instructions.** The concrete networks (models/networks/feedforward.py, not part of this model) record each instruction triple through the recording method inside their forward pass. So `SimpleStructNetwork.Forward` is `compute` followed by `Record`, and an exception from the recording propagates out of the network call.
- **Initialisation.** `init_controller` comes from `AbstractController`, in models/base.py, which is not part of this model. It is modelled as `_init_buffer` plus a fresh structure state and an initial read, both supplied by the caller (`InitController`, `AfterInitController`).
- **The `_log` name clash.** The flag attribute `_log` (models/networks/base.py:108) has the same name as the recording method `_log` (models/networks/base.py:157). In Python the attribute shadows the method. The model uses the separate names `logEnabled` and `Record` and gives the recording method's body its intended meaning.
- **`read_size` 0.** The table then has only two rows. When recording gets past its two early returns, the first write (`v` into row 2) raises `IndexError` before any cell or the counter changes. `Record` returns `Fail(IndexError)` and leaves the log unchanged. The controller's `Forward` has by then already advanced the cursor, and propagates the exception. With logging on and room in the table, `trace` stops at its first step with logging still enabled.
- **Before the first initialisation.** The output buffer is `None`, so `read_output` raises `TypeError`, from `len(None)`, at models/vanilla.py:122.

## Model

| member | source | states |
|---|---|---|
| NetworkBase.Initial | models/networks/base.py:107-111 | a freshly constructed network has logging off, no table, capacity 0 and counter 0; this state is well formed |
| NetworkBase.AfterInitLog | models/networks/base.py:126-128 | init_log(n) gives a table of 2 + read_size rows and n columns with every cell zero; the capacity is n, the counter is 0, and the flag is untouched |
| NetworkBase.AfterStartLog | models/networks/base.py:142-144 | start_log turns logging on; with a size it is init_log on that size, and without one it keeps the table, capacity and counter; the result is well formed |
| NetworkBase.AfterStopLog | models/networks/base.py:154 | stop_log turns logging off and changes nothing else |
| NetworkBase.AfterRecord | models/networks/base.py:174-183 | logging off, a full table or a raising write leaves the whole log unchanged; otherwise the counter advances by one; column `counter` gets u in row 0, d in row 1 and v in row 2, and every other cell keeps its value |
| NetworkBase.ApplyAll | models/networks/base.py:107-183 | over any sequence of init_log/start_log/stop_log/record calls from a well-formed state, the counter stays within the capacity and the table keeps its 2 + read_size × capacity shape |
| NetworkBase.StartThenRecords | models/networks/base.py:142-183 | after start_log(n) and k records, with read_size ≥ 1: the counter is min(k, n); the first min(k, n) columns hold the recorded triples in call order; every other cell is still zero, including rows 3 and beyond; records past capacity are dropped |
| NetworkBase.NothingRecordedWithoutValueRow | models/networks/base.py:179 | with read_size 0, any sequence of records leaves the log exactly as it was |
| NetworkBase.SimpleStructNetwork.constructor | models/networks/base.py:104-111 | the log fields start in the initial reporting state, and the sizes are stored |
| NetworkBase.SimpleStructNetwork.InitLog | models/networks/base.py:115-129 | a newly allocated zero table replaces the old one; the state becomes the init_log state of the old state |
| NetworkBase.SimpleStructNetwork.StartLog | models/networks/base.py:131-145 | the state becomes the start_log state; a table is allocated only when a size is given, and otherwise the same array object is kept |
| NetworkBase.SimpleStructNetwork.StopLog | models/networks/base.py:147-155 | the state becomes the stop_log state; the array is kept |
| NetworkBase.SimpleStructNetwork.Record | models/networks/base.py:157-185 | the array cells are written in place so that the state becomes the recorded state; it reports IndexError exactly when a write is attempted on a two-row table |
| NetworkBase.SimpleStructNetwork.Forward | models/networks/base.py:37-59 | returns the opaque network's output and instruction triple for (x, r), and records the triple in the log first |
| Tensors.Zeros | models/vanilla.py:76 | the pad has batch_size rows of input_size entries, all zero |
| Vanilla.Idle | models/vanilla.py:43-53 | the constructed controller has no read, no buffers and cursor 0, and is consistent |
| Vanilla.AfterInitBuffer | models/vanilla.py:72-76 | _init_buffer sets the input buffer to xs, an empty output buffer, cursor 0 and a zero pad, and keeps the session invariant |
| Vanilla.AfterInitController | models/vanilla.py:152 | an initialised session is ready to step |
| Vanilla.NextInput | models/vanilla.py:109-113 | _read_input returns slice t and advances the cursor while t < length; otherwise it returns the pad and leaves the cursor alone; the cursor never passes the length |
| Vanilla.Step | models/vanilla.py:90-98 | one successful forward from a ready session leaves it ready |
| Vanilla.Run | models/vanilla.py:157-158 | n successful forward calls leave the session ready and make exactly n step records |
| Vanilla.RunSteps | models/vanilla.py:93-113 | after n forward calls from any ready session: the cursor is min(t + n, length); step i saw the input at time t + i, or the pad past the end; the output buffer is the old buffer followed by the n outputs in order; the input buffer and pad are unchanged |
| Vanilla.RunChained | models/vanilla.py:95-96 | every step's output and triple are the network on (input, previous read), and its new read is the structure on the triple; step i+1 gets the read and structure state step i produced, the first step gets the session's, and the session ends with the last step's |
| Vanilla.RunFromInit | models/vanilla.py:72-113 | after init and n forward calls the cursor is min(n, length); the network was fed xs[0..min(n, length)) in order and then n − min(n, length) pads; the output buffer has exactly n entries, the outputs in order; the first step got the initial read and structure |
| Vanilla.DrainFifo | models/vanilla.py:122-125 | k read_output calls on a buffer return its oldest min(k, len) entries in order and then None for each read of the empty buffer; what is left is the unread suffix |
| Vanilla.OutputsInOrder | models/vanilla.py:122-136 | after init and n forward calls, k read_output calls return exactly the outputs of the first min(k, n) steps in the order forward produced them, then None |
| Vanilla.RunLoggedSnoc | models/vanilla.py:157-158 | one more forward call extends the run by one step record, and the log by recording that step's triple |
| Vanilla.VanillaController.constructor | models/vanilla.py:42-53 | the controller starts in the idle session; its network is new and in the initial reporting state |
| Vanilla.VanillaController.InitBuffer | models/vanilla.py:55-76 | sets the input buffer to xs, an empty output buffer, cursor 0 and a batch_size × input_size zero pad; the read and structure are untouched |
| Vanilla.VanillaController.InitController | models/vanilla.py:152 | the session becomes the initialised session for xs, the initial structure and the initial read, whatever it was before |
| Vanilla.VanillaController.Forward | models/vanilla.py:80-98 | with no read it raises RuntimeError("The data structure has not been initialized.") and changes nothing; otherwise the log records the step's triple, and the session either takes one full step or, when the log write raises IndexError, only advances its cursor |
| Vanilla.VanillaController.ReadInput | models/vanilla.py:102-113 | the returned input and the new cursor are those of _read_input on the old cursor |
| Vanilla.VanillaController.ReadOutput | models/vanilla.py:115-125 | pops and returns the oldest output, or returns None and keeps an empty buffer; it raises TypeError when no buffer exists yet |
| Vanilla.VanillaController.WriteOutput | models/vanilla.py:127-136 | appends the value at the end of the output buffer |
| Vanilla.VanillaController.ForwardSteps | models/vanilla.py:157-158 | n forward calls from an initialised session; the result is either n full steps with all their triples recorded, or, with read_size 0 and logging on with room left, IndexError at the first call with only the cursor advanced |
| Vanilla.VanillaController.Trace | models/vanilla.py:152-159 | trace on a length-L input re-initialises with batch size 1 and runs exactly L steps; with read_size ≥ 1 it ends with logging off, capacity L, counter L, and column c holding step c's u, d, v; with read_size 0 and L > 0 it raises IndexError at the first step |
| Vanilla.VanillaController.TraceTable | models/vanilla.py:156-159 | the array left by start_log(L), L records and stop_log holds every recorded triple in its column, with flag off, capacity L and counter L |

## Left out

- The neural data structure (`self._struct`, structs/simple.py) is not part of this model. It is an opaque deterministic transition `structStep` on an abstract state, with no strength accounting.
- The network computation (`Network.forward`, concrete networks in networks/feedforward.py) is opaque `compute`, a total deterministic function. Torch layers, floating point, gradients and `Variable` wrapping are not modelled.
- `init_normal` is random floating-point weight initialisation. It is not part of this model.
- `trace`'s `self.eval()` and everything after the loop (labels, plotting) are left out, because they are torch mode switching and display.
- Python's attribute shadowing of the `_log` method by the `_log` flag is not modelled. The flag and the recording method have separate names, as described above.
- Rows 3 and beyond of the table: the source writes `v` into row 2 only, so these rows stay zero. The model does not split `v` into components per row.
- Shapes of tensors (batch size, input and output widths) are not checked against the sizes given to the constructor. Inputs and outputs are values of opaque or matrix type.
- tasks/configs.py holds static configuration only and is not part of this model.
- Design intent versus code:
  - The design describes popping an output as valid in any state. The code raises `TypeError` before the first initialisation, and the model follows the code.
  - The design asks that an error during `trace` leave no partially updated logging state. The code leaves logging enabled after an exception from `forward`; with read_size 0 that exception is raised at the first step. The model follows the code.
- NetworkBase.SimpleStructNetwork.InitLog: the log size is a `nat`. A negative size, for which numpy raises, is not modelled.
- NetworkBase.SimpleStructNetwork.StartLog: the size is an `Option<nat>`, so a negative size is excluded as for InitLog.
- Vanilla.VanillaController.ReadInput: requires an initialised input buffer and pad. The source would raise `AttributeError` on `None`, but only `forward` calls it, after its read check.
- Vanilla.VanillaController.WriteOutput: requires an initialised output buffer. The source would raise `AttributeError` on `None`, but only `forward` calls it, after initialisation.
- Vanilla.VanillaController.ForwardSteps: requires a read, because it models the loop of `trace`, which always runs right after `init_controller`.
- Vanilla.VanillaController.InitController and Vanilla.AfterInitController: assumed behaviour of `init_controller`, whose source, models/base.py, is not part of this model. It is `_init_buffer` plus caller-supplied initial structure state and read.
