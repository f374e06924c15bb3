# hyperbbob method wrapper and stepping log, in Dafny

This project models the two pieces of logic in `methods.py` of the hyperbbob
black-box optimisation benchmarking harness:

- `MinimizeMethod` (module `MinimizeMethods`, `minimize_method.dfy`): a
  minimisation method chosen by name for one benchmark function. Construction
  builds the inner minimiser's keyword arguments: a search box of one
  `(-6, +6)` pair per dimension, the two box constraints and an `options`
  dictionary holding `rhoend`. Then it resolves the name. `anneal` and `cobyla`,
  in any case, are refused with an unsupported-method error, because they have
  no per-step callback. Every other name is stored verbatim as the `method`
  argument. Calling the wrapper runs the outer (restarting, global) loop. It
  passes the objective, the start point, the outer callback, and the stored
  arguments with the inner callback added. Whatever the outer loop returns is
  returned unchanged.
- `SteppingData` (module `SteppingLog`, `stepping_data.dfy`): the progress log
  of one run. Opening it appends one header line to the `.mdat` file.
  `end_iter` advances the portfolio-iteration counter. Each `record` appends
  one step line with these fields, in order: the evaluation count, the
  counter, the instance index, the method name, the method's iteration count
  and the fitness. The best-minus-optimum offset is added only when it differs
  from the offset last written, or on the first step.

The keyword-argument dictionary is a `map<string, Kwarg>`. The wrapper is a
datatype, and construction is a method returning a `Result`. The log is a class
whose `file` field is the sequence of lines, with earlier sessions' lines kept
in front. A ghost history of the recorded offsets ties the best-offset column to
the differential encoding `Encoded`. Its inverse `Decoded` carries the last
written offset forward, and `DecodeEncoded` proves that the column loses
nothing.

The constraint lambdas `min(x + 5) >= 0` and `min(-(x - 5)) >= 0` describe the
box [-5, 5]. The bounds describe [-6, 6], so the two boxes are not the same.
The model follows the code: `ConstraintsArg(5)` records the half-width 5.

## Model

| member | source | states |
|---|---|---|
| MinimizeMethods.Lower | methods.py:102 | ASCII lower-casing keeps the length and lower-cases each character |
| MinimizeMethods.Unsupported | methods.py:102 | the refusal test: the lower-cased name is one of `anneal` and `cobyla`; only a six-character name can be refused |
| MinimizeMethods.LowerIsWordIff | methods.py:102 | for a lower-case word, `name.lower() == word` holds exactly when `name` spells the word with each letter in either case (both directions) |
| MinimizeMethods.UnsupportedSpellings | methods.py:102-103 | a name is refused exactly when it spells `anneal` or `cobyla` in any mixture of cases |
| MinimizeMethods.UnsupportedIgnoresCase | methods.py:102 | refusal depends on the name only up to case: lower-casing it first changes nothing |
| MinimizeMethods.SearchBox | methods.py:79 | the bounds have one entry per dimension, and every entry is (-6, +6) |
| MinimizeMethods.DefaultKwargs | methods.py:77-88 | before name resolution, the arguments hold exactly `bounds` (the search box), `constraints` (half-width 5) and `options` (`rhoend` = the required precision) |
| MinimizeMethods.SetupMethod | methods.py:92-105 | fails with the unsupported-method error exactly for refused names; otherwise it adds only `method` = the name, case kept, and leaves every other argument as it was |
| MinimizeMethods.Create | methods.py:62-90 | construction fails exactly when the name spells `anneal` or `cobyla` in any case, and then only with that error; otherwise the wrapper keeps the name and dimension, and its arguments are exactly the search box of `dim` (-6, +6) pairs, the constraints, the precision as `rhoend`, and the name verbatim as `method` |
| MinimizeMethods.InnerKwargs | methods.py:118 | the forwarded arguments are the stored ones, all values unchanged, plus exactly one new key `callback` holding the inner callback |
| MinimizeMethods.Call | methods.py:107-118 | the result is the outer loop's result for the objective, the start point, the outer callback and the forwarded arguments, with no transformation |
| SteppingLog.BestField | methods.py:145-151 | the best field is present exactly when no offset was written before or the last one differs, and it then holds the new offset |
| SteppingLog.Encoded | methods.py:143-161 | a run of steps writes exactly one best field per step |
| SteppingLog.EncodedAt | methods.py:149-151 | step `i` carries its offset exactly when the offset differs from step `i - 1`'s, or from the remembered one for the first step |
| SteppingLog.RepeatOmitted | methods.py:149-151 | in a session, the first step always carries its offset; a later step omits it exactly when it equals the previous step's offset |
| SteppingLog.DecodeEncoded | methods.py:145-151 | carrying the last written offset forward over omitted fields recovers every step's offset: the differential encoding loses nothing |
| SteppingLog.SteppingData.constructor | methods.py:126-138 | a fresh log has counter 0 and no remembered offset; the file is its earlier contents plus exactly one header line |
| SteppingLog.SteppingData.EndIter | methods.py:140-141 | the counter rises by exactly 1; the remembered offset and the file are unchanged |
| SteppingLog.SteppingData.Record | methods.py:143-161 | exactly one step line is appended, with the evaluation count, the current counter, the index, the name, the iterations and the fitness; the offset `bestf - fopt` appears only when it differs from the remembered one; afterwards the remembered offset is `bestf - fopt`; the counter is unchanged; the invariant still holds (one header, only step lines after it, sorted counter column, column = encoding of the offsets) |
| SteppingLog.LogRecoversOffsets | methods.py:143-161 | in every reachable state, the session's step lines determine the best offset of every recorded step |

## Left out

- MinimizeMethods.Lower: lower-cases ASCII only, whereas Python's `str.lower` also folds non-ASCII letters and may change the length (U+0130 becomes two characters). The only non-ASCII characters that lower-case into ASCII are U+0130 (giving `i` plus a combining dot) and U+212A (giving `k`); neither letter occurs in `anneal` or `cobyla`, so the refusal test gives the same verdict.
- The SciPy routines `so.basinhopping` and `so.minimize` are foreign library code. The outer loop is a function parameter of `Call`. The inner minimiser is represented only by the arguments it receives.
- The benchmark-function object `fi` is represented only by the values the code reads: the dimension and the required precision for construction, and `lasteval.num`, `lasteval.bestf` and `fopt` for `record`. These values are parameters.
- The constraint lambdas are numpy expressions that only the external optimiser evaluates. They are represented by their half-width only.
- Callbacks are Python callables. The model names each one with an opaque `Callback` handle.
- The `fi` attribute and the `outer_loop` attribute are not stored in the wrapper.
- Overriding `_setup_method` in a subclass is not modelled. Only the default resolution is.
- `Call` requires that the stored arguments have no `callback` key. Python raises a `TypeError` on a duplicate keyword, and a wrapper built by `Create` never has that key.
- `%d` and `%+10.9e` text rendering is not modelled. Lines are structured records, and fitness values and offsets are `real`s, not IEEE doubles. So NaN is not modelled: NaN compares unequal to everything, so in Python `best != self.last_best` always holds for a NaN offset and it is written on every step.
- Opening the file, deriving the `.mdat` path with `os.path.splitext`, writing the newline and flushing are I/O. The file is the in-memory `file` sequence.
- The header's column text is not modelled. The header is a single `Header` line.
- The readiness side effects `_setdim`, `_readytostart` and `_is_ready` belong to the external benchmark object and are not modelled.
- The `point` argument of `record` is accepted and not written, as in the code. Its commented-out logging is dead code.
