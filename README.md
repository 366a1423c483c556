# Python semantics demonstrations, modelled in Dafny

The repository is a set of five teaching scripts. Each script shows one aspect of
Python's run-time semantics and compares it with small teaching languages
(OBJ, TYPE0/TYPE1). This project models what the scripts compute and proves
what they demonstrate:

- **Call by object reference** (`01-pass-by-object-reference.py`).
  - Rebinding an int parameter leaves the caller's value alone.
  - Mutating a list or object parameter changes the caller's object.
  - Rebinding a list or object parameter does not change the caller's object.
  - A `Point` prints as `Point(x, y)`, and that text parses back to its coordinates.
- **Duck typing** (`02-duck-typing.py`).
  - `make_it_quack` looks up `quack` on whatever it is given. It fails with
    an `AttributeError` for a `Dog`.
  - `write_report` drives any writer that has a `write` method.
  - `square` is `x * x` under Python's `*`.
- **Threads and processes** (`03-threads-vs-processes.py`).
  - The locked shared counter reaches `workers * n` whatever the interleaving.
  - Each child process counts on a counter of its own, and the parent's counter is untouched.
  - The CPU-bound task computes the sum of squares.
  - `executor.map` returns the squares in input order.
- **GIL evolution** (`04-python-gil-evolution.py`).
  - `cpu_work` computes the sum of squares in the closed form `(n-1)n(2n-1)/6`.
  - `parallel_computation` splits the data into `num_threads` contiguous chunks that cover it exactly.
  - Its workers each write only their own result slot.
  - The total equals the sum of squares of the data, whatever positive thread count and whatever order the workers run in. A negative count gives 0, because `[0] * num_threads` and `range(num_threads)` are both empty.
  - With `num_threads == 0` the call fails with a `ZeroDivisionError`.
- **OBJ to Python comparison** (`05-obj-to-python-comparison.py`).
  - The squared distance of a point.
  - `area` dispatched by the shape's class.
  - A class-level counter that numbers its instances 1, 2, 3.
  - Boxes that are mutated or rebound.
  - `square` and `typed_square`.
  - A closure made by `make_adder`.

Modules, one per concern:

- `Results`: `Option` and `Result`.
- `Sums`: `range`, `sum`, sums of squares and their closed form.
- `IntText`: the decimal text of an integer, as `str` and f-strings print it, with its parser.
- `PyValues`: int and str values and Python's `*` on them.
- One module per script: `PassByReference`, `DuckTyping`, `ThreadsProcesses`, `GilEvolution` and `ObjComparison`.

Objects the scripts update in place are classes with `modifies` clauses. These are:

- lists passed to functions;
- `Point`, `MutableBox`, the writers, the shared counter and the lock;
- `Counter` and its class-level `count`;
- the `results` array of `parallel_computation`.

Pure computations are functions with lemmas. The loops that update state or
accumulate a value are methods with loop invariants. The one exception is the
`for` loop over `shapes`, which only reads each shape's area: it is the recursive
function `ObjComparison.Areas`. Each script's top-level demonstration is a
method or lemma whose postcondition states the values the script computes
(`DemoLists`, `DistanceOfDemoPoint`, `MapTaskOverRange` and the like). In two scripts some demonstrations come after the uncaught TypeError
described under "## Findings", so the scripts as written never reach them:

- `DuckTyping.DemoTypedQuacks` (02-duck-typing.py:183-184);
- the `typed_square(5)` conjunct of `ObjComparison.SquareDemo` (05-obj-to-python-comparison.py:329);
- `ObjComparison.AdderDemo` (05-obj-to-python-comparison.py:375-377).

Those members state what the code would compute once the `square` call is fixed.

## Model

| member | source | states |
|---|---|---|
| `IntText.Text` | 01-pass-by-object-reference.py:91 | the decimal text of an int is non-empty, has only digits after an optional leading minus, and parses back to the same int under a parser that accepts no leading zero and no `-0` |
| `IntText.CanonicalDigits` | 01-pass-by-object-reference.py:91 | digits without a leading zero are exactly the digits `str` prints for the number they denote |
| `IntText.TextIsUnique` | 01-pass-by-object-reference.py:91 | the text `str(i)` produces is the only text that parses to `i`, so `Text`'s round trip fixes its exact digits |
| `PassByReference.TryModifyInt` | 01-pass-by-object-reference.py:13-18 | the function hands back its argument plus 10; the caller's binding is not involved |
| `PassByReference.DemoImmutableInt` | 01-pass-by-object-reference.py:21-26 | after the call `num` is still 5 and `result` is 15 |
| `PassByReference.PyList.constructor` | 01-pass-by-object-reference.py:40 | a list literal creates a list object holding exactly those items |
| `PassByReference.PyList.Append` | 01-pass-by-object-reference.py:36 | `append` adds the item at the end of the same object and keeps everything before it |
| `PassByReference.PyList.AssignAll` | 01-pass-by-object-reference.py:61 | slice assignment `lst[:] = xs` replaces the contents of the same object |
| `PassByReference.TryModifyList` | 01-pass-by-object-reference.py:33-37 | the caller's list is mutated: it now ends in 4, with the old contents as prefix |
| `PassByReference.ReassignList` | 01-pass-by-object-reference.py:51-55 | rebinding the parameter leaves the caller's list unchanged |
| `PassByReference.MutateList` | 01-pass-by-object-reference.py:58-62 | mutating through the parameter makes the caller's list `[99, 98, 97]` |
| `PassByReference.DemoLists` | 01-pass-by-object-reference.py:40-78 | `my_list` becomes `[1, 2, 3, 4]`, `list1` stays `[1, 2, 3]`, `list2` becomes `[99, 98, 97]` |
| `PassByReference.PointTextParses` | 01-pass-by-object-reference.py:90-91 | the text `Point(x, y)` parses back to `(x, y)` for every pair of ints |
| `PassByReference.Point.constructor` | 01-pass-by-object-reference.py:86-88 | a new point holds the given coordinates |
| `PassByReference.Point.ToString` | 01-pass-by-object-reference.py:90-91 | `str(p)` has the `Point(`…`)` frame and determines the point's coordinates |
| `PassByReference.MovePoint` | 01-pass-by-object-reference.py:94-97 | the caller's point moves by 10 on both axes |
| `PassByReference.ReplacePoint` | 01-pass-by-object-reference.py:100-103 | the returned point is a new object at (99, 99) and the argument is unchanged |
| `PassByReference.DemoPoints` | 01-pass-by-object-reference.py:106-116 | the printed texts are `Point(11, 12)` after the move, `Point(11, 12)` for the original, `Point(99, 99)` for the new point, and the two objects are distinct |
| `DuckTyping.CallMethod` | 02-duck-typing.py:13-34 | a method call succeeds exactly when the object's class defines the method; it returns that class's string, and otherwise fails with an AttributeError naming the type and the attribute |
| `DuckTyping.MakeItQuack` | 02-duck-typing.py:37-44 | a Duck and a Person quack with their own strings; a Dog fails with `AttributeError` for `Dog`/`quack` |
| `DuckTyping.DemoQuacks` | 02-duck-typing.py:47-60 | the demonstration's three outcomes: `Quack!`, the person's imitation, and the Dog's AttributeError, which the script catches |
| `DuckTyping.FileWriter.constructor` | 02-duck-typing.py:68-70 | a new file writer has the given filename and no content |
| `DuckTyping.FileWriter.Write` | 02-duck-typing.py:72-73 | `write` appends the text to the writer's content |
| `DuckTyping.ListWriter.constructor` | 02-duck-typing.py:86-87 | a new list writer has no items |
| `DuckTyping.ListWriter.Write` | 02-duck-typing.py:89-90 | `write` appends the text to the writer's items |
| `DuckTyping.Write` | 02-duck-typing.py:100 | `writer.write(text)` appends to whichever writer is given and changes only that writer |
| `DuckTyping.ItemLines` | 02-duck-typing.py:101-102 | one line `- item\n` per data item, in order |
| `DuckTyping.ReportLines` | 02-duck-typing.py:100-103 | the report is the header, then one line per item in order, then the footer |
| `DuckTyping.WriteItems` | 02-duck-typing.py:101-102 | the loop appends exactly the item lines to the writer |
| `DuckTyping.WriteReport` | 02-duck-typing.py:93-103 | any writer receives exactly the report lines after what it already held |
| `DuckTyping.DemoListReport` | 02-duck-typing.py:113-116 | the list writer ends with the five report lines for `Item 1`..`Item 3` |
| `DuckTyping.SquareDemo` | 02-duck-typing.py:148-156 | `square(5)` is 25, `square('ab')` raises a TypeError, and the intended repetition `'ab' * 2` is `'abab'` |
| `DuckTyping.MakeItQuackTyped` | 02-duck-typing.py:174-179 | the type hint changes nothing: the result is that of the untyped call |
| `DuckTyping.DemoTypedQuacks` | 02-duck-typing.py:183-184 | the typed calls give `Quack!` and the person's imitation (code the script as written never reaches: it stops at the TypeError on line 156) |
| `PyValues.Repeat` | 02-duck-typing.py:156 | `s * n` has `n` times the length of `s`, and is empty when `n <= 0` |
| `PyValues.RepeatAt` | 02-duck-typing.py:156 | copy `q` of `s` in `s * n` starts at `q` times the length of `s` |
| `PyValues.Mul` | 02-duck-typing.py:150 | `*` fails exactly for str times str; int times int is the product, and str with int repeats the text |
| `PyValues.Square` | 02-duck-typing.py:148-150 | `square(x)` succeeds exactly for ints, with the non-negative value `x * x` |
| `PyValues.SquareOfTextRaises` | 02-duck-typing.py:156 | as written, `square` of any text raises TypeError |
| `PyValues.Doubled` | 02-duck-typing.py:156 | the intended text result has twice the length, and each half is the original text |
| `ThreadsProcesses.SharedCounter.constructor` | 03-threads-vs-processes.py:37 | the counter starts at the given value |
| `ThreadsProcesses.Lock.constructor` | 03-threads-vs-processes.py:72 | a new lock is free |
| `ThreadsProcesses.Lock.Acquire` | 03-threads-vs-processes.py:49 | entering `with lock` takes a free lock |
| `ThreadsProcesses.Lock.Release` | 03-threads-vs-processes.py:49-50 | leaving `with lock` frees it |
| `ThreadsProcesses.IncrementShared` | 03-threads-vs-processes.py:40-43 | run alone, the counter grows by exactly `n` (0 for negative `n`) |
| `ThreadsProcesses.LockedIncrement` | 03-threads-vs-processes.py:49-50 | one locked step adds 1 and leaves the lock free |
| `ThreadsProcesses.IncrementSharedSafe` | 03-threads-vs-processes.py:46-50 | the counter grows by exactly `n` and the lock is free afterwards |
| `ThreadsProcesses.ScheduleLength` | 03-threads-vs-processes.py:73-80 | any interleaving of `workers` workers of `n` steps has `workers * n` steps |
| `ThreadsProcesses.RunSafeWorkers` | 03-threads-vs-processes.py:70-82 | under every interleaving the locked counter ends at `workers * n` |
| `ThreadsProcesses.RunSafeWorkersInTurn` | 03-threads-vs-processes.py:70-82 | with the workers run in turn the counter also ends at `workers * n` |
| `ThreadsProcesses.IncrementProcess` | 03-threads-vs-processes.py:90-96 | a child counts to `n` on a counter of its own |
| `ThreadsProcesses.RunProcesses` | 03-threads-vs-processes.py:99-110 | each child reports `n` and the parent's counter is unchanged |
| `ThreadsProcesses.DemoCounters` | 03-threads-vs-processes.py:69-110 | the locked run gives 5000, the children report 100 each, and the parent still holds 5000 |
| `ThreadsProcesses.CpuBoundTask` | 03-threads-vs-processes.py:117-122 | the loop computes the sum of `i * i` over `range(n)` |
| `ThreadsProcesses.IoBoundTask` | 03-threads-vs-processes.py:125-128 | the task returns its argument unchanged |
| `ThreadsProcesses.Task` | 03-threads-vs-processes.py:210-212 | `task(n)` is Python's `n * n`, that is `square(n)` |
| `ThreadsProcesses.MapTask` | 03-threads-vs-processes.py:216-217 | `executor.map` yields one result per input, in input order |
| `ThreadsProcesses.MapTaskOverRange` | 03-threads-vs-processes.py:215-223 | both executors print `[0, 1, 4, …, 81]` |
| `Sums.Range` | 04-python-gil-evolution.py:194 | `range(n)` is `0..n-1` in order |
| `Sums.SumSquaresAppend` | 04-python-gil-evolution.py:169 | the sum of squares over a concatenation is the sum over the parts |
| `Sums.SumSquaresOfRange` | 04-python-gil-evolution.py:194-198 | the sum of squares of `list(range(n))` is the sum of `i * i` below `n` |
| `Sums.SumSquaresBelowClosedForm` | 04-python-gil-evolution.py:71-79 | the sum of `i**2` below `n` is `(n-1)n(2n-1)/6` |
| `GilEvolution.CpuWork` | 04-python-gil-evolution.py:71-79 | `cpu_work(n)` returns the sum of `i**2` for `i` in `range(n)`, in closed form |
| `GilEvolution.ChunkSize` | 04-python-gil-evolution.py:172 | `len // num_threads`: the chunks fit in the data and leave fewer than `num_threads` items over |
| `GilEvolution.ChunkStart` | 04-python-gil-evolution.py:179 | every chunk's start index `i * chunk_size` lies within the data |
| `GilEvolution.ChunkEnd` | 04-python-gil-evolution.py:180 | a chunk ends no earlier than it starts and within the data; each inner chunk ends where the next one starts, and the last ends at `len(data)` |
| `GilEvolution.Chunks` | 04-python-gil-evolution.py:178-181 | one slice per thread, each the data between its start and its end |
| `GilEvolution.JoinedIsPrefix` | 04-python-gil-evolution.py:178-181 | the first `k` chunks joined are exactly the data up to chunk `k-1`'s end |
| `GilEvolution.ChunksCoverData` | 04-python-gil-evolution.py:178-181 | all chunks joined are exactly the data: no item lost or repeated |
| `GilEvolution.InnerChunkLength` | 04-python-gil-evolution.py:172-180 | every chunk but the last has `chunk_size` items |
| `GilEvolution.LastChunkLength` | 04-python-gil-evolution.py:180 | the last chunk has exactly `chunk_size + len % num_threads` items: its own share plus the leftover |
| `GilEvolution.MoreThreadsThanItems` | 04-python-gil-evolution.py:172-180 | with more threads than items, every chunk but the last is empty |
| `GilEvolution.SumOfPartSums` | 04-python-gil-evolution.py:169 | adding the per-part sums of squares gives the sum of squares of the parts joined |
| `GilEvolution.ChunkSums` | 04-python-gil-evolution.py:168-170 | slot `i` is the sum of squares of chunk `i` |
| `GilEvolution.ChunkSumsTotal` | 04-python-gil-evolution.py:191 | the slots add up to the sum of squares of all the data |
| `GilEvolution.TotalIndependentOfThreads` | 04-python-gil-evolution.py:194-198 | the total is the same for any two positive thread counts |
| `GilEvolution.Worker` | 04-python-gil-evolution.py:168-170 | a worker writes the sum of squares of its chunk into its own slot and leaves every other slot alone |
| `GilEvolution.RunWorkers` | 04-python-gil-evolution.py:178-188 | whatever order the workers run in, once all have run every slot holds its chunk's sum |
| `GilEvolution.SumSlots` | 04-python-gil-evolution.py:191 | `sum(results)` adds all slots |
| `GilEvolution.StartOrder` | 04-python-gil-evolution.py:178 | every started index is a valid result slot, and every slot's worker is started |
| `GilEvolution.ParallelComputation` | 04-python-gil-evolution.py:165-191 | fails with ZeroDivisionError exactly when `num_threads == 0`; otherwise returns the sum of squares of the data for any positive count, and 0 for a negative one |
| `GilEvolution.DemoParallel` | 04-python-gil-evolution.py:194-198 | 1 and 4 threads give the same result, the sum of squares below 1,000,000 |
| `ObjComparison.Point.Distance` | 05-obj-to-python-comparison.py:63-67 | the value is the sum of the squared coordinates: non-negative, and 0 exactly at the origin |
| `ObjComparison.DistanceOfDemoPoint` | 05-obj-to-python-comparison.py:70-72 | `Point(3, 4).distance()` is 25 |
| `ObjComparison.Area` | 05-obj-to-python-comparison.py:127-154 | a plain Shape answers the default 0; a Rectangle answers width times height; a Circle answers radius times radius, which is non-negative and 0 exactly for radius 0 |
| `ObjComparison.Areas` | 05-obj-to-python-comparison.py:157-161 | one area per shape, in list order, each from that shape's own `area` |
| `ObjComparison.AreasOfDemoShapes` | 05-obj-to-python-comparison.py:157-161 | the script's shapes report 50, 49 and 12 |
| `ObjComparison.CounterClass.constructor` | 05-obj-to-python-comparison.py:203 | the class-level count starts at 0 |
| `ObjComparison.Counter.constructor` | 05-obj-to-python-comparison.py:205-207 | each instance bumps the class count and takes the new count as its id |
| `ObjComparison.MakeCounters` | 05-obj-to-python-comparison.py:200-212 | `k` instances get fresh objects with consecutive, strictly increasing ids ending at the class count |
| `ObjComparison.DemoCounters` | 05-obj-to-python-comparison.py:210-215 | the ids are 1, 2, 3 and `Counter.count` is 3 |
| `ObjComparison.MutableBox.constructor` | 05-obj-to-python-comparison.py:241-243 | a new box holds the given value |
| `ObjComparison.ModifyBox` | 05-obj-to-python-comparison.py:246-248 | the caller's box now holds the new value |
| `ObjComparison.ReplaceBox` | 05-obj-to-python-comparison.py:251-253 | rebinding the parameter leaves the caller's box unchanged |
| `ObjComparison.DemoBoxes` | 05-obj-to-python-comparison.py:256-264 | `box1` ends at 20 and `box2` stays 30 |
| `ObjComparison.SquareDemo` | 05-obj-to-python-comparison.py:306-313 | `square(5)` is 25, `square('ha')` raises a TypeError, and the intended `'ha' * 2` is `'haha'`; it also states `typed_square(5)` is 25, which the script as written never reaches (line 329 follows the TypeError on line 313) |
| `ObjComparison.TypedSquare` | 05-obj-to-python-comparison.py:324-326 | `typed_square` agrees with Python's `x * x` on ints |
| `ObjComparison.MakeAdder` | 05-obj-to-python-comparison.py:366-372 | the closure adds the captured `x` to every argument |
| `ObjComparison.AdderDemo` | 05-obj-to-python-comparison.py:375-377 | `add_10(5)` is 15 and `add_10(20)` is 30 (code the script as written never reaches: it stops at the TypeError on line 313) |

## Left out

- Printing is not modelled: the banners, f-string narration and `print_info`. Each demonstration instead returns the values the script prints.
- `id()` values are not modelled. Object identity is Dafny object identity (`fresh`, `unchanged`, distinct references).
- Timing is not modelled: `time.time()`, `time.sleep`, elapsed times and speedups. `cpu_work`'s `name` argument only labels a printed time and is dropped.
- `sys` introspection is not modelled: versions and GIL-status queries.
- Real threads and processes are not modelled: `threading`, `multiprocessing`, `os.getpid`, and the thread and process pools. Threads are modelled as arbitrary sequential schedules of their atomic steps, and processes as computations on private state.
- The unlocked race demonstration (`03-threads-vs-processes.py:53-67`) is not modelled. Its outcome depends on lost updates under preemption, which a sequential model cannot produce.
- ThreadsProcesses.Lock.Acquire: requires a free lock instead of blocking until it is free. The schedules never try to take a held lock.
- `FileWriter.save` and `ConsoleWriter.write` are not modelled: they write to a file and to the console. The duck-typed writer is closed over the two in-memory writers.
- Floats and complex numbers are not modelled: `square(3.14)`, `square(2+3j)` and `typed_square(3.14)`. Only ints and strs are modelled.
- Type hints, `Protocol` and `Union` are not modelled: they have no run-time effect, and `MakeItQuackTyped` states exactly that.
- The AttributeError and TypeError message texts are kept as structured fields, except the one fixed TypeError message for str times str.
- ThreadsProcesses.IoBoundTask: the simulated I/O wait is dropped; only the returned value is modelled.
- The comparisons with OBJ, TYPE0/TYPE1 and the course assignments are not modelled: they are printed prose only.

## Findings

| source | as written | input that shows it | evidently intended | confidence | as-written member | corrected member |
|---|---|---|---|---|---|---|
| 02-duck-typing.py:148-156 | `square('ab')` evaluates `'ab' * 'ab'`, which raises TypeError (can't multiply sequence by non-int of type 'str'). The exception is uncaught, so the script ends there, and the type-hint part from line 158 on never runs | `square('ab')` | string repetition, the comment's "String multiplication!": `'ab' * 2 == 'abab'` | not executed | `PyValues.SquareOfTextRaises` | `PyValues.Doubled` |
| 05-obj-to-python-comparison.py:306-313 | `square('ha')` evaluates `'ha' * 'ha'` and raises the same uncaught TypeError, so the parts from line 315 on never run | `square('ha')` | `'ha' * 2 == 'haha'` | not executed | `PyValues.SquareOfTextRaises` | `PyValues.Doubled` |

Both demonstrations are modelled as written: `PyValues.Square` fails on
text. The lemmas `DuckTyping.SquareDemo` and `ObjComparison.SquareDemo` state
both the failure and the intended repetition result.
