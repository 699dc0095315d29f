# simpletest registry and driver, in Dafny

This project models the engine of simpletest, a tiny self-registering C
unit-test harness. Each `ST_TEST(name)` declaration registers its test
function in a process-wide registry before `main` runs. The `main` that
`ST_MAIN()` emits runs every registered test in registration order and
prints one line per test. The repository has two versions of this engine,
and both are modelled:

- `st.h` (module `St`), the later design. A heap-allocated `st_state` holds
  an array of `{name, func}` entries and its count. The global pointer
  `st_state` starts as `NULL`. The first registration creates the state,
  and later registrations reuse it. `main` runs the tests, deletes the
  state and returns 0. Each line is `<name> passed` or `<name> failed`.
- `src/test.h` (module `Legacy`), the earlier design. A zero-initialised
  global struct holds an array of function pointers and a count. `main`
  prints `Test passed` or `Test failed` per test and returns 0.

Module `Runtime` holds what both versions share:

- `realloc` as they use it, a copy-the-prefix loop into a fresh array;
- the `success ? "passed" : "failed"` verdict;
- `Lines`, the report of a run (one line per entry, in index order), with
  its lemmas.

Registries are classes whose methods update the array and the count in
place. Each run loop is a method proved against `Lines`. A test body is an
opaque `() -> int` value. A run returns its report as a sequence of strings
instead of printing it. It also returns `calls`, the index each loop pass
calls, in pass order. Test bodies are pure functions, so a call itself
leaves no trace; `calls` records the loop passes, and each pass makes
exactly one call, to the test at its index. The contract on `calls` thus
states "one pass per test, in ascending order"; that each pass calls its
test exactly once is read off the loop body.

## Model

| member | source | states |
|---|---|---|
| `Runtime.Verdict` | st.h:122 | the verdict is "passed" exactly when the test returned nonzero, and "failed" exactly when it returned zero |
| `Runtime.Lines` | st.h:118-123 | a run over n entries reports exactly n lines (an empty registry reports none) |
| `Runtime.LinesAt` | st.h:118-122 | line i of a report is the line of entry i, so the lines follow ascending index order |
| `Runtime.LinesAppend` | st.h:100-104 | registering one more entry adds exactly its line at the end of the report and leaves every earlier line unchanged |
| `Runtime.Realloc` | st.h:102 | a fresh block of the new size that keeps the old block's contents in the same positions |
| `St.LinePassed` | st.h:121-122 | a test's line is "<name> passed" exactly when its function returned nonzero, and "<name> failed" exactly when it returned zero |
| `St.ReportLinePassed` | st.h:118-122 | line i of the report is "<name> passed" exactly when test i returned nonzero, and "<name> failed" otherwise |
| `St.State.constructor` | st.h:75-85 | a new state has count 0 and no tests (an assumption: the C code leaves the fields uninitialised) |
| `St.State.AddTest` | st.h:95-105 | the count grows by exactly one; the new entry sits at the old count and holds the given name and function; every earlier entry is unchanged |
| `St.State.RunTests` | st.h:111-124 | one loop pass per test, in ascending index order (the `calls` trace), and line i is entry i's name followed by "passed" or "failed" per its return value |
| `St.State.Delete` | st.h:88-92 | only a live state may be deleted (no double free), and afterwards no operation may use it |
| `St.Harness.constructor` | st.h:47 | the global state pointer starts as null, with nothing registered |
| `St.Harness.Register` | st.h:34-39 | creates a state only when the global is null and otherwise reuses the existing one; the registered tests grow by exactly the new one |
| `St.Harness.RunMainAsWritten` | st.h:46-53 | as written: when no test was registered, the run dereferences the null global; otherwise it returns 0 with one line per registered test and deletes the state |
| `St.Harness.RunMain` | st.h:46-53 | returns 0 whatever the outcomes, reports one line per registered test (none when nothing was registered), and deletes the state |
| `St.NoTestsAsWritten` | st.h:47-50 | a binary with no tests dereferences null when run as written |
| `St.NoTestsProgram` | st.h:47-52 | a binary with no tests, as intended, prints nothing and returns 0 |
| `St.TwoTestsProgram` | st.h:26-53 | registering A (returns 1) and then B (returns 0) reports "A passed" then "B failed", and main returns 0 |
| `Legacy.LinePassed` | src/test.h:61 | a test's line is "Test passed" exactly when it returned nonzero, and "Test failed" exactly when it returned zero |
| `Legacy.ReportLinePassed` | src/test.h:59-62 | line i of the report is "Test passed" exactly when test i returned nonzero, and "Test failed" otherwise |
| `Legacy.State.constructor` | src/test.h:53 | the global state starts with count 0 and no tests |
| `Legacy.State.Register` | src/test.h:41-48 | the count grows by exactly one; the new test sits in the last slot, count - 1; every earlier pointer stays where it was |
| `Legacy.State.RunMain` | src/test.h:54-64 | one loop pass per test, in ascending index order (the `calls` trace), emits one line per test ("Test passed" or "Test failed"), and returns 0 however many tests failed |
| `Legacy.NoTestsProgram` | src/test.h:53-64 | a program with no tests prints nothing and returns 0 |
| `Legacy.TwoTestsProgram` | src/test.h:33-64 | registering a test that returns 1 and then one that returns 0 reports "Test passed" then "Test failed", and main returns 0 |

## Left out

- St.State.constructor: `st_state_new` mallocs the state without initialising `tests` or `test_count`. The model assumes both start empty, which the C code does not guarantee. The first `st_state_add_test` on truly uninitialised memory is undefined behaviour and has no model.
- The `success` field of `struct st_test` is never written or read by the core, so the model's entries leave it out.
- Printing: each run returns its report lines (without the trailing newline) instead of writing them with `printf`.
- Allocation failure is not modelled. `st_state_new`'s diagnostic followed by `exit(EXIT_FAILURE)` is a process abort. The unchecked `realloc` that returns `NULL` has no defined recovery.
- Runtime.Realloc: the slots past the old length hold a caller-given value rather than indeterminate bytes. Every caller overwrites them at once.
- St.State.Delete: `free` is modelled only as a terminal flag that forbids further use, a second delete included. Memory release itself has no observable behaviour here.
- Load-time registration through `__attribute__((constructor))` and its unspecified order across translation units are not modelled. Registration is an explicit method call, made in whatever order the caller chooses.
- Byte-size arithmetic for `realloc` is left out, and so is overflow. This covers `count * sizeof` and `int new_size` in src/test.h. The legacy `int test_count` passing `INT_MAX` is not modelled either, since counts are unbounded integers.
- Test bodies are total functions returning an int. Side effects, non-termination and crashes inside a test are not modelled.
- The `run_<test_name>` wrapper only forwards to the test body, so the model stores the test function directly.

## Findings

| source | as written | input that shows it | evidently intended | confidence | as-written member | corrected member |
|---|---|---|---|---|---|---|
| st.h:46-53 | `main` passes the global `st_state` to `st_state_run_tests` and `st_state_delete` without checking it. The global stays `NULL` when no `ST_TEST` was declared, so `self->test_count` dereferences a null pointer. | a test binary with `ST_MAIN()` and no `ST_TEST` | an empty registry runs cleanly, prints nothing and returns 0 | high for the null dereference (undefined behaviour, typically a crash), not executed | `St.Harness.RunMainAsWritten` (shown by `St.NoTestsAsWritten`) | `St.Harness.RunMain` (shown by `St.NoTestsProgram`) |
