/**
 * The later harness design (st.h): a heap-allocated state holding an ordered,
 * append-only array of named tests, a global pointer to it that the first
 * registration creates, and a main routine that runs every test, deletes the
 * state and returns 0.
 */
module St {
  import opened Runtime

  /** `st_func_t`: a test body, opaque here, reduced to the int it returns. */
  type TestFunc = () -> int

  /** `struct st_test`: the stringified test name and its function. */
  datatype Test = Test(name: string, func: TestFunc)

  /** The line `st_state_run_tests` prints for one test, without the newline. */
  function Line(t: Test): (r: string)
  {
    t.name + " " + Verdict(t.func())
  }

  /** A test's line says "passed" exactly when its function returned nonzero. */
  lemma LinePassed(t: Test)
    ensures Line(t) == t.name + " passed" <==> t.func() != 0
    ensures Line(t) == t.name + " failed" <==> t.func() == 0
  {
    var n := t.name;
    assert (n + " passed")[|n| + 1] != (n + " failed")[|n| + 1];
    if t.func() != 0 {
      assert Line(t) == n + " passed";
    } else {
      assert Line(t) == n + " failed";
    }
  }

  /** Line `i` of a report says "passed" exactly when test `i` returned nonzero. */
  lemma ReportLinePassed(tests: seq<Test>, i: nat)
    requires i < |tests|
    ensures Lines(tests, Line)[i] == tests[i].name + " passed" <==> tests[i].func() != 0
    ensures Lines(tests, Line)[i] == tests[i].name + " failed" <==> tests[i].func() == 0
  {
    LinesAt(tests, Line, i);
    LinePassed(tests[i]);
  }

  /** `struct st_state`: the tests array and its length. */
  class State {
    var tests: array<Test>
    var testCount: nat
    /** Set by `st_state_delete`; nothing may use the state afterwards. */
    ghost var deleted: bool

    ghost predicate Valid()
      reads this
    {
      tests.Length == testCount
    }

    /** The registered tests, in registration order. */
    ghost function Tests(): (r: seq<Test>)
      reads this, tests
      requires Valid()
    {
      tests[..testCount]
    }

    /**
     * `st_state_new`: a state with no tests. The C allocation leaves `tests`
     * and `test_count` uninitialised; this model takes them to be empty.
     */
    constructor ()
      ensures Valid() && !deleted
      ensures testCount == 0 && Tests() == []
    {
      tests := new Test[0];
      testCount := 0;
      deleted := false;
    }

    /**
     * `st_state_add_test`: the new test takes index `old(testCount)`, the
     * count grows by one, and the reallocated array keeps every earlier test.
     */
    method AddTest(name: string, func: TestFunc)
      requires Valid() && !deleted
      modifies this
      ensures Valid() && !deleted && fresh(tests)
      ensures testCount == old(testCount) + 1
      ensures tests[old(testCount)] == Test(name, func)
      ensures forall i :: 0 <= i < old(testCount) ==> tests[i] == old(tests[i])
      ensures Tests() == old(Tests()) + [Test(name, func)]
    {
      var index := testCount;
      testCount := testCount + 1;
      tests := Realloc(tests, testCount, Test(name, func));
      tests[index] := Test(name, func);
      assert tests[..testCount] == old(tests[..testCount]) + [Test(name, func)];
    }

    /**
     * `st_state_run_tests`: one loop pass per test, in ascending index order
     * (`calls` lists the index each pass calls, in pass order), and one
     * report line per test, "<name> passed" or "<name> failed".
     */
    method RunTests() returns (report: seq<string>, calls: seq<nat>)
      requires Valid() && !deleted
      ensures |calls| == testCount && forall i :: 0 <= i < |calls| ==> calls[i] == i
      ensures |report| == testCount
      ensures forall i :: 0 <= i < testCount ==>
        report[i] == tests[i].name + " " + Verdict(tests[i].func())
      ensures report == Lines(Tests(), Line)
    {
      report, calls := [], [];
      var i := 0;
      while i < testCount
        invariant 0 <= i <= testCount
        invariant |calls| == i && forall k :: 0 <= k < i ==> calls[k] == k
        invariant report == Lines(tests[..i], Line)
      {
        var testName := tests[i].name;
        var testFunc := tests[i].func;
        var success := testFunc();
        calls := calls + [i];
        LinesAppend(tests[..i], tests[i], Line);
        assert tests[..i + 1] == tests[..i] + [tests[i]];
        report := report + [testName + " " + Verdict(success)];
        i := i + 1;
      }
      forall k | 0 <= k < testCount
        ensures report[k] == tests[k].name + " " + Verdict(tests[k].func())
      {
        LinesAt(tests[..testCount], Line, k);
      }
    }

    /** `st_state_delete`: frees the state; it is not used again. */
    method Delete()
      requires !deleted
      modifies this
      ensures deleted
    {
      deleted := true;
    }
  }

  /** How the process ends. */
  datatype Exit =
    | Exited(code: int, report: seq<string>)
    /** `st_state_run_tests(NULL)` reads `self->test_count` through a null pointer. */
    | NullDereference

  /** The program of one test binary: the global `st_state` pointer. */
  class Harness {
    var state: State?

    ghost predicate Valid()
      reads this, state
    {
      state != null ==> state.Valid() && !state.deleted
    }

    /** The tests registered so far; none while the global is still null. */
    ghost function Registered(): (r: seq<Test>)
      reads this, state, if state != null then {state.tests} else {}
      requires Valid()
    {
      if state == null then [] else state.Tests()
    }

    /** `st_state_t *st_state = NULL`, before any registration. */
    constructor ()
      ensures Valid() && state == null && Registered() == []
    {
      state := null;
    }

    /**
     * `init_<test_name>`: creates the state only while the global is null,
     * reuses the existing one otherwise, then adds the test.
     */
    method Register(name: string, func: TestFunc)
      requires Valid()
      modifies this, state
      ensures Valid() && state != null
      ensures old(state) == null ==> fresh(state)
      ensures old(state) != null ==> state == old(state)
      ensures Registered() == old(Registered()) + [Test(name, func)]
    {
      if state == null {
        state := new State();
      }
      state.AddTest(name, func);
    }

    /**
     * `main` as `ST_MAIN` writes it: run the tests, delete the state, return
     * 0. With no test registered the global is still null and the run
     * dereferences it.
     */
    method RunMainAsWritten() returns (outcome: Exit)
      requires Valid()
      modifies state
      ensures old(state) == null ==> outcome == NullDereference
      ensures old(state) != null ==>
        outcome == Exited(0, Lines(old(Registered()), Line)) && state.deleted
    {
      if state == null {
        outcome := NullDereference;
        return;
      }
      var report, calls := state.RunTests();
      state.Delete();
      outcome := Exited(0, report);
    }

    /**
     * `main` as intended: run whatever was registered (nothing when the
     * global is null), delete the state if there is one, and return 0
     * whatever the outcomes.
     */
    method RunMain() returns (outcome: Exit)
      requires Valid()
      modifies state
      ensures outcome == Exited(0, Lines(old(Registered()), Line))
      ensures state != null ==> state.deleted
    {
      var report: seq<string> := [];
      if state != null {
        var calls;
        report, calls := state.RunTests();
        state.Delete();
      }
      outcome := Exited(0, report);
    }
  }

  /** A test binary with no tests, run as written: it dereferences null. */
  method NoTestsAsWritten() returns (outcome: Exit)
    ensures outcome == NullDereference
  {
    var h := new Harness();
    outcome := h.RunMainAsWritten();
  }

  /** A test binary with no tests, run as intended: no lines, exit code 0. */
  method NoTestsProgram() returns (outcome: Exit)
    ensures outcome == Exited(0, [])
  {
    var h := new Harness();
    outcome := h.RunMain();
  }

  /**
   * Two tests registered in the order A then B, where A returns 1 and B
   * returns 0: the report is "A passed" then "B failed", and main returns 0.
   */
  method TwoTestsProgram() returns (outcome: Exit)
    ensures outcome == Exited(0, ["A passed", "B failed"])
  {
    var a: TestFunc := () => 1;
    var b: TestFunc := () => 0;
    var h := new Harness();
    h.Register("A", a);
    h.Register("B", b);
    ghost var tests := h.Registered();
    assert tests == [Test("A", a), Test("B", b)];
    outcome := h.RunMain();
    assert Line(tests[0]) == "A passed";
    assert Line(tests[1]) == "B failed";
    LinesAt(tests, Line, 0);
    LinesAt(tests, Line, 1);
    assert Lines(tests, Line) == ["A passed", "B failed"];
  }
}
