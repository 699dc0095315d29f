/**
 * The earlier harness design (src/test.h): a zero-initialised global struct
 * holding an array of test function pointers and its count; each test's
 * registration grows the array by one slot and stores the test in it, and
 * `main` runs the tests in order and prints "Test passed" or "Test failed".
 */
module Legacy {
  import opened Runtime

  /** `st_fp`: a test body, opaque here, reduced to the int it returns. */
  type TestFunc = () -> int

  /** The line `main` prints for one test, without the newline. */
  function Line(f: TestFunc): (r: string)
  {
    "Test " + Verdict(f())
  }

  /** A test's line is "Test passed" exactly when it returned nonzero. */
  lemma LinePassed(f: TestFunc)
    ensures Line(f) == "Test passed" <==> f() != 0
    ensures Line(f) == "Test failed" <==> f() == 0
  {
    assert "Test passed"[5] != "Test failed"[5];
    if f() != 0 {
      assert Line(f) == "Test passed";
    } else {
      assert Line(f) == "Test failed";
    }
  }

  /** Line `i` of a report is "Test passed" exactly when test `i` returned nonzero. */
  lemma ReportLinePassed(tests: seq<TestFunc>, i: nat)
    requires i < |tests|
    ensures Lines(tests, Line)[i] == "Test passed" <==> tests[i]() != 0
    ensures Lines(tests, Line)[i] == "Test failed" <==> tests[i]() == 0
  {
    LinesAt(tests, Line, i);
    LinePassed(tests[i]);
  }

  /** `struct st_state`: the global array of test functions and its count. */
  class State {
    var tests: array<TestFunc>
    var testCount: int

    ghost predicate Valid()
      reads this
    {
      tests.Length == testCount
    }

    /** The registered tests, in registration order. */
    ghost function Tests(): (r: seq<TestFunc>)
      reads this, tests
      requires Valid()
    {
      tests[..]
    }

    /**
     * `struct st_state st_state = {0}`: a null `tests` pointer, modelled as an
     * empty array, and a count of 0.
     */
    constructor ()
      ensures Valid() && testCount == 0 && Tests() == []
    {
      tests := new TestFunc[0];
      testCount := 0;
    }

    /**
     * The body of `init_<test_name>`: the count grows by one, the
     * reallocated array keeps every earlier test where it was, and the new
     * test sits in the last slot, `testCount - 1`.
     */
    method Register(test: TestFunc)
      requires Valid()
      modifies this
      ensures Valid() && fresh(tests)
      ensures testCount == old(testCount) + 1
      ensures tests[testCount - 1] == test
      ensures forall i :: 0 <= i < old(testCount) ==> tests[i] == old(tests[i])
      ensures Tests() == old(Tests()) + [test]
    {
      testCount := testCount + 1;
      tests := Realloc(tests, testCount, test);
      tests[testCount - 1] := test;
      assert tests[..] == old(tests[..]) + [test];
    }

    /**
     * `main`: one loop pass per test, in ascending index order (`calls`
     * lists the index each pass calls, in pass order), one report line per
     * test, and 0 returned however many tests failed.
     */
    method RunMain() returns (exitCode: int, report: seq<string>, calls: seq<nat>)
      requires Valid()
      ensures exitCode == 0
      ensures |calls| == testCount && forall i :: 0 <= i < |calls| ==> calls[i] == i
      ensures |report| == testCount
      ensures forall i :: 0 <= i < testCount ==> report[i] == "Test " + Verdict(tests[i]())
      ensures report == Lines(Tests(), Line)
    {
      report, calls := [], [];
      var i := 0;
      while i < testCount
        invariant 0 <= i <= testCount
        invariant |calls| == i && forall k :: 0 <= k < i ==> calls[k] == k
        invariant report == Lines(tests[..i], Line)
      {
        var success := tests[i]();
        calls := calls + [i];
        LinesAppend(tests[..i], tests[i], Line);
        assert tests[..i + 1] == tests[..i] + [tests[i]];
        report := report + ["Test " + Verdict(success)];
        i := i + 1;
      }
      assert tests[..i] == tests[..];
      forall k | 0 <= k < testCount
        ensures report[k] == "Test " + Verdict(tests[k]())
      {
        LinesAt(tests[..], Line, k);
      }
      exitCode := 0;
    }
  }

  /** A program with no tests: no lines, exit code 0. */
  method NoTestsProgram() returns (exitCode: int, report: seq<string>)
    ensures exitCode == 0 && report == []
  {
    var s := new State();
    var calls;
    exitCode, report, calls := s.RunMain();
  }

  /**
   * Two tests registered in order, the first returning 1 and the second 0:
   * the report is "Test passed" then "Test failed", and main returns 0.
   */
  method TwoTestsProgram() returns (exitCode: int, report: seq<string>)
    ensures exitCode == 0 && report == ["Test passed", "Test failed"]
  {
    var a: TestFunc := () => 1;
    var b: TestFunc := () => 0;
    var s := new State();
    s.Register(a);
    s.Register(b);
    ghost var tests := s.Tests();
    assert tests == [a, b];
    var calls;
    exitCode, report, calls := s.RunMain();
    assert Line(a) == "Test passed";
    assert Line(b) == "Test failed";
    LinesAt(tests, Line, 0);
    LinesAt(tests, Line, 1);
  }
}
