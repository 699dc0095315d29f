/**
 * What both harness headers share: the semantics of C's `realloc` as the
 * registries use it, the "passed"/"failed" verdict on a test's return value,
 * and the shape of a report (one line per registered entry, in order).
 */
module Runtime {

  /**
   * `success ? "passed" : "failed"`: any nonzero return value of a test
   * body is a pass, zero is a failure.
   */
  function Verdict(success: int): (v: string)
    ensures v == "passed" <==> success != 0
    ensures v == "failed" <==> success == 0
  {
    if success != 0 then "passed" else "failed"
  }

  /**
   * The report of a run over `entries`: the line `line` makes of each entry,
   * in ascending index order.
   */
  function Lines<T>(entries: seq<T>, line: T -> string): (r: seq<string>)
    ensures |r| == |entries|
  {
    if entries == [] then [] else [line(entries[0])] + Lines(entries[1..], line)
  }

  /** Line `i` of a report is the line of entry `i`. */
  lemma {:induction false} LinesAt<T>(entries: seq<T>, line: T -> string, i: nat)
    requires i < |entries|
    ensures Lines(entries, line)[i] == line(entries[i])
  {
    if i > 0 {
      LinesAt(entries[1..], line, i - 1);
    }
  }

  /**
   * Appending one entry appends exactly its line to the report and leaves
   * every earlier line as it was.
   */
  lemma {:induction false} LinesAppend<T>(entries: seq<T>, e: T, line: T -> string)
    ensures Lines(entries + [e], line) == Lines(entries, line) + [line(e)]
  {
    if entries == [] {
      assert entries + [e] == [e];
    } else {
      assert (entries + [e])[1..] == entries[1..] + [e];
      LinesAppend(entries[1..], e, line);
    }
  }

  /**
   * `realloc(a, n * sizeof(T))`: a fresh block of `n` slots whose first
   * `min(n, a.Length)` slots hold what `a` held. C leaves the slots past the
   * old length indeterminate; here they hold `fill`, and every caller
   * overwrites them at once. The old block is left alone (C frees it).
   */
  method Realloc<T>(a: array<T>, n: nat, fill: T) returns (b: array<T>)
    ensures fresh(b)
    ensures b.Length == n
    ensures forall i :: 0 <= i < n && i < a.Length ==> b[i] == a[i]
    ensures forall i :: a.Length <= i < n ==> b[i] == fill
  {
    b := new T[n](_ => fill);
    var i := 0;
    while i < n && i < a.Length
      invariant 0 <= i <= n
      invariant forall k :: 0 <= k < i && k < a.Length ==> b[k] == a[k]
      invariant forall k :: a.Length <= k < n ==> b[k] == fill
    {
      b[i] := a[i];
      i := i + 1;
    }
  }
}
