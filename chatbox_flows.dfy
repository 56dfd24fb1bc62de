/** `test-chatbox-flows.js`: the `TestResults` tally that the chat-flow script fills in
 *  as its scenarios run. The time stamp of a record is a parameter. */
module ChatboxFlows {
  datatype Record = Record(testName: string, status: string, details: string, timestamp: string)

  /** The number of records with the given status. */
  function CountStatus(rs: seq<Record>, status: string): (n: nat)
    ensures n <= |rs|
  {
    if |rs| == 0 then 0
    else CountStatus(rs[..|rs| - 1], status) + (if rs[|rs| - 1].status == status then 1 else 0)
  }

  /** A record counts under at most one of the three statuses, so the three counts
   *  together never exceed the number of records. */
  lemma {:induction false} StatusCountsBounded(rs: seq<Record>)
    ensures CountStatus(rs, "pass") + CountStatus(rs, "fail") + CountStatus(rs, "warning") <= |rs|
  {
    if |rs| > 0 {
      StatusCountsBounded(rs[..|rs| - 1]);
    }
  }

  class TestResults {
    var total: nat
    var passed: nat
    var failed: nat
    var warnings: nat
    var results: seq<Record>

    /** Every counter agrees with the records: one record per test, and each status
     *  counter is the number of records with that status. */
    ghost predicate Valid()
      reads this
    {
      total == |results| &&
      passed == CountStatus(results, "pass") &&
      failed == CountStatus(results, "fail") &&
      warnings == CountStatus(results, "warning")
    }

    constructor ()
      ensures Valid()
      ensures total == 0 && passed == 0 && failed == 0 && warnings == 0 && results == []
    {
      total := 0;
      passed := 0;
      failed := 0;
      warnings := 0;
      results := [];
    }

    /** `add`: one more test, counted under its status when that is `pass`, `fail` or
     *  `warning`, and one more record. */
    method Add(testName: string, status: string, details: string, timestamp: string)
      requires Valid()
      modifies this
      ensures Valid()
      ensures results == old(results) + [Record(testName, status, details, timestamp)]
      ensures total == old(total) + 1
      ensures passed == old(passed) + (if status == "pass" then 1 else 0)
      ensures failed == old(failed) + (if status == "fail" then 1 else 0)
      ensures warnings == old(warnings) + (if status == "warning" then 1 else 0)
      ensures passed + failed + warnings <= total
    {
      total := total + 1;
      if status == "pass" {
        passed := passed + 1;
      }
      if status == "fail" {
        failed := failed + 1;
      }
      if status == "warning" {
        warnings := warnings + 1;
      }
      results := results + [Record(testName, status, details, timestamp)];
      assert results[..|results| - 1] == old(results);
      StatusCountsBounded(results);
    }
  }
}
