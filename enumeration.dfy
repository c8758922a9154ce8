/**
 * The two-call enumeration loop used for instance layers, instance extensions and
 * device extensions: ask for the count, stop early when it is zero, resize the
 * vector, fetch, and retry while the fetch answers VK_INCOMPLETE.
 */
module Enumeration {
  import opened Vk

  /**
   * The driver's answers to one pass of the loop: the result and count of the
   * counting call, then the result of the fetching call and the vector's
   * contents after it (the vector was resized to `count` entries before it).
   */
  datatype Attempt<T> = Attempt(countResult: Enum, count: uint32, fetchResult: Enum, fetched: seq<T>)

  /** How the loop ended. */
  datatype Enumerated<T> =
    | CountFailed(result: Enum)                // the counting call did not return VK_SUCCESS (PANIC)
    | NoItems(kept: seq<T>)                    // a zero count: early return, the vector as it was
    | Fetched(result: Enum, items: seq<T>)     // the fetch answered something other than VK_INCOMPLETE

  /** This pass leaves the loop (through the PANIC, the early return or the loop condition). */
  predicate Ends<T>(a: Attempt<T>)
  {
    a.countResult != VK_SUCCESS || a.count == 0 || a.fetchResult != VK_INCOMPLETE
  }

  /** The driver stops answering VK_INCOMPLETE at some pass of the script. */
  predicate Settles<T>(script: seq<Attempt<T>>)
  {
    exists k :: 0 <= k < |script| && Ends(script[k])
  }

  /** How one pass that leaves the loop ends, given the vector's contents before it. */
  function EndOf<T>(a: Attempt<T>, vec: seq<T>): Enumerated<T>
  {
    if a.countResult != VK_SUCCESS then CountFailed(a.countResult)
    else if a.count == 0 then NoItems(vec)
    else Fetched(a.fetchResult, a.fetched)
  }

  /** A pass that does not leave the loop is followed by a script that still settles. */
  lemma SettlesAfterRetry<T>(script: seq<Attempt<T>>)
    requires Settles(script) && !Ends(script[0])
    ensures Settles(script[1..])
  {
    var k :| 0 <= k < |script| && Ends(script[k]);
    assert k > 0;
    assert script[1..][k - 1] == script[k];
  }

  /** The loop, pass by pass, starting from the vector's contents `vec`. */
  function Enumerate<T>(script: seq<Attempt<T>>, vec: seq<T>): Enumerated<T>
    requires Settles(script)
    decreases |script|
  {
    if Ends(script[0]) then EndOf(script[0], vec)
    else
      SettlesAfterRetry(script);
      Enumerate(script[1..], script[0].fetched)
  }

  /** The index of the first pass that leaves the loop. */
  function FirstEnd<T>(script: seq<Attempt<T>>): (k: nat)
    requires Settles(script)
    ensures k < |script| && Ends(script[k])
    ensures forall j :: 0 <= j < k ==> !Ends(script[j])
    decreases |script|
  {
    if Ends(script[0]) then 0
    else
      SettlesAfterRetry(script);
      var k := FirstEnd(script[1..]);
      assert forall j :: 1 <= j < k + 1 ==> script[j] == script[1..][j - 1];
      k + 1
  }

  /**
   * Closed form of the loop: those passes before the first one that ends it all
   * succeeded with VK_INCOMPLETE, and the outcome is that pass's, with the vector
   * the previous pass left behind (or the initial one).
   */
  lemma {:induction false} EnumerateFirstEnd<T>(script: seq<Attempt<T>>, vec: seq<T>)
    requires Settles(script)
    ensures var k := FirstEnd(script);
      Enumerate(script, vec) == EndOf(script[k], if k == 0 then vec else script[k - 1].fetched)
    decreases |script|
  {
    if !Ends(script[0]) {
      SettlesAfterRetry(script);
      EnumerateFirstEnd(script[1..], script[0].fetched);
      var k := FirstEnd(script[1..]);
      assert FirstEnd(script) == k + 1;
      assert script[1..][k] == script[k + 1];
      if k > 0 {
        assert script[1..][k - 1] == script[k];
      }
    }
  }

  /**
   * What each kind of ending says about the pass that caused it: a counting call
   * that failed, a zero count, or a fetch result other than VK_INCOMPLETE after a
   * successful non-zero count.
   */
  lemma EnumeratedKinds<T>(script: seq<Attempt<T>>, vec: seq<T>)
    requires Settles(script)
    ensures var k := FirstEnd(script); var a := script[k];
      match Enumerate(script, vec)
      case CountFailed(res) => res == a.countResult && res != VK_SUCCESS
      case NoItems(_) => a.countResult == VK_SUCCESS && a.count == 0
      case Fetched(res, items) =>
        a.countResult == VK_SUCCESS && a.count != 0 && res == a.fetchResult &&
        res != VK_INCOMPLETE && items == a.fetched
  {
    EnumerateFirstEnd(script, vec);
  }

  /** A zero count on the first pass ends the loop with the initial vector untouched. */
  lemma ZeroCountFirst<T>(script: seq<Attempt<T>>, vec: seq<T>)
    requires |script| > 0 && script[0].countResult == VK_SUCCESS && script[0].count == 0
    ensures Settles(script)
    ensures Enumerate(script, vec) == NoItems(vec)
  {
    assert Ends(script[0]);
  }

  /**
   * The do/while loop itself, on a vector holding `vec0`: it returns the ending of
   * the first pass that leaves the loop.
   */
  method TwoCallEnumerate<T>(script: seq<Attempt<T>>, vec0: seq<T>) returns (r: Enumerated<T>)
    requires Settles(script)
    ensures r == Enumerate(script, vec0)
    ensures var k := FirstEnd(script);
      r == EndOf(script[k], if k == 0 then vec0 else script[k - 1].fetched)
  {
    EnumerateFirstEnd(script, vec0);
    var vec := vec0;
    var i := 0;
    while true
      invariant 0 <= i < |script| && Settles(script[i..])
      invariant Enumerate(script[i..], vec) == Enumerate(script, vec0)
      decreases |script| - i
    {
      var a := script[i];
      if a.countResult != VK_SUCCESS {
        return CountFailed(a.countResult);
      }
      if a.count == 0 {
        return NoItems(vec);
      }
      vec := a.fetched;
      if a.fetchResult != VK_INCOMPLETE {
        return Fetched(a.fetchResult, vec);
      }
      SettlesAfterRetry(script[i..]);
      assert script[i..][1..] == script[i + 1..];
      i := i + 1;
    }
  }
}
