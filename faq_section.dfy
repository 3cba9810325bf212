/** The FAQ accordion: the open answer is a single index or none. */
module FaqSection {
  import opened Wrappers

  /** The state of the accordion: the index of the open answer, if any. */
  type OpenIndex = Option<nat>

  /** On first render no answer is open. */
  const Initial: OpenIndex := None

  /** `toggleFAQ(index)`: clicking the open question closes it, clicking any
      other question opens that one (closing the previous one). */
  function Toggle(open: OpenIndex, index: nat): (r: OpenIndex)
    ensures open == Some(index) ==> r == None
    ensures open != Some(index) ==> r == Some(index)
  {
    if open == Some(index) then None else Some(index)
  }

  /** Answer `k` is shown exactly when it is the open index. */
  predicate IsOpen(open: OpenIndex, k: nat)
  {
    open == Some(k)
  }

  /** The state after a sequence of clicks. */
  function Replay(open: OpenIndex, clicks: seq<nat>): OpenIndex
    decreases clicks
  {
    if clicks == [] then open else Replay(Toggle(open, clicks[0]), clicks[1..])
  }

  /** Whatever the clicks, at most one answer is shown: two shown answers are
      the same answer. */
  lemma AtMostOneOpen(clicks: seq<nat>, j: nat, k: nat)
    requires IsOpen(Replay(Initial, clicks), j) && IsOpen(Replay(Initial, clicks), k)
    ensures j == k
  {
  }

  /** After any non-empty run of clicks the open answer, if any, is the last
      one clicked. */
  lemma {:induction false} ReplayOpensLastClicked(open: OpenIndex, clicks: seq<nat>)
    requires clicks != []
    ensures Replay(open, clicks) == None || Replay(open, clicks) == Some(clicks[|clicks| - 1])
    decreases clicks
  {
    if |clicks| > 1 {
      ReplayOpensLastClicked(Toggle(open, clicks[0]), clicks[1..]);
    }
  }

  /** Clicking one question `n` times from the closed state leaves it open
      exactly when `n` is odd. */
  lemma {:induction false} RepeatedClicks(index: nat, n: nat)
    ensures Replay(Initial, seq(n, _ => index)) == (if n % 2 == 1 then Some(index) else None)
  {
    RepeatedClicksFrom(None, index, n);
  }

  /** Clicking `index` `n` times from closed or from `Some(index)`. */
  lemma {:induction false} RepeatedClicksFrom(open: OpenIndex, index: nat, n: nat)
    requires open == None || open == Some(index)
    ensures Replay(open, seq(n, _ => index)) ==
      (if (n % 2 == 1) == (open == None) then Some(index) else None)
    decreases n
  {
    if n > 0 {
      var clicks := seq(n, _ => index);
      assert clicks[0] == index;
      assert clicks[1..] == seq(n - 1, _ => index);
      RepeatedClicksFrom(Toggle(open, index), index, n - 1);
    }
  }

  /** Clicking the same question twice gives back the previous state exactly
      when that question was open or nothing was open. */
  lemma ToggleTwice(open: OpenIndex, index: nat)
    ensures Toggle(Toggle(open, index), index) == open <==> open == None || open == Some(index)
    ensures open != None && open != Some(index) ==> Toggle(Toggle(open, index), index) == None
  {
  }

  /** With another answer open, two clicks on question 1 close everything
      instead of reopening answer 0. */
  lemma ToggleTwiceFromOther()
    ensures Toggle(Toggle(Some(0), 1), 1) == None != Some(0)
  {
  }
}
