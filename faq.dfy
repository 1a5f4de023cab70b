/** The FAQ accordion (src/features/faq/Faq.tsx): one index says which item is open, -1 for
    none. */
module Faq {

  /** The first item starts open. */
  const InitialOpen := 0

  function IsOpen(openIndex: int, index: int): bool {
    index == openIndex
  }

  /** `setOpenIndex(isOpen ? -1 : index)`. */
  function Click(openIndex: int, index: int): (r: int)
    ensures r == -1 || r == index
  {
    if IsOpen(openIndex, index) then -1 else index
  }

  /** Clicking the open item closes every item; clicking a closed one opens it and only it. */
  lemma ClickEffect(openIndex: int, index: int, other: int)
    requires index >= 0 && other >= 0
    ensures IsOpen(openIndex, index) ==> !IsOpen(Click(openIndex, index), other)
    ensures !IsOpen(openIndex, index) ==>
      (IsOpen(Click(openIndex, index), other) <==> other == index)
  {
  }

  /** The open index after the clicks `clicks`, in order, starting from `openIndex`. */
  function ClickAll(openIndex: int, clicks: seq<int>): int
    decreases |clicks|
  {
    if |clicks| == 0 then openIndex else ClickAll(Click(openIndex, clicks[0]), clicks[1..])
  }

  /** After any non-empty run of clicks, either every item is closed or the item open is the
      one clicked last; with no clicks the initial item stays open. */
  lemma {:induction false} ClicksLeaveLastOrNone(openIndex: int, clicks: seq<int>)
    ensures |clicks| == 0 ==> ClickAll(openIndex, clicks) == openIndex
    ensures |clicks| > 0 ==>
      ClickAll(openIndex, clicks) == -1 || ClickAll(openIndex, clicks) == clicks[|clicks| - 1]
    decreases |clicks|
  {
    if |clicks| > 1 {
      ClicksLeaveLastOrNone(Click(openIndex, clicks[0]), clicks[1..]);
      assert clicks[1..][|clicks| - 2] == clicks[|clicks| - 1];
    }
  }

  /** From the initial state, after the clicks `clicks` the open item is the last one clicked
      or none. */
  lemma ClicksFromInitial(clicks: seq<int>)
    ensures var o := ClickAll(InitialOpen, clicks);
      o == -1 || o == (if |clicks| == 0 then InitialOpen else clicks[|clicks| - 1])
  {
    ClicksLeaveLastOrNone(InitialOpen, clicks);
  }

  /** Clicking the same item twice from a closed state closes it again. */
  lemma ClickTwice(openIndex: int, index: int)
    requires index >= 0 && !IsOpen(openIndex, index)
    ensures Click(Click(openIndex, index), index) == -1
  {
  }
}
