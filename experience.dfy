/** The experience section (src/features/experience/Experience.tsx): a list of expanded card
    indices that a button toggles, and each card's achievements split into a preview and the
    rest. */
module Experience {
  import opened Text

  /** Only the first card starts expanded. */
  const InitialExpanded: seq<int> := [0]

  /** `prev.filter(i => i !== x)`. */
  function Remove(xs: seq<int>, x: int): (r: seq<int>)
    ensures forall j :: j in r <==> j in xs && j != x
    ensures multiset(r)[x] == 0
    ensures forall j | j != x :: multiset(r)[j] == multiset(xs)[j]
    ensures x !in xs ==> r == xs
  {
    if |xs| == 0 then []
    else
      var rest := Remove(xs[1..], x);
      assert xs == [xs[0]] + xs[1..];
      if xs[0] == x then rest else [xs[0]] + rest
  }

  /** `toggleExpand(index)`: drop every occurrence when present, otherwise append. */
  function ToggleExpand(prev: seq<int>, index: int): seq<int> {
    if index in prev then Remove(prev, index) else prev + [index]
  }

  function IsExpanded(items: seq<int>, index: int): bool {
    index in items
  }

  /** No index is listed twice. */
  predicate Distinct(xs: seq<int>) {
    forall j | j in xs :: multiset(xs)[j] <= 1
  }

  /** Toggling flips the toggled card and leaves every other card as it was; an absent index
      goes to the end and a present one is removed everywhere. */
  lemma ToggleFlips(prev: seq<int>, index: int)
    ensures IsExpanded(ToggleExpand(prev, index), index) == !IsExpanded(prev, index)
    ensures forall j | j != index :: IsExpanded(ToggleExpand(prev, index), j) == IsExpanded(prev, j)
    ensures index !in prev ==> ToggleExpand(prev, index) == prev + [index]
    ensures index in prev ==> multiset(ToggleExpand(prev, index))[index] == 0
  {
  }

  /** A list without repeats keeps none, and toggling twice gives the old membership back
      (the very list, if the index was absent). */
  lemma ToggleTwice(prev: seq<int>, index: int)
    ensures Distinct(prev) ==> Distinct(ToggleExpand(prev, index))
    ensures forall j :: IsExpanded(ToggleExpand(ToggleExpand(prev, index), index), j) == IsExpanded(prev, j)
    ensures index !in prev ==> ToggleExpand(ToggleExpand(prev, index), index) == prev
  {
    var once := ToggleExpand(prev, index);
    if index !in prev {
      assert multiset(once) == multiset(prev) + multiset{index};
      assert once[..|prev|] == prev;
      assert Remove(once, index) == prev by { RemoveLast(prev, index); }
    }
  }

  /** Removing an index that only the appended last element holds leaves the prefix. */
  lemma {:induction false} RemoveLast(xs: seq<int>, x: int)
    requires x !in xs
    ensures Remove(xs + [x], x) == xs
  {
    if |xs| == 0 {
      assert [x][1..] == [];
    } else {
      var t := xs + [x];
      assert t[0] == xs[0] && t[1..] == xs[1..] + [x];
      assert xs[0] != x;
      RemoveLast(xs[1..], x);
      assert xs == [xs[0]] + xs[1..];
    }
  }

  /** `achievements.slice(0, 2)`. */
  function Preview<T>(achievements: seq<T>): seq<T> {
    achievements[..Min(2, |achievements|)]
  }

  /** `achievements.slice(2)`. */
  function Hidden<T>(achievements: seq<T>): seq<T> {
    achievements[Min(2, |achievements|)..]
  }

  /** The preview is the first two achievements and the hidden part the rest; the toggle
      button is shown exactly when there are more than two. */
  lemma PreviewSplit<T>(achievements: seq<T>)
    ensures Preview(achievements) + Hidden(achievements) == achievements
    ensures |Preview(achievements)| == Min(2, |achievements|)
    ensures |Hidden(achievements)| > 0 <==> |achievements| > 2
  {
  }
}
