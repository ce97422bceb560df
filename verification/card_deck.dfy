/** The fanned deck of job cards: clicking a card brings it to the middle slot
    (position 1) by copying the list, removing the card and inserting it at 1;
    and each card's tilt follows the pointer's offset from the card's centre. */
module CardDeck {
  import opened Text
  import opened Arith

  /** The list without its card at `index`: what the first `splice` leaves. */
  function Without<T>(s: seq<T>, index: nat): (rest: seq<T>)
    requires index < |s|
    ensures |rest| == |s| - 1
    ensures forall k :: 0 <= k < index ==> rest[k] == s[k]
    ensures forall k :: index <= k < |rest| ==> rest[k] == s[k + 1]
  {
    s[..index] + s[index + 1..]
  }

  /** Where the second `splice` inserts: at 1, clamped to the list's length
      (a one-card list gets its card back at 0). */
  function Slot(len: nat): (at: nat)
    ensures at <= len
    ensures len == 0 ==> at == 0
    ensures 0 < len ==> at == 1
  {
    Least(1, len)
  }

  /** `handleCardClick` as a value: the clicked card taken out and put back
      at position 1; a click on position 1 changes nothing. */
  function Reordered<T>(s: seq<T>, index: nat): (r: seq<T>)
    requires index < |s|
    ensures |r| == |s|
    ensures 2 <= |s| ==> r[1] == s[index]
    ensures index == 1 ==> r == s
  {
    if index == 1 then s
    else
      var rest := Without(s, index);
      var at := Slot(|rest|);
      rest[..at] + [s[index]] + rest[at..]
  }

  /** Taking the card out and putting it back at its own place is the
      identity, so the early return for index 1 agrees with the splices. */
  lemma SplicesAtOneKeep<T>(s: seq<T>)
    requires 1 < |s|
    ensures Without(s, 1)[..Slot(|s| - 1)] + [s[1]] + Without(s, 1)[Slot(|s| - 1)..] == s
  {
    var rest := Without(s, 1);
    assert rest[..1] == s[..1];
    assert rest[1..] == s[2..];
    assert s == s[..1] + [s[1]] + s[2..];
  }

  /** The reorder keeps the same cards, each as many times as before. */
  lemma ReorderedIsPermutation<T>(s: seq<T>, index: nat)
    requires index < |s|
    ensures |Reordered(s, index)| == |s|
    ensures multiset(Reordered(s, index)) == multiset(s)
  {
    if index != 1 {
      var x := s[index];
      var rest := Without(s, index);
      var at := Slot(|rest|);
      var lo, hi := rest[..at], rest[at..];
      assert rest == lo + hi;
      assert s == s[..index] + [x] + s[index + 1..];
      calc {
        multiset(Reordered(s, index));
        multiset(lo + [x] + hi);
        multiset(lo) + multiset{x} + multiset(hi);
        multiset(lo + hi) + multiset{x};
        multiset(s[..index] + s[index + 1..]) + multiset{x};
        multiset(s[..index] + [x] + s[index + 1..]);
      }
    }
  }

  /** Where every card ends up. With at least two cards the clicked card is
      in position 1; the cards between the click and position 1 move one
      place towards the clicked card's old position; all others stay. */
  lemma ReorderedPositions<T>(s: seq<T>, index: nat)
    requires index < |s|
    ensures |Reordered(s, index)| == |s|
    ensures |s| >= 2 ==> Reordered(s, index)[1] == s[index]
    ensures |s| == 1 ==> Reordered(s, index) == s
    ensures index == 0 && |s| >= 2 ==> Reordered(s, index)[0] == s[1]
    ensures forall m :: 1 < m <= index ==> Reordered(s, index)[m] == s[m - 1]
    ensures forall m :: 1 < m < |s| && index < m ==> Reordered(s, index)[m] == s[m]
    ensures 1 < index ==> Reordered(s, index)[0] == s[0]
  {
    var r := Reordered(s, index);
    if index != 1 {
      var rest := Without(s, index);
      var at := Slot(|rest|);
      assert forall m :: 0 <= m < |rest| ==> rest[m] == if m < index then s[m] else s[m + 1];
      assert forall m :: 0 <= m < at ==> r[m] == rest[m];
      assert |s| >= 2 ==> r[1] == s[index];
      assert forall m :: at < m < |s| ==> r[m] == rest[m - 1];
    }
  }

  /** `splice(index, 1)` on an array of `a.Length` cards: the cards after the
      removed one move one place left, so the first `a.Length - 1` cells hold
      the shortened list. */
  method RemoveAt<T>(a: array<T>, index: nat)
    requires index < a.Length
    modifies a
    ensures a[..a.Length - 1] == Without(old(a[..]), index)
  {
    ghost var rest := Without(a[..], index);
    var j := index;
    while j < a.Length - 1
      invariant index <= j <= a.Length - 1
      invariant forall m :: 0 <= m < j ==> a[m] == rest[m]
      invariant forall m :: j <= m < a.Length ==> a[m] == old(a[m])
    {
      a[j] := a[j + 1];
      j := j + 1;
    }
  }

  /** `splice(at, 0, x)` on a list held in the first `a.Length - 1` cells:
      the cards from `at` on move one place right and `x` fills the gap. */
  method InsertAt<T>(a: array<T>, at: nat, x: T)
    requires at < a.Length
    modifies a
    ensures a[..] == old(a[..a.Length - 1])[..at] + [x] + old(a[..a.Length - 1])[at..]
  {
    ghost var list := a[..a.Length - 1];
    var k := a.Length - 1;
    while k > at
      invariant at <= k <= a.Length - 1
      invariant forall m :: 0 <= m < k ==> a[m] == list[m]
      invariant forall m :: k < m < a.Length ==> a[m] == list[m - 1]
    {
      a[k] := a[k - 1];
      k := k - 1;
    }
    a[at] := x;
  }

  /** `handleCardClick`: the list is copied into a fresh array, the clicked
      card is spliced out and spliced back in at the insertion slot. The
      caller's list is never written. */
  method HandleCardClick<T>(cards: seq<T>, index: nat) returns (newCards: seq<T>)
    requires index < |cards|
    ensures newCards == Reordered(cards, index)
    ensures multiset(newCards) == multiset(cards)
  {
    ReorderedIsPermutation(cards, index);
    if index == 1 {
      return cards;
    }
    var n := |cards|;
    var a := new T[n](k requires 0 <= k < n => cards[k]);
    assert a[..] == cards;
    var clicked := a[index];
    RemoveAt(a, index);
    InsertAt(a, Slot(n - 1), clicked);
    newCards := a[..];
  }

  /** The pointer's offset from the centre of the card along one axis:
      `clientX - left - width / 2`. */
  function Offset(pointer: real, start: real, size: real): (d: real)
    ensures d == 0.0 <==> pointer == start + size / 2.0
    ensures d > 0.0 <==> pointer > start + size / 2.0
  {
    pointer - start - size / 2.0
  }

  /** The card's box on screen. */
  datatype Rect = Rect(left: real, top: real, width: real, height: real)

  /** One card's pointer offsets, which drive its tilt. */
  class TiltCard {
    var mouseX: real
    var mouseY: real

    constructor ()
      ensures mouseX == 0.0 && mouseY == 0.0
    {
      mouseX := 0.0;
      mouseY := 0.0;
    }

    /** `onMouseMove`: nothing before the card is mounted (`box` is `None`),
        otherwise the offsets of the pointer from the box's centre. */
    method MouseMove(clientX: real, clientY: real, box: Option<Rect>)
      modifies this
      ensures box.None? ==> mouseX == old(mouseX) && mouseY == old(mouseY)
      ensures box.Some? ==> mouseX == Offset(clientX, box.value.left, box.value.width)
      ensures box.Some? ==> mouseY == Offset(clientY, box.value.top, box.value.height)
    {
      if box.None? {
        return;
      }
      var b := box.value;
      mouseX := clientX - b.left - b.width / 2.0;
      mouseY := clientY - b.top - b.height / 2.0;
    }

    /** `onMouseLeave`: the card levels out. */
    method MouseLeave()
      modifies this
      ensures mouseX == 0.0 && mouseY == 0.0
    {
      mouseX := 0.0;
      mouseY := 0.0;
    }
  }

}
