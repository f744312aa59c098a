/** Shared vocabulary: optional values, C's conversions, boxes and the list operations the
    window manager performs on its lists of views. */
module Prelude {

  datatype Option<+T> = None | Some(value: T)

  type ViewId = nat
  type OutputId = nat
  type LayerId = nat

  // ---------------------------------------------------------------------------------------
  // Arithmetic of the implementation language
  // ---------------------------------------------------------------------------------------

  /** Conversion of a floating point number to `int`: towards zero. */
  function Trunc(r: real): (n: int)
    ensures r >= 0.0 ==> 0 <= n && n as real <= r < n as real + 1.0
    ensures r <= 0.0 ==> n <= 0 && n as real - 1.0 < r <= n as real
  {
    if r >= 0.0 then r.Floor else -((-r).Floor)
  }

  lemma TruncMonotone(a: real, b: real)
    requires a <= b
    ensures Trunc(a) <= Trunc(b)
  {
  }

  lemma TruncOfInt(n: int)
    ensures Trunc(n as real) == n
  {
  }

  /** Division of ints truncates as well. */
  function Quotient(a: int, b: int): int
    requires b > 0
  {
    if a >= 0 then a / b else -((-a) / b)
  }

  function Max(a: int, b: int): int
  {
    if a < b then b else a
  }

  // ---------------------------------------------------------------------------------------
  // Boxes
  // ---------------------------------------------------------------------------------------

  datatype Box = Box(x: int, y: int, width: int, height: int)
  {
    predicate Contains(px: int, py: int)
    {
      x <= px < x + width && y <= py < y + height
    }

    /** No pixel lies in both boxes. */
    ghost predicate Disjoint(other: Box)
    {
      forall px, py | Contains(px, py) :: !other.Contains(px, py)
    }
  }

  // ---------------------------------------------------------------------------------------
  // Lists of views
  // ---------------------------------------------------------------------------------------

  ghost predicate NoDuplicates(s: seq<ViewId>)
  {
    forall i, j | 0 <= i < j < |s| :: s[i] != s[j]
  }

  /** `std::list::remove`: drops every occurrence. */
  function Without(s: seq<ViewId>, x: ViewId): (r: seq<ViewId>)
  {
    if s == [] then []
    else if s[0] == x then Without(s[1..], x)
    else [s[0]] + Without(s[1..], x)
  }

  lemma {:induction false} WithoutCounts(s: seq<ViewId>, x: ViewId, y: ViewId)
    ensures multiset(Without(s, x))[y] == if y == x then 0 else multiset(s)[y]
  {
    if s == [] {
    } else {
      WithoutCounts(s[1..], x, y);
      assert s == [s[0]] + s[1..];
    }
  }

  lemma WithoutElements(s: seq<ViewId>, x: ViewId)
    ensures multiset(Without(s, x)) == multiset(s)[x := 0]
    ensures forall y :: y in Without(s, x) <==> y in s && y != x
  {
    forall y
      ensures multiset(Without(s, x))[y] == multiset(s)[x := 0][y]
      ensures y in Without(s, x) <==> y in s && y != x
    {
      WithoutCounts(s, x, y);
      assert y in Without(s, x) <==> y in multiset(Without(s, x));
    }
  }

  lemma {:induction false} WithoutAbsent(s: seq<ViewId>, x: ViewId)
    requires x !in s
    ensures Without(s, x) == s
  {
    if s == [] {
    } else {
      WithoutAbsent(s[1..], x);
    }
  }

  lemma {:induction false} WithoutNoDuplicates(s: seq<ViewId>, x: ViewId)
    requires NoDuplicates(s)
    ensures NoDuplicates(Without(s, x))
  {
    if s == [] {
    } else {
      WithoutNoDuplicates(s[1..], x);
      WithoutElements(s[1..], x);
      var r := Without(s[1..], x);
      assert s[0] !in s[1..];
      assert forall i | 0 <= i < |r| :: r[i] in r;
    }
  }

  lemma {:induction false} WithoutConcat(a: seq<ViewId>, b: seq<ViewId>, x: ViewId)
    ensures Without(a + b, x) == Without(a, x) + Without(b, x)
  {
    if a == [] {
      assert [] + b == b;
    } else {
      assert (a + b)[1..] == a[1..] + b;
      WithoutConcat(a[1..], b, x);
    }
  }

  /** `std::find`: the first position of x, or the length of the list. */
  function IndexOf(s: seq<ViewId>, x: ViewId): (i: nat)
    ensures i <= |s|
    ensures i < |s| ==> s[i] == x
    ensures forall j | 0 <= j < i :: s[j] != x
  {
    if s == [] || s[0] == x then 0 else 1 + IndexOf(s[1..], x)
  }

  /** y comes before z. */
  predicate Precedes(s: seq<ViewId>, y: ViewId, z: ViewId)
  {
    IndexOf(s, y) < IndexOf(s, z)
  }

  /** What is not dropped stays in order. */
  lemma {:induction false} WithoutKeepsOrder(s: seq<ViewId>, x: ViewId, y: ViewId, z: ViewId)
    requires y != x && z != x
    ensures Precedes(Without(s, x), y, z) == Precedes(s, y, z)
  {
    if s == [] {
    } else {
      WithoutKeepsOrder(s[1..], x, y, z);
    }
  }

  /** Moves the first occurrence of x to the head of a list, or puts x there. */
  function ToFront(s: seq<ViewId>, x: ViewId): seq<ViewId>
  {
    var i := IndexOf(s, x);
    if i < |s| then [x] + s[..i] + s[i + 1..] else [x] + s
  }

  lemma {:induction false} WithoutSplit(a: seq<ViewId>, x: ViewId, b: seq<ViewId>)
    requires x !in a && x !in b
    ensures Without(a + [x] + b, x) == a + b
  {
    if a == [] {
      assert a + [x] + b == [x] + b;
      WithoutAbsent(b, x);
    } else {
      assert (a + [x] + b)[1..] == a[1..] + [x] + b;
      WithoutSplit(a[1..], x, b);
    }
  }

  lemma ToFrontWithout(s: seq<ViewId>, x: ViewId)
    requires NoDuplicates(s)
    ensures ToFront(s, x) == [x] + Without(s, x)
    ensures NoDuplicates(ToFront(s, x))
  {
    var i := IndexOf(s, x);
    if i < |s| {
      assert s == s[..i] + [x] + s[i + 1..];
      assert x !in s[..i] && x !in s[i + 1..];
      WithoutSplit(s[..i], x, s[i + 1..]);
      assert ToFront(s, x) == [x] + (s[..i] + s[i + 1..]);
    } else {
      WithoutAbsent(s, x);
    }
    WithoutNoDuplicates(s, x);
    HeadNotInTail(s, x);
  }

  lemma HeadNotInTail(s: seq<ViewId>, x: ViewId)
    requires NoDuplicates(Without(s, x))
    ensures NoDuplicates([x] + Without(s, x))
  {
    var w := Without(s, x);
    WithoutElements(s, x);
    assert forall i | 0 <= i < |w| :: w[i] in w;
  }
}
