/**
 * Pass-by-object-reference: a call receives a reference to the caller's
 * object. Mutating that object is seen by the caller; rebinding the
 * parameter name is not. Python lists and points are heap objects here
 * (Dafny classes); Python ints are values.
 */
module PassByReference {
  import opened Results
  import opened IntText

  /** `try_modify_int`: the local `x` is rebound to a new int and returned. */
  function TryModifyInt(x: int): (r: int)
    ensures r - x == 10
  {
    x + 10
  }

  /** The script around `try_modify_int`: the caller's `num` and the returned `result`. */
  method DemoImmutableInt() returns (num: int, result: int)
    ensures num == 5 && result == 15
  {
    num := 5;
    result := TryModifyInt(num);
  }

  /** A Python list of ints: one mutable object whose contents change in place. */
  class PyList {
    var items: seq<int>

    constructor (xs: seq<int>)
      ensures items == xs
    {
      items := xs;
    }

    /** `lst.append(x)`. */
    method Append(x: int)
      modifies this
      ensures items == old(items) + [x]
    {
      items := items + [x];
    }

    /** `lst[:] = xs`: replaces the contents of this same object. */
    method AssignAll(xs: seq<int>)
      modifies this
      ensures items == xs
    {
      items := xs;
    }
  }

  /** `try_modify_list`: appends 4 to the caller's own list object. */
  method TryModifyList(lst: PyList)
    modifies lst
    ensures lst.items == old(lst.items) + [4]
    ensures |lst.items| == |old(lst.items)| + 1 && lst.items[..|old(lst.items)|] == old(lst.items)
  {
    lst.Append(4);
  }

  /**
   * `reassign_list`: the parameter is rebound to a new list; the caller's
   * object keeps its contents, and the new list is a different object.
   */
  method ReassignList(lst: PyList)
    ensures unchanged(lst)
  {
    var local := lst;
    local := new PyList([99, 98, 97]);
    assert local != lst && local.items == [99, 98, 97];
  }

  /** `mutate_list`: slice assignment replaces the contents of the caller's object. */
  method MutateList(lst: PyList)
    modifies lst
    ensures lst.items == [99, 98, 97]
  {
    lst.AssignAll([99, 98, 97]);
  }

  /** The list demonstrations: what the caller sees afterwards in each list. */
  method DemoLists() returns (myList: seq<int>, list1: seq<int>, list2: seq<int>)
    ensures myList == [1, 2, 3, 4]
    ensures list1 == [1, 2, 3]
    ensures list2 == [99, 98, 97]
  {
    var m := new PyList([1, 2, 3]);
    TryModifyList(m);
    var l1 := new PyList([1, 2, 3]);
    var l2 := new PyList([1, 2, 3]);
    ReassignList(l1);
    MutateList(l2);
    myList, list1, list2 := m.items, l1.items, l2.items;
  }

  /** The text `Point.__str__` renders: `Point(x, y)`. */
  function PointText(x: int, y: int): string
  {
    "Point(" + Text(x) + ", " + Text(y) + ")"
  }

  /** The first index of `c` in `s`, or `|s|` when it does not occur. */
  function IndexOf(s: string, c: char): (k: nat)
    ensures k <= |s|
    ensures k < |s| ==> s[k] == c
    ensures forall j :: 0 <= j < k ==> s[j] != c
  {
    if s == [] then 0
    else if s[0] == c then 0
    else 1 + IndexOf(s[1..], c)
  }

  /** Reads `x, y` back into the two integers. */
  function ParseCoords(inner: string): Option<(int, int)>
  {
    var k := IndexOf(inner, ',');
    if k + 1 >= |inner| || inner[k + 1] != ' ' then None
    else
      match (ParseInt(inner[..k]), ParseInt(inner[k + 2..]))
      case (Some(x), Some(y)) => Some((x, y))
      case _ => None
  }

  /** Reads the text of `Point.__str__` back into its two coordinates. */
  function ParsePoint(s: string): Option<(int, int)>
  {
    if |s| >= 7 && s[..6] == "Point(" && s[|s| - 1] == ')' then ParseCoords(s[6..|s| - 1]) else None
  }

  /** The first `c` of `a + [c] + rest` is the one after `a`, when `a` holds no `c`. */
  lemma {:induction false} IndexOfAfter(a: string, c: char, rest: string)
    requires forall j :: 0 <= j < |a| ==> a[j] != c
    ensures IndexOf(a + [c] + rest, c) == |a|
    decreases |a|
  {
    if a != [] {
      assert (a + [c] + rest)[1..] == a[1..] + [c] + rest;
      IndexOfAfter(a[1..], c, rest);
    }
  }

  /** The coordinates `str(x) + ", " + str(y)` read back as `x` and `y`. */
  lemma CoordsParse(x: int, y: int)
    ensures ParseCoords(Text(x) + ", " + Text(y)) == Some((x, y))
  {
    var a, b := Text(x), Text(y);
    var inner := a + [','] + (" " + b);
    assert inner == a + ", " + b;
    assert forall j :: 0 <= j < |a| ==> a[j] != ',';
    IndexOfAfter(a, ',', " " + b);
    assert inner[|a| + 1] == ' ';
    assert inner[..|a|] == a;
    assert inner[|a| + 2..] == b;
  }

  /** The rendering of a point can be read back: it loses neither coordinate. */
  lemma PointTextParses(x: int, y: int)
    ensures ParsePoint(PointText(x, y)) == Some((x, y))
  {
    var inner := Text(x) + ", " + Text(y);
    var s := PointText(x, y);
    assert s == "Point(" + inner + ")";
    assert s[..6] == "Point(";
    assert s[6..|s| - 1] == inner;
    CoordsParse(x, y);
  }

  /** A point object with two mutable fields. */
  class Point {
    var x: int
    var y: int

    constructor (x: int, y: int)
      ensures this.x == x && this.y == y
    {
      this.x := x;
      this.y := y;
    }

    /** `__str__`: the current fields as text that reads back to them. */
    function ToString(): (s: string)
      reads this
      ensures ParsePoint(s) == Some((x, y))
      ensures |s| >= 11 && s[..6] == "Point(" && s[|s| - 1] == ')'
    {
      PointTextParses(x, y);
      PointText(x, y)
    }
  }

  /** `move_point`: shifts the caller's point object by 10 on both axes. */
  method MovePoint(p: Point)
    modifies p
    ensures p.x == old(p.x) + 10 && p.y == old(p.y) + 10
  {
    p.x := p.x + 10;
    p.y := p.y + 10;
  }

  /** `replace_point`: a new point at (99, 99); the argument is left as it was. */
  method ReplacePoint(p: Point) returns (q: Point)
    ensures fresh(q) && q.x == 99 && q.y == 99
    ensures unchanged(p)
  {
    q := new Point(99, 99);
  }

  /** The point demonstration: the moved original and the returned new point. */
  method DemoPoints() returns (moved: string, original: string, returned: string, distinct: bool)
    ensures moved == "Point(11, 12)" && original == "Point(11, 12)"
    ensures returned == "Point(99, 99)"
    ensures distinct
  {
    var pt := new Point(1, 2);
    MovePoint(pt);
    moved := pt.ToString();
    var newPt := ReplacePoint(pt);
    original, returned := pt.ToString(), newPt.ToString();
    distinct := pt != newPt;
    PointTextsOfDemo();
  }

  lemma PointTextsOfDemo()
    ensures PointText(11, 12) == "Point(11, 12)"
    ensures PointText(99, 99) == "Point(99, 99)"
  {
    TwoDigitText(11);
    TwoDigitText(12);
    TwoDigitText(99);
  }

  /** `str` of a two-digit number is its two digits. */
  lemma TwoDigitText(n: nat)
    requires 10 <= n < 100
    ensures Text(n) == [DigitChar(n / 10), DigitChar(n % 10)]
  {
    assert Text(n) == NatText(n);
    assert NatText(n / 10) == [DigitChar(n / 10)];
  }
}
