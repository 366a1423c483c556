/**
 * The object-language comparison: a point with a (squared) distance,
 * shapes whose `area` overrides a base default, a class-level counter that
 * numbers its instances, a mutable box passed to functions, `square` and a
 * closure.
 */
module ObjComparison {
  import opened Results
  import opened PyValues
  import opened Sums

  /** `Point(x_val, y_val)`; `distance` returns the squared distance from the origin. */
  datatype Point = Point(x: int, y: int)
  {
    function Distance(): (d: int)
      ensures d == SumSquares([x, y])
      ensures d >= 0
      ensures d == 0 <==> x == 0 && y == 0
    {
      assert [x, y][..1] == [x] && [x][..0] == [];
      assert SumSquares([x]) == x * x;
      assert SumSquares([x, y]) == SumSquares([x]) + y * y;
      x * x + y * y
    }
  }

  /** The script's point: `Point(3, 4).distance()` is 25. */
  lemma DistanceOfDemoPoint()
    ensures Point(3, 4).Distance() == 25
  {
  }

  /** An instance of `Shape` itself, of `Rectangle` or of `Circle`. */
  datatype Shape = BaseShape | Rectangle(width: int, height: int) | Circle(radius: int)

  /**
   * `shape.area()`: chosen by the instance's class. `Shape` answers with its
   * default 0; `Rectangle` and `Circle` override it with their own bodies.
   */
  function Area(s: Shape): (a: int)
    ensures s.BaseShape? ==> a == 0
    ensures s.Rectangle? ==> a == s.width * s.height
    ensures s.Circle? ==> a == s.radius * s.radius
    ensures s.Circle? ==> a >= 0 && (a == 0 <==> s.radius == 0)
    ensures s.Rectangle? && s.width >= 0 && s.height >= 0 ==> a >= 0
  {
    match s
    case BaseShape => 0
    case Rectangle(w, h) => w * h
    case Circle(r) => r * r
  }

  /** The areas the loop over `shapes` reports, in list order. */
  function Areas(shapes: seq<Shape>): (r: seq<int>)
    ensures |r| == |shapes|
    ensures forall i :: 0 <= i < |shapes| ==> r[i] == Area(shapes[i])
  {
    if shapes == [] then [] else Areas(shapes[..|shapes| - 1]) + [Area(shapes[|shapes| - 1])]
  }

  /** The script's list `[Rectangle(5, 10), Circle(7), Rectangle(3, 4)]` gives 50, 49, 12. */
  lemma AreasOfDemoShapes()
    ensures Areas([Rectangle(5, 10), Circle(7), Rectangle(3, 4)]) == [50, 49, 12]
  {
  }

  /** The class object `Counter` itself, holding the class-level `count`. */
  class CounterClass {
    var count: int

    constructor ()
      ensures count == 0
    {
      count := 0;
    }
  }

  /** A `Counter` instance: its `id` is the count at the time it was made. */
  class Counter {
    var id: int

    /** `Counter()`: bumps the shared count by one and takes the new count as id. */
    constructor (cls: CounterClass)
      modifies cls
      ensures cls.count == old(cls.count) + 1
      ensures id == cls.count
    {
      cls.count := cls.count + 1;
      id := cls.count;
    }
  }

  /**
   * `k` constructions in a row: ids continue the class count one by one,
   * so they are strictly increasing and distinct, and making later
   * instances leaves the ids of the earlier ones as they were.
   */
  method MakeCounters(cls: CounterClass, k: nat) returns (counters: seq<Counter>)
    modifies cls
    ensures cls.count == old(cls.count) + k
    ensures |counters| == k
    ensures forall i :: 0 <= i < k ==> fresh(counters[i]) && counters[i].id == old(cls.count) + i + 1
    ensures forall i, j :: 0 <= i < j < k ==> counters[i].id < counters[j].id
  {
    counters := [];
    for n := 0 to k
      invariant cls.count == old(cls.count) + n
      invariant |counters| == n
      invariant forall i :: 0 <= i < n ==> fresh(counters[i]) && counters[i].id == old(cls.count) + i + 1
    {
      var c := new Counter(cls);
      counters := counters + [c];
    }
  }

  /** The script's `c1`, `c2`, `c3`: ids 1, 2, 3 read after all three exist, and a count of 3. */
  method DemoCounters() returns (id1: int, id2: int, id3: int, count: int)
    ensures id1 == 1 && id2 == 2 && id3 == 3 && count == 3
  {
    var cls := new CounterClass();
    var c1 := new Counter(cls);
    var c2 := new Counter(cls);
    var c3 := new Counter(cls);
    id1, id2, id3, count := c1.id, c2.id, c3.id, cls.count;
  }

  /** `MutableBox(value)`. */
  class MutableBox {
    var value: int

    constructor (value: int)
      ensures this.value == value
    {
      this.value := value;
    }
  }

  /** `modify_box`: sets the value of the caller's own box. */
  method ModifyBox(box: MutableBox, newValue: int)
    modifies box
    ensures box.value == newValue
  {
    box.value := newValue;
  }

  /** `replace_box`: the parameter is rebound to a new box; the caller's box is untouched. */
  method ReplaceBox(box: MutableBox, newValue: int)
    ensures unchanged(box)
  {
    var local := box;
    local := new MutableBox(newValue);
    assert local != box;
  }

  /** The box demonstration: 10 becomes 20 through `modify_box`, 30 stays 30 through `replace_box`. */
  method DemoBoxes() returns (modified: int, replaced: int)
    ensures modified == 20 && replaced == 30
  {
    var box1 := new MutableBox(10);
    ModifyBox(box1, 20);
    var box2 := new MutableBox(30);
    ReplaceBox(box2, 40);
    modified, replaced := box1.value, box2.value;
  }

  /** `typed_square(x)` on the ints its annotation admits. */
  function TypedSquare(x: int): (r: int)
    ensures Square(Int(x)) == Success(Int(r))
  {
    x * x
  }

  /** The `square` demonstration: 25 for 5, and a TypeError for `'ha'`. */
  lemma SquareDemo()
    ensures Square(Int(5)) == Success(Int(25)) && TypedSquare(5) == 25
    ensures Square(Str("ha")).Failure?
    ensures Doubled("ha") == Success(Str("haha"))
  {
    assert Repeat("ha", 2) == "haha" by {
      assert Repeat("ha", 0) == "";
      assert Repeat("ha", 1) == "ha";
    }
  }

  /** `make_adder(x)`: a closure over `x` that adds it to its argument. */
  function MakeAdder(x: int): (adder: int -> int)
    ensures forall y :: adder(y) - y == x
  {
    y => x + y
  }

  /** The script's `add_10(5)` is 15 and `add_10(20)` is 30. */
  lemma AdderDemo()
    ensures MakeAdder(10)(5) == 15 && MakeAdder(10)(20) == 30
  {
  }
}
