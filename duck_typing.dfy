/**
 * Duck typing: a call site asks an object for a method by name when the
 * call runs, and the object's class either has it or the call raises
 * AttributeError. Writers are any objects with a `write` method.
 */
module DuckTyping {
  import opened Results
  import opened PyValues

  /** The three unrelated classes of the first demonstration (no common base). */
  datatype Animal = Duck | Person | Dog

  datatype MethodName = Quack | Walk | Bark

  function TypeName(a: Animal): string
  {
    match a
    case Duck => "Duck"
    case Person => "Person"
    case Dog => "Dog"
  }

  function AttrName(m: MethodName): string
  {
    match m
    case Quack => "quack"
    case Walk => "walk"
    case Bark => "bark"
  }

  /** Each class's own methods: what `m` returns, or None where the class defines no `m`. */
  function ClassMethod(a: Animal, m: MethodName): Option<string>
  {
    match (a, m)
    case (Duck, Quack) => Some("Quack!")
    case (Duck, Walk) => Some("Waddle waddle")
    case (Person, Quack) => Some("I'm imitating a duck: Quack!")
    case (Person, Walk) => Some("Walking on two legs")
    case (Dog, Bark) => Some("Woof!")
    case (Dog, Walk) => Some("Walking on four legs")
    case _ => None
  }

  /** Python's AttributeError: `'<type>' object has no attribute '<attr>'`. */
  datatype AttributeError = AttributeError(typeName: string, attr: string)

  /** `thing.m()`: looked up on the object's class when the call is made. */
  function CallMethod(thing: Animal, m: MethodName): (r: Result<string, AttributeError>)
    ensures r.Success? <==> ClassMethod(thing, m).Some?
    ensures r.Success? ==> ClassMethod(thing, m) == Some(r.value)
    ensures r.Failure? ==> r.error == AttributeError(TypeName(thing), AttrName(m))
  {
    match ClassMethod(thing, m)
    case Some(text) => Success(text)
    case None => Failure(AttributeError(TypeName(thing), AttrName(m)))
  }

  /** `make_it_quack`: works for every class that has `quack`, fails at the call for Dog. */
  function MakeItQuack(thing: Animal): (r: Result<string, AttributeError>)
    ensures r.Success? <==> thing != Dog
    ensures thing == Duck ==> r == Success("Quack!")
    ensures thing == Person ==> r == Success("I'm imitating a duck: Quack!")
    ensures thing == Dog ==> r == Failure(AttributeError("Dog", "quack"))
  {
    CallMethod(thing, Quack)
  }

  /** `make_it_quack_typed`: the annotation is not checked when the call runs. */
  function MakeItQuackTyped(thing: Animal): (r: Result<string, AttributeError>)
    ensures r == MakeItQuack(thing)
  {
    CallMethod(thing, Quack)
  }

  /** `FileWriter`: collects text in `content`; writing the file is left out. */
  class FileWriter {
    const filename: string
    var content: seq<string>

    constructor (filename: string)
      ensures this.filename == filename && content == []
    {
      this.filename := filename;
      content := [];
    }

    method Write(text: string)
      modifies this
      ensures content == old(content) + [text]
    {
      content := content + [text];
    }
  }

  /** `ListWriter`: collects text in `items`. */
  class ListWriter {
    var items: seq<string>

    constructor ()
      ensures items == []
    {
      items := [];
    }

    method Write(text: string)
      modifies this
      ensures items == old(items) + [text]
    {
      items := items + [text];
    }
  }

  /** Any object with a `write` method that collects its text. */
  datatype Writer = ToFile(file: FileWriter) | ToList(list: ListWriter)
  {
    function Target(): object
    {
      match this
      case ToFile(f) => f
      case ToList(l) => l
    }

    /** Everything written so far. */
    function Written(): seq<string>
      reads Target()
    {
      match this
      case ToFile(f) => f.content
      case ToList(l) => l.items
    }
  }

  /** `writer.write(text)`, resolved on whatever object the writer is. */
  method Write(w: Writer, text: string)
    modifies w.Target()
    ensures w.Written() == old(w.Written()) + [text]
  {
    match w
    case ToFile(f) => f.Write(text);
    case ToList(l) => l.Write(text);
  }

  const Header := "=== REPORT ===\n"
  const Footer := "=== END ===\n"

  function ItemLine(item: string): string
  {
    "- " + item + "\n"
  }

  /** One line per item, in order. */
  function ItemLines(data: seq<string>): (r: seq<string>)
    ensures |r| == |data|
    ensures forall i :: 0 <= i < |data| ==> r[i] == ItemLine(data[i])
  {
    if data == [] then [] else ItemLines(data[..|data| - 1]) + [ItemLine(data[|data| - 1])]
  }

  /** Everything `write_report` writes: a header, one line per item, a footer. */
  function ReportLines(data: seq<string>): (r: seq<string>)
    ensures |r| == |data| + 2
    ensures r[0] == Header && r[|data| + 1] == Footer
    ensures forall i :: 0 <= i < |data| ==> r[i + 1] == ItemLine(data[i])
  {
    [Header] + ItemLines(data) + [Footer]
  }

  lemma ItemLinesStep(data: seq<string>, i: nat)
    requires i < |data|
    ensures ItemLines(data[..i + 1]) == ItemLines(data[..i]) + [ItemLine(data[i])]
  {
    assert data[..i + 1][..i] == data[..i];
  }

  /** The loop of `write_report`: one line per item, in order. */
  method WriteItems(w: Writer, data: seq<string>)
    modifies w.Target()
    ensures w.Written() == old(w.Written()) + ItemLines(data)
  {
    ghost var before := w.Written();
    for i := 0 to |data|
      invariant w.Written() == before + ItemLines(data[..i])
    {
      ItemLinesStep(data, i);
      Write(w, ItemLine(data[i]));
    }
    assert data[..|data|] == data;
  }

  /** `write_report`: appends the report to what the writer already holds. */
  method WriteReport(w: Writer, data: seq<string>)
    modifies w.Target()
    ensures w.Written() == old(w.Written()) + ReportLines(data)
  {
    ghost var before := w.Written();
    Write(w, Header);
    WriteItems(w, data);
    Write(w, Footer);
    assert before + [Header] + ItemLines(data) + [Footer]
        == before + ([Header] + ItemLines(data) + [Footer]);
  }

  /** The list demonstration: what `list_writer.items` holds afterwards. */
  method DemoListReport() returns (items: seq<string>)
    ensures items == ["=== REPORT ===\n", "- Item 1\n", "- Item 2\n", "- Item 3\n", "=== END ===\n"]
  {
    var listWriter := new ListWriter();
    var data := ["Item 1", "Item 2", "Item 3"];
    WriteReport(ToList(listWriter), data);
    items := listWriter.items;
    var r := ReportLines(data);
    assert r[1] == "- Item 1\n" && r[2] == "- Item 2\n" && r[3] == "- Item 3\n";
  }

  /**
   * The quack demonstrations of the first part: the duck and the person
   * quack through the same call site; the dog's call raises, and the
   * script's handler turns that into a value so the script goes on.
   */
  method DemoQuacks() returns (duck: Result<string, AttributeError>, person: Result<string, AttributeError>,
                               dog: Result<string, AttributeError>)
    ensures duck == Success("Quack!")
    ensures person == Success("I'm imitating a duck: Quack!")
    ensures dog == Failure(AttributeError("Dog", "quack"))
  {
    duck := MakeItQuack(Duck);
    person := MakeItQuack(Person);
    dog := MakeItQuack(Dog);
  }

  /** The type-hint demonstration: the annotated version answers as the plain one. */
  method DemoTypedQuacks() returns (duck: string, person: string)
    ensures duck == "Quack!" && person == "I'm imitating a duck: Quack!"
  {
    duck := MakeItQuackTyped(Duck).value;
    person := MakeItQuackTyped(Person).value;
  }

  /** The `square` demonstration: ints square, text raises before anything is printed. */
  lemma SquareDemo()
    ensures Square(Int(5)) == Success(Int(25))
    ensures Square(Str("ab")).Failure?
    ensures Doubled("ab") == Success(Str("abab"))
  {
    assert Repeat("ab", 2) == "abab" by {
      assert Repeat("ab", 0) == "";
      assert Repeat("ab", 1) == "ab";
    }
  }
}
