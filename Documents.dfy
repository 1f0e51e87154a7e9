/** An abstract parsed asset file.  Both readers of the source (a JSON object
    tree and an XML element tree) are modelled on the same value: a map from
    field names to nodes.  A leaf is a string or a number (integers and reals
    kept apart, as a JSON parser does); an element with children is a `Tree`;
    a repeated field (a JSON array, or repeated XML children of one name) is a
    `List` of entries. */
module Documents {
  import opened Wrappers
  import opened Numerics

  datatype Node =
    | Text(s: string)
    | Int(i: int)
    | Real(x: real)
    | Tree(fields: map<string, Node>)
    | List(items: seq<Node>)

  type Doc = map<string, Node>

  // ---- JSON (nlohmann): `value(key, default)` and `at(key).get<T>()` ----

  /** `j.value(k, def)` for a string: absent gives the default, a value of the
      wrong type throws. */
  function JsonStringOr(d: Doc, k: string, def: string): Result<string, string>
  {
    if k !in d then Success(def)
    else match d[k]
      case Text(s) => Success(s)
      case _ => Failure("type_error: " + k)
  }

  /** `j.value(k, def)` for a float: integers convert, other kinds throw. */
  function JsonNumberOr(d: Doc, k: string, def: real): Result<real, string>
  {
    if k !in d then Success(def)
    else match d[k]
      case Int(i) => Success(i as real)
      case Real(x) => Success(x)
      case _ => Failure("type_error: " + k)
  }

  /** `j.at(k).get<std::string>()`: a missing key or another kind throws. */
  function JsonString(d: Doc, k: string): Result<string, string>
  {
    if k !in d then Failure("out_of_range: " + k)
    else match d[k]
      case Text(s) => Success(s)
      case _ => Failure("type_error: " + k)
  }

  /** `j.at(k).get<float>()` */
  function JsonNumber(d: Doc, k: string): Result<real, string>
  {
    if k !in d then Failure("out_of_range: " + k)
    else match d[k]
      case Int(i) => Success(i as real)
      case Real(x) => Success(x)
      case _ => Failure("type_error: " + k)
  }

  /** `j.at(k).get<int>()`: a real truncates toward zero. */
  function JsonInt(d: Doc, k: string): Result<int, string>
  {
    if k !in d then Failure("out_of_range: " + k)
    else match d[k]
      case Int(i) => Success(i)
      case Real(x) => Success(Truncate(x))
      case _ => Failure("type_error: " + k)
  }

  /** `j.at(k)` where an object is expected. */
  function JsonObject(d: Doc, k: string): Result<Doc, string>
  {
    if k !in d then Failure("out_of_range: " + k)
    else match d[k]
      case Tree(f) => Success(f)
      case _ => Failure("type_error: " + k)
  }

  /** The entries iterated by `for (item : j[k])`, each read with `at`, so
      each must be an object.  A missing key is taken as no entries, and a
      value that is not an array is refused. */
  function JsonEntries(d: Doc, k: string): Result<seq<Doc>, string>
  {
    if k !in d then Success([])
    else match d[k]
      case List(items) => EntriesOf(items, k)
      case _ => Failure("type_error: " + k)
  }

  function EntriesOf(items: seq<Node>, k: string): (r: Result<seq<Doc>, string>)
    ensures r.Success? <==> forall i :: 0 <= i < |items| ==> items[i].Tree?
    ensures r.Success? ==> |r.value| == |items| && forall i :: 0 <= i < |items| ==> r.value[i] == items[i].fields
  {
    if items == [] then Success([])
    else match items[0]
      case Tree(f) =>
        (match EntriesOf(items[1..], k)
         case Success(rest) => Success([f] + rest)
         case Failure(e) => Failure(e))
      case _ => Failure("type_error: " + k)
  }

  // ---- XML (pugixml): `child(k).text().as_T(def)` never fails ----

  /** `child(k).text().as_string(def)`; an element without text gives the default. */
  function XmlString(d: Doc, k: string, def: string): string
  {
    if k in d && d[k].Text? then d[k].s else def
  }

  /** `child(k).text().as_float(def)`: absent gives the default, text that is
      not a number converts to 0. */
  function XmlNumber(d: Doc, k: string, def: real): real
  {
    if k !in d then def
    else match d[k]
      case Int(i) => i as real
      case Real(x) => x
      case Text(_) => 0.0
      case _ => def
  }

  /** `child(k).text().as_int(def)` */
  function XmlInt(d: Doc, k: string, def: int): int
  {
    if k !in d then def
    else match d[k]
      case Int(i) => i
      case Real(x) => Truncate(x)
      case Text(_) => 0
      case _ => def
  }

  /** `child(k)` as an element: the first child named `k`; a missing child,
      or one holding only text, has no children. */
  function XmlChild(d: Doc, k: string): Doc
  {
    if k !in d then map[]
    else match d[k]
      case Tree(f) => f
      case List(items) => if items != [] && items[0].Tree? then items[0].fields else map[]
      case _ => map[]
  }

  /** `children(k)`: the child elements named `k`, repeated ones held as a
      `List`; a single child is one element, and a child holding only text
      is one element with no children. */
  function XmlEntries(d: Doc, k: string): seq<Doc>
  {
    if k !in d then []
    else match d[k]
      case List(items) => XmlEntriesOf(items)
      case Tree(f) => [f]
      case _ => [map[]]
  }

  function XmlEntriesOf(items: seq<Node>): (r: seq<Doc>)
    ensures |r| == |items|
    ensures forall i :: 0 <= i < |items| ==> r[i] == (if items[i].Tree? then items[i].fields else map[])
  {
    if items == [] then []
    else [if items[0].Tree? then items[0].fields else map[]] + XmlEntriesOf(items[1..])
  }
}
