/**
 * The template store: a read-only tree of named directories and files,
 * and the naming conventions the copier applies to it (`.ejs` files are
 * parameterized; their output name drops the suffix).
 */
module Templates {
  import opened Wrappers
  import opened FileSystem

  datatype Node = File(name: string, content: string) | Dir(name: string, children: seq<Node>)

  /** The first child called `name` (a directory listing holds each name once). */
  function ChildNamed(kids: seq<Node>, name: string): (r: Option<Node>)
    ensures r.Some? ==> r.value in kids && r.value.name == name
    ensures r.None? ==> forall i :: 0 <= i < |kids| ==> kids[i].name != name
  {
    if kids == [] then None
    else if kids[0].name == name then Some(kids[0])
    else ChildNamed(kids[1..], name)
  }

  /**
   * The entry at `path` below `root`; `None` is fs-extra's `pathExists`
   * answering false (a missing name, or a name looked up inside a file).
   */
  function Lookup(root: Node, path: Path): Option<Node>
    decreases |path|
  {
    if path == [] then Some(root)
    else match root
      case File(_, _) => None
      case Dir(_, kids) =>
        match ChildNamed(kids, path[0])
        case None => None
        case Some(kid) => Lookup(kid, path[1..])
  }

  const Ejs := ".ejs"

  /** `name.endsWith(".ejs")`. */
  predicate IsEjs(name: string) {
    |name| >= 4 && name[|name| - 4..] == Ejs
  }

  /** `name.replace(/\.ejs$/, "")`: the output name of an entry. */
  function DestName(name: string): (d: string)
    ensures IsEjs(name) ==> d + Ejs == name
    ensures !IsEjs(name) ==> d == name
  {
    if IsEjs(name) then name[..|name| - 4] else name
  }

  /** `path.join(dir, name)` for one entry name, which Node normalizes for "", "." and "..". */
  function JoinName(dir: Path, name: string): Path {
    if name == "" || name == "." then dir
    else if name == ".." then (if dir == [] then [] else Parent(dir))
    else dir + [name]
  }

  /** An output name that `path.join` appends as a new last segment. */
  predicate PlainName(name: string) {
    name != "" && name != "." && name != ".."
  }

  /** The characters `String.prototype.trim` removes: white space and line terminators. */
  predicate IsJsWhitespace(c: char) {
    || ('\U{9}' <= c <= '\U{D}')        // tab, line feed, vertical tab, form feed, carriage return
    || c == ' ' || c == '\U{A0}' || c == '\U{1680}'
    || ('\U{2000}' <= c <= '\U{200A}')  // the en quad to hair space block
    || c == '\U{2028}' || c == '\U{2029}' || c == '\U{202F}' || c == '\U{205F}'
    || c == '\U{3000}' || c == '\U{FEFF}'
  }

  /** `s.trim()` is the empty string, so `if (rendered.trim())` is false. */
  predicate IsBlank(s: string) {
    forall i :: 0 <= i < |s| ==> IsJsWhitespace(s[i])
  }

  /** Every entry of the tree has an output name that `path.join` appends as a new last segment. */
  predicate PlainNames(node: Node)
    decreases node
  {
    match node
    case File(name, _) => PlainName(DestName(name))
    case Dir(name, kids) => PlainName(DestName(name)) && forall i :: 0 <= i < |kids| ==> PlainNames(kids[i])
  }

  /** No two siblings anywhere in the tree share an output name. */
  predicate DistinctSiblings(node: Node)
    decreases node
  {
    match node
    case File(_, _) => true
    case Dir(_, kids) =>
      && (forall i, j :: 0 <= i < j < |kids| ==> DestName(kids[i].name) != DestName(kids[j].name))
      && (forall i :: 0 <= i < |kids| ==> DistinctSiblings(kids[i]))
  }

  /** Plain output names, and no two files or directories that land on the same output path. */
  predicate WellNamed(node: Node) {
    PlainNames(node) && DistinctSiblings(node)
  }

  /** The output path of a store path below a template group: each segment loses a trailing `.ejs`. */
  function OutPath(q: Path): (out: Path)
    ensures |out| == |q| && forall k :: 0 <= k < |q| ==> out[k] == DestName(q[k])
  {
    if q == [] then [] else [DestName(q[0])] + OutPath(q[1..])
  }

  /** Looking up `a + b` is looking up `b` below the entry at `a`. */
  lemma {:induction false} LookupConcat(root: Node, a: Path, b: Path)
    ensures Lookup(root, a + b) == if Lookup(root, a).Some? then Lookup(Lookup(root, a).value, b) else None
    decreases |a|
  {
    if a != [] {
      assert (a + b)[0] == a[0] && (a + b)[1..] == a[1..] + b;
      match root
      case File(_, _) =>
      case Dir(_, kids) =>
        match ChildNamed(kids, a[0])
        case None =>
        case Some(kid) => LookupConcat(kid, a[1..], b);
    } else {
      assert a + b == b;
    }
  }

  /** The output name of a `.ejs` entry is its name without the suffix; no other name changes. */
  lemma DestNameStripsSuffixOnly(name: string)
    ensures DestName(name) == name <==> !IsEjs(name)
    ensures IsEjs(name) ==> |DestName(name)| == |name| - 4
  {
  }
}
