/**
 * Field specifications and their rendering as regular-expression text
 * (`KeyParser._make_dir`, `_make_partition` and `_make_file`).
 *
 * Each of the three Python renderers does two things: it dispatches on the
 * Python type of its argument (raising on a malformed one) and it builds a
 * string. The model splits them: `Classify` turns a `PyValue` into a `Spec`
 * tree or an error, and `Render` lays the tree out as pattern text. `Make`
 * composes the two and is what the Python renderers compute.
 */
module FieldSpec {
  import opened Wrappers
  import opened Text
  import opened Python

  /** Which renderer a field goes through: a directory, a `name=value` partition or a filename segment. */
  datatype Role = Dir | Partition | File

  /** A well-formed field specification. */
  datatype Spec =
    | Bare(name: string)                         // "name": a default character class
    | Expr(name: string, pattern: string)        // ("name", "regex"): the caller's regex, unescaped
    | Group(name: string, children: seq<Spec>)   // ("name", [child, ...]): nested fields

  /** Construction-time failures of `KeyParser.__init__`. */
  datatype SpecError =
    | FileMissing                                 // `file` is None
    | FileNotList(file: PyValue)                  // `file` is not a list
    | BadSpec(role: Role, spec: PyValue)          // neither a str nor a 2-tuple
    | BadExpr(role: Role, shown: PyValue)         // second element neither a str nor a list
    | DuplicateGroupName(name: string)            // raised by re.compile

  /** The regex that a bare name matches: `\w+`, or `[\w+\.]+` for a filename segment. */
  function DefaultClass(role: Role): string {
    if role == File then "[\\w+\\.]+" else "\\w+"
  }

  /** The named capture group `(?P<name>body)`. */
  function NamedGroup(name: string, body: string): string {
    "(?P<" + name + ">" + body + ")"
  }

  /** The literal text before a partition's group: `name=`. */
  function Lead(s: Spec, role: Role): string {
    if role == Partition then s.name + "=" else ""
  }

  /**
   * The name of the group a spec's own capture is declared under. A nested
   * partition is captured under the literal name `key`, not its own name.
   */
  function CaptureName(s: Spec, role: Role): string {
    if role == Partition && s.Group? then "key" else s.name
  }

  // ---------------------------------------------------------------------------
  // Type dispatch
  // ---------------------------------------------------------------------------

  /**
   * The type dispatch of a renderer. Children of a group are always
   * classified as directories, whatever the role of their parent. For a
   * directory, the error for a bad second element shows the whole spec; for a
   * partition or file it shows the second element only.
   */
  function Classify(v: PyValue, role: Role): Result<Spec, SpecError>
    decreases v
  {
    match v
    case Str(n) => Ok(Bare(n))
    case Tuple(items) =>
      if |items| != 2 then Err(BadSpec(role, v))
      else
        var key := StrOf(items[0]);
        (match items[1]
         case List(kids) =>
           (match ClassifyAll(kids, Dir)
            case Ok(children) => Ok(Group(key, children))
            case Err(e) => Err(e))
         case Str(p) => Ok(Expr(key, p))
         case _ => Err(BadExpr(role, if role == Dir then v else items[1])))
    case _ => Err(BadSpec(role, v))
  }

  /** Classify a list of specs in order; the first malformed one decides the error. */
  function ClassifyAll(vs: seq<PyValue>, role: Role): Result<seq<Spec>, SpecError>
    decreases vs
  {
    if vs == [] then Ok([])
    else
      match Classify(vs[0], role)
      case Err(e) => Err(e)
      case Ok(s) =>
        match ClassifyAll(vs[1..], role)
        case Err(e) => Err(e)
        case Ok(rest) => Ok([s] + rest)
  }

  // ---------------------------------------------------------------------------
  // Rendering
  // ---------------------------------------------------------------------------

  /** The pattern text of one spec; a group's children are rendered as directories. */
  function Render(s: Spec, role: Role): string
    decreases s
  {
    Lead(s, role) +
    match s
    case Bare(n) => NamedGroup(n, DefaultClass(role))
    case Expr(n, p) => NamedGroup(n, p)
    case Group(n, kids) => NamedGroup(CaptureName(s, role), Concat(RenderAll(kids, Dir)))
  }

  function RenderAll(ss: seq<Spec>, role: Role): (r: seq<string>)
    ensures |r| == |ss| && forall i :: 0 <= i < |ss| ==> r[i] == Render(ss[i], role)
    decreases ss
  {
    if ss == [] then [] else [Render(ss[0], role)] + RenderAll(ss[1..], role)
  }

  /** What a Python renderer returns: the rendering, or the error its type dispatch raises. */
  function Make(v: PyValue, role: Role): Result<string, SpecError> {
    match Classify(v, role)
    case Ok(s) => Ok(Render(s, role))
    case Err(e) => Err(e)
  }

  /** A list comprehension over a renderer: every rendering in order, or the first error. */
  function MakeAll(vs: seq<PyValue>, role: Role): Result<seq<string>, SpecError> {
    if vs == [] then Ok([])
    else
      match Make(vs[0], role)
      case Err(e) => Err(e)
      case Ok(r) =>
        match MakeAll(vs[1..], role)
        case Err(e) => Err(e)
        case Ok(rest) => Ok([r] + rest)
  }

  // ---------------------------------------------------------------------------
  // Group names
  // ---------------------------------------------------------------------------

  /** The group names a spec's rendering declares, in the order they appear. */
  function Names(s: Spec, role: Role): seq<string>
    decreases s
  {
    [CaptureName(s, role)] + if s.Group? then NamesAll(s.children, Dir) else []
  }

  function NamesAll(ss: seq<Spec>, role: Role): seq<string>
    decreases ss
  {
    if ss == [] then [] else Names(ss[0], role) + NamesAll(ss[1..], role)
  }

  // ---------------------------------------------------------------------------
  // Shapes, independently of the dispatch
  // ---------------------------------------------------------------------------

  /** A str, `(key, str)` or `(key, [well-shaped, ...])`. */
  predicate WellShaped(v: PyValue)
    decreases v
  {
    match v
    case Str(_) => true
    case Tuple(items) =>
      |items| == 2 &&
      (match items[1]
       case Str(_) => true
       case List(kids) => AllWellShaped(kids)
       case _ => false)
    case _ => false
  }

  predicate AllWellShaped(vs: seq<PyValue>)
    decreases vs
  {
    vs == [] || (WellShaped(vs[0]) && AllWellShaped(vs[1..]))
  }

  /** The Python value a spec is written as. */
  function Embed(s: Spec): PyValue
    decreases s
  {
    match s
    case Bare(n) => Str(n)
    case Expr(n, p) => Tuple([Str(n), Str(p)])
    case Group(n, kids) => Tuple([Str(n), List(EmbedAll(kids))])
  }

  function EmbedAll(ss: seq<Spec>): (r: seq<PyValue>)
    ensures |r| == |ss| && forall i :: 0 <= i < |ss| ==> r[i] == Embed(ss[i])
    decreases ss
  {
    if ss == [] then [] else [Embed(ss[0])] + EmbedAll(ss[1..])
  }

  // ---------------------------------------------------------------------------
  // Lemmas
  // ---------------------------------------------------------------------------

  /** The dispatch accepts exactly the well-shaped values, and every error names the renderer it came from. */
  lemma {:induction false} ClassifyAccepts(v: PyValue, role: Role)
    ensures Classify(v, role).Ok? <==> WellShaped(v)
    ensures Classify(v, role).Err? ==>
              var e := Classify(v, role).error;
              (e.BadSpec? || e.BadExpr?) && (e.role == role || e.role == Dir)
    decreases v, 1
  {
    if v.Tuple? && |v.items| == 2 && v.items[1].List? {
      ClassifyAllAccepts(v.items[1].items, Dir);
    }
  }

  lemma {:induction false} ClassifyAllAccepts(vs: seq<PyValue>, role: Role)
    ensures ClassifyAll(vs, role).Ok? <==> AllWellShaped(vs)
    ensures ClassifyAll(vs, role).Err? ==>
              ClassifyAll(vs, role).error.BadSpec? || ClassifyAll(vs, role).error.BadExpr?
    ensures role == Dir && ClassifyAll(vs, role).Err? ==> ClassifyAll(vs, role).error.role == Dir
    decreases vs, 0
  {
    if vs != [] {
      ClassifyAccepts(vs[0], role);
      ClassifyAllAccepts(vs[1..], role);
    }
  }

  /** Writing a spec as a Python value and dispatching on it gives the spec back. */
  lemma {:induction false} ClassifyEmbed(s: Spec, role: Role)
    ensures Classify(Embed(s), role) == Ok(s)
    decreases s, 1
  {
    if s.Group? {
      ClassifyAllEmbed(s.children, Dir);
    }
  }

  lemma {:induction false} ClassifyAllEmbed(ss: seq<Spec>, role: Role)
    ensures ClassifyAll(EmbedAll(ss), role) == Ok(ss)
    decreases ss, 0
  {
    if ss != [] {
      ClassifyEmbed(ss[0], role);
      ClassifyAllEmbed(ss[1..], role);
      assert EmbedAll(ss)[1..] == EmbedAll(ss[1..]);
      assert [ss[0]] + ss[1..] == ss;
    }
  }

  /** Rendering a list of values is dispatching all of them, then rendering every spec. */
  lemma {:induction false} MakeAllOfClassify(vs: seq<PyValue>, role: Role)
    ensures MakeAll(vs, role) == match ClassifyAll(vs, role)
                                 case Ok(ss) => Ok(RenderAll(ss, role))
                                 case Err(e) => Err(e)
  {
    if vs != [] {
      MakeAllOfClassify(vs[1..], role);
      match ClassifyAll(vs, role)
      case Ok(ss) =>
        assert ss[1..] == ClassifyAll(vs[1..], role).value;
      case Err(_) =>
    }
  }

  /**
   * The three leaf forms render as their f-strings say: a bare name as
   * `(?P<n>\w+)`, `n=(?P<n>\w+)` or `(?P<n>[\w+\.]+)`, and `(key, regex)` as
   * `(?P<key>regex)`, preceded by `key=` for a partition.
   */
  lemma LeafRenderings(n: string, key: string, regex: string)
    ensures Make(Str(n), Dir) == Ok(NamedGroup(n, "\\w+"))
    ensures Make(Str(n), Partition) == Ok(n + "=" + NamedGroup(n, "\\w+"))
    ensures Make(Str(n), File) == Ok(NamedGroup(n, "[\\w+\\.]+"))
    ensures Make(Tuple([Str(key), Str(regex)]), Dir) == Ok(NamedGroup(key, regex))
    ensures Make(Tuple([Str(key), Str(regex)]), File) == Ok(NamedGroup(key, regex))
    ensures Make(Tuple([Str(key), Str(regex)]), Partition) == Ok(key + "=" + NamedGroup(key, regex))
  {
    assert forall t: string :: "" + t == t;
  }

  /**
   * A group `(key, children)` renders the children through the directory
   * renderer, concatenated without separator, inside one named group; for a
   * partition that group is named `key` and preceded by `key=`.
   */
  lemma NestedRendering(key: string, kids: seq<PyValue>, role: Role)
    ensures Make(Tuple([Str(key), List(kids)]), role) ==
            match MakeAll(kids, Dir)
            case Ok(parts) =>
              Ok((if role == Partition then key + "=" + NamedGroup("key", Concat(parts))
                  else NamedGroup(key, Concat(parts))))
            case Err(e) => Err(e)
  {
    MakeAllOfClassify(kids, Dir);
    assert forall t: string :: "" + t == t;
  }

  /** A bare name inside a filename group gets `\w+`, not the filename character class. */
  lemma FileGroupChildIsDirectory(key: string, child: string)
    ensures Make(Tuple([Str(key), List([Str(child)])]), File) ==
            Ok(NamedGroup(key, NamedGroup(child, "\\w+")))
    ensures Make(Str(child), File) != Make(Str(child), Dir)
  {
    NestedRendering(key, [Str(child)], File);
    LeafRenderings(child, key, "");
    assert Concat([NamedGroup(child, "\\w+")]) == NamedGroup(child, "\\w+");
    ClassesDiffer(child);
  }

  lemma ClassesDiffer(n: string)
    ensures NamedGroup(n, "\\w+") != NamedGroup(n, "[\\w+\\.]+")
  {
    assert NamedGroup(n, "\\w+")[|n| + 5] == '\\';
    assert NamedGroup(n, "[\\w+\\.]+")[|n| + 5] == '[';
  }
}
