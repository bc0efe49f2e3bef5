/**
 * The named groups a pattern declares, and the duplicate-name rule of
 * `re.compile` (`KeyParser.__init__` compiles the pattern once; a name used
 * twice makes it raise "redefinition of group name").
 *
 * `Scan` reads the group names off the pattern text; the main theorem,
 * `ScanPathPattern`, shows that for specs whose names and regexes are plain
 * it reads exactly the names the spec tree declares, in order, so that the
 * duplicate check can be stated on the tree.
 */
module GroupNames {
  import opened Wrappers
  import opened Text
  import opened Python
  import opened FieldSpec
  import opened Pattern

  /** The opening of a named group. */
  const Marker: string := "(?P<"

  predicate MarkerAt(s: string, i: nat) {
    OccursAt(s, Marker, i)
  }

  /** The text declares no named group of its own. */
  predicate NoMarker(p: string) {
    forall i: nat :: i < |p| ==> !MarkerAt(p, i)
  }

  /** The first index of `c` in `s`. */
  function IndexOf(s: string, c: char): (r: Option<nat>)
    ensures r.Some? ==> r.value < |s| && s[r.value] == c && c !in s[..r.value]
    ensures r.None? ==> c !in s
  {
    if s == [] then None
    else if s[0] == c then Some(0)
    else match IndexOf(s[1..], c)
         case None => None
         case Some(k) => (assert s[..k + 1] == [s[0]] + s[1..][..k]; Some(k + 1))
  }

  /** The names of the named groups `(?P<name>` in a pattern, from left to right. */
  function Scan(s: string): seq<string>
    decreases |s|
  {
    if |s| < 4 then []
    else if s[..4] == Marker then
      match IndexOf(s[4..], '>')
      case None => []
      case Some(k) => [s[4..4 + k]] + Scan(s[5 + k..])
    else Scan(s[1..])
  }

  // ---------------------------------------------------------------------------
  // Duplicates
  // ---------------------------------------------------------------------------

  predicate Distinct(names: seq<string>) {
    forall i, j :: 0 <= i < j < |names| ==> names[i] != names[j]
  }

  /** The name at position `j` repeats a name declared before it. */
  predicate RedefinedAt(names: seq<string>, j: nat)
    requires j < |names|
  {
    names[j] in names[..j]
  }

  /**
   * The first name, from position `k` on, that repeats a name before it: the
   * group `re.compile` reports as a redefinition.
   */
  function FirstRepeatFrom(names: seq<string>, k: nat): (r: Option<string>)
    requires k <= |names|
    ensures r.None? <==> forall j :: k <= j < |names| ==> !RedefinedAt(names, j)
    ensures r.Some? ==> exists j :: k <= j < |names| && names[j] == r.value && RedefinedAt(names, j)
                                    && forall j' :: k <= j' < j ==> !RedefinedAt(names, j')
    decreases |names| - k
  {
    if k == |names| then None
    else if RedefinedAt(names, k) then Some(names[k])
    else
      assert !RedefinedAt(names, k);
      FirstRepeatFrom(names, k + 1)
  }

  /**
   * The first redefined group name, if any: the name at the earliest position
   * that repeats an earlier one.
   */
  function FirstRepeat(names: seq<string>): (r: Option<string>)
    ensures r.None? <==> Distinct(names)
    ensures r.Some? ==> exists j :: 0 <= j < |names| && names[j] == r.value && RedefinedAt(names, j)
                                    && forall j' :: 0 <= j' < j ==> !RedefinedAt(names, j')
    ensures r.Some? ==> exists i, j :: 0 <= i < j < |names| && names[i] == r.value && names[j] == r.value
  {
    var r := FirstRepeatFrom(names, 0);
    if r.Some? then
      var j :| 0 <= j < |names| && names[j] == r.value && RedefinedAt(names, j)
               && forall j' :: 0 <= j' < j ==> !RedefinedAt(names, j');
      var i :| 0 <= i < j && names[..j][i] == r.value;
      r
    else
      assert forall i, j :: 0 <= i < j < |names| ==> names[i] != names[j] by {
        forall i, j | 0 <= i < j < |names| ensures names[i] != names[j] {
          assert !RedefinedAt(names, j);
          assert names[i] == names[..j][i];
        }
      }
      r
  }

  // ---------------------------------------------------------------------------
  // Plain specs
  // ---------------------------------------------------------------------------

  /** A name that cannot open a group or end a group name (true of every identifier). */
  predicate PlainName(n: string) {
    '(' !in n && '>' !in n
  }

  /** Plain names throughout, and caller regexes that declare no named group. */
  predicate Plain(s: Spec)
    decreases s
  {
    PlainName(s.name) &&
    match s
    case Bare(_) => true
    case Expr(_, p) => NoMarker(p)
    case Group(_, kids) => AllPlain(kids)
  }

  predicate AllPlain(ss: seq<Spec>)
    decreases ss
  {
    ss == [] || (Plain(ss[0]) && AllPlain(ss[1..]))
  }

  // ---------------------------------------------------------------------------
  // Scanning lemmas
  // ---------------------------------------------------------------------------

  /** Text in which no group opens contributes no names. */
  lemma {:induction false} SkipScan(t: string, b: string)
    requires forall i: nat :: i < |t| ==> !MarkerAt(t + b, i)
    ensures Scan(t + b) == Scan(b)
    decreases |t|
  {
    if t == [] {
      assert t + b == b;
    } else if |t + b| >= 4 {
      assert !MarkerAt(t + b, 0);
      assert (t + b)[1..] == t[1..] + b;
      forall i: nat | i < |t[1..]| ensures !MarkerAt(t[1..] + b, i) {
        assert !MarkerAt(t + b, i + 1);
        if i + 4 <= |t[1..] + b| {
          assert (t[1..] + b)[i..i + 4] == (t + b)[i + 1..i + 5];
        }
      }
      SkipScan(t[1..], b);
    }
  }

  lemma NoOpenSkip(t: string, b: string)
    requires '(' !in t
    ensures Scan(t + b) == Scan(b)
  {
    forall i: nat | i < |t| ensures !MarkerAt(t + b, i) {
      assert t[i] != '(';
      if i + 4 <= |t + b| {
        assert (t + b)[i..i + 4][0] == t[i];
      }
    }
    SkipScan(t, b);
  }

  /** A regex that declares no group, closed by `)`, contributes no names. */
  lemma PatternSkip(p: string, b: string)
    requires NoMarker(p)
    ensures Scan(p + ")" + b) == Scan(b)
  {
    var t := p + ")";
    assert t + b == p + ")" + b;
    forall i: nat | i < |t| ensures !MarkerAt(t + b, i) {
      if i + 4 <= |p| {
        assert (t + b)[i..i + 4] == p[i..i + 4];
        assert !MarkerAt(p, i);
      } else if i + 4 <= |t + b| {
        var j := |p| - i;
        assert 0 <= j < 4;
        assert (t + b)[i..i + 4][j] == (t + b)[|p|] == ')';
        assert Marker[j] != ')';
      }
    }
    SkipScan(t, b);
  }

  /** At an opening `(?P<`, the name runs to the first `>`. */
  lemma ScanMarker(tail: string, k: nat)
    requires IndexOf(tail, '>') == Some(k)
    ensures Scan(Marker + tail) == [tail[..k]] + Scan(tail[k + 1..])
  {
    var s := Marker + tail;
    assert s[..4] == Marker;
    assert s[4..] == tail;
    assert s[4..4 + k] == tail[..k];
    assert s[5 + k..] == tail[k + 1..];
  }

  lemma {:induction false} IndexAfterName(n: string, x: string)
    requires '>' !in n
    ensures IndexOf(n + ">" + x, '>') == Some(|n|)
  {
    if n != [] {
      assert (n + ">" + x)[1..] == n[1..] + ">" + x;
      IndexAfterName(n[1..], x);
    }
  }

  /** A named group whose name is plain contributes its name, then whatever its body declares. */
  lemma ScanGroup(n: string, body: string, rest: string)
    requires '>' !in n
    ensures Scan(NamedGroup(n, body) + rest) == [n] + Scan(body + ")" + rest)
  {
    var x := body + ")" + rest;
    GroupText(n, body, rest);
    IndexAfterName(n, x);
    ScanMarker(n + ">" + x, |n|);
    NameSlices(n, x);
  }

  lemma GroupText(n: string, body: string, rest: string)
    ensures NamedGroup(n, body) + rest == Marker + (n + ">" + (body + ")" + rest))
  {
  }

  lemma NameSlices(n: string, x: string)
    ensures (n + ">" + x)[..|n|] == n && (n + ">" + x)[|n| + 1..] == x
  {
  }

  /** Lead text without `(`, then a named group with a plain name: the name, then what the body declares. */
  lemma ScanHead(lead: string, cn: string, body: string, rest: string)
    requires '(' !in lead && '>' !in cn
    ensures Scan(lead + NamedGroup(cn, body) + rest) == [cn] + Scan(body + ")" + rest)
  {
    assert lead + NamedGroup(cn, body) + rest == lead + (NamedGroup(cn, body) + rest);
    NoOpenSkip(lead, NamedGroup(cn, body) + rest);
    ScanGroup(cn, body, rest);
  }

  /** The same, when the body is itself known to declare `names`. */
  lemma ScanHeadNested(lead: string, cn: string, body: string, rest: string, names: seq<string>)
    requires '(' !in lead && '>' !in cn
    requires Scan(body + (")" + rest)) == names + Scan(")" + rest)
    ensures Scan(lead + NamedGroup(cn, body) + rest) == [cn] + names + Scan(rest)
  {
    ScanHead(lead, cn, body, rest);
    Reassociate(body, ")", rest);
    CloseSkip(rest);
  }

  lemma Reassociate(a: string, b: string, c: string)
    ensures a + b + c == a + (b + c)
  {
  }

  /** The `)` that closes a group declares nothing. */
  lemma CloseSkip(rest: string)
    ensures Scan(")" + rest) == Scan(rest)
  {
    NoOpenSkip(")", rest);
  }

  /** The same, when the body declares nothing. */
  lemma ScanHeadLeaf(lead: string, cn: string, body: string, rest: string)
    requires '(' !in lead && '>' !in cn && NoMarker(body)
    ensures Scan(lead + NamedGroup(cn, body) + rest) == [cn] + Scan(rest)
  {
    ScanHead(lead, cn, body, rest);
    PatternSkip(body, rest);
  }

  lemma NoOpenNoMarker(p: string)
    requires '(' !in p
    ensures NoMarker(p)
  {
    forall i: nat | i < |p| ensures !MarkerAt(p, i) {
      assert p[i] != '(';
      if i + 4 <= |p| {
        assert p[i..i + 4][0] == p[i];
      }
    }
  }

  lemma DefaultClassPlain(role: Role)
    ensures NoMarker(DefaultClass(role))
  {
    NoOpenNoMarker(DefaultClass(role));
  }

  /** The text before a spec's group holds no `(` when the spec's name is plain. */
  lemma LeadPlain(s: Spec, role: Role)
    requires PlainName(s.name)
    ensures '(' !in Lead(s, role)
  {
  }

  /** A leaf renders as its lead, then one group under its own name. */
  lemma LeafText(s: Spec, role: Role, rest: string)
    requires !s.Group?
    ensures Render(s, role) + rest
            == Lead(s, role) + NamedGroup(s.name, if s.Bare? then DefaultClass(role) else s.pattern) + rest
  {
  }

  /** A plain leaf declares its own name and nothing else. */
  lemma ScanLeaf(s: Spec, role: Role, rest: string)
    requires Plain(s) && !s.Group?
    ensures Scan(Render(s, role) + rest) == Names(s, role) + Scan(rest)
  {
    var body := if s.Bare? then DefaultClass(role) else s.pattern;
    if s.Bare? {
      DefaultClassPlain(role);
    }
    LeadPlain(s, role);
    LeafText(s, role, rest);
    var lead := Lead(s, role);
    ScanHeadLeaf(lead, s.name, body, rest);
    assert Names(s, role) == [s.name];
  }

  /** A plain group declares its capture name, then what its children declare. */
  lemma ScanNested(s: Spec, role: Role, rest: string)
    requires s.Group? && PlainName(s.name)
    requires Scan(Concat(RenderAll(s.children, Dir)) + (")" + rest))
             == NamesAll(s.children, Dir) + Scan(")" + rest)
    ensures Scan(Render(s, role) + rest) == Names(s, role) + Scan(rest)
  {
    var body := Concat(RenderAll(s.children, Dir));
    assert Render(s, role) == Lead(s, role) + NamedGroup(CaptureName(s, role), body);
    ScanHeadNested(Lead(s, role), CaptureName(s, role), body, rest, NamesAll(s.children, Dir));
  }

  /** The text of a plain spec declares exactly the spec's names, in rendering order. */
  lemma {:induction false} ScanRender(s: Spec, role: Role, rest: string)
    requires Plain(s)
    ensures Scan(Render(s, role) + rest) == Names(s, role) + Scan(rest)
    decreases s, 1
  {
    if s.Group? {
      ScanRenderAll(s.children, Dir, ")" + rest);
      ScanNested(s, role, rest);
    } else {
      ScanLeaf(s, role, rest);
    }
  }

  /** Names declared by consecutive pieces of text add up. */
  lemma ScanChain(a: string, b: string, rest: string, na: seq<string>, nb: seq<string>)
    requires Scan(a + (b + rest)) == na + Scan(b + rest)
    requires Scan(b + rest) == nb + Scan(rest)
    ensures Scan(a + b + rest) == na + nb + Scan(rest)
  {
    Link(a, b + rest, na, nb + Scan(rest));
    Reassociate(a, b, rest);
  }

  lemma ConcatHead(ss: seq<Spec>, role: Role)
    requires ss != []
    ensures Concat(RenderAll(ss, role)) == Render(ss[0], role) + Concat(RenderAll(ss[1..], role))
  {
    assert RenderAll(ss, role)[1..] == RenderAll(ss[1..], role);
  }

  lemma {:induction false} ScanRenderAll(ss: seq<Spec>, role: Role, rest: string)
    requires AllPlain(ss)
    ensures Scan(Concat(RenderAll(ss, role)) + rest) == NamesAll(ss, role) + Scan(rest)
    decreases ss, 0
  {
    if ss == [] {
      assert Concat(RenderAll(ss, role)) + rest == rest;
    } else {
      var head, tail := Render(ss[0], role), Concat(RenderAll(ss[1..], role));
      ConcatHead(ss, role);
      ScanRender(ss[0], role, tail + rest);
      ScanRenderAll(ss[1..], role, rest);
      ScanChain(head, tail, rest, Names(ss[0], role), NamesAll(ss[1..], role));
    }
  }

  /** Two facts about the names of adjacent pieces give the names of both. */
  lemma Link(x: string, y: string, nx: seq<string>, ny: seq<string>)
    requires Scan(x + y) == nx + Scan(y)
    requires Scan(y) == ny
    ensures Scan(x + y) == nx + ny
  {
  }

  lemma SkipThen(t: string, x: string, n: seq<string>)
    requires '(' !in t
    requires Scan(x) == n
    ensures Scan(t + x) == n
  {
    NoOpenSkip(t, x);
  }

  /** A piece, a separator without `(`, then more pieces: the names add up. */
  lemma ScanSeparated(head: string, separator: string, tail: string, rest: string,
                      nh: seq<string>, nt: seq<string>)
    requires '(' !in separator
    requires Scan(head + (separator + (tail + rest))) == nh + Scan(separator + (tail + rest))
    requires Scan(tail + rest) == nt + Scan(rest)
    ensures Scan(head + (separator + tail) + rest) == nh + nt + Scan(rest)
  {
    SkipThen(separator, tail + rest, nt + Scan(rest));
    Link(head, separator + (tail + rest), nh, nt + Scan(rest));
    Regroup3(head, separator, tail, rest);
  }

  lemma Regroup3(h: string, a: string, b: string, c: string)
    ensures h + (a + b) + c == h + (a + (b + c))
  {
  }

  lemma TerminatedHead(ss: seq<Spec>, role: Role, separator: string)
    requires ss != []
    ensures Terminated(separator, RenderAll(ss, role))
            == Render(ss[0], role) + (separator + Terminated(separator, RenderAll(ss[1..], role)))
  {
    var parts := RenderAll(ss, role);
    assert parts[1..] == RenderAll(ss[1..], role);
    TerminatedCons(separator, parts);
  }

  lemma TerminatedCons(separator: string, parts: seq<string>)
    requires parts != []
    ensures Terminated(separator, parts) == parts[0] + (separator + Terminated(separator, parts[1..]))
  {
  }

  lemma {:induction false} ScanTerminated(ss: seq<Spec>, role: Role, separator: string, rest: string)
    requires AllPlain(ss) && '(' !in separator
    ensures Scan(Terminated(separator, RenderAll(ss, role)) + rest) == NamesAll(ss, role) + Scan(rest)
    decreases ss
  {
    if ss == [] {
      assert Terminated(separator, RenderAll(ss, role)) + rest == rest;
    } else {
      var head, tail := Render(ss[0], role), Terminated(separator, RenderAll(ss[1..], role));
      TerminatedHead(ss, role, separator);
      ScanTerminated(ss[1..], role, separator, rest);
      ScanRender(ss[0], role, separator + (tail + rest));
      ScanSeparated(head, separator, tail, rest, Names(ss[0], role), NamesAll(ss[1..], role));
    }
  }

  lemma Regroup(p: string, a: string, b: string, c: string)
    ensures p + a + b + c == p + (a + (b + c))
  {
  }

  /** The prefix, the directories, the partitions and the files, put together. */
  lemma ScanAssemble(prefix: string, td: string, tp: string, c: string,
                     nd: seq<string>, np: seq<string>, nf: seq<string>)
    requires '(' !in prefix
    requires Scan(td + (tp + c)) == nd + Scan(tp + c)
    requires Scan(tp + c) == np + Scan(c)
    requires Scan(c) == nf
    ensures Scan(prefix + td + tp + c) == nd + np + nf
  {
    Link(tp, c, np, nf);
    Link(td, tp + c, nd, np + nf);
    Regroup(prefix, td, tp, c);
    NoOpenSkip(prefix, td + (tp + c));
  }

  /**
   * For plain specs and a separator without `(`, the whole-path pattern
   * declares exactly the directory names, then the partition names (a nested
   * partition as `key`), then the filename names, nested names included.
   */
  lemma ScanPathPattern(dirs: seq<Spec>, partitions: seq<Spec>, files: seq<Spec>,
                        separator: string, absolute: bool)
    requires AllPlain(dirs) && AllPlain(partitions) && AllPlain(files) && '(' !in separator
    ensures var prefix := if absolute then separator else "";
            Scan(prefix + Terminated(separator, RenderAll(dirs, Dir))
                        + Terminated(separator, RenderAll(partitions, Partition))
                        + Concat(RenderAll(files, File)))
            == NamesAll(dirs, Dir) + NamesAll(partitions, Partition) + NamesAll(files, File)
  {
    var prefix := if absolute then separator else "";
    var c := Concat(RenderAll(files, File));
    var tp := Terminated(separator, RenderAll(partitions, Partition));
    var td := Terminated(separator, RenderAll(dirs, Dir));
    assert Scan(c) == NamesAll(files, File) by {
      ScanRenderAll(files, File, "");
      assert c + "" == c;
    }
    ScanTerminated(partitions, Partition, separator, c);
    ScanTerminated(dirs, Dir, separator, tp + c);
    ScanAssemble(prefix, td, tp, c, NamesAll(dirs, Dir), NamesAll(partitions, Partition), NamesAll(files, File));
  }
}
