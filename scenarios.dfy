/**
 * The worked examples of the `KeyParser` docstring, as instances of the model.
 * The match itself is the regex engine's: where an example parses a path, the
 * engine's answer is taken as given and the lemma states what `parse` makes
 * of it.
 */
module Scenarios {
  import opened Wrappers
  import opened Text
  import opened Python
  import opened FieldSpec
  import opened GroupNames
  import opened Matching
  import opened KeyParsing

  /** Well-formed specs written as the Python values they come from. */
  lemma Accepted(vs: seq<PyValue>, ss: seq<Spec>, role: Role)
    requires vs == EmbedAll(ss)
    ensures ClassifyAll(vs, role) == Ok(ss)
  {
    ClassifyAllEmbed(ss, role);
  }

  lemma Single(s: Spec, role: Role)
    ensures NamesAll([s], role) == Names(s, role)
  {
    assert [s][1..] == [];
    assert Names(s, role) + [] == Names(s, role);
  }

  /** A parser built from plain specs whose names are distinct gives the assembled pattern. */
  lemma Instance(dirs: seq<PyValue>, partitions: seq<PyValue>, files: seq<PyValue>,
                 ds: seq<Spec>, ps: seq<Spec>, fs: seq<Spec>, separator: string, text: string)
    requires ClassifyAll(dirs, Dir) == Ok(ds)
    requires ClassifyAll(partitions, Partition) == Ok(ps)
    requires ClassifyAll(files, File) == Ok(fs)
    requires AllPlain(ds) && AllPlain(ps) && AllPlain(fs) && '(' !in separator
    requires Distinct(DeclaredNames(ds, ps, fs))
    requires PathPrefix(false, separator) + Terminated(separator, RenderAll(ds, Dir))
             + Terminated(separator, RenderAll(ps, Partition)) + Concat(RenderAll(fs, File)) == text
    ensures Setup(Some(dirs), Some(partitions), List(files), false, separator) == Ok(text)
  {
    SetupOfPlain(dirs, partitions, files, ds, ps, fs, false, separator);
  }

  /** Two bare directories and a bare filename: two `\w+` groups, each followed by the separator, then the filename class. */
  lemma TwoDirsAndFile(a: string, b: string, f: string, separator: string)
    requires PlainName(a) && PlainName(b) && PlainName(f) && '(' !in separator
    requires a != b && a != f && b != f
    ensures Setup(Some([Str(a), Str(b)]), None, List([Str(f)]), false, separator)
            == Ok(NamedGroup(a, "\\w+") + separator + NamedGroup(b, "\\w+") + separator
                  + NamedGroup(f, "[\\w+\\.]+"))
  {
    var dirs, files := [Str(a), Str(b)], [Str(f)];
    var ds, fs := [Bare(a), Bare(b)], [Bare(f)];
    MissingListsAreEmpty(Some(dirs), None, List(files), false, separator);
    Accepted(dirs, ds, Dir);
    Accepted([], [], Partition);
    Accepted(files, fs, File);
    TwoDirsShape(a, b, f);
    TwoDirsLayout(a, b, f, separator);
    Instance(dirs, [], files, ds, [], fs, separator,
             NamedGroup(a, "\\w+") + separator + NamedGroup(b, "\\w+") + separator + NamedGroup(f, "[\\w+\\.]+"));
  }

  lemma TwoDirsShape(a: string, b: string, f: string)
    requires PlainName(a) && PlainName(b) && PlainName(f)
    requires a != b && a != f && b != f
    ensures AllPlain([Bare(a), Bare(b)]) && AllPlain([]) && AllPlain([Bare(f)])
    ensures Distinct(DeclaredNames([Bare(a), Bare(b)], [], [Bare(f)]))
  {
    var ds := [Bare(a), Bare(b)];
    assert Plain(Bare(a)) && Plain(Bare(b)) && Plain(Bare(f));
    assert ds[1..] == [Bare(b)];
    assert Names(Bare(a), Dir) == [a] && Names(Bare(b), Dir) == [b] && Names(Bare(f), File) == [f];
    assert NamesAll([Bare(b)], Dir) == [b];
    assert NamesAll(ds, Dir) == [a, b];
    Single(Bare(f), File);
    assert DeclaredNames(ds, [], [Bare(f)]) == [a, b, f];
  }

  lemma TwoDirsLayout(a: string, b: string, f: string, separator: string)
    ensures PathPrefix(false, separator) + Terminated(separator, RenderAll([Bare(a), Bare(b)], Dir))
            + Terminated(separator, RenderAll([], Partition)) + Concat(RenderAll([Bare(f)], File))
            == NamedGroup(a, "\\w+") + separator + NamedGroup(b, "\\w+") + separator + NamedGroup(f, "[\\w+\\.]+")
  {
    var ga, gb, gf := NamedGroup(a, "\\w+"), NamedGroup(b, "\\w+"), NamedGroup(f, "[\\w+\\.]+");
    assert forall t: string :: "" + t == t;
    assert RenderAll([Bare(a), Bare(b)], Dir) == [ga, gb];
    assert RenderAll([Bare(f)], File) == [gf];
    assert [ga, gb][1..] == [gb];
    assert Terminated(separator, [gb]) == gb + separator + "";
    assert Terminated(separator, [ga, gb]) == ga + separator + (gb + separator + "");
    assert Concat([gf]) == gf + "";
  }

  /** A bare directory, a bare partition and a bare filename: the partition reads `name=` then its group. */
  lemma DirPartitionAndFile(a: string, p: string, f: string, separator: string)
    requires PlainName(a) && PlainName(p) && PlainName(f) && '(' !in separator
    requires a != p && a != f && p != f
    ensures Setup(Some([Str(a)]), Some([Str(p)]), List([Str(f)]), false, separator)
            == Ok(NamedGroup(a, "\\w+") + separator + p + "=" + NamedGroup(p, "\\w+") + separator
                  + NamedGroup(f, "[\\w+\\.]+"))
  {
    var ds, ps, fs := [Bare(a)], [Bare(p)], [Bare(f)];
    Accepted([Str(a)], ds, Dir);
    Accepted([Str(p)], ps, Partition);
    Accepted([Str(f)], fs, File);
    DirPartitionShape(a, p, f);
    DirPartitionLayout(a, p, f, separator);
    Instance([Str(a)], [Str(p)], [Str(f)], ds, ps, fs, separator,
             NamedGroup(a, "\\w+") + separator + p + "=" + NamedGroup(p, "\\w+") + separator
             + NamedGroup(f, "[\\w+\\.]+"));
  }

  lemma DirPartitionShape(a: string, p: string, f: string)
    requires PlainName(a) && PlainName(p) && PlainName(f)
    requires a != p && a != f && p != f
    ensures AllPlain([Bare(a)]) && AllPlain([Bare(p)]) && AllPlain([Bare(f)])
    ensures Distinct(DeclaredNames([Bare(a)], [Bare(p)], [Bare(f)]))
  {
    assert Plain(Bare(a)) && Plain(Bare(p)) && Plain(Bare(f));
    assert Names(Bare(a), Dir) == [a] && Names(Bare(p), Partition) == [p] && Names(Bare(f), File) == [f];
    Single(Bare(a), Dir);
    Single(Bare(p), Partition);
    Single(Bare(f), File);
    assert DeclaredNames([Bare(a)], [Bare(p)], [Bare(f)]) == [a, p, f];
  }

  lemma DirPartitionLayout(a: string, p: string, f: string, separator: string)
    ensures PathPrefix(false, separator) + Terminated(separator, RenderAll([Bare(a)], Dir))
            + Terminated(separator, RenderAll([Bare(p)], Partition)) + Concat(RenderAll([Bare(f)], File))
            == NamedGroup(a, "\\w+") + separator + p + "=" + NamedGroup(p, "\\w+") + separator
               + NamedGroup(f, "[\\w+\\.]+")
  {
    var ga, gp, gf := NamedGroup(a, "\\w+"), p + "=" + NamedGroup(p, "\\w+"), NamedGroup(f, "[\\w+\\.]+");
    assert forall t: string :: "" + t == t;
    assert RenderAll([Bare(a)], Dir) == [ga];
    assert RenderAll([Bare(p)], Partition) == [gp];
    assert RenderAll([Bare(f)], File) == [gf];
    assert Terminated(separator, [ga]) == ga + separator + "";
    assert Terminated(separator, [gp]) == gp + separator + "";
    assert Concat([gf]) == gf + "";
  }

  /**
   * Two bare directories, then a directory `c` holding two regex children,
   * then a bare filename: the children are rendered inside `c`'s group with
   * nothing between them.
   */
  lemma NestedDirAndFile(a: string, b: string, c: string, c1: string, r1: string, c2: string, r2: string,
                         f: string, separator: string)
    requires PlainName(a) && PlainName(b) && PlainName(c) && PlainName(c1) && PlainName(c2) && PlainName(f)
    requires NoMarker(r1) && NoMarker(r2) && '(' !in separator
    requires Distinct([a, b, c, c1, c2, f])
    ensures Setup(Some([Str(a), Str(b), Tuple([Str(c), List([Tuple([Str(c1), Str(r1)]), Tuple([Str(c2), Str(r2)])])])]),
                  None, List([Str(f)]), false, separator)
            == Ok(NamedGroup(a, "\\w+") + separator + NamedGroup(b, "\\w+") + separator
                  + NamedGroup(c, NamedGroup(c1, r1) + NamedGroup(c2, r2)) + separator + NamedGroup(f, "[\\w+\\.]+"))
  {
    var ds, fs := [Bare(a), Bare(b), Group(c, [Expr(c1, r1), Expr(c2, r2)])], [Bare(f)];
    var dirs := [Str(a), Str(b), Tuple([Str(c), List([Tuple([Str(c1), Str(r1)]), Tuple([Str(c2), Str(r2)])])])];
    var files := [Str(f)];
    MissingListsAreEmpty(Some(dirs), None, List(files), false, separator);
    NestedEmbed(a, b, c, c1, r1, c2, r2);
    Accepted(dirs, ds, Dir);
    Accepted([], [], Partition);
    Accepted(files, fs, File);
    NestedShape(a, b, c, c1, r1, c2, r2, f);
    NestedLayout(a, b, c, c1, r1, c2, r2, f, separator);
    Instance(dirs, [], files, ds, [], fs, separator,
             NamedGroup(a, "\\w+") + separator + NamedGroup(b, "\\w+") + separator
             + NamedGroup(c, NamedGroup(c1, r1) + NamedGroup(c2, r2)) + separator + NamedGroup(f, "[\\w+\\.]+"));
  }

  lemma NestedEmbed(a: string, b: string, c: string, c1: string, r1: string, c2: string, r2: string)
    ensures EmbedAll([Bare(a), Bare(b), Group(c, [Expr(c1, r1), Expr(c2, r2)])])
            == [Str(a), Str(b), Tuple([Str(c), List([Tuple([Str(c1), Str(r1)]), Tuple([Str(c2), Str(r2)])])])]
  {
    var kids := [Expr(c1, r1), Expr(c2, r2)];
    assert EmbedAll(kids) == [Tuple([Str(c1), Str(r1)]), Tuple([Str(c2), Str(r2)])];
  }

  lemma NestedShape(a: string, b: string, c: string, c1: string, r1: string, c2: string, r2: string, f: string)
    requires PlainName(a) && PlainName(b) && PlainName(c) && PlainName(c1) && PlainName(c2) && PlainName(f)
    requires NoMarker(r1) && NoMarker(r2)
    ensures AllPlain([Bare(a), Bare(b), Group(c, [Expr(c1, r1), Expr(c2, r2)])]) && AllPlain([]) && AllPlain([Bare(f)])
    ensures DeclaredNames([Bare(a), Bare(b), Group(c, [Expr(c1, r1), Expr(c2, r2)])], [], [Bare(f)])
            == [a, b, c, c1, c2, f]
  {
    var kids := [Expr(c1, r1), Expr(c2, r2)];
    var ds := [Bare(a), Bare(b), Group(c, kids)];
    assert kids[1..] == [Expr(c2, r2)] && kids[1..][1..] == [];
    assert Plain(Expr(c1, r1)) && Plain(Expr(c2, r2));
    assert AllPlain([Expr(c2, r2)]);
    assert AllPlain(kids);
    assert ds[1..] == [Bare(b), Group(c, kids)] && ds[1..][1..] == [Group(c, kids)];
    assert Plain(Bare(a)) && Plain(Bare(b)) && Plain(Group(c, kids)) && Plain(Bare(f));
    Single(Expr(c2, r2), Dir);
    assert NamesAll(kids, Dir) == [c1, c2];
    Single(Group(c, kids), Dir);
    assert Names(Group(c, kids), Dir) == [c, c1, c2];
    assert NamesAll([Group(c, kids)], Dir) == [c, c1, c2];
    assert NamesAll([Bare(b), Group(c, kids)], Dir) == [b, c, c1, c2];
    assert NamesAll(ds, Dir) == [a, b, c, c1, c2];
    Single(Bare(f), File);
  }

  lemma NestedLayout(a: string, b: string, c: string, c1: string, r1: string, c2: string, r2: string,
                     f: string, separator: string)
    ensures PathPrefix(false, separator)
            + Terminated(separator, RenderAll([Bare(a), Bare(b), Group(c, [Expr(c1, r1), Expr(c2, r2)])], Dir))
            + Terminated(separator, RenderAll([], Partition)) + Concat(RenderAll([Bare(f)], File))
            == NamedGroup(a, "\\w+") + separator + NamedGroup(b, "\\w+") + separator
               + NamedGroup(c, NamedGroup(c1, r1) + NamedGroup(c2, r2)) + separator + NamedGroup(f, "[\\w+\\.]+")
  {
    NestedRenders(a, b, c, c1, r1, c2, r2, f);
    ThreeDirsLayout(NamedGroup(a, "\\w+"), NamedGroup(b, "\\w+"), NamedGroup(c, NamedGroup(c1, r1) + NamedGroup(c2, r2)),
                    NamedGroup(f, "[\\w+\\.]+"), separator);
  }

  lemma NestedRenders(a: string, b: string, c: string, c1: string, r1: string, c2: string, r2: string, f: string)
    ensures RenderAll([Bare(a), Bare(b), Group(c, [Expr(c1, r1), Expr(c2, r2)])], Dir)
            == [NamedGroup(a, "\\w+"), NamedGroup(b, "\\w+"), NamedGroup(c, NamedGroup(c1, r1) + NamedGroup(c2, r2))]
    ensures RenderAll([Bare(f)], File) == [NamedGroup(f, "[\\w+\\.]+")]
  {
    var kids := [Expr(c1, r1), Expr(c2, r2)];
    var g1, g2 := NamedGroup(c1, r1), NamedGroup(c2, r2);
    assert forall t: string :: "" + t == t;
    assert RenderAll(kids, Dir) == [g1, g2];
    assert [g1, g2][1..] == [g2];
    assert Concat([g2]) == g2 + "";
    assert Concat([g1, g2]) == g1 + g2;
  }

  /** Three directory parts and one filename part, relative, with no partitions. */
  lemma ThreeDirsLayout(x: string, y: string, z: string, w: string, separator: string)
    ensures PathPrefix(false, separator) + Terminated(separator, [x, y, z]) + Terminated(separator, [])
            + Concat([w]) == x + separator + y + separator + z + separator + w
  {
    assert [x, y, z][1..] == [y, z] && [y, z][1..] == [z];
    assert Terminated(separator, [z]) == z + separator + "";
    assert Terminated(separator, [y, z]) == y + separator + (z + separator + "");
    assert Terminated(separator, [x, y, z]) == x + separator + (y + separator + (z + separator + ""));
    assert Concat([w]) == w + "";
  }

  /** The nested-directory example: `dirs=['one', 'two', ('three', [('three_one', '\\d{2}'), ('three_two', '\\d{2}')])], file=['four']`. */
  lemma NestedExample()
    ensures Setup(Some([Str("one"), Str("two"),
                        Tuple([Str("three"), List([Tuple([Str("three_one"), Str("\\d{2}")]),
                                                   Tuple([Str("three_two"), Str("\\d{2}")])])])]),
                  None, List([Str("four")]), false, "/")
            == Ok(NamedGroup("one", "\\w+") + "/" + NamedGroup("two", "\\w+") + "/"
                  + NamedGroup("three", NamedGroup("three_one", "\\d{2}") + NamedGroup("three_two", "\\d{2}")) + "/"
                  + NamedGroup("four", "[\\w+\\.]+"))
  {
    NoOpenNoMarker("\\d{2}");
    var names := ["one", "two", "three", "three_one", "three_two", "four"];
    assert Distinct(names) by {
      forall i, j | 0 <= i < j < |names| ensures names[i] != names[j] {
        if |names[i]| == |names[j]| {
          assert names[i][0] != names[j][0] || names[i][6] != names[j][6];
        }
      }
    }
    NestedDirAndFile("one", "two", "three", "three_one", "\\d{2}", "three_two", "\\d{2}", "four", "/");
  }

  /** `dirs=['a'], file=['a']`: both pieces declare `a`, which is refused. */
  lemma SameNameTwice(a: string, separator: string)
    requires PlainName(a) && '(' !in separator
    ensures Setup(Some([Str(a)]), None, List([Str(a)]), false, separator) == Err(DuplicateGroupName(a))
  {
    var ds, fs := [Bare(a)], [Bare(a)];
    Accepted([Str(a)], ds, Dir);
    Accepted([Str(a)], fs, File);
    assert Plain(Bare(a));
    var names := DeclaredNames(ds, [], fs);
    assert Names(Bare(a), Dir) == [a] && Names(Bare(a), File) == [a];
    assert NamesAll(ds, Dir) == [a] && NamesAll(fs, File) == [a];
    assert names == [a, a];
    assert !Distinct(names) by { assert names[0] == names[1]; }
    SetupOfPlain([Str(a)], [], [Str(a)], ds, [], fs, false, separator);
  }

  // The stress test: nested directories, a nested partition (captured as
  // `key`) and a nested filename.
  const StressDirs: seq<Spec> := [Group("dir1", [Expr("one", "\\d"), Expr("two", "\\d")]), Bare("dir2")]
  const StressPartitions: seq<Spec> := [Group("4", [Expr("five", "\\d"), Expr("six", "\\d")])]
  const StressFiles: seq<Spec> :=
    [Group("file", [Expr("seven", "\\d"), Expr("_1", "\\."), Expr("eight", "\\d")]), Bare("ext")]

  /** The stress test's directories declare `dir1`, its two children, then `dir2`. */
  lemma StressDirNames()
    ensures NamesAll(StressDirs, Dir) == ["dir1", "one", "two", "dir2"]
  {
    Single(Expr("two", "\\d"), Dir);
    Single(Bare("dir2"), Dir);
    assert [Expr("one", "\\d"), Expr("two", "\\d")][1..] == [Expr("two", "\\d")];
    assert StressDirs[1..] == [Bare("dir2")];
  }

  /** Its nested partition `4` declares `key`, not `4`, then the children. */
  lemma StressPartitionNames()
    ensures NamesAll(StressPartitions, Partition) == ["key", "five", "six"]
  {
    Single(Expr("six", "\\d"), Dir);
    Single(StressPartitions[0], Partition);
    assert [Expr("five", "\\d"), Expr("six", "\\d")][1..] == [Expr("six", "\\d")];
  }

  /** Its filename declares `file`, the children (`_1` among them, to be filtered out later), then `ext`. */
  lemma StressFileNames()
    ensures NamesAll(StressFiles, File) == ["file", "seven", "_1", "eight", "ext"]
  {
    var kids := [Expr("seven", "\\d"), Expr("_1", "\\."), Expr("eight", "\\d")];
    Single(Expr("eight", "\\d"), Dir);
    Single(Bare("ext"), File);
    assert kids[1..] == [Expr("_1", "\\."), Expr("eight", "\\d")];
    assert kids[1..][1..] == [Expr("eight", "\\d")];
    assert NamesAll(kids, Dir) == ["seven", "_1", "eight"];
    assert StressFiles[1..] == [Bare("ext")];
  }

  /** The stress test's arguments as the Python values the caller writes. */
  const StressDirValues: seq<PyValue> :=
    [Tuple([Str("dir1"), List([Tuple([Str("one"), Str("\\d")]), Tuple([Str("two"), Str("\\d")])])]), Str("dir2")]
  const StressPartitionValues: seq<PyValue> :=
    [Tuple([Str("4"), List([Tuple([Str("five"), Str("\\d")]), Tuple([Str("six"), Str("\\d")])])])]
  const StressFileValues: seq<PyValue> :=
    [Tuple([Str("file"), List([Tuple([Str("seven"), Str("\\d")]), Tuple([Str("_1"), Str("\\.")]),
                               Tuple([Str("eight"), Str("\\d")])])]), Str("ext")]

  /** The pattern the stress test compiles, piece by piece. */
  const StressDirParts: seq<string> :=
    [NamedGroup("dir1", NamedGroup("one", "\\d") + NamedGroup("two", "\\d")), NamedGroup("dir2", "\\w+")]
  const StressPartitionParts: seq<string> :=
    ["4=" + NamedGroup("key", NamedGroup("five", "\\d") + NamedGroup("six", "\\d"))]
  const StressFileParts: seq<string> :=
    [NamedGroup("file", NamedGroup("seven", "\\d") + NamedGroup("_1", "\\.") + NamedGroup("eight", "\\d")),
     NamedGroup("ext", "[\\w+\\.]+")]

  /**
   * The stress test constructs: the two directories and the partition are
   * each followed by `/`, the partition's group is named `key`, and the two
   * filename parts follow with nothing between them.
   */
  lemma StressConstruction()
    ensures Setup(Some(StressDirValues), Some(StressPartitionValues), List(StressFileValues), false, "/")
            == Ok(StressDirParts[0] + "/" + StressDirParts[1] + "/" + StressPartitionParts[0] + "/"
                  + StressFileParts[0] + StressFileParts[1])
  {
    StressEmbed();
    Accepted(StressDirValues, StressDirs, Dir);
    Accepted(StressPartitionValues, StressPartitions, Partition);
    Accepted(StressFileValues, StressFiles, File);
    StressPlain();
    StressDistinct();
    StressRenders();
    TwoOneTwoLayout(StressDirParts[0], StressDirParts[1], StressPartitionParts[0],
                    StressFileParts[0], StressFileParts[1], "/");
    Instance(StressDirValues, StressPartitionValues, StressFileValues, StressDirs, StressPartitions, StressFiles, "/",
             StressDirParts[0] + "/" + StressDirParts[1] + "/" + StressPartitionParts[0] + "/"
             + StressFileParts[0] + StressFileParts[1]);
  }

  lemma StressEmbed()
    ensures EmbedAll(StressDirs) == StressDirValues
    ensures EmbedAll(StressPartitions) == StressPartitionValues
    ensures EmbedAll(StressFiles) == StressFileValues
  {
    StressDirsEmbed();
    StressPartitionsEmbed();
    StressFilesEmbed();
  }

  /** A group of regex children is written as `(name, [(child, regex), ...])`. */
  lemma EmbedPair(c1: string, r1: string, c2: string, r2: string)
    ensures EmbedAll([Expr(c1, r1), Expr(c2, r2)]) == [Tuple([Str(c1), Str(r1)]), Tuple([Str(c2), Str(r2)])]
  {
  }

  lemma EmbedTriple(c1: string, r1: string, c2: string, r2: string, c3: string, r3: string)
    ensures EmbedAll([Expr(c1, r1), Expr(c2, r2), Expr(c3, r3)])
            == [Tuple([Str(c1), Str(r1)]), Tuple([Str(c2), Str(r2)]), Tuple([Str(c3), Str(r3)])]
  {
    assert [Expr(c1, r1), Expr(c2, r2), Expr(c3, r3)][1..] == [Expr(c2, r2), Expr(c3, r3)];
    EmbedPair(c2, r2, c3, r3);
  }

  lemma EmbedTwo(s: Spec, t: Spec)
    ensures EmbedAll([s, t]) == [Embed(s), Embed(t)]
  {
  }

  lemma StressDirsEmbed()
    ensures EmbedAll(StressDirs) == StressDirValues
  {
    EmbedPair("one", "\\d", "two", "\\d");
    EmbedTwo(StressDirs[0], StressDirs[1]);
  }

  lemma StressPartitionsEmbed()
    ensures EmbedAll(StressPartitions) == StressPartitionValues
  {
    EmbedPair("five", "\\d", "six", "\\d");
  }

  lemma StressFilesEmbed()
    ensures EmbedAll(StressFiles) == StressFileValues
  {
    EmbedTriple("seven", "\\d", "_1", "\\.", "eight", "\\d");
    EmbedTwo(StressFiles[0], StressFiles[1]);
  }

  lemma StressPlain()
    ensures AllPlain(StressDirs) && AllPlain(StressPartitions) && AllPlain(StressFiles)
  {
    NoOpenNoMarker("\\d");
    NoOpenNoMarker("\\.");
    StressDirsPlain();
    StressPartitionsPlain();
    StressFilesPlain();
  }

  lemma StressDirsPlain()
    requires NoMarker("\\d")
    ensures AllPlain(StressDirs)
  {
    PairPlain("dir1", "one", "\\d", "two", "\\d");
    PlainPair(StressDirs[0], Bare("dir2"));
  }

  lemma StressPartitionsPlain()
    requires NoMarker("\\d")
    ensures AllPlain(StressPartitions)
  {
    PairPlain("4", "five", "\\d", "six", "\\d");
    PlainOne(StressPartitions[0]);
  }

  lemma StressFilesPlain()
    requires NoMarker("\\d") && NoMarker("\\.")
    ensures AllPlain(StressFiles)
  {
    TriplePlain("file", "seven", "\\d", "_1", "\\.", "eight", "\\d");
    PlainPair(StressFiles[0], Bare("ext"));
  }

  lemma PlainOne(s: Spec)
    requires Plain(s)
    ensures AllPlain([s])
  {
    assert [s][1..] == [];
  }

  lemma PlainPair(s: Spec, t: Spec)
    requires Plain(s) && Plain(t)
    ensures AllPlain([s, t])
  {
    assert [s, t][1..] == [t];
    PlainOne(t);
  }

  lemma PairPlain(n: string, c1: string, r1: string, c2: string, r2: string)
    requires PlainName(n) && PlainName(c1) && PlainName(c2) && NoMarker(r1) && NoMarker(r2)
    ensures Plain(Group(n, [Expr(c1, r1), Expr(c2, r2)]))
  {
    assert Plain(Expr(c1, r1)) && Plain(Expr(c2, r2));
    PlainPair(Expr(c1, r1), Expr(c2, r2));
  }

  lemma TriplePlain(n: string, c1: string, r1: string, c2: string, r2: string, c3: string, r3: string)
    requires PlainName(n) && PlainName(c1) && PlainName(c2) && PlainName(c3)
    requires NoMarker(r1) && NoMarker(r2) && NoMarker(r3)
    ensures Plain(Group(n, [Expr(c1, r1), Expr(c2, r2), Expr(c3, r3)]))
  {
    var kids := [Expr(c1, r1), Expr(c2, r2), Expr(c3, r3)];
    assert Plain(Expr(c1, r1)) && Plain(Expr(c2, r2)) && Plain(Expr(c3, r3));
    PlainPair(Expr(c2, r2), Expr(c3, r3));
    assert kids[1..] == [Expr(c2, r2), Expr(c3, r3)];
  }

  /** The twelve names the stress test declares are pairwise distinct. */
  lemma StressDistinct()
    ensures Distinct(DeclaredNames(StressDirs, StressPartitions, StressFiles))
  {
    StressDirNames();
    StressPartitionNames();
    StressFileNames();
    var ds, ps, fs := ["dir1", "one", "two", "dir2"], ["key", "five", "six"], ["file", "seven", "_1", "eight", "ext"];
    DirNamesApart();
    PartitionNamesApart();
    FileNamesApart();
    DirsPartitionsApart();
    DirsFilesApart();
    PartitionsFilesApart();
    DistinctAppend(ds, ps);
    ForallAppend(ds, ps, fs);
    DistinctAppend(ds + ps, fs);
  }

  lemma ForallAppend(a: seq<string>, b: seq<string>, c: seq<string>)
    requires forall i, j :: 0 <= i < |a| && 0 <= j < |c| ==> a[i] != c[j]
    requires forall i, j :: 0 <= i < |b| && 0 <= j < |c| ==> b[i] != c[j]
    ensures forall i, j :: 0 <= i < |a + b| && 0 <= j < |c| ==> (a + b)[i] != c[j]
  {
    forall i, j | 0 <= i < |a + b| && 0 <= j < |c| ensures (a + b)[i] != c[j] {
      if i < |a| {
        assert (a + b)[i] == a[i];
      } else {
        assert (a + b)[i] == b[i - |a|];
      }
    }
  }

  /** `dir1` and `dir2` differ in their fourth character, the others in their first. */
  lemma DirNamesApart()
    ensures Distinct(["dir1", "one", "two", "dir2"])
  {
    var a := ["dir1", "one", "two", "dir2"];
    forall i, j | 0 <= i < j < |a| ensures a[i] != a[j] {
      if |a[i]| == |a[j]| {
        assert a[i][0] != a[j][0] || a[i][3] != a[j][3];
      }
    }
  }

  /** The partition's names differ in their first character. */
  lemma PartitionNamesApart()
    ensures Distinct(["key", "five", "six"])
  {
    var a := ["key", "five", "six"];
    forall i, j | 0 <= i < j < |a| ensures a[i] != a[j] {
      if |a[i]| == |a[j]| {
        assert a[i][0] != a[j][0];
      }
    }
  }

  /** The filename's names differ in length or in their first character. */
  lemma FileNamesApart()
    ensures Distinct(["file", "seven", "_1", "eight", "ext"])
  {
    var a := ["file", "seven", "_1", "eight", "ext"];
    forall i, j | 0 <= i < j < |a| ensures a[i] != a[j] {
      if |a[i]| == |a[j]| {
        assert a[i][0] != a[j][0];
      }
    }
  }

  /** No directory name is a partition name. */
  lemma DirsPartitionsApart()
    ensures forall i, j :: 0 <= i < |["dir1", "one", "two", "dir2"]| && 0 <= j < |["key", "five", "six"]| ==> ["dir1", "one", "two", "dir2"][i] != ["key", "five", "six"][j]
  {
    var a, b := ["dir1", "one", "two", "dir2"], ["key", "five", "six"];
    forall i, j | 0 <= i < |a| && 0 <= j < |b| ensures a[i] != b[j] {
      if |a[i]| == |b[j]| {
        assert a[i][0] != b[j][0] || a[i][2] != b[j][2];
      }
    }
  }

  /** No directory name is a filename name. */
  lemma DirsFilesApart()
    ensures forall i, j :: 0 <= i < |["dir1", "one", "two", "dir2"]| && 0 <= j < |["file", "seven", "_1", "eight", "ext"]| ==> ["dir1", "one", "two", "dir2"][i] != ["file", "seven", "_1", "eight", "ext"][j]
  {
    var a, b := ["dir1", "one", "two", "dir2"], ["file", "seven", "_1", "eight", "ext"];
    forall i, j | 0 <= i < |a| && 0 <= j < |b| ensures a[i] != b[j] {
      if |a[i]| == |b[j]| {
        assert a[i][0] != b[j][0] || a[i][2] != b[j][2];
      }
    }
  }

  /** No partition name is a filename name: `five` and `file` differ in their third character. */
  lemma PartitionsFilesApart()
    ensures forall i, j :: 0 <= i < |["key", "five", "six"]| && 0 <= j < |["file", "seven", "_1", "eight", "ext"]| ==> ["key", "five", "six"][i] != ["file", "seven", "_1", "eight", "ext"][j]
  {
    var a, b := ["key", "five", "six"], ["file", "seven", "_1", "eight", "ext"];
    forall i, j | 0 <= i < |a| && 0 <= j < |b| ensures a[i] != b[j] {
      if |a[i]| == |b[j]| {
        assert a[i][0] != b[j][0] || a[i][2] != b[j][2];
      }
    }
  }

  /** Two lists of distinct names, no name in both: their concatenation is distinct. */
  lemma DistinctAppend(a: seq<string>, b: seq<string>)
    requires Distinct(a) && Distinct(b)
    requires forall i, j :: 0 <= i < |a| && 0 <= j < |b| ==> a[i] != b[j]
    ensures Distinct(a + b)
  {
    var s := a + b;
    forall i, j | 0 <= i < j < |s| ensures s[i] != s[j] {
      if j < |a| {
        assert s[i] == a[i] && s[j] == a[j];
      } else if i < |a| {
        assert s[i] == a[i] && s[j] == b[j - |a|];
      } else {
        assert s[i] == b[i - |a|] && s[j] == b[j - |a|];
      }
    }
  }

  lemma StressRenders()
    ensures RenderAll(StressDirs, Dir) == StressDirParts
    ensures RenderAll(StressPartitions, Partition) == StressPartitionParts
    ensures RenderAll(StressFiles, File) == StressFileParts
  {
    StressDirRenders();
    StressPartitionRenders();
    StressFileRenders();
  }

  lemma StressDirRenders()
    ensures RenderAll(StressDirs, Dir) == StressDirParts
  {
    KidsPair("one", "\\d", "two", "\\d");
    assert Render(StressDirs[0], Dir) == StressDirParts[0] by {
      assert "" + StressDirParts[0] == StressDirParts[0];
    }
    EmptyLead("dir2");
    RenderPair(StressDirs[0], Bare("dir2"), Dir);
  }

  lemma StressPartitionRenders()
    ensures RenderAll(StressPartitions, Partition) == StressPartitionParts
  {
    var body := NamedGroup("five", "\\d") + NamedGroup("six", "\\d");
    KidsPair("five", "\\d", "six", "\\d");
    assert Render(StressPartitions[0], Partition) == "4" + "=" + NamedGroup("key", body);
    assert "4" + "=" == "4=";
    RenderOne(StressPartitions[0], Partition);
  }

  lemma StressFileRenders()
    ensures RenderAll(StressFiles, File) == StressFileParts
  {
    KidsTriple("seven", "\\d", "_1", "\\.", "eight", "\\d");
    assert Render(StressFiles[0], File) == StressFileParts[0] by {
      assert "" + StressFileParts[0] == StressFileParts[0];
    }
    EmptyLead("ext");
    RenderPair(StressFiles[0], Bare("ext"), File);
  }

  lemma EmptyLead(n: string)
    ensures Render(Bare(n), Dir) == NamedGroup(n, "\\w+") && Render(Bare(n), File) == NamedGroup(n, "[\\w+\\.]+")
  {
    assert forall t: string :: "" + t == t;
  }

  lemma RenderOne(s: Spec, role: Role)
    ensures RenderAll([s], role) == [Render(s, role)]
  {
  }

  lemma RenderPair(s: Spec, t: Spec, role: Role)
    ensures RenderAll([s, t], role) == [Render(s, role), Render(t, role)]
  {
  }

  /** A regex child of a group renders as its named group alone. */
  lemma ChildRender(c: string, r: string)
    ensures Render(Expr(c, r), Dir) == NamedGroup(c, r)
  {
    assert "" + NamedGroup(c, r) == NamedGroup(c, r);
  }

  lemma ConcatPair(x: string, y: string)
    ensures Concat([x, y]) == x + y
  {
    assert [x, y][1..] == [y];
    assert Concat([y]) == y + "";
  }

  lemma ConcatTriple(x: string, y: string, z: string)
    ensures Concat([x, y, z]) == x + y + z
  {
    assert [x, y, z][1..] == [y, z];
    ConcatPair(y, z);
  }

  /** Two regex children render side by side. */
  lemma KidsPair(c1: string, r1: string, c2: string, r2: string)
    ensures Concat(RenderAll([Expr(c1, r1), Expr(c2, r2)], Dir)) == NamedGroup(c1, r1) + NamedGroup(c2, r2)
  {
    ChildRender(c1, r1);
    ChildRender(c2, r2);
    RenderPair(Expr(c1, r1), Expr(c2, r2), Dir);
    ConcatPair(NamedGroup(c1, r1), NamedGroup(c2, r2));
  }

  lemma KidsTriple(c1: string, r1: string, c2: string, r2: string, c3: string, r3: string)
    ensures Concat(RenderAll([Expr(c1, r1), Expr(c2, r2), Expr(c3, r3)], Dir))
            == NamedGroup(c1, r1) + NamedGroup(c2, r2) + NamedGroup(c3, r3)
  {
    var kids := [Expr(c1, r1), Expr(c2, r2), Expr(c3, r3)];
    ChildRender(c1, r1);
    ChildRender(c2, r2);
    ChildRender(c3, r3);
    assert kids[1..] == [Expr(c2, r2), Expr(c3, r3)];
    RenderPair(Expr(c2, r2), Expr(c3, r3), Dir);
    assert RenderAll(kids, Dir) == [NamedGroup(c1, r1), NamedGroup(c2, r2), NamedGroup(c3, r3)];
    ConcatTriple(NamedGroup(c1, r1), NamedGroup(c2, r2), NamedGroup(c3, r3));
  }

  /** Two directory parts, one partition part and two filename parts, relative. */
  lemma TwoOneTwoLayout(x: string, y: string, p: string, u: string, v: string, separator: string)
    ensures PathPrefix(false, separator) + Terminated(separator, [x, y]) + Terminated(separator, [p])
            + Concat([u, v]) == x + separator + y + separator + p + separator + u + v
  {
    assert [x, y][1..] == [y] && [u, v][1..] == [v];
    assert Terminated(separator, [y]) == y + separator + "";
    assert Terminated(separator, [x, y]) == x + separator + (y + separator + "");
    assert Terminated(separator, [p]) == p + separator + "";
    assert Concat([v]) == v + "";
    assert Concat([u, v]) == u + (v + "");
  }

  /** `file=[('a', '.+')]` on `a/b.csv`: the match captures the separator, which strict mode refuses. */
  lemma SeparatorCaptured(k: KeyParser, fullmatch: (string, string) -> Option<Groups>)
    requires !k.absolute && k.sep == "/" && k.strict
    requires fullmatch(k.patternStr, "a/b.csv") == Some([Capture("a", Some("a/b.csv"))])
    ensures k.Parse("a/b.csv", fullmatch) == Err(SeparatorInValue([Capture("a", Some("a/b.csv"))]))
  {
    var g := [Capture("a", Some("a/b.csv"))];
    assert !StartsWith("a/b.csv", "/") by {
      assert "a/b.csv"[..1][0] == 'a';
    }
    assert Contains("a/b.csv", "/") by {
      ContainsChar("a/b.csv", '/');
      assert "a/b.csv"[1] == '/';
    }
    assert FirstOffence(g, "/") == Some(0);
    assert CheckGroups(g, "/", true) == Err(SeparatorInValue(g));
  }

  /** Every value is present and free of the character `ch`. */
  predicate CleanValues(g: Groups, ch: char) {
    forall i :: 0 <= i < |g| ==> g[i].value.Some? && ch !in g[i].value.value
  }

  /** No name starts with `_`. */
  predicate NoPrivate(g: Groups) {
    forall i :: 0 <= i < |g| ==> !Private(g[i].name)
  }

  /**
   * A strict parser, a key with the right prefix and a match whose every value
   * is present and free of the one-character separator: the parse returns the
   * filtered groups.
   */
  lemma CleanParse(k: KeyParser, path: string, fullmatch: (string, string) -> Option<Groups>, g: Groups, ch: char)
    requires k.strict && k.sep == [ch] && StartsWith(path, k.sep) == k.absolute
    requires fullmatch(k.patternStr, path) == Some(g)
    requires CleanValues(g, ch)
    ensures k.Parse(path, fullmatch) == Ok(Public(g))
  {
    forall i | 0 <= i < |g| ensures !Offends(g[i], k.sep) {
      ContainsChar(g[i].value.value, ch);
    }
  }

  /** The same, when no name starts with `_`: the groupdict comes back unchanged. */
  lemma CleanParseKeeps(k: KeyParser, path: string, fullmatch: (string, string) -> Option<Groups>, g: Groups, ch: char)
    requires k.strict && k.sep == [ch] && StartsWith(path, k.sep) == k.absolute
    requires fullmatch(k.patternStr, path) == Some(g)
    requires CleanValues(g, ch) && NoPrivate(g)
    ensures k.Parse(path, fullmatch) == Ok(g)
  {
    CleanParse(k, path, fullmatch, g, ch);
    PublicKeepsAll(g);
  }

  /** The same, when exactly one `_` name sits between the others: only it is dropped. */
  lemma CleanParseDrops(k: KeyParser, path: string, fullmatch: (string, string) -> Option<Groups>,
                        a: Groups, c: Capture, b: Groups, ch: char)
    requires k.strict && k.sep == [ch] && StartsWith(path, k.sep) == k.absolute
    requires fullmatch(k.patternStr, path) == Some(a + [c] + b)
    requires CleanValues(a, ch) && CleanValues([c], ch) && CleanValues(b, ch)
    requires NoPrivate(a) && Private(c.name) && NoPrivate(b)
    ensures k.Parse(path, fullmatch) == Ok(a + b)
  {
    var g := a + [c] + b;
    forall i | 0 <= i < |g| ensures g[i].value.Some? && ch !in g[i].value.value {
      if i < |a| {
        assert g[i] == a[i];
      } else if i == |a| {
        assert g[i] == [c][0];
      } else {
        assert g[i] == b[i - |a| - 1];
      }
    }
    CleanParse(k, path, fullmatch, g, ch);
    PublicDropsOne(a, c, b);
  }

  /** A relative `/` parser accepts the prefix of a key whose first character is not `/`. */
  lemma RelativeKey(path: string)
    requires path != [] && path[0] != '/'
    ensures !StartsWith(path, "/")
  {
    assert path[..1][0] == path[0];
  }

  // The engine's groupdicts for the docstring's parse calls, in group order.
  const TwoDirsMatch: Groups :=
    [Capture("one", Some("hello")), Capture("two", Some("world")), Capture("filename", Some("file.csv"))]
  const DirPartitionMatch: Groups :=
    [Capture("one", Some("1")), Capture("two", Some("2")), Capture("filename", Some("f.csv"))]
  const NestedMatch: Groups :=
    [Capture("one", Some("1")), Capture("two", Some("2")), Capture("three", Some("3132")),
     Capture("three_one", Some("31")), Capture("three_two", Some("32")), Capture("four", Some("4"))]
  const StressMatchHead: Groups :=
    [Capture("dir1", Some("12")), Capture("one", Some("1")), Capture("two", Some("2")), Capture("dir2", Some("3")),
     Capture("key", Some("56")), Capture("five", Some("5")), Capture("six", Some("6")), Capture("file", Some("7.8")),
     Capture("seven", Some("7"))]
  const StressMatchTail: Groups := [Capture("eight", Some("8")), Capture("ext", Some(".gz"))]

  lemma MatchesClean()
    ensures CleanValues(TwoDirsMatch, '/') && NoPrivate(TwoDirsMatch)
    ensures CleanValues(DirPartitionMatch, '/') && NoPrivate(DirPartitionMatch)
  {
  }

  lemma NestedMatchClean()
    ensures CleanValues(NestedMatch, '/') && NoPrivate(NestedMatch)
  {
  }

  lemma StressMatchClean()
    ensures CleanValues(StressMatchHead, '/') && NoPrivate(StressMatchHead)
    ensures CleanValues([Capture("_1", Some("."))], '/') && Private("_1")
    ensures CleanValues(StressMatchTail, '/') && NoPrivate(StressMatchTail)
  {
  }

  /**
   * `parse("hello/world/file.csv")` on the two-directory parser: the three
   * captures come back as they are.
   */
  lemma TwoDirsParse(k: KeyParser, fullmatch: (string, string) -> Option<Groups>)
    requires !k.absolute && k.sep == "/" && k.strict
    requires fullmatch(k.patternStr, "hello/world/file.csv") == Some(TwoDirsMatch)
    ensures k.Parse("hello/world/file.csv", fullmatch) == Ok(TwoDirsMatch)
  {
    RelativeKey("hello/world/file.csv");
    MatchesClean();
    CleanParseKeeps(k, "hello/world/file.csv", fullmatch, TwoDirsMatch, '/');
  }

  /** `parse("1/two=2/f.csv")` on the directory-partition parser: the partition's value is `2`. */
  lemma DirPartitionParse(k: KeyParser, fullmatch: (string, string) -> Option<Groups>)
    requires !k.absolute && k.sep == "/" && k.strict
    requires fullmatch(k.patternStr, "1/two=2/f.csv") == Some(DirPartitionMatch)
    ensures k.Parse("1/two=2/f.csv", fullmatch) == Ok(DirPartitionMatch)
  {
    RelativeKey("1/two=2/f.csv");
    MatchesClean();
    CleanParseKeeps(k, "1/two=2/f.csv", fullmatch, DirPartitionMatch, '/');
  }

  /** `parse("1/2/3132/4")` on the nested parser: the group `three` and both its children are reported. */
  lemma NestedParse(k: KeyParser, fullmatch: (string, string) -> Option<Groups>)
    requires !k.absolute && k.sep == "/" && k.strict
    requires fullmatch(k.patternStr, "1/2/3132/4") == Some(NestedMatch)
    ensures k.Parse("1/2/3132/4", fullmatch) == Ok(NestedMatch)
  {
    RelativeKey("1/2/3132/4");
    NestedMatchClean();
    CleanParseKeeps(k, "1/2/3132/4", fullmatch, NestedMatch, '/');
  }

  /**
   * `parse("12/3/4=56/7.8.gz")` on the stress parser: of the twelve captures,
   * `_1` (between `seven` and `eight`) is dropped, and the nested partition `4`
   * is reported as `key`.
   */
  lemma StressParse(k: KeyParser, fullmatch: (string, string) -> Option<Groups>)
    requires !k.absolute && k.sep == "/" && k.strict
    requires fullmatch(k.patternStr, "12/3/4=56/7.8.gz")
             == Some(StressMatchHead + [Capture("_1", Some("."))] + StressMatchTail)
    ensures k.Parse("12/3/4=56/7.8.gz", fullmatch) == Ok(StressMatchHead + StressMatchTail)
  {
    RelativeKey("12/3/4=56/7.8.gz");
    StressMatchClean();
    CleanParseDrops(k, "12/3/4=56/7.8.gz", fullmatch, StressMatchHead, Capture("_1", Some(".")), StressMatchTail, '/');
  }

  /** The `_`-filter example: `_1` and `_2` are matched, then dropped. */
  lemma UnderscoreFiltered()
    ensures Public([Capture("city", Some("Kansas")), Capture("_1", Some("_")), Capture("date", Some("20191102")),
                    Capture("_2", Some("_")), Capture("candidate", Some("Warren")), Capture("file_ext", Some(".csv"))])
            == [Capture("city", Some("Kansas")), Capture("date", Some("20191102")),
                Capture("candidate", Some("Warren")), Capture("file_ext", Some(".csv"))]
  {
    var city, u1, date := Capture("city", Some("Kansas")), Capture("_1", Some("_")), Capture("date", Some("20191102"));
    var u2, cand, ext := Capture("_2", Some("_")), Capture("candidate", Some("Warren")), Capture("file_ext", Some(".csv"));
    PublicCons(ext, []);
    PublicCons(cand, [ext]);
    PublicCons(u2, [cand, ext]);
    PublicCons(date, [u2, cand, ext]);
    PublicCons(u1, [date, u2, cand, ext]);
    PublicCons(city, [u1, date, u2, cand, ext]);
  }
}
