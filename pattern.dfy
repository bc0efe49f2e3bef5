/** The whole-path pattern (`KeyParser._build_path_pattern`). */
module Pattern {
  import opened Wrappers
  import opened Text
  import opened Python
  import opened FieldSpec

  /**
   * The directory renderings, then the partition renderings, joined by the
   * separator and followed by one more separator when there is at least one;
   * then the filename renderings with nothing between them; all after
   * `prefix` (the separator for an absolute key, else empty). The three list
   * comprehensions run in that order, so the first error among the
   * directories wins, then among the partitions, then among the files.
   */
  function BuildPathPattern(dirs: seq<PyValue>, partitions: seq<PyValue>, files: seq<PyValue>,
                            separator: string, prefix: string): Result<string, SpecError>
  {
    match MakeAll(dirs, Dir)
    case Err(e) => Err(e)
    case Ok(dirPatterns) =>
      match MakeAll(partitions, Partition)
      case Err(e) => Err(e)
      case Ok(partitionPatterns) =>
        match MakeAll(files, File)
        case Err(e) => Err(e)
        case Ok(filePatterns) =>
          var dirParts := dirPatterns + partitionPatterns;
          var directoriesPattern := Join(separator, dirParts) + (if dirParts != [] then separator else "");
          Ok(prefix + directoriesPattern + Concat(filePatterns))
  }

  /**
   * The pattern follows the key grammar `KEY := [SEP] [DIRS] [PARTITIONS] FILES`
   * with `DIRS := DIR SEP [DIRS]`, `PARTITIONS := PARTITION SEP [PARTITIONS]`
   * and `FILES := FILE [FILES]`: every directory and every partition is
   * followed by one separator, the filename parts by none. It fails exactly
   * when one of the three lists holds a malformed spec, with the first such
   * error in the order directories, partitions, files.
   */
  lemma Composition(dirs: seq<PyValue>, partitions: seq<PyValue>, files: seq<PyValue>,
                    separator: string, prefix: string)
    ensures var (d, p, f) := (ClassifyAll(dirs, Dir), ClassifyAll(partitions, Partition), ClassifyAll(files, File));
            var built := BuildPathPattern(dirs, partitions, files, separator, prefix);
            && (d.Ok? && p.Ok? && f.Ok? ==>
                  built == Ok(prefix + Terminated(separator, RenderAll(d.value, Dir))
                                     + Terminated(separator, RenderAll(p.value, Partition))
                                     + Concat(RenderAll(f.value, File))))
            && (d.Err? ==> built == Err(d.error))
            && (d.Ok? && p.Err? ==> built == Err(p.error))
            && (d.Ok? && p.Ok? && f.Err? ==> built == Err(f.error))
  {
    MakeAllOfClassify(dirs, Dir);
    MakeAllOfClassify(partitions, Partition);
    MakeAllOfClassify(files, File);
    if ClassifyAll(dirs, Dir).Ok? && ClassifyAll(partitions, Partition).Ok? && ClassifyAll(files, File).Ok? {
      Assemble(RenderAll(ClassifyAll(dirs, Dir).value, Dir), RenderAll(ClassifyAll(partitions, Partition).value, Partition),
               RenderAll(ClassifyAll(files, File).value, File), separator, prefix);
    }
  }

  /** The layout of `_build_path_pattern` once every rendering is known. */
  lemma Assemble(a: seq<string>, b: seq<string>, f: seq<string>, separator: string, prefix: string)
    ensures prefix + (Join(separator, a + b) + (if a + b != [] then separator else "")) + Concat(f)
            == prefix + Terminated(separator, a) + Terminated(separator, b) + Concat(f)
  {
    JoinThenSeparator(separator, a + b);
    TerminatedAppend(separator, a, b);
  }

  /** With no directories and no partitions there is no separator at all between the prefix and the filename. */
  lemma FileOnly(files: seq<PyValue>, separator: string, prefix: string)
    ensures BuildPathPattern([], [], files, separator, prefix) ==
            match MakeAll(files, File)
            case Ok(fs) => Ok(prefix + Concat(fs))
            case Err(e) => Err(e)
  {
    assert forall t: string :: t + "" == t;
  }
}
