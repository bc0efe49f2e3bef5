/**
 * `KeyParser` itself: the guards of its constructor, the compiled whole-path
 * pattern it keeps, and `parse`.
 *
 * The regular-expression engine is not modelled. Compiling is modelled only
 * as far as its rejection of a group name declared twice (`Scan` reads the
 * declared names off the pattern text); matching is a parameter `fullmatch`
 * that answers, for a pattern and a path, the groupdict of a full match or
 * None.
 */
module KeyParsing {
  import opened Wrappers
  import opened Text
  import opened Python
  import opened FieldSpec
  import opened Pattern
  import opened GroupNames
  import opened Matching

  /** What an absolute key starts with: the separator; a relative key, nothing. */
  function PathPrefix(absolute: bool, separator: string): string {
    if absolute then separator else ""
  }

  /**
   * The constructor's checks and the pattern it compiles, in the order the
   * constructor performs them: a missing `file`, a `file` that is not a list,
   * a malformed spec (directories, then partitions, then files), and last the
   * compiler's rejection of a repeated group name. Missing `dirs` and
   * `partitions` stand for empty lists.
   */
  function Setup(dirs: Option<seq<PyValue>>, partitions: Option<seq<PyValue>>, file: PyValue,
                 absolute: bool, separator: string): (r: Result<string, SpecError>)
    ensures file.NoneValue? ==> r == Err(FileMissing)
    ensures !file.NoneValue? && !file.List? ==> r == Err(FileNotList(file))
    ensures r.Ok? ==> file.List? && Distinct(Scan(r.value))
    ensures file.List? ==>
              var built := BuildPathPattern(dirs.GetOr([]), partitions.GetOr([]), file.items,
                                            separator, PathPrefix(absolute, separator));
              && (built.Err? ==> r == Err(built.error))
              && (built.Ok? ==> (r.Ok? <==> Distinct(Scan(built.value))))
              && (built.Ok? && r.Ok? ==> r.value == built.value)
              && (built.Ok? && r.Err? ==> r.error.DuplicateGroupName? && FirstRepeat(Scan(built.value)) == Some(r.error.name))
  {
    if file.NoneValue? then Err(FileMissing)
    else if !file.List? then Err(FileNotList(file))
    else
      match BuildPathPattern(dirs.GetOr([]), partitions.GetOr([]), file.items,
                             separator, PathPrefix(absolute, separator))
      case Err(e) => Err(e)
      case Ok(pattern) =>
        match FirstRepeat(Scan(pattern))
        case Some(name) => Err(DuplicateGroupName(name))
        case None => Ok(pattern)
  }

  /** The group names a list of well-formed specs declares, in pattern order. */
  function DeclaredNames(ds: seq<Spec>, ps: seq<Spec>, fs: seq<Spec>): seq<string> {
    NamesAll(ds, Dir) + NamesAll(ps, Partition) + NamesAll(fs, File)
  }

  /**
   * For well-formed plain specs and a separator without `(`, construction
   * fails exactly when a group name, nested ones and a nested partition's
   * `key` included, is declared twice; the redefinition reported is the first
   * one in pattern order. Otherwise the pattern follows the key grammar.
   */
  lemma SetupOfPlain(dirs: seq<PyValue>, partitions: seq<PyValue>, files: seq<PyValue>,
                     ds: seq<Spec>, ps: seq<Spec>, fs: seq<Spec>, absolute: bool, separator: string)
    requires ClassifyAll(dirs, Dir) == Ok(ds)
    requires ClassifyAll(partitions, Partition) == Ok(ps)
    requires ClassifyAll(files, File) == Ok(fs)
    requires AllPlain(ds) && AllPlain(ps) && AllPlain(fs) && '(' !in separator
    ensures var names := DeclaredNames(ds, ps, fs);
            Setup(Some(dirs), Some(partitions), List(files), absolute, separator) ==
              if Distinct(names)
              then Ok(PathPrefix(absolute, separator) + Terminated(separator, RenderAll(ds, Dir))
                      + Terminated(separator, RenderAll(ps, Partition)) + Concat(RenderAll(fs, File)))
              else Err(DuplicateGroupName(FirstRepeat(names).value))
  {
    Composition(dirs, partitions, files, separator, PathPrefix(absolute, separator));
    ScanPathPattern(ds, ps, fs, separator, absolute);
  }

  /** Missing `dirs` or `partitions` behave as empty lists. */
  lemma MissingListsAreEmpty(dirs: Option<seq<PyValue>>, partitions: Option<seq<PyValue>>, file: PyValue,
                             absolute: bool, separator: string)
    ensures Setup(dirs, partitions, file, absolute, separator)
            == Setup(Some(dirs.GetOr([])), Some(partitions.GetOr([])), file, absolute, separator)
  {
  }

  /**
   * Only a missing `file` is refused: an empty list is accepted, and with no
   * directories and no partitions the pattern is then the prefix alone.
   */
  lemma EmptyFileAccepted(absolute: bool, separator: string)
    requires '(' !in separator
    ensures Setup(None, None, List([]), absolute, separator) == Ok(PathPrefix(absolute, separator))
  {
    SetupOfPlain([], [], [], [], [], [], absolute, separator);
    assert PathPrefix(absolute, separator) + "" + "" + "" == PathPrefix(absolute, separator);
  }

  /**
   * A constructed parser. The fields are set once by the constructor and not
   * changed afterwards; `patternStr` is the compiled whole-path pattern.
   */
  class KeyParser {
    const dirs: seq<PyValue>
    const partitions: seq<PyValue>
    const file: seq<PyValue>
    const absolute: bool
    const sep: string
    const strict: bool
    const pathPrefix: string
    const patternStr: string

    /** The derived fields agree with the configuration. */
    ghost predicate Valid() {
      && pathPrefix == PathPrefix(absolute, sep)
      && Setup(Some(dirs), Some(partitions), List(file), absolute, sep) == Ok(patternStr)
    }

    constructor (dirs: seq<PyValue>, partitions: seq<PyValue>, file: seq<PyValue>,
                 absolute: bool, separator: string, strict: bool, pattern: string)
      requires Setup(Some(dirs), Some(partitions), List(file), absolute, separator) == Ok(pattern)
      ensures Valid()
      ensures this.dirs == dirs && this.partitions == partitions && this.file == file
      ensures this.absolute == absolute && this.sep == separator && this.strict == strict
      ensures this.patternStr == pattern
    {
      this.dirs := dirs;
      this.partitions := partitions;
      this.file := file;
      this.absolute := absolute;
      this.sep := separator;
      this.strict := strict;
      this.pathPrefix := PathPrefix(absolute, separator);
      this.patternStr := pattern;
    }

    /**
     * `KeyParser(dirs, partitions, file, absolute, separator, strict)`: a new
     * parser, or the error its constructor raises.
     */
    static method Create(dirs: Option<seq<PyValue>>, partitions: Option<seq<PyValue>>, file: PyValue,
                         absolute: bool, separator: string, strict: bool)
      returns (r: Result<KeyParser, SpecError>)
      ensures Setup(dirs, partitions, file, absolute, separator).Err? ==>
                r == Err(Setup(dirs, partitions, file, absolute, separator).error)
      ensures Setup(dirs, partitions, file, absolute, separator).Ok? ==>
                && r.Ok? && fresh(r.value) && r.value.Valid()
                && r.value.dirs == dirs.GetOr([]) && r.value.partitions == partitions.GetOr([])
                && r.value.file == file.items && r.value.absolute == absolute
                && r.value.sep == separator && r.value.strict == strict
                && r.value.patternStr == Setup(dirs, partitions, file, absolute, separator).value
    {
      var d := dirs.GetOr([]);
      var p := partitions.GetOr([]);
      MissingListsAreEmpty(dirs, partitions, file, absolute, separator);
      var built := Setup(Some(d), Some(p), file, absolute, separator);
      if built.Err? {
        return Err(built.error);
      }
      var parser := new KeyParser(d, p, file.items, absolute, separator, strict, built.value);
      return Ok(parser);
    }

    /**
     * `parse(path)`: the prefix check before any matching, then the full
     * match, then (in strict mode) the separator check on every captured
     * value, then the filter on `_` names.
     */
    function Parse(path: string, fullmatch: (string, string) -> Option<Groups>): (r: Result<Groups, ParseError>)
      ensures r.Err? && r.error.MissingLeadingSeparator? <==> absolute && !StartsWith(path, sep)
      ensures r.Err? && r.error.UnexpectedLeadingSeparator? <==> !absolute && StartsWith(path, sep)
      ensures r.Err? && r.error.NoMatch? <==> StartsWith(path, sep) == absolute && fullmatch(patternStr, path).None?
      ensures r.Err? && (r.error.MissingLeadingSeparator? || r.error.UnexpectedLeadingSeparator? || r.error.NoMatch?) ==>
                r.error.path == path
      ensures r.Err? && r.error.NoMatch? ==> r.error.pattern == patternStr
      ensures r.Ok? ==> && StartsWith(path, sep) == absolute
                        && fullmatch(patternStr, path).Some?
                        && r.value == Public(fullmatch(patternStr, path).value)
      ensures r.Ok? && strict ==>
                forall c :: c in fullmatch(patternStr, path).value ==> c.value.Some? && !Contains(c.value.value, sep)
      ensures r.Err? && (r.error.SeparatorInValue? || r.error.NoneNotIterable?) ==>
                strict && fullmatch(patternStr, path).Some?
      ensures r.Err? && r.error.SeparatorInValue? ==> r.error.groups == fullmatch(patternStr, path).value
      ensures StartsWith(path, sep) == absolute && fullmatch(patternStr, path).Some?
              && (!strict || forall c :: c in fullmatch(patternStr, path).value ==>
                                           c.value.Some? && !Contains(c.value.value, sep))
              ==> r == Ok(Public(fullmatch(patternStr, path).value))
      ensures StartsWith(path, sep) == absolute && fullmatch(patternStr, path).Some? ==>
                r == CheckGroups(fullmatch(patternStr, path).value, sep, strict)
      ensures r.Err? && r.error.NoneNotIterable? ==>
                && fullmatch(patternStr, path).Some?
                && var g := fullmatch(patternStr, path).value;
                   exists i :: 0 <= i < |g| && g[i].value.None? && forall j :: 0 <= j < i ==> !Offends(g[j], sep)
      ensures r.Err? && r.error.SeparatorInValue? ==>
                && fullmatch(patternStr, path).Some?
                && var g := fullmatch(patternStr, path).value;
                   exists i :: 0 <= i < |g| && g[i].value.Some? && Contains(g[i].value.value, sep)
                               && forall j :: 0 <= j < i ==> !Offends(g[j], sep)
    {
      if absolute && !StartsWith(path, sep) then Err(MissingLeadingSeparator(path))
      else if !absolute && StartsWith(path, sep) then Err(UnexpectedLeadingSeparator(path))
      else
        match fullmatch(patternStr, path)
        case None => Err(NoMatch(path, patternStr))
        case Some(groups) => CheckGroups(groups, sep, strict)
    }
  }

  /** A path with the wrong leading separator is refused before the engine is consulted. */
  lemma PrefixCheckFirst(k: KeyParser, path: string,
                         e1: (string, string) -> Option<Groups>, e2: (string, string) -> Option<Groups>)
    requires StartsWith(path, k.sep) != k.absolute
    ensures k.Parse(path, e1) == k.Parse(path, e2)
    ensures k.Parse(path, e1).Err?
  {
  }

  /**
   * For plain specs and an engine that reports one capture per declared
   * group, in order, a successful parse returns exactly the declared names
   * without a leading `_`, each once.
   */
  lemma ParsedNames(k: KeyParser, ds: seq<Spec>, ps: seq<Spec>, fs: seq<Spec>,
                    path: string, fullmatch: (string, string) -> Option<Groups>)
    requires k.Valid()
    requires ClassifyAll(k.dirs, Dir) == Ok(ds)
    requires ClassifyAll(k.partitions, Partition) == Ok(ps)
    requires ClassifyAll(k.file, File) == Ok(fs)
    requires AllPlain(ds) && AllPlain(ps) && AllPlain(fs) && '(' !in k.sep
    requires fullmatch(k.patternStr, path).Some?
    requires NamesOf(fullmatch(k.patternStr, path).value) == Scan(k.patternStr)
    ensures k.Parse(path, fullmatch).Ok? ==>
              && NamesOf(k.Parse(path, fullmatch).value) == PublicNames(DeclaredNames(ds, ps, fs))
              && Distinct(DeclaredNames(ds, ps, fs))
  {
    SetupOfPlain(k.dirs, k.partitions, k.file, ds, ps, fs, k.absolute, k.sep);
    var names := DeclaredNames(ds, ps, fs);
    assert Distinct(names);
    assert k.patternStr == PathPrefix(k.absolute, k.sep) + Terminated(k.sep, RenderAll(ds, Dir))
                           + Terminated(k.sep, RenderAll(ps, Partition)) + Concat(RenderAll(fs, File));
    ScanPathPattern(ds, ps, fs, k.sep, k.absolute);
    NamesOfPublic(fullmatch(k.patternStr, path).value);
  }

  /**
   * A strict parser whose match has every value present reports the separator,
   * with the whole groupdict, as soon as one value holds it.
   */
  lemma StrictParseReports(k: KeyParser, path: string, fullmatch: (string, string) -> Option<Groups>, g: Groups)
    requires k.strict && StartsWith(path, k.sep) == k.absolute
    requires fullmatch(k.patternStr, path) == Some(g)
    requires forall i :: 0 <= i < |g| ==> g[i].value.Some?
    requires exists i :: 0 <= i < |g| && Contains(g[i].value.value, k.sep)
    ensures k.Parse(path, fullmatch) == Err(SeparatorInValue(g))
  {
    StrictLeaks(g, k.sep);
  }

  /** A strict parser raises the TypeError when a `None` value comes before any value holding the separator. */
  lemma StrictParseRaises(k: KeyParser, path: string, fullmatch: (string, string) -> Option<Groups>,
                          g: Groups, i: nat)
    requires k.strict && StartsWith(path, k.sep) == k.absolute
    requires fullmatch(k.patternStr, path) == Some(g)
    requires i < |g| && g[i].value.None?
    requires forall j :: 0 <= j < i ==> g[j].value.Some? && !Contains(g[j].value.value, k.sep)
    ensures k.Parse(path, fullmatch) == Err(NoneNotIterable)
  {
    StrictOrder(g, k.sep, i);
  }

  /** Turning strict mode off never changes a successful parse. */
  lemma StrictOffKeepsSuccess(k: KeyParser, lenient: KeyParser, path: string,
                              fullmatch: (string, string) -> Option<Groups>)
    requires lenient.absolute == k.absolute && lenient.sep == k.sep && lenient.patternStr == k.patternStr
    requires !lenient.strict
    ensures k.Parse(path, fullmatch).Ok? ==> lenient.Parse(path, fullmatch) == k.Parse(path, fullmatch)
    ensures !(lenient.Parse(path, fullmatch).Err? && lenient.Parse(path, fullmatch).error.SeparatorInValue?)
    ensures StartsWith(path, lenient.sep) == lenient.absolute && fullmatch(lenient.patternStr, path).Some? ==>
              lenient.Parse(path, fullmatch) == Ok(Public(fullmatch(lenient.patternStr, path).value))
  {
    if StartsWith(path, k.sep) == k.absolute && fullmatch(k.patternStr, path).Some? {
      StrictRefinesLenient(fullmatch(k.patternStr, path).value, k.sep);
    }
  }
}
