# keyparse: a Dafny model of `KeyParser`

`keyparse` parses storage keys such as `dev/raw/year=1991/a_file.csv.gz` into
named fields. A `KeyParser` is configured with three ordered lists of field
specifications: directories, `name=value` partitions and filename segments.
Each specification is a bare name, a `(name, regex)` pair or a
`(name, [children])` group. The constructor compiles the lists into one
regular expression of named groups. `parse` checks the key's leading
separator, matches the whole key and, in strict mode, refuses any captured
value that contains the separator. It then drops the groups whose names start
with `_`.

This project models that behaviour and proves its properties:

- `wrappers.dfy`: `Option` and `Result`.
- `text.dfy`: string helpers (`startswith`, `in`, `"".join`, `sep.join`) and their lemmas.
- `python.dfy`: the Python values a caller may pass as a specification (`PyValue`), with `str()` and `repr()`.
- `fieldspec.dfy`: `_make_dir`, `_make_partition` and `_make_file` (lines 187-248). Each renderer is the type dispatch `Classify` (a `PyValue` becomes a `Spec` tree or a `SpecError`) followed by `Render` (the tree laid out as pattern text). `Role` selects the renderer. `Make` is what the Python renderers compute, and `MakeAll` is the list comprehension over one of them. Their properties are the lemmas `ClassifyAccepts`, `ClassifyEmbed`, `MakeAllOfClassify`, `LeafRenderings` and `NestedRendering`.
- `pattern.dfy`: `_build_path_pattern` (lines 221-232) as `BuildPathPattern`. Its properties are the lemmas `Composition` and `FileOnly`.
- `groupnames.dfy`: the part of `re.compile` the parser relies on, its refusal of a group name declared twice. `Scan` reads the declared group names off the pattern text, and `FirstRepeat` is the first redefinition. The properties of `Scan` are the lemmas `ScanRender` and `ScanPathPattern`. The main theorem is that, for plain specs, `Scan` of the compiled pattern equals the names of the specification tree, in rendering order.
- `matching.dfy`: what `parse` does with the groupdict. The groupdict is an ordered list of captures; a value is `None` when its group took no part in the match. The file holds the strict check `CheckGroups`, in the order Python's `any` meets the values, and the `_` filter `Public` (line 262). The properties of `Public` are the lemmas `PublicMembers`, `PublicAppend`, `PublicKeepsAll`, `PublicDropsOne`, `PublicIdempotent`, `NamesOfPublic` and `ToMapPublic`.
- `keyparser.dfy`: the class `KeyParser`. Its fields are set once by the constructor. The pure function `Setup` gives the constructor's guards and the pattern it compiles. The static method `Create` builds a parser or returns the constructor's error. `Parse` is `parse`, with the regex engine's full match passed in as the parameter `fullmatch`.
- `scenarios.dfy`: the docstring's worked examples as lemmas. The patterns of the two-directory, partition and nested-directory examples and the repeated-name error are stated for any plain names and separator. The nested-directory and stress patterns are also stated for their literal values. The parse calls of the two-directory, partition, nested-directory, stress and separator examples are stated for their literal keys and groupdicts, and so is the `_` filter of the Kansas example.

All source paths below are in `keyparse/parse.py`.

## Model

| member | source | states |
|---|---|---|
| FieldSpec.ClassifyAccepts | keyparse/parse.py:187-248 | A renderer's type dispatch accepts a value exactly when it is well shaped: a `str`, a 2-tuple whose second element is a `str`, or a 2-tuple whose second element is a list of well-shaped values. Every refusal is a bad-spec or bad-second-element error, tagged with the renderer that raised it or, inside a group, with the directory renderer. |
| FieldSpec.ClassifyAllAccepts | keyparse/parse.py:224-226 | A list comprehension over a renderer succeeds exactly when every element is well shaped. A directory list's error always comes from the directory renderer. |
| FieldSpec.ClassifyEmbed | keyparse/parse.py:234-248 | Writing a specification tree as the Python value it stands for, then dispatching on it, gives the tree back. This holds for every renderer. |
| FieldSpec.ClassifyAllEmbed | keyparse/parse.py:193 | The same for a list of specifications. |
| FieldSpec.MakeAllOfClassify | keyparse/parse.py:224-226 | Rendering a list is dispatching every element in order, with the first error winning, and then rendering each tree. |
| FieldSpec.LeafRenderings | keyparse/parse.py:187-248 | The leaf renderings are as follows. A bare directory `n` is `(?P<n>\w+)`. A bare partition `p` is `p=(?P<p>\w+)`. A bare file `f` is `(?P<f>[\w+\.]+)`. `(k, regex)` is `(?P<k>regex)` with the regex unescaped, and a partition puts `k=` before it. |
| FieldSpec.NestedRendering | keyparse/parse.py:187-248 | A group `(k, children)` renders each child through the directory renderer and concatenates the results without a separator: `(?P<k>...)`. For a partition the group is named `key` rather than `k`, and `k=` comes before it. A malformed child's error propagates. |
| FieldSpec.FileGroupChildIsDirectory | keyparse/parse.py:209-211 | A bare name inside a filename group gets `\w+`, which differs from the filename class it would get at the top level. |
| Pattern.Composition | keyparse/parse.py:221-232 | The pattern starts with the prefix. Every directory rendering and then every partition rendering follows, each one followed by a separator. The filename renderings come last, with nothing between them. The pattern fails exactly when a list holds a malformed specification, with the first error taken from the directories, then the partitions, then the files. |
| Pattern.FileOnly | keyparse/parse.py:228-231 | Without directories or partitions, no separator follows the prefix. |
| GroupNames.FirstRepeat | keyparse/parse.py:185 | There is no redefinition exactly when the names are pairwise distinct. The name reported is the one at the earliest position that repeats an earlier name: no position before it does so, so this is the group `re.compile` names in its error. |
| GroupNames.ScanPathPattern | keyparse/parse.py:178-185 | For plain specifications and a separator without `(`, the names the compiler sees in the whole pattern are the tree's names in rendering order. These include nested names and the `key` of a nested partition. |
| KeyParsing.Setup | keyparse/parse.py:159-185 | The constructor checks run in order. A missing `file` is refused, then a `file` that is not a list. Next, a malformed specification gives that error. Last, a pattern that redefines a group fails with its first redefinition. Otherwise the result is the built pattern, and it declares no name twice. |
| KeyParsing.SetupOfPlain | keyparse/parse.py:178-185 | For well-formed plain specifications, construction fails exactly when some declared name, nested ones and `key` included, occurs twice. The name reported is the first repeat. Otherwise the result is the pattern of the key grammar. |
| KeyParsing.MissingListsAreEmpty | keyparse/parse.py:167-168 | A missing `dirs` or `partitions` acts as an empty list. |
| KeyParsing.EmptyFileAccepted | keyparse/parse.py:169-171 | An empty `file` list is accepted, and the pattern is then the prefix alone. |
| KeyParsing.KeyParser.constructor | keyparse/parse.py:159-174 | Stores the configuration, the derived prefix and the compiled pattern. |
| KeyParsing.KeyParser.Create | keyparse/parse.py:144-185 | Construction returns the constructor's error, or a new parser whose fields hold the configuration (with `None` lists replaced by empty ones) and whose pattern is the compiled one. |
| KeyParsing.KeyParser.Parse | keyparse/parse.py:250-266 | With the right prefix and a match, the result is the strict check of the groupdict. A missing-separator error occurs exactly when an absolute parser gets a key without the leading separator. An unexpected-separator error occurs exactly when a relative parser gets a key with it. A no-match error occurs exactly when the prefix is right and the engine does not match. Each of these errors carries the key, and the no-match error also carries the pattern. A key with the right prefix that the engine matches, where (in strict mode) every value took part and none holds the separator, parses to the engine's groups without the `_` names. Every success has that form. A strict-mode error occurs only in strict mode and only after a match. A TypeError means that the first value that is `None` or holds the separator is `None`. A separator error means that it is a value holding the separator, and the error carries the engine's whole groupdict. |
| KeyParsing.PrefixCheckFirst | keyparse/parse.py:251-254 | A key with the wrong leading separator is refused, whatever the engine would answer. |
| KeyParsing.ParsedNames | keyparse/parse.py:256-263 | For plain specifications and an engine that reports one capture per declared group, the names of a successful parse are exactly the declared names without the `_` ones, and the declared names are distinct. |
| KeyParsing.StrictParseReports | keyparse/parse.py:258-260 | A strict parser whose match has every value present fails with the separator error, carrying the whole groupdict, as soon as one value holds the separator. |
| KeyParsing.StrictParseRaises | keyparse/parse.py:258 | A strict parser raises the TypeError when a `None` value comes before any value holding the separator. |
| KeyParsing.StrictOffKeepsSuccess | keyparse/parse.py:258-260 | Turning strict mode off keeps every successful parse. A lenient parser never reports a separator in a value. A lenient parser parses every key with the right prefix that the engine matches, to the engine's groups without the `_` names. |
| Matching.FirstOffence | keyparse/parse.py:258 | `any` stops at the first value that is `None` or holds the separator. It finds none exactly when no value offends. |
| Matching.CheckGroups | keyparse/parse.py:258-263 | A success yields the filtered groups. A strict success means every value is present and free of the separator. Every failure is a strict-mode one. A separator error carries the whole groupdict. When strict mode is off, or no value offends, the result is the filtered groups. A TypeError has a `None` value before any value holding the separator. A separator error has a value holding the separator before any `None`. |
| Matching.PrivateIsPrefix | keyparse/parse.py:262 | A name is dropped exactly when it starts with `_`. |
| Matching.PublicMembers | keyparse/parse.py:262 | A capture survives the filter exactly when it was captured and its name does not start with `_`. |
| Matching.PublicKeepsAll | keyparse/parse.py:262 | A groupdict without `_` names passes the filter unchanged. |
| Matching.PublicDropsOne | keyparse/parse.py:262 | A single `_` name between names without `_` is dropped, and the others keep their order. |
| Matching.PublicAppend | keyparse/parse.py:262 | The filter distributes over concatenation, so it keeps the order. |
| Matching.PublicIdempotent | keyparse/parse.py:262 | Filtering twice is filtering once. |
| Matching.NamesOfPublic | keyparse/parse.py:262 | The names of the result are the filtered names of the groupdict. |
| Matching.ToMapPublic | keyparse/parse.py:262 | As a dict, the result is the groupdict restricted to the names without a leading `_`. Each of those keeps its value. |
| Matching.LenientAccepts | keyparse/parse.py:258 | Without strict mode the check never fails. |
| Matching.StrictLeaks | keyparse/parse.py:258-260 | When every group took part, strict mode fails exactly when some value holds the separator, `_` names included. It succeeds exactly when none does. |
| Matching.StrictOrder | keyparse/parse.py:258 | A `None` value reached before any value holding the separator makes `sep in val` raise a TypeError. |
| Matching.StrictSeparatorFirst | keyparse/parse.py:258-260 | A value holding the separator, reached before any `None`, makes strict mode fail with a separator error that reports the whole groupdict. |
| Matching.StrictRefinesLenient | keyparse/parse.py:258-263 | A strict success gives the same result as a lenient one. |
| Scenarios.TwoDirsAndFile | keyparse/parse.py:22-26 | Two bare directories and a bare filename give two `\w+` groups, each followed by the separator, then the filename class. |
| Scenarios.DirPartitionAndFile | keyparse/parse.py:30-35 | For a directory, a partition and a filename, the partition reads `name=` and then its group. |
| Scenarios.SameNameTwice | keyparse/parse.py:107-110 | `dirs=['a'], file=['a']` fails with a redefinition of `a`. |
| Scenarios.NestedDirAndFile | keyparse/parse.py:88-92 | Two bare directories, then a group of two `(name, regex)` children, then a bare filename give two `\w+` groups, then the group whose body is the two child groups with nothing between them. Each of the three directories is followed by the separator, and the filename class comes last. |
| Scenarios.NestedExample | keyparse/parse.py:88-92 | The docstring's configuration with `one`, `two`, `three`, `three_one`, `three_two`, `four`, the regex `\d{2}` and `/` constructs and gives exactly that pattern. |
| Scenarios.StressConstruction | keyparse/parse.py:96-101 | The stress test constructs. Its pattern is the two directories, then the partition `4=` with a group named `key`, each followed by `/`, then the two filename parts with nothing between them. Its names, `_1` included, are all distinct. |
| Scenarios.StressDirNames | keyparse/parse.py:96-101 | The stress test's directories declare `dir1`, `one`, `two` and `dir2`. |
| Scenarios.StressPartitionNames | keyparse/parse.py:96-101 | Its nested partition `4` declares `key`, then `five` and `six`. |
| Scenarios.StressFileNames | keyparse/parse.py:96-101 | Its filename declares `file`, `seven`, `_1`, `eight` and `ext`. |
| Scenarios.TwoDirsParse | keyparse/parse.py:22-26 | With the engine's groupdict for `hello/world/file.csv`, a strict relative `/` parser returns `one`, `two` and `filename` with their captures. |
| Scenarios.DirPartitionParse | keyparse/parse.py:30-35 | With the engine's groupdict for `1/two=2/f.csv`, the parse returns `one: 1`, `two: 2` and `filename: f.csv`. |
| Scenarios.NestedParse | keyparse/parse.py:88-92 | With the engine's groupdict for `1/2/3132/4`, the parse returns the six captures, the group `three` and both its children included. |
| Scenarios.StressParse | keyparse/parse.py:96-101 | With the engine's twelve-entry groupdict for `12/3/4=56/7.8.gz`, the parse returns the eleven entries without `_1`, in order, with the nested partition `4` reported as `key: 56`. |
| Scenarios.SeparatorCaptured | keyparse/parse.py:114-117 | A strict parser whose match captures `a/b.csv` fails with a separator in a value and reports the whole groupdict. |
| Scenarios.UnderscoreFiltered | keyparse/parse.py:69-74 | `_1` and `_2` are dropped from the Kansas example's groupdict, and the other captures keep their order. |

## Left out

- The regular-expression engine is not modelled. `re.fullmatch` is the parameter `fullmatch`. Of `re.compile`, only the refusal of a repeated group name is modelled, and only as a textual scan.
- `Scan` does not understand regex syntax: an escaped `\(?P<` or one inside a character class would count as a group. The theorems about duplicate names therefore assume plain specifications: no `(` or `>` in names, no `(?P<` in caller regexes, and no `(` in the separator.
- `re.compile` also refuses group names that are not identifiers (lines 119-124). That rule is not modelled, so a name like `1` passes construction here.
- Error messages are not modelled as text. Each `raise` is a variant of `SpecError` or `ParseError`, carrying the value the message shows. In that value, `repr` puts single quotes around strings without escaping.
- `path_type` and the logging it serves are not modelled (line 175).
- `dirs` and `partitions` are lists or `None`. Other iterables the Python code would also accept are not.
- The Python `type(x) == str` test treats subclasses of `str` as malformed. Here every string is a `Str`.
- The doctest runner (lines 1, 269-271) is not modelled. The doctests' `parse` results need the regex engine, so each lemma for a parse call takes the engine's groupdict for that key as a hypothesis. It also takes the parser fields that `parse` reads. It does not tie the parser to the example's configuration; the pattern of that configuration is the subject of the example's construction lemma.
- The doctests at lines 39-42, 55-59, 62-65 and 78-84 have no lemma of their own. Their patterns are instances of `FieldSpec.LeafRenderings` and `Pattern.Composition`. A lemma for a literal whole configuration costs the solver much more than the general statement. The missing-file doctest (lines 46-49) is the first clause of `KeyParsing.Setup`.
- The Python defaults `absolute=False`, `separator='/'` and `strict=True` have no counterpart, because Dafny parameters have no defaults. Callers of `KeyParsing.KeyParser.Create` pass all three.
- The constructor's error message says that `file` must not be empty, but the code refuses only `None` (lines 169-171). An empty list is accepted, and the model follows the code (`KeyParsing.EmptyFileAccepted`).
- The docstring grammar shows the filename class as `[\w\.]+` and a partition as a literal `key=`. The code writes `[\w+\.]+` and `name=`, and uses `key` only as the group name of a nested partition. The model follows the code.
