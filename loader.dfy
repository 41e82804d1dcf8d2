/**
  The per-file work record of the k-mer loading pipeline (`Task` in src/loader.h)
  and the derivation of a sample's name from its file path.

  A `Task` is built once per input file; its constructor copies the file and
  thread identifiers and the path, leaves the three ownership handles null and
  sets `sampleName` to the part of the path after its last directory
  separator, `/` or `\`.
 */
module Loader {

  import opened Wrappers

  /** `size_t` on a 64-bit platform. */
  newtype SizeT = x: int | 0 <= x < 0x1_0000_0000_0000_0000

  /** The opened input file shared between the prefetch and the decode stage;
      the model only keeps its identity. */
  datatype InputFileHandle = InputFileHandle(id: nat)

  /** A pointer to a `std::vector` of k-mers or of positions;
      the model only keeps its identity. */
  datatype BufferRef = BufferRef(id: nat)

  /** The work record for one input file. A null pointer is `None`. */
  datatype Task = Task(
    fileId: SizeT,
    threadId: SizeT,
    filePath: string,
    sampleName: string,
    file: Option<InputFileHandle>,
    kmers: Option<BufferRef>,
    positions: Option<BufferRef>)

  /** The characters `find_last_of("/\\")` looks for. */
  const SEPARATORS: set<char> := {'/', '\\'}

  predicate IsSeparator(c: char) {
    c in SEPARATORS
  }

  predicate NoSeparator(s: string) {
    forall i :: 0 <= i < |s| ==> !IsSeparator(s[i])
  }

  predicate IsSuffix(suffix: string, s: string) {
    |suffix| <= |s| && suffix == s[|s| - |suffix|..]
  }

  // ---------------------------------------------------------------------------
  // std::string::find_last_of
  // ---------------------------------------------------------------------------

  /** `s.find_last_of(chars)` with its default start position: the index of
      the last character of `s` that is one of `chars`, or `None` where the
      C++ call returns `npos`. */
  function FindLastOf(s: string, chars: set<char>): (r: Option<nat>)
    ensures r.Some? ==> r.value < |s| && s[r.value] in chars
    ensures r.Some? ==> forall j :: r.value < j < |s| ==> s[j] !in chars
    ensures r.None? <==> forall j :: 0 <= j < |s| ==> s[j] !in chars
  {
    if s == [] then None
    else if s[|s| - 1] in chars then Some(|s| - 1)
    else FindLastOf(s[..|s| - 1], chars)
  }

  /** The later of two search results; `None` (npos) loses to any index. */
  function Later(a: Option<nat>, b: Option<nat>): Option<nat> {
    match (a, b)
    case (None, _) => b
    case (_, None) => a
    case (Some(x), Some(y)) => Some(if x < y then y else x)
  }

  /** The contract of `FindLastOf` determines its result: an index holding one
      of `chars` with none of them after it is exactly what it returns. */
  lemma FindLastOfUnique(s: string, chars: set<char>, k: nat)
    requires k < |s| && s[k] in chars
    requires forall j :: k < j < |s| ==> s[j] !in chars
    ensures FindLastOf(s, chars) == Some(k)
  {
  }

  /** Searching for either of two character sets finds whichever of the two
      last occurrences comes later: `find_last_of("/\\")` is the later of
      `rfind('/')` and `rfind('\\')`. */
  lemma {:induction false} FindLastOfUnion(s: string, a: set<char>, b: set<char>)
    ensures FindLastOf(s, a + b) == Later(FindLastOf(s, a), FindLastOf(s, b))
  {
    if s != [] {
      var last := s[|s| - 1];
      if last !in a && last !in b {
        FindLastOfUnion(s[..|s| - 1], a, b);
      }
    }
  }

  // ---------------------------------------------------------------------------
  // The sample name
  // ---------------------------------------------------------------------------

  /** `sampleName` as the constructor derives it from `filePath`: everything
      after the last separator, or the whole path when there is none. */
  function SampleName(path: string): (r: string)
    ensures IsSuffix(r, path)
    ensures NoSeparator(r)
  {
    match FindLastOf(path, SEPARATORS)
    case Some(pos) => path[pos + 1..]
    case None => path
  }

  /** The name a path denotes, independently of how it is found: a
      separator-free suffix of the path that is either the whole path or is
      preceded by a separator. */
  predicate IsBaseName(name: string, path: string) {
    && IsSuffix(name, path)
    && NoSeparator(name)
    && (|name| < |path| ==> IsSeparator(path[|path| - |name| - 1]))
  }

  /** `SampleName` returns the base name of the path, and it is the only
      string that is one. */
  lemma SampleNameIsBaseName(path: string, name: string)
    ensures IsBaseName(name, path) <==> name == SampleName(path)
  {
    var r := SampleName(path);
    match FindLastOf(path, SEPARATORS)
    case Some(pos) =>
      assert |r| < |path| && path[|path| - |r| - 1] == path[pos];
      if IsBaseName(name, path) {
        var k := |path| - |name| - 1;
        if |name| < |path| {
          FindLastOfUnique(path, SEPARATORS, k);
        }
      }
    case None =>
  }

  /** A path with neither `/` nor `\` is its own sample name, and only such a
      path is. */
  lemma SampleNameWithoutSeparator(path: string)
    ensures SampleName(path) == path <==> NoSeparator(path)
  {
    if NoSeparator(path) {
      SampleNameIsBaseName(path, path);
    }
  }

  /** When the path holds a separator, the sample name starts one past the
      later of the last `/` and the last `\`. */
  lemma SampleNameAfterLaterSeparator(path: string)
    requires !NoSeparator(path)
    ensures var k := Later(FindLastOf(path, {'/'}), FindLastOf(path, {'\\'}));
      k.Some? && k.value < |path| && SampleName(path) == path[k.value + 1..]
  {
    FindLastOfUnion(path, {'/'}, {'\\'});
    assert {'/'} + {'\\'} == SEPARATORS;
    assert FindLastOf(path, SEPARATORS).Some?;
  }

  /** The sample name is empty exactly when the path is empty or ends in a
      separator. */
  lemma SampleNameEmpty(path: string)
    ensures SampleName(path) == [] <==> (path == [] || IsSeparator(path[|path| - 1]))
  {
    if path != [] && IsSeparator(path[|path| - 1]) {
      SampleNameIsBaseName(path, []);
    }
  }

  /** The sample name is never longer than the path. */
  lemma SampleNameNoLonger(path: string)
    ensures |SampleName(path)| <= |path|
    ensures |SampleName(path)| < |path| <==> !NoSeparator(path)
  {
    SampleNameWithoutSeparator(path);
  }

  /** Deriving the sample name from a sample name changes nothing. */
  lemma SampleNameIdempotent(path: string)
    ensures SampleName(SampleName(path)) == SampleName(path)
  {
    SampleNameWithoutSeparator(SampleName(path));
  }

  /** Whatever the directory part, a separator followed by a separator-free
      name gives that name. */
  lemma SampleNameOfJoin(prefix: string, sep: char, name: string)
    requires IsSeparator(sep)
    requires NoSeparator(name)
    ensures SampleName(prefix + [sep] + name) == name
  {
    var path := prefix + [sep] + name;
    assert path[|path| - |name|..] == name;
    assert path[|path| - |name| - 1] == sep;
    SampleNameIsBaseName(path, name);
  }

  /** Three sample paths, an absolute one with `/`, a bare name and a
      relative one with `\`, all name the sample `c.txt`. */
  lemma SampleNameExamples()
    ensures SampleName("/a/b/c.txt") == "c.txt"
    ensures SampleName("c.txt") == "c.txt"
    ensures SampleName("a\\b\\c.txt") == "c.txt"
  {
    assert NoSeparator("c.txt");
    SampleNameOfJoin("/a/b", '/', "c.txt");
    assert "/a/b" + ['/'] + "c.txt" == "/a/b/c.txt";
    SampleNameWithoutSeparator("c.txt");
    SampleNameOfJoin("a\\b", '\\', "c.txt");
    assert "a\\b" + ['\\'] + "c.txt" == "a\\b\\c.txt";
  }

  // ---------------------------------------------------------------------------
  // The constructor
  // ---------------------------------------------------------------------------

  /** `Task(fileId, threadId, filePath)`: the identifiers and the path are kept
      as given, the file handle and both buffer pointers start out null, and
      the sample name is the base name of the path. */
  function NewTask(fileId: SizeT, threadId: SizeT, filePath: string): (t: Task)
    ensures t.fileId == fileId && t.threadId == threadId && t.filePath == filePath
    ensures t.file == None && t.kmers == None && t.positions == None
    ensures IsBaseName(t.sampleName, filePath)
  {
    SampleNameIsBaseName(filePath, SampleName(filePath));
    Task(fileId, threadId, filePath, SampleName(filePath), None, None, None)
  }
}
