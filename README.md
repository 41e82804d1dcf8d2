# Kmer-db task record

A model of the `Task` record of Kmer-db's loading pipeline (`src/loader.h`).
One `Task` is created per input sample file. Its constructor keeps the file
identifier, the decode-thread identifier and the file path as given. It leaves
the shared input-file handle and the two buffer pointers (`kmers`,
`positions`) null. It derives the sample's name from the path with
`find_last_of("/\\")`: the text after the last `/` or `\`, or the whole path
when it holds neither.

The model is functional (`loader.dfy`, module `Loader`; `wrappers.dfy` holds
the `Option` type):

- `SizeT` is `size_t` on a 64-bit platform. `pos + 1` cannot overflow, since
  `pos` is an index into the path.
- `std::string` is `string`, read per byte: one `char` per byte of the path.
  The result also agrees when a valid UTF-8 path is read as decoded
  characters, since neither `/` nor `\` occurs inside a multi-byte UTF-8
  character.
- `FindLastOf(s, chars)` is `s.find_last_of(chars)` with its default start
  position; `None` stands for `npos`. `FindLastOfUnique` shows that its
  contract determines the result completely.
- A null pointer is `None`. The input file and the buffers are opaque
  identities (`InputFileHandle`, `BufferRef`).
- `IsBaseName(name, path)` is the reference meaning of a sample name: a
  separator-free suffix of the path that is either the whole path or follows a
  separator. `SampleName` is proved to be the one string with that property.

## Model

| member | source | states |
|---|---|---|
| `Loader.FindLastOf` | src/loader.h:37 | the result is an index holding one of the searched characters with none of them after it; it is absent (npos) exactly when no character of the string is searched for |
| `Loader.FindLastOfUnique` | src/loader.h:37 | an index holding a searched character with none of them after it is exactly what the search returns, so the search's contract fixes its result |
| `Loader.FindLastOfUnion` | src/loader.h:37 | searching for `/` or `\` together finds whichever of the last `/` and the last `\` comes later |
| `Loader.SampleName` | src/loader.h:37-43 | the sample name is a suffix of the path and contains neither `/` nor `\` |
| `Loader.SampleNameIsBaseName` | src/loader.h:37-43 | a string is the path's base name (separator-free suffix that is the whole path or follows a separator) if and only if it is the derived sample name |
| `Loader.SampleNameWithoutSeparator` | src/loader.h:41-43 | the sample name equals the path if and only if the path has no `/` and no `\` |
| `Loader.SampleNameAfterLaterSeparator` | src/loader.h:37-39 | for a path with a separator, the sample name is the text starting one past the later of the last `/` and the last `\` |
| `Loader.SampleNameEmpty` | src/loader.h:39 | the sample name is empty if and only if the path is empty or ends in a separator |
| `Loader.SampleNameNoLonger` | src/loader.h:39-42 | the sample name is at most as long as the path, and strictly shorter exactly when the path has a separator |
| `Loader.SampleNameIdempotent` | src/loader.h:37-43 | deriving the sample name of a sample name gives it back unchanged |
| `Loader.SampleNameOfJoin` | src/loader.h:37-39 | any prefix, then `/` or `\`, then a separator-free name yields that name |
| `Loader.SampleNameExamples` | src/loader.h:37-43 | `/a/b/c.txt`, `c.txt` and `a\b\c.txt` all give `c.txt` |
| `Loader.NewTask` | src/loader.h:34-44 | the new task keeps `fileId`, `threadId` and `filePath` as given, has null `file`, `kmers` and `positions`, and its sample name is the base name of the path |

## Left out

- `kmerLength` and `fraction` (src/loader.h:29-30): the constructor leaves both uninitialised, so `Task` has no field for them; `fraction` is also floating point.
- The `Loader` class (src/loader.h:49-112): a concurrency orchestrator with one prefetch thread, a pool of reader threads, two wait-for-zero semaphores, an output mutex and three closeable queues; it is not modelled.
- `Loader`'s constructor, `configure`, `initPrefetch` and `initLoad`: only declared in src/loader.h; their bodies are not part of this model.
- The `Loader` destructor (src/loader.h:57-67): it closes the three queues and joins the threads, which is thread lifecycle.
- `waitForPrefetch`, `waitForLoad`, `getLoadedTasks` and `getCurrentFileId`: one-line forwards to semaphores or accessors of state filled by the unmodelled threads.
- `CRegisteringQueue` and `Semaphore` (queue.h), `InputFile` (kmc_file_wrapper.h), `AbstractFilter` (filter.h) and `kmer_t`: queue.h, kmc_file_wrapper.h and filter.h are not part of this model; the handles to them are opaque.
- Shared ownership of the `shared_ptr<InputFile>` (reference counting) is not modelled; the handle is only present or absent.
