# laoban script execution engine, modelled in Dafny

laoban runs scripts across the projects of a monorepo. This project models
three parts of it:

- The execution engine in `code/modules/laoban/src/executors.ts`.
  - It turns one script and one project into an ordered list of concrete
    command units: it resolves each command's directory, builds the lookup
    dictionary, and fans out once per link.
  - It names the log file of a script run.
  - It runs a script's commands one after the other.
  - It runs generations of scripts, handing each generation's results to a
    reporter before the next generation starts.
  - It dispatches a command to the JavaScript or the shell executor.
  - It evaluates `js:` commands with the working directory and the
    environment swapped in and then restored.
- The collection combinators in `code/modules/utils/src/utils.ts`: `unique`,
  `chain`, `flatten`, `flatMap`, `foldK` and `mapK`.
- The file-operation wrappers in `code/modules/utils/src/fileOps.ts`:
  - `lastSegment`, `findMatchingK` and `childDirs`;
  - the metering wrapper, which counts calls;
  - the caching wrapper, which keeps a URL's contents under its digest;
  - the marker tests `isMeteredFileOps` and `isCachedFileOps`, and
    `nonCached`;
  - `copyFile` and `copyFiles`.

Files:

- `wrappers.dfy` defines `Option` (a value that may be `undefined`),
  `Result` (a promise that resolves or rejects, or a call that returns or
  throws) and `Outcome` (a `Promise<void>`).
- `utils.dfy` is module `Utils`.
- `file_ops.dfy` is module `FileOps`.
- `executors.dfy` is module `Executors`.

How the model reads the source:

- A promise is a `Result` value. Chaining with `.then` is sequencing.
- `Promise.all` is an order-preserving map (`Utils.MapK`).
- The state that the source mutates lives in classes:
  - the counters of `meteredFileOps` (`FileOps.MeteredFileOps`);
  - the hit and miss counters of `cachedFileOps` (`FileOps.CacheCounters`);
  - `process.cwd` and `process.env` (`Executors.Process`);
  - the streams written by `writeTo` (`Executors.StreamLog`).
- The underlying file operations are a `FileStore` object: a map from a file
  name or URL to its contents, a set of created directories, a digest
  function, a listing function, and two fixed rules saying which names it
  can save and which directories it can create. A save or a directory
  creation the rules refuse rejects and changes nothing.
- `childDirs` walks an abstract directory tree (`FileOps.Entry`).
- Functions from modules outside this model are parameters: `path.join`,
  `derefence`, `cleanUpEnv`, the JavaScript engine, and the decorator
  composition of `make`.

## Model

| member | source | states |
|---|---|---|
| `Utils.Unique` | code/modules/utils/src/utils.ts:4-15 | The loop over `safeArray(ts)` fills `alreadyIn` and `result`. The result is the reference scan `FirstByTag`: an element is kept iff no earlier element had its tag. |
| `Utils.UniqueHasDistinctTags` | code/modules/utils/src/utils.ts:4-15 | No two elements of the result have equal tags. |
| `Utils.UniqueIsFirstOccurrences` | code/modules/utils/src/utils.ts:7-13 | The result is the subsequence of the input at strictly increasing positions. Each kept position is the first occurrence of its tag, and every first occurrence is kept. |
| `Utils.UniqueKeepsEveryTag` | code/modules/utils/src/utils.ts:7-13 | The result has exactly the tags of the input. |
| `Utils.UniqueOfDistinct` | code/modules/utils/src/utils.ts:4-15 | An input whose tags are already distinct is returned unchanged. |
| `Utils.UniqueIdempotent` | code/modules/utils/src/utils.ts:4-15 | `unique(unique(ts))` is `unique(ts)`. |
| `Utils.Chain` | code/modules/utils/src/utils.ts:18-24 | Returns `fns[i](from)` for the least i whose result is defined, and undefined when there is none (including for no functions). It calls no function after that i. |
| `Utils.Flatten` | code/modules/utils/src/utils.ts:26-28 | Reference definition, with no contract of its own. Its length, membership, concatenation and positions are stated by `FlattenLength`, `FlattenMember`, `FlattenAppend` and `FlattenAt`. |
| `Utils.FlattenLength` | code/modules/utils/src/utils.ts:26-28 | The length of `flatten` is the sum of the inner lengths. |
| `Utils.FlattenAppend` | code/modules/utils/src/utils.ts:26-28 | Flattening a concatenation gives the concatenation of the flattenings. |
| `Utils.FlattenMember` | code/modules/utils/src/utils.ts:26-28 | x is in `flatten(tss)` iff x is in some inner sequence. |
| `Utils.FlattenPrefixBound` | code/modules/utils/src/utils.ts:26-28 | Inner sequence i fits in the flattened output right after the inner sequences before it. |
| `Utils.FlattenAt` | code/modules/utils/src/utils.ts:26-28 | Element k of inner sequence i sits at position (sum of the earlier inner lengths) + k. |
| `Utils.FlatMap` | code/modules/utils/src/utils.ts:30-32 | Reference definition, with no contract of its own. It is `flatten` of the mapped list. `FlatMapAppend`, `FlatMapSingle` and `FlatMapLength` state its properties. |
| `Utils.FlatMapAppend` | code/modules/utils/src/utils.ts:30-32 | `flatMap` over a concatenation is the concatenation of the `flatMap`s. |
| `Utils.FlatMapSingle` | code/modules/utils/src/utils.ts:30-32 | `flatMap([t], fn)` is `fn(t)`. |
| `Utils.FlatMapLength` | code/modules/utils/src/utils.ts:30-32 | The length of `flatMap` is the sum of the lengths of the `fn(t)`. |
| `Utils.FoldK` | code/modules/utils/src/utils.ts:34-36 | Reference definition, with no contract of its own. It chains `foldFn` left to right from `zero` and stops at the first rejection. `FoldKSynchronous` and `FoldKAppend` state its properties. |
| `Utils.FoldKSynchronous` | code/modules/utils/src/utils.ts:34-36 | With a step that always resolves, `foldK` resolves with the left fold. So it gives `zero` for an empty list. |
| `Utils.FoldKAppend` | code/modules/utils/src/utils.ts:34-36 | `foldK` over vs + ws continues from the accumulator reached on vs, and stops at a rejection in vs. |
| `Utils.MapK` | code/modules/utils/src/utils.ts:38-40 | Reference definition, with no contract of its own. `MapKSuccess` and `MapKFirstFailure` state when it resolves and which rejection it gives. |
| `Utils.MapKSuccess` | code/modules/utils/src/utils.ts:38-40 | `mapK` resolves iff every fn(v) resolves. It then gives one result per input, in input order. |
| `Utils.MapKFirstFailure` | code/modules/utils/src/utils.ts:38-40 | When `mapK` rejects, the rejection is that of the first failing input. |
| `Utils.FilterMember` | code/modules/utils/src/fileOps.ts:24 | `filter` keeps exactly the elements that satisfy the predicate. |
| `FileOps.LastIndexOf` | code/modules/utils/src/fileOps.ts:13 | `lastIndexOf` gives the position of the last occurrence, or -1 when the character does not occur. |
| `FileOps.LastSegment` | code/modules/utils/src/fileOps.ts:12-15 | The result contains no `/`. It is a suffix of s: all of s when s has no `/`, and otherwise the part right after a `/`. |
| `FileOps.FindMatchingK` | code/modules/utils/src/fileOps.ts:22-26 | Reference definition, with no contract of its own. `FindMatchingKIsFilter` states what it returns. |
| `FileOps.FindMatchingKIsFilter` | code/modules/utils/src/fileOps.ts:22-26 | Resolves iff every filter call resolves. It then returns exactly the elements whose filter result is true, in their original order. |
| `FileOps.DirsUnder` | code/modules/utils/src/fileOps.ts:30-32 | Every kept entry is one of the listed entries. |
| `FileOps.DirsUnderKeeps` | code/modules/utils/src/fileOps.ts:30-32 | A listed entry is kept iff it is a directory whose bare name is not stopped. |
| `FileOps.AddPrefix` | code/modules/utils/src/fileOps.ts:29 | Reference definition, with no contract of its own. `PathOfExtends` and `ChildDirsArePrefixed` state what the paths it builds look like. |
| `FileOps.ChildDirsOf` | code/modules/utils/src/fileOps.ts:27-39 | Reference definition, with no contract of its own. It is the direct child directories, then each one's own result in turn. `ChildDirsAreDescendants` and `DirectChildrenFirst` state its properties. |
| `FileOps.Children` | code/modules/utils/src/fileOps.ts:27-39 | Pushing each child's descendants onto the direct children gives `ChildDirsOf`. |
| `FileOps.ChildDirsSound` | code/modules/utils/src/fileOps.ts:27-39 | Every returned path is the path of a descendant directory that was not stopped. |
| `FileOps.ChildDirsComplete` | code/modules/utils/src/fileOps.ts:27-39 | Every descendant directory reached without passing a stopped one is returned. |
| `FileOps.ChildDirsAreDescendants` | code/modules/utils/src/fileOps.ts:27-39 | A path is returned iff it is the path of such a descendant directory. |
| `FileOps.DescendantsSound` | code/modules/utils/src/fileOps.ts:34-36 | Every path pushed as a descendant lies at least two levels down. |
| `FileOps.DirectChildrenFirst` | code/modules/utils/src/fileOps.ts:32-36 | The direct child directories come first, in listing order. Every later path lies at least two levels down. |
| `FileOps.PathOfExtends` | code/modules/utils/src/fileOps.ts:29 | A path built below a non-empty parent starts with that parent, followed by `/` once a name is added. |
| `FileOps.ChildDirsArePrefixed` | code/modules/utils/src/fileOps.ts:29-31 | Below a non-empty parent, every result starts with `parent + '/'`. |
| `FileOps.LoadAfterSave` | code/modules/utils/src/fileOps.ts:3 | A save resolves iff the store accepts the name, and a later load of that name returns the saved text. A rejected save, and any save of another name, leave every other load's result as it was. |
| `FileOps.FileStore.SaveFile` | code/modules/utils/src/fileOps.ts:3 | Writes the file when the store accepts the name. Otherwise it rejects and leaves the files as they were. The directories are unchanged either way. |
| `FileOps.FileStore.CreateDir` | code/modules/utils/src/fileOps.ts:7 | Adds the directory when the store can create it. Otherwise it rejects and leaves the directories as they were. The files are unchanged either way. |
| `FileOps.MeteredFileOps.constructor` | code/modules/utils/src/fileOps.ts:78-89 | Every counter starts at 0, every `last*` is undefined, and `savedFiles` is empty. |
| `FileOps.MeteredFileOps.CreateDir` | code/modules/utils/src/fileOps.ts:104-108 | Raises `createDirCount` by 1 and sets `lastCreatedDir`, even when the creation then rejects. The other counters are unchanged. The result and the new directories are those of the underlying `createDir`. |
| `FileOps.MeteredFileOps.LoadFileOrUrl` | code/modules/utils/src/fileOps.ts:109-113 | Raises `loadFileOrUrlCount` by 1 and sets `lastLoadedFile`. The other counters are unchanged, and the result is the underlying load's. |
| `FileOps.MeteredFileOps.Digest` | code/modules/utils/src/fileOps.ts:114-118 | Raises `digestCount` by 1 and sets `lastDigested`. The other counters are unchanged, and the result is the underlying digest. |
| `FileOps.MeteredFileOps.ListFiles` | code/modules/utils/src/fileOps.ts:119-122 | Raises `listFilesCount` by 1. The other counters are unchanged. |
| `FileOps.MeteredFileOps.SaveFile` | code/modules/utils/src/fileOps.ts:123-129 | Raises `saveFileCount` by 1, appends `[f, t]` to `savedFiles`, and sets `lastSavedFileName` and `lastSavedFile`, even when the save then rejects. The other counters are unchanged. The result and the new files are those of the underlying `saveFile`. Each method keeps the counters consistent: one `savedFiles` entry per save, and the `last*` values belong to the latest call. |
| `FileOps.CacheCounters.CacheHit` | code/modules/utils/src/fileOps.ts:188 | Adds one to the hit counter and leaves the miss counter as it was. |
| `FileOps.CacheCounters.CacheMiss` | code/modules/utils/src/fileOps.ts:188 | Adds one to the miss counter and leaves the hit counter as it was. |
| `FileOps.Includes` | code/modules/utils/src/fileOps.ts:148 | Reference definition, with no contract of its own. It is what `CachedLoadStep` tests to tell a URL from a file name; `CachedLoadDelegates` states the non-URL case. |
| `FileOps.CachedLoadStep` | code/modules/utils/src/fileOps.ts:145-162 | Reference definition, with no contract of its own. It is one call of `cachedLoad` on the store and the counters. `CachedLoadDelegates`, `CachedLoadHit`, `CachedLoadMiss`, `SecondLoadIsHit` and `CachedLoadCountsOnce` state its behaviour. |
| `FileOps.CachedLoad` | code/modules/utils/src/fileOps.ts:145-162 | The hit/miss protocol, tied to the step function `CachedLoadStep` for the store and the counters. |
| `FileOps.CachedLoadDelegates` | code/modules/utils/src/fileOps.ts:146-148 | With no cache, or for a name without `://`, the result is the underlying load, and the store and the counters are untouched. |
| `FileOps.CachedLoadHit` | code/modules/utils/src/fileOps.ts:149-154 | When the file `cache/digest(url)` exists: one hit, and its content is returned. Nothing else changes. |
| `FileOps.CachedLoadMiss` | code/modules/utils/src/fileOps.ts:155-160 | Otherwise: one miss. The cache directory is created, the URL loaded and its content saved under the cache key, each step only after the one before resolved. The load resolves iff all three do: it then returns the URL's content, and that content is under the cache key. Otherwise nothing is saved and the rejection is the first one: the creation's, then the load's, then the save's. The directory is added iff it could be created. |
| `FileOps.SecondLoadIsHit` | code/modules/utils/src/fileOps.ts:149-160 | After a successful URL load, loading the same URL again is a hit and returns the same content. |
| `FileOps.CachedLoadCountsOnce` | code/modules/utils/src/fileOps.ts:151-158 | A URL load counts exactly one hit or one miss. |
| `FileOps.CachedFileOps.constructor` | code/modules/utils/src/fileOps.ts:186-189 | The counters start at 0, and `original` is the wrapped ops. |
| `FileOps.CachedFileOps.LoadFileOrUrl` | code/modules/utils/src/fileOps.ts:189 | `loadFileOrUrl` is `cachedLoad` over the original, with the cache defined. |
| `FileOps.IsMeteredFileOps` | code/modules/utils/src/fileOps.ts:72-75 | Reference definition, with no contract of its own. It holds for a metered ops and for any ops built over one. `MeteringIsIdempotent` and `WrappersKeepEachOthersMarkers` state its properties. |
| `FileOps.IsCachedFileOps` | code/modules/utils/src/fileOps.ts:179-182 | Reference definition, with no contract of its own. It holds for a cached ops and for any ops built over one. `CachingIsIdempotent`, `NonCachedUndoesCaching` and `WrappersKeepEachOthersMarkers` state its properties. |
| `FileOps.OriginalOf` | code/modules/utils/src/fileOps.ts:177 | Reference definition, with no contract of its own. It is the `original` a cached ops carries. `NonCachedUndoesCaching` states that it is the ops that was wrapped. |
| `FileOps.NonCached` | code/modules/utils/src/fileOps.ts:176-178 | Reference definition, with no contract of its own. `NonCachedUndoesCaching` and `WrappersKeepEachOthersMarkers` state its properties. |
| `FileOps.Metered` | code/modules/utils/src/fileOps.ts:76-77 | Reference definition, with no contract of its own. `MeteringIsIdempotent` states its properties. |
| `FileOps.Cached` | code/modules/utils/src/fileOps.ts:184-191 | Reference definition, with no contract of its own. `CachingIsIdempotent` states its properties. |
| `FileOps.MeteringIsIdempotent` | code/modules/utils/src/fileOps.ts:72-77 | Metering an already-metered ops returns it unchanged. |
| `FileOps.CachingIsIdempotent` | code/modules/utils/src/fileOps.ts:184-191 | With an undefined cache, or on an already-cached ops, `cachedFileOps` returns its argument unchanged. With a defined cache the result is cached, and caching twice is caching once. |
| `FileOps.NonCachedUndoesCaching` | code/modules/utils/src/fileOps.ts:176-191 | `nonCached(cachedFileOps(f, c))` is `f` when `c` is defined and `f` is not cached. |
| `FileOps.WrappersKeepEachOthersMarkers` | code/modules/utils/src/fileOps.ts:184-191 | Because `...fileOps` copies every property, caching keeps the metered marker and metering keeps the cached marker. `nonCached` of a metered-over-cached ops drops the meter too. |
| `FileOps.CopyStep` | code/modules/utils/src/fileOps.ts:195-198 | Reference definition, with no contract of its own. `CopyStepSemantics` states its behaviour. |
| `FileOps.CopyFile` | code/modules/utils/src/fileOps.ts:195-198 | The store and the result after the call are those of one `CopyStep`: load `rootUrl + '/' + offset`, then save its content as `target + '/' + offset`. Either step can reject. |
| `FileOps.CopyStepSemantics` | code/modules/utils/src/fileOps.ts:195-198 | A copy resolves iff the source exists and the target can be saved, and then the target holds the source's content. Otherwise the store is unchanged and the rejection is the load's, or else the save's. |
| `FileOps.CopyAll` | code/modules/utils/src/fileOps.ts:199-205 | Reference definition, with no contract of its own. `CopyFilesOutcome`, `CopyAllAppend` and `CopyFilesCopiesEveryFile` state its behaviour. |
| `FileOps.CopyFiles` | code/modules/utils/src/fileOps.ts:199-205 | The loop attempts every file in turn, a failing one included. The store and the outcome it ends with are those of `CopyAll`. |
| `FileOps.CopyFilesCopiesEveryFile` | code/modules/utils/src/fileOps.ts:195-205 | When every source exists, every target can be saved and no target is a source: the copy resolves, every target holds its source's content, and every other entry is unchanged. |
| `FileOps.CopyFilesOutcome` | code/modules/utils/src/fileOps.ts:199-205 | `copyFiles` resolves iff no file's copy fails on the store the copies before it left. Otherwise it rejects with `Error <context>\nFile <f>\n<e>` for the first such file f and its error e. |
| `FileOps.CopyAllAppend` | code/modules/utils/src/fileOps.ts:199-205 | The copies after any prefix run exactly as they would from the store the prefix left, whatever its outcome. So a failing file does not stop the later files from being copied, and the first failure decides the outcome. |
| `Executors.CalculateDirectory` | code/modules/laoban/src/executors.ts:46 | Reference definition, with no contract of its own. `CalculateDirectoryCases` states its cases. |
| `Executors.CalculateDirectoryCases` | code/modules/laoban/src/executors.ts:46 | The directory is `join(projectDir, cmd.directory)` when that is set and non-empty, and `projectDir` otherwise. |
| `Executors.StreamNamefn` | code/modules/laoban/src/executors.ts:48-57 | Reference definition, with no contract of its own. `StreamNameShape` and the `StreamPaths` lemmas state its properties. |
| `Executors.StreamPaths` | code/modules/laoban/src/executors.ts:49 | Reference definition, with no contract of its own. `StreamPathsIsSanitize`, `SanitizeLeavesNoSeparator`, `SanitizeKeepsPlainNames` and `StreamPathsIdempotent` state its properties. |
| `Executors.StreamPathsIsSanitize` | code/modules/laoban/src/executors.ts:49 | The three global replaces equal a one-pass rewrite: `/` and `\` become `_`, and `:` is dropped. |
| `Executors.SanitizeLeavesNoSeparator` | code/modules/laoban/src/executors.ts:49 | The rewritten directory contains no `/`, `\` or `:`, and is no longer than the input. |
| `Executors.SanitizeKeepsPlainNames` | code/modules/laoban/src/executors.ts:49 | A directory with none of those characters is kept as it is. |
| `Executors.StreamPathsIdempotent` | code/modules/laoban/src/executors.ts:49 | Rewriting twice is rewriting once. |
| `Executors.StreamNameShape` | code/modules/laoban/src/executors.ts:48-57 | The directory part has no `/`, `\` or `:`, and the name ends with `.<scriptName>.log`. |
| `Executors.BuildDic` | code/modules/laoban/src/executors.ts:67 | Reference definition, with no contract of its own. `DicShadowsConfig` states which keys it shadows. |
| `Executors.DicShadowsConfig` | code/modules/laoban/src/executors.ts:67 | The dictionary is the config plus `packageDirectory`, `packageDetails` and `link`. Those three shadow the config's keys, and `link` is undefined without a link. Every other key keeps the config's value. |
| `Executors.MakeShellDetails` | code/modules/laoban/src/executors.ts:66-81 | Reference definition, with no contract of its own. `MakeShellDetailsErrorOrder` and `CommandUnitsShape` state its behaviour. |
| `Executors.MakeShellDetailsErrorOrder` | code/modules/laoban/src/executors.ts:66-81 | The env is cleaned first, then the command string is dereferenced, then the directory. The first of these that throws decides the error, and the unit is built iff none throws. |
| `Executors.LinksOf` | code/modules/laoban/src/executors.ts:82-83 | Reference definition, with no contract of its own. It reads undefined links as `[]`. `NoLinksNoUnits` and `CommandUnitsShape` state what it leads to. |
| `Executors.CommandUnits` | code/modules/laoban/src/executors.ts:65-85 | Reference definition, with no contract of its own. `CommandUnitsShape` and `NoLinksNoUnits` state its behaviour. |
| `Executors.CommandUnitsShape` | code/modules/laoban/src/executors.ts:64-85 | With `eachLink`: one unit per link, in link order. Without: exactly one unit, whose `link` is undefined. Each unit carries the command, the layered dictionary, and the command string and directory as dereferenced. |
| `Executors.NoLinksNoUnits` | code/modules/laoban/src/executors.ts:82-85 | With `eachLink` and undefined or empty links, there are no units. |
| `Executors.BuildShellCommandDetails` | code/modules/laoban/src/executors.ts:63-87 | Reference definition, with no contract of its own. The three `BuildShellCommandDetails*` lemmas state its behaviour. |
| `Executors.BuildShellCommandDetailsInOrder` | code/modules/laoban/src/executors.ts:63-87 | The output is the flatten of the per-command units, in command order. Unit k of command i sits at (units of earlier commands) + k, so each fan-out is contiguous. |
| `Executors.BuildShellCommandDetailsSucceeds` | code/modules/laoban/src/executors.ts:63-87 | Building succeeds iff every command's units build. |
| `Executors.BuildShellCommandDetailsFails` | code/modules/laoban/src/executors.ts:63-87 | A failed build fails with the error of the first command whose units fail. |
| `Executors.ExecuteOneAfterTheOther` | code/modules/laoban/src/executors.ts:108-110 | Reference definition, with no contract of its own. `OneAfterTheOtherIsMapK` states what it resolves with and which calls it makes. |
| `Executors.OneAfterTheOtherIsMapK` | code/modules/laoban/src/executors.ts:108-110 | The reduce gives one result per input, in order, or the first rejection. `fn` is called in order on each input, up to and including the first that fails. |
| `Executors.CalledIsPrefix` | code/modules/laoban/src/executors.ts:108-110 | `fn` is called on every input when all succeed. Otherwise it is called exactly up to the first failing input. |
| `Executors.CalledAll` | code/modules/laoban/src/executors.ts:108-110 | When every call succeeds, every input is called, in order. |
| `Executors.CalledUpTo` | code/modules/laoban/src/executors.ts:108-110 | When input k is the first to fail, exactly the inputs up to and including k are called. |
| `Executors.ExecuteScript` | code/modules/laoban/src/executors.ts:101-106 | Reference definition, with no contract of its own. `ExecuteScriptResults` states what it resolves with. |
| `Executors.ExecuteScriptResults` | code/modules/laoban/src/executors.ts:101-106 | A script resolves iff its units build and every unit's execution resolves. Its `results` are then the concatenation of the per-unit result lists, in unit order. |
| `Executors.ExecuteOneGeneration` | code/modules/laoban/src/executors.ts:89 | Reference definition, with no contract of its own. `ExecuteOneGenerationInOrder` states what it resolves with. |
| `Executors.ExecuteOneGenerationInOrder` | code/modules/laoban/src/executors.ts:89 | One result per script of the generation, in order, when every script resolves. |
| `Executors.AllGenerationsFrom` | code/modules/laoban/src/executors.ts:92-97 | Reference definition, with no contract of its own. It is the recursive `fn` over the remaining generations and the results so far. `TraceAlternates`, `AllGenerationsSucceed` and `AllGenerationsStop` state its behaviour. |
| `Executors.ExecuteAllGenerations` | code/modules/laoban/src/executors.ts:91-99 | Reference definition, with no contract of its own. It starts `AllGenerationsFrom` with no results. |
| `Executors.TraceAlternates` | code/modules/laoban/src/executors.ts:91-99 | The steps are: execute 0, report 0, execute 1, report 1, and so on. The reporter is called once per generation, in order, and generation i+1 starts only after the report of generation i. |
| `Executors.AllGenerationsSucceed` | code/modules/laoban/src/executors.ts:91-99 | Resolves iff every generation executes and its report resolves. There is then one result per generation, in input order, and `[]` for no generations. |
| `Executors.AllGenerationsStop` | code/modules/laoban/src/executors.ts:91-99 | A rejection comes from the first generation that failed to execute or to report. No later step happens. |
| `Executors.JsOrShellFinder` | code/modules/laoban/src/executors.ts:128-131 | Reference definition, with no contract of its own. `JsOrShellFinderDispatch` states which executor it picks. |
| `Executors.JsOrShellFinderDispatch` | code/modules/laoban/src/executors.ts:128-131 | The JS executor is chosen iff the command string starts with `js:`. The text execJS then evaluates is what follows that prefix. |
| `Executors.TimeIt` | code/modules/laoban/src/executors.ts:132-137 | Reference definition, with no contract of its own. `TimeItSingleton` states what it resolves with. |
| `Executors.TimeItSingleton` | code/modules/laoban/src/executors.ts:132-137 | `timeIt` resolves iff the raw executor does. It gives a one-element list carrying the raw `err` and `details: d`. |
| `Executors.Make` | code/modules/laoban/src/executors.ts:140-149 | Reference definition, with no contract of its own. `MakeDispatches` states how it dispatches. |
| `Executors.MakeDispatches` | code/modules/laoban/src/executors.ts:140-149 | A `js:` command goes through the decorated, timed JS executor, and any other command through the decorated, timed shell executor. |
| `Executors.SpawnCloseResultAsWritten` | code/modules/laoban/src/executors.ts:168 | The close-code mapping as written, with no contract of its own. `KilledChildLooksSuccessful` states what it does with a null code. |
| `Executors.ExecInSpawnResult` | code/modules/laoban/src/executors.ts:168 | What `execInSpawn` resolves with once the child closes, as written, with no contract of its own. `KilledChildLooksSuccessful` states its behaviour. |
| `Executors.KilledChildLooksSuccessful` | code/modules/laoban/src/executors.ts:168 | As written, a child that closes with a null code (killed by a signal) gets `err` null, the same as exit code 0, and `execInSpawn` resolves with `{err: null}` for both. |
| `Executors.SpawnCloseResult` | code/modules/laoban/src/executors.ts:168 | The corrected close-code mapping, with no contract of its own. `SpawnCloseResultIsNullExactlyOnZero` states its properties. |
| `Executors.ExecInSpawnResultCorrected` | code/modules/laoban/src/executors.ts:168 | What `execInSpawn` resolves with under the corrected mapping, with no contract of its own. `SpawnCloseResultIsNullExactlyOnZero` states its behaviour. |
| `Executors.SpawnCloseResultIsNullExactlyOnZero` | code/modules/laoban/src/executors.ts:168 | Corrected mapping: `err` is null iff the exit code is 0, and a null code is reported as a signal. A non-zero code is passed through, and the mapping agrees with the original whenever a code is present. |
| `Executors.Process.Chdir` | code/modules/laoban/src/executors.ts:180 | `process.chdir` enters a directory that can be entered and throws otherwise, leaving the directory unchanged. |
| `Executors.InChangedDir` | code/modules/laoban/src/executors.ts:177-183 | The function the `ExecuteInChangedDir` method is specified by, with no contract of its own. That method's contract ties the two. |
| `Executors.ExecuteInChangedDir` | code/modules/laoban/src/executors.ts:177-183 | The block runs in `dir`, or a chdir error is thrown. Either way the old directory is restored. |
| `Executors.ExecuteInChangedEnv` | code/modules/laoban/src/executors.ts:185-191 | The block sees `env` only when it is defined. Either way the old environment is restored. |
| `Executors.JsToString` | code/modules/laoban/src/executors.ts:198-199 | Reference definition, with no contract of its own. `JsRunSemantics` states that an undefined or null value fails and any other gives its text. |
| `Executors.JsCode` | code/modules/laoban/src/executors.ts:198 | Reference definition, with no contract of its own. `JsOrShellFinderDispatch` states that the text after `js:` is what is evaluated. |
| `Executors.JsLine` | code/modules/laoban/src/executors.ts:200-204 | Reference definition, with no contract of its own. `JsRunSemantics` states the line for success and for failure. |
| `Executors.JsRun` | code/modules/laoban/src/executors.ts:194-199 | Reference definition, with no contract of its own. `JsRunSemantics` states its behaviour, and `ExecJS` is tied to it. |
| `Executors.JsRunSemantics` | code/modules/laoban/src/executors.ts:194-207 | The code after `js:` runs in the command's directory with the command's env (or else the process env). `err` is null iff the chdir, the evaluation and the `toString` all succeed, and a value of undefined or null fails in `toString`. The one line written is the result on success. On failure it is `Error: <e> Command was [<commandString>]`. Both lines end in a newline. |
| `Executors.ExecJS` | code/modules/laoban/src/executors.ts:194-207 | Always resolves, with `err` null or the thrown value. Writes exactly one line to the unit's streams. Leaves the working directory and the environment as they were; the directory is changed and restored by the `ExecuteInChangedDir` method. |
| `Executors.StreamLog.WriteTo` | code/modules/laoban/src/executors.ts:200 | One write of the data to the unit's streams is recorded. |

## Left out

- Process spawning in `execInSpawn` (executors.ts:151-174) is left out. This
  covers starting the shell child, piping stdout and stderr into the
  streams, and the synchronous-spawn error path. Only the mapping from the
  close code to `err` is modelled: as written in `ExecInSpawnResult`, and
  corrected in `ExecInSpawnResultCorrected`.
- Real JavaScript evaluation (`Function(...)`) is left out. The engine is an
  uninterpreted `JsRuntime`: it evaluates code to a value or a thrown error,
  and renders a thrown value as text. `writeTo` is a recorded write to a
  list of stream ids.
- Wall-clock durations are left out. `new Date()` in `timeIt` and
  `executeScript` reads the clock, so `duration` is dropped from
  `ShellResult` and `ScriptResult`.
- The `debug` and `s.k` tracing in `executeScript` and `make`, and the
  `console.error(e)` logging of each rejection in `copyFiles`
  (fileOps.ts:202), are left out, because they do not change results.
- Functions of modules outside this model are parameters with no
  properties assumed, except `flatten` and `writeTo` (below):
  - `path.join`, the `derefence` and `dollarsBracesVarDefn` variable
    syntax, and `cleanUpEnv`;
  - the digest;
  - the decorators of `make` and their composition (the `chain` that `make`
    uses comes from a module not shown, so no wrap order is stated).
- `safeArray` comes from a module not shown; it is taken to map `undefined`
  to `[]`.
- laoban's own `flatten` (imported by `executors.ts` from its local `utils`
  module, which is not part of this model) is taken to be `Utils.Flatten`,
  the in-order concatenation of `code/modules/utils/src/utils.ts`.
  `Executors.BuildShellCommandDetails` and `Executors.ExecuteScript` use it,
  and their lemmas rest on its properties. laoban's `writeTo`, from the same
  module, is taken to append one write to the unit's streams
  (`Executors.StreamLog.WriteTo`).
- `streamName` is left out. It only projects the fields of a script in
  context into `streamNamefn`, and the config is untyped.
- `fileOpsStats` and `emptyFileOps` (fileOps.ts:58-71, 133-143) are left out,
  because they are not part of the wrappers' behaviour.
- Utils.MapK: `Promise.all` rejects with the earliest rejection in time.
  The model takes the first rejection in input order.
  `FileOps.FindMatchingK`, `FileOps.CopyAll` and
  `Executors.ExecuteOneGeneration` inherit this reading.
- FileOps.Children: `listFiles` and `isDirectory` are read off an abstract
  finite tree, so neither rejects. A file lists nothing, and the concurrent
  `Promise.all` over the children is sequential.
- FileOps.FileStore: which saves and which directory creations fail is a
  fixed rule of the store, `canSave` and `canCreateDir`. It is not derived
  from the directories present, so a save is not tied to its directory
  having been created. The directory name `createDir` resolves with is
  dropped, and a rejected write leaves no partial file.
- FileOps.CopyFiles: the copies run one after the other rather than
  concurrently, so a file copied twice ends with its last copy.
- FileOps.OpsShape: which wrapper markers an ops carries is modelled over a
  descriptor of how it was built. The classes model a single wrapper over
  the store; a metered ops over a cached ops is not a class.
- Executors.ExecuteScript: `buildShellCommandDetails` throwing
  synchronously and a rejected promise are both a `Failure`.
- `Executors.Make` is not wired to `ExecJS`. `ExecJS` changes process state,
  so it is a method and cannot be passed as the executor function `make`
  expects.
- `Executors.ExecJS` performs the environment change of
  `executeInChangedEnv` itself, around a call of the `ExecuteInChangedDir`
  method, because Dafny cannot pass a method as the block of another method.
  `Executors.ExecuteInChangedEnv` states the same change on its own, for a
  block given as a function.
- Executors.Process.Chdir: a chdir that fails while restoring the old
  directory is excluded. The process's own directory is required to be an
  enterable one.
- The copy of `streamNamefn` in `code/modules/laoban/src/executors.spec.ts`
  replaces only `/`. The model follows `executors.ts`.
- Files.ts, files.ts, newTemplate.ts and the admin CLI and tests are not part
  of this model: they are file-system, fetch and process plumbing.

## Findings

| source | as written | input that shows it | evidently intended | confidence | as-written member | corrected member |
|---|---|---|---|---|---|---|
| code/modules/laoban/src/executors.ts:168 | `err: code == 0 ? null : code` in the child's `close` handler | a child killed by a signal closes with `code` null; `null == 0` is false, so `err` is `code`, which is null — the same as a clean exit | `err` is null only for exit code 0, and a signalled child reports an error | medium (not executed) | `Executors.KilledChildLooksSuccessful` | `Executors.SpawnCloseResultIsNullExactlyOnZero` |
