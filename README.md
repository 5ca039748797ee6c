# detekt-maven-plugin argument builder, in Dafny

This project models the argument builder of the detekt Maven plugin (`DetektMojo`). The builder
turns the mojo's configuration into the ordered list of command-line tokens that the detekt CLI
receives. It has two parts:

- `buildCLIString` with its helper `useIf`. Fourteen options are appended, when set, in a fixed
  order. A true boolean adds its flag. A non-empty string adds its flag and then the string. A
  non-empty filter list adds `--filters` and then the filters joined with `;`. A non-empty plugin
  list adds `--plugins` and then the value computed by `buildPluginPaths`.
- `buildPluginPaths`. A plugin entry that names an existing file or directory is kept verbatim. Any other
  entry is compared with the `groupId:artifactId` of each dependency declared on the plugin. Each
  match becomes a jar path in the local Maven repository. Every path is followed by `;`, and one
  trailing `;` is removed at the end.

Files:

- `wrappers.dfy` holds `Option`, which stands for Kotlin's nullable values.
- `strings.dfy` (module `Strings`) holds the Kotlin standard-library operations the builder uses:
  `joinToString`, `removeSuffix` and a one-character `replace`. It also holds `Split`, the inverse
  of the join, and `Terminated`, the "append, then append `;`" form a `StringBuilder` produces.
- `mojo.dfy` (module `DetektMojo`) holds the rest:
  - the option record `Parameters` and a `Dependency` record;
  - the resolver, as functions (`Resolved`, `ResolvedAll`, `PluginPathsValue`) and as the looping
    method `BuildPluginPaths` proved against them;
  - the `ArgList` class, whose `UseIf` method appends to its token sequence in place;
  - `BuildCLIString`, proved against the option table `Table` and its token list `Args`.

The file-exists test is a parameter `fileExists: string -> bool`. The dependencies of the plugin
descriptor are `pluginDependencies: Option<seq<Dependency>>`. `None` covers both an absent project
and an absent plugin descriptor.

The flag constants (`HELP`, `CONFIG`, `PLUGINS`, …) are used in `DetektMojo.kt` without
qualification and without an import, so they are top-level declarations of the package
`com.github.ozsie` in another file, which is not part of this model. The spellings given to them
here are chosen for readability. No proof depends on them, only on the constants being pairwise
different (`FlagsDistinct`).

Kotlin evaluates `useIf`'s vararg arguments before the call. So `buildPluginPaths()` runs even
when the plugin list is empty, and `BuildCLIString` calls `BuildPluginPaths` unconditionally, just
before the last `UseIf`. The flags are emitted in the fixed order the code uses.

## Model

| member | source | states |
|---|---|---|
| Strings.Split | src/main/java/com/github/ozsie/DetektMojo.kt:82 | splitting at `;` yields one piece more than there are separators, and no piece contains the separator |
| Strings.SplitJoin | src/main/java/com/github/ozsie/DetektMojo.kt:82 | splitting `joinToString(";")` of a non-empty list whose elements contain no `;` gives the list back |
| Strings.JoinSplit | src/main/java/com/github/ozsie/DetektMojo.kt:82 | joining the pieces of any split gives the original string back |
| Strings.JoinWith | src/main/java/com/github/ozsie/DetektMojo.kt:82 | `joinToString(sep)`: the elements in order with `sep` between neighbours; `Split` undoes it (`SplitJoin`, `JoinSplit`) |
| Strings.JoinTwoFilters | src/main/java/com/github/ozsie/DetektMojo.kt:82 | the filters `["a", "b"]` join to `"a;b"` |
| Strings.RemoveSuffix | src/main/java/com/github/ozsie/DetektMojo.kt:108 | `removeSuffix` returns the string unchanged, or the string with the suffix cut off once, and then it is strictly shorter |
| Strings.RemoveAppendedSuffix | src/main/java/com/github/ozsie/DetektMojo.kt:108 | removing a suffix that was just appended gives back the original string |
| Strings.ReplaceChar | src/main/java/com/github/ozsie/DetektMojo.kt:99 | `replace(".", "/")` on a group id, character by character; its meaning is stated by `ReplaceCharPointwise` |
| Strings.ReplaceCharPointwise | src/main/java/com/github/ozsie/DetektMojo.kt:99 | `replace(".", "/")` keeps the length, turns every `.` into `/`, leaves every other character in place, and leaves no `.` behind |
| Strings.Terminated | src/main/java/com/github/ozsie/DetektMojo.kt:93-104 | the `StringBuilder` content after `append(x).append(";")` for each x in turn; `TerminatedIsJoinThenSeparator`, `StripTerminator` and `TerminatedConcat` relate it to the join |
| Strings.TerminatedIsJoinThenSeparator | src/main/java/com/github/ozsie/DetektMojo.kt:104 | appending each path followed by `;` equals joining with `;` and adding one `;`, for a non-empty list |
| Strings.StripTerminator | src/main/java/com/github/ozsie/DetektMojo.kt:104-108 | removing the trailing `;` from the builder's content yields exactly the paths joined with `;`, and `""` when there are none |
| Strings.TerminatedConcat | src/main/java/com/github/ozsie/DetektMojo.kt:91-107 | the builder's content for two runs of appends is the concatenation of the two |
| DetektMojo.Defaults | src/main/java/com/github/ozsie/DetektMojo.kt:16-62 | the mojo's field defaults, with `${basedir}` and `${settings.localRepository}` already interpolated; `DefaultArgs` states the command line they give |
| DetektMojo.Coordinate | src/main/java/com/github/ozsie/DetektMojo.kt:96 | the string `groupId:artifactId` an entry is compared with; `MatchingSelects` states the filter in its terms |
| DetektMojo.JarPath | src/main/java/com/github/ozsie/DetektMojo.kt:98-102 | the jar path `repo/<groupId with . as />/artifactId/version/artifactId-version.jar`; `ReplaceCharPointwise`, `JarPaths`, `NonFileEntry` and `JarPathExample` state its use and shape |
| DetektMojo.Resolved | src/main/java/com/github/ozsie/DetektMojo.kt:92-97 | what one plugin entry contributes; `ExistingFileKeptVerbatim`, `NonFileEntry` and `NoneMatches` state both branches |
| DetektMojo.ResolvedAll | src/main/java/com/github/ozsie/DetektMojo.kt:91-107 | the contributions of all entries, in entry order; `ResolvedAllSnoc`, `ResolvedAllConcat`, `AllFilesKeptVerbatim` and `ResolvedPathOrigin` state its properties |
| DetektMojo.PluginPathsValue | src/main/java/com/github/ozsie/DetektMojo.kt:89-108 | the value of `buildPluginPaths()`: the resolved paths joined with `;`; `BuildPluginPaths` is proved equal to it and `TwoPathsJoined` states its shape |
| DetektMojo.Matching | src/main/java/com/github/ozsie/DetektMojo.kt:96 | the coordinate filter returns no more dependencies than were declared |
| DetektMojo.MatchingSelects | src/main/java/com/github/ozsie/DetektMojo.kt:96 | the filter keeps exactly the dependencies whose `groupId:artifactId` equals the entry, each as many times as it is declared, and drops the rest |
| DetektMojo.MatchingConcat | src/main/java/com/github/ozsie/DetektMojo.kt:96-97 | the filter keeps dependency order |
| DetektMojo.JarPaths | src/main/java/com/github/ozsie/DetektMojo.kt:97-104 | each matching dependency yields exactly one path, `JarPath` of it, in dependency order |
| DetektMojo.JarPathExample | src/main/java/com/github/ozsie/DetektMojo.kt:98-102 | dependency `g.h:a:1` under repository `r` resolves to `r/g/h/a/1/a-1.jar` |
| DetektMojo.BuildPluginPaths | src/main/java/com/github/ozsie/DetektMojo.kt:89-108 | the two nested loops over the entries and the matching dependencies build each path followed by `;`; after `removeSuffix` the result is exactly the resolved paths joined with `;` |
| DetektMojo.AppendPath | src/main/java/com/github/ozsie/DetektMojo.kt:104 | one more matching dependency appends its path and one `;` to the builder |
| DetektMojo.ResolvedAllSnoc | src/main/java/com/github/ozsie/DetektMojo.kt:91 | handling one more entry appends that entry's contribution |
| DetektMojo.ResolvedAllConcat | src/main/java/com/github/ozsie/DetektMojo.kt:91 | entries contribute in entry order |
| DetektMojo.ExistingFileKeptVerbatim | src/main/java/com/github/ozsie/DetektMojo.kt:92-93 | an entry that is an existing file contributes itself and nothing else, whatever dependencies are declared |
| DetektMojo.AllFilesKeptVerbatim | src/main/java/com/github/ozsie/DetektMojo.kt:91-93 | when every entry is an existing file, the resolved paths are the entries themselves, in order |
| DetektMojo.NonFileEntry | src/main/java/com/github/ozsie/DetektMojo.kt:94-97 | a non-file entry contributes nothing when no plugin descriptor exists or no dependency matches; otherwise it contributes one jar path per match, in order |
| DetektMojo.NothingResolves | src/main/java/com/github/ozsie/DetektMojo.kt:90-97 | without a plugin descriptor, entries that are not files resolve to nothing, and no error is raised |
| DetektMojo.ResolvedPathOrigin | src/main/java/com/github/ozsie/DetektMojo.kt:89-107 | every resolved path is either an entry that is an existing file, or the jar path of a declared dependency whose coordinate is a non-file entry |
| DetektMojo.TwoPathsJoined | src/main/java/com/github/ozsie/DetektMojo.kt:104-108 | two contributed paths P1 and P2 give the value `P1;P2` with no trailing separator |
| DetektMojo.Tokens | src/main/java/com/github/ozsie/DetektMojo.kt:110 | what one `useIf` call appends: nothing when its condition is false, else its values in order; `TokenCount` and `ArgList.UseIf` state it |
| DetektMojo.Entry | src/main/java/com/github/ozsie/DetektMojo.kt:73-86 | the k-th `useIf` call of the chain, as flag, condition and value; `TableFlags` and `TableSpelledOut` state the table it builds |
| DetektMojo.CliArgs | src/main/java/com/github/ozsie/DetektMojo.kt:72-87 | the tokens `buildCLIString()` returns; `BuildCLIString` is proved equal to it and `ArgCount`, `FlagCounts`, `TokensAtOffset`, `OptionsInOrder`, `FiltersToken`, `PluginsToken` and `DefaultArgs` state its properties |
| DetektMojo.Table | src/main/java/com/github/ozsie/DetektMojo.kt:73-86 | the fourteen options, in source order, each with the flag, the condition and the value of its `useIf` call |
| DetektMojo.TableFlags | src/main/java/com/github/ozsie/DetektMojo.kt:73-86 | option k of the table carries the k-th flag of the fixed order help, create-baseline, …, plugins |
| DetektMojo.ArgList.constructor | src/main/java/com/github/ozsie/DetektMojo.kt:72 | a new list holds no tokens |
| DetektMojo.ArgList.UseIf | src/main/java/com/github/ozsie/DetektMojo.kt:110 | `useIf(w, v1..vn)` appends exactly `v1..vn`, in order, when `w` holds, and otherwise leaves the list unchanged; either way it returns the same list |
| DetektMojo.BuildCLIString | src/main/java/com/github/ozsie/DetektMojo.kt:72-87 | the chain of fourteen `useIf` calls on a fresh list produces exactly `CliArgs`, the tokens of the option table |
| DetektMojo.TableSpelledOut | src/main/java/com/github/ozsie/DetektMojo.kt:73-86 | the table's tokens are the fourteen conditional appends, in source order |
| DetektMojo.EmittedPrefix | src/main/java/com/github/ozsie/DetektMojo.kt:73-86 | the tokens of the first n options are a prefix of the tokens of the first m ≥ n options |
| DetektMojo.TokensAtOffset | src/main/java/com/github/ozsie/DetektMojo.kt:73-86 | option k's tokens occupy exactly the positions from its offset to the next option's offset |
| DetektMojo.OptionsInOrder | src/main/java/com/github/ozsie/DetektMojo.kt:73-86 | all tokens of an earlier option come before all tokens of a later one |
| DetektMojo.OffsetStep | src/main/java/com/github/ozsie/DetektMojo.kt:73-86 | option k's tokens start where those of option k-1 end |
| DetektMojo.NotATokenOf | src/main/java/com/github/ozsie/DetektMojo.kt:73-86 | a string that is neither the flag nor an emitted value of any of the first n options has count zero in their tokens |
| DetektMojo.FlagOccurrences | src/main/java/com/github/ozsie/DetektMojo.kt:73-86 | when no two options share a flag and no emitted value is a flag, option k's flag is counted once among the tokens if the option is on and never if it is off |
| DetektMojo.FlagsDistinct | src/main/java/com/github/ozsie/DetektMojo.kt:73-86 | the fourteen flags are pairwise different |
| DetektMojo.TableFlagsDistinct | src/main/java/com/github/ozsie/DetektMojo.kt:73-86 | no two options of the table share a flag |
| DetektMojo.TableKeepsValuesApart | src/main/java/com/github/ozsie/DetektMojo.kt:79-86 | when no configured value spells a flag, no emitted value of the table equals a flag |
| DetektMojo.CountIsOccurrences | src/main/java/com/github/ozsie/DetektMojo.kt:73-86 | the option-by-option count of a string is its number of occurrences in the tokens of those options |
| DetektMojo.TokenCount | src/main/java/com/github/ozsie/DetektMojo.kt:110 | one option's tokens hold a string once per match with its flag (when on) and once per match with its value (when on and valued) |
| DetektMojo.FlagCounts | src/main/java/com/github/ozsie/DetektMojo.kt:73-86 | each flag occurs in the command line exactly once when its option is set, and not at all when it is false or empty |
| DetektMojo.FirstSwitchTokens | src/main/java/com/github/ozsie/DetektMojo.kt:73-75 | help, create-baseline and debug add one token each when true, and none when false |
| DetektMojo.LastSwitchTokens | src/main/java/com/github/ozsie/DetektMojo.kt:76-78 | disable-default-rulesets, generate-config and parallel add one token each when true, and none when false |
| DetektMojo.FirstValuedTokens | src/main/java/com/github/ozsie/DetektMojo.kt:79-82 | baseline, config, config-resource and filters add two tokens each when non-empty, and none when empty |
| DetektMojo.LastValuedTokens | src/main/java/com/github/ozsie/DetektMojo.kt:83-86 | input, output, output-name and plugins add two tokens each when non-empty, and none when empty |
| DetektMojo.ArgCount | src/main/java/com/github/ozsie/DetektMojo.kt:73-86 | the command line has (number of true booleans among the six) + 2 × (number of non-empty options among the eight) tokens |
| DetektMojo.FiltersToken | src/main/java/com/github/ozsie/DetektMojo.kt:82 | a non-empty filter list puts `--filters` at its own offset, followed by the filters joined with `;`; splitting that token at `;` returns the filters when none of them contains `;` |
| DetektMojo.PluginsToken | src/main/java/com/github/ozsie/DetektMojo.kt:86 | with plugin entries configured, the command line ends with `--plugins` followed by the resolved paths joined with `;` |
| DetektMojo.NoneMatches | src/main/java/com/github/ozsie/DetektMojo.kt:91-97 | with a plugin descriptor declared, entries that are not files and that no declared dependency matches resolve to nothing: a mistyped coordinate is dropped without an error |
| DetektMojo.EmptyPluginsValue | src/main/java/com/github/ozsie/DetektMojo.kt:86-108 | when plugin entries are configured but none resolves, whether for lack of a descriptor or for lack of a match, `--plugins` is still emitted, with an empty value token |
| DetektMojo.DefaultArgs | src/main/java/com/github/ozsie/DetektMojo.kt:43-47 | with nothing configured, the command line is exactly `--input <basedir>/src --output <basedir>/detekt` |

## Left out

- `execute()` (lines 64-70) is not part of this model. It hands the tokens to detekt's `parseArguments`, `ConfigExporter` and `Runner`, which are library calls whose code is not available here.
- `File(plugin).exists()` is file-system I/O. It is the parameter `fileExists`, which holds for an existing file or an existing directory alike; "existing file" below means either.
- `mavenProject?.getPlugin(...)?.dependencies` is the Maven project API. It is the field `pluginDependencies`, with `None` for an absent project or descriptor.
- `log.info` and `toTypedArray()` are left out: the first is logging only, and the second only changes the list into an array. The model returns the token `seq`.
- Maven's parameter injection and its `${basedir}` and `${settings.localRepository}` interpolation are done by the build tool. `Defaults` takes the interpolated strings as arguments.
- The values of the flag constants are declared in another file of the package `com.github.ozsie`, which is not part of this model. The spellings in the model are chosen; only their distinctness (`FlagsDistinct`) is used.
- `replace(".", "/")` replaces a one-character string with another. `ReplaceChar` models it on characters, which gives the same result for one-character arguments.
- FlagCounts: assumes no configured value, and neither the joined filters nor the plugin value, spells a flag name. The source does not check this. A baseline path `--debug`, for example, would make `--debug` occur twice.
- Strings.SplitJoin: requires that no filter contains `;`. A filter with a `;` in it cannot be recovered from the joined token, and the source does not guard against this.
