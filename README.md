# vswhere query builder, in Dafny

This project models the Go package `vswhere`. The package locates Visual Studio installations by running Microsoft's
`vswhere.exe` locator. The model covers three parts:

- **The query builder.** Each `With*` option sets one field of a `searchOptions` record. `Find` applies the options
  left to right to the zero record. It then grows the argument vector for `vswhere.exe` flag by flag, in one fixed
  order, and always ends it with `-format json`.
- **The classification `run` performs.** A process that exited non-zero becomes an error carrying its standard
  error. Any other failure to run is wrapped. Output that does not decode is an error. Only a clean exit with decoded
  output yields records.
- **The selection rule of `Get`.** `Get` queries with `-path <path> -format json` and passes errors through
  unchanged. An empty answer becomes an error naming the path. Otherwise the result is the first record.

Files:

- `vswhere.dfy` (module `VsWhere`) holds the records, the options, `Apply`/`ApplyAll`, the specification function
  `Render`, the imperative `BuildArgs` and `Find` methods, `Run`, `Message` and `Get`.
- `option_lemmas.dfy` (module `OptionLemmas`) proves how a sequence of options builds the record.
- `render_lemmas.dfy` (module `RenderLemmas`) proves what the argument vector looks like.
- `render_inverse.dfy` (module `RenderInverse`) defines a reading of the vector back into a record. It proves that
  reading undoes rendering for every well-formed record, so no two well-formed records render alike.
- `get_lemmas.dfy` (module `GetLemmas`) proves what `Get` returns when the locator answers consistently from one set
  of installations.

Running the locator is a parameter: `vswhere: seq<string> -> ProcessOutcome` maps the argument vector to what the
process produced. `ProcessOutcome` is one of three cases: a non-zero exit with its standard error, any other
failure, or a clean exit with the decoded output. The decoded output is either a sequence of installations or a
decoding error.

A record is *well-formed* when no product, requirement or version string is spelled like one of the flags
(`-all`, …, `-legacy`, `-format`). The package passes values into the vector verbatim. So only for such records
does every occurrence of a flag's spelling in the vector stand for that flag. `RenderNotInjectiveWithFlagValues`
shows two different records that render to the same vector otherwise.

## Model

| member | source | states |
|---|---|---|
| VsWhere.ApplyAll | vswhere.go:138-141 | The record `Find` builds: the options applied left to right to the zero value `VsWhere.ZeroValue`. Its meaning is given by `VsWhere.Find` (the loop computes it), `OptionLemmas.LastSetterWins`, `OptionLemmas.UnwrittenFieldKeepsZeroValue` and `OptionLemmas.SwapDistinctNeighbours`. |
| VsWhere.Render | vswhere.go:143-170 | The argument vector `Find` renders for a record. Its meaning is given by `VsWhere.BuildArgs` (the appends compute it), the `RenderLemmas` rows (ends with `-format json`, fixed flag order, flag present iff enabled, values verbatim) and `RenderInverse.ReadRender` (nothing is lost). |
| RenderLemmas.ZeroValueEnablesNothing | vswhere.go:138 | The zero value of `searchOptions` (`VsWhere.ZeroValue`), where `Find` starts, enables no field's flag. |
| VsWhere.Apply | vswhere.go:86-133 | An option closure writes exactly its own field, with the value it captured, and leaves every other field as it was. |
| VsWhere.Find | vswhere.go:137-172 | The loop applies the options left to right to the zero record. The result is `run`'s classification of what the locator does with the rendered vector of that record. |
| VsWhere.BuildArgs | vswhere.go:143-170 | Growing the vector with the conditional appends yields exactly `Render` of the record. |
| VsWhere.AppendFlag | vswhere.go:144-149 | A boolean step appends its flag exactly when the field is true. |
| VsWhere.AppendList | vswhere.go:150-157 | A list step appends the flag and then the values exactly when the list is non-empty. |
| VsWhere.AppendVersion | vswhere.go:161-163 | The version step appends `-version` and the range exactly when the range is non-empty. |
| VsWhere.PathArgs | vswhere.go:177 | `Get`'s vector has four words: `-path`, then the path, then `-format json`. |
| VsWhere.Run | vswhere.go:199-212 | Records are returned iff the process exited cleanly and its output decoded, and then they are exactly the decoded records. A non-zero exit gives `ToolFailed` with standard error, another failure gives `ExecFailed`, and a decoding failure gives `DecodeFailed`, each keeping the cause. |
| VsWhere.Message | vswhere.go:182-210 | The four `Errorf` formats (line 182 for `NotFound`, lines 201, 203 and 210 for `run`): every error message ends with the error's detail (standard error, cause or path), unaltered. |
| VsWhere.Get | vswhere.go:176-185 | `Get` queries with `-path <path> -format json`. An error from the run is returned unchanged, an empty answer gives `NotFound(path)`, and otherwise the first record is returned. |
| OptionLemmas.LaterOptionOverrides | vswhere.go:139-141 | Of two options for the same field, the later one alone decides the record. |
| OptionLemmas.DistinctOptionsCommute | vswhere.go:139-141 | Two options for different fields give the same record in either order. |
| OptionLemmas.LastSetterWins | vswhere.go:138-141 | The last option that writes a field decides that field, whatever came before it. |
| OptionLemmas.UnwrittenFieldKeepsZeroValue | vswhere.go:138-141 | A field that no option writes keeps its zero value. |
| OptionLemmas.SwapDistinctNeighbours | vswhere.go:139-141 | Swapping neighbouring options for different fields anywhere in the list leaves the record unchanged. |
| RenderLemmas.EndsWithFormatJson | vswhere.go:170 | Every rendered vector ends with `-format`, `json`, whatever the options. |
| RenderLemmas.NoOptionsRenderFormatOnly | vswhere.go:138-170 | With no options the vector is exactly `-format json`. |
| RenderLemmas.FlagsPartKeywords | vswhere.go:144-169 | For a well-formed record, the flags before `-format` are the enabled fields' flags in the fixed order `-all`, `-prerelease`, `-products`, `-requires`, `-requiresAny`, `-version`, `-latest`, `-legacy`. |
| RenderLemmas.FlagsInFixedOrder | vswhere.go:143-170 | For a well-formed record, the flags of the whole vector are those enabled flags in the fixed order, followed by `-format`. |
| RenderLemmas.EnabledFlagPresent | vswhere.go:144-169 | An enabled field's flag is in the vector, for any record. |
| RenderLemmas.FlagPresentIff | vswhere.go:144-169 | For a well-formed record, a field's flag is in the vector iff the field enables it. Booleans enable when true, lists when non-empty, and the version when non-empty. |
| RenderLemmas.FormatOnlyAtEnd | vswhere.go:170 | For a well-formed record, `-format` occurs nowhere but in the final pair. |
| RenderLemmas.ProductsFollowFlag | vswhere.go:150-153 | A non-empty product list occurs right after `-products`, verbatim and in order. |
| RenderLemmas.RequiresFollowFlag | vswhere.go:154-157 | A non-empty requirement list occurs right after `-requires`, verbatim and in order. |
| RenderLemmas.VersionFollowsFlag | vswhere.go:161-163 | A non-empty version range is the word right after `-version`, unvalidated. |
| RenderLemmas.ArgsIgnoreOptionOrder | vswhere.go:138-170 | Reordering neighbouring options for different fields does not change the rendered vector. |
| RenderInverse.ReadRender | vswhere.go:143-170 | Reading the vector of a well-formed record gives that record back. |
| RenderInverse.RenderInjective | vswhere.go:143-170 | Two well-formed records with the same vector are equal. |
| RenderInverse.RenderNotInjectiveWithFlagValues | vswhere.go:150-157 | Without well-formedness, a product list holding `-requires` renders like a product list plus a requirement list. |
| GetLemmas.GetFindsEveryInstall | vswhere_test.go:30-34 | When the locator answers path queries from a set of installations with distinct paths, `Get` at any installation's path returns that installation. |
| GetLemmas.GetAbsentPathNamesIt | vswhere.go:181-183 | When no installation has the path, `Get` fails with `NotFound(path)`, and its message ends with the path. |
| GetLemmas.GetOkIffRecords | vswhere.go:177-185 | For any locator, `Get` succeeds iff the path query yields at least one record. An error of the run is returned as it is. |

## Left out

- Running the process, with `exec.CommandContext`, `cmd.Run` and the stdout/stderr buffers (vswhere.go:195-204), is operating-system I/O. It is the `vswhere` parameter.
- Resolving the locator's path from `ProgramFiles(x86)` with `filepath.Join` (vswhere.go:188-193) depends on the environment.
- JSON decoding with `encoding/json` (vswhere.go:206-211) is a foreign library. Its outcome is part of `ProcessOutcome`.
- `Installation` keeps six identifying string fields. `InstallDate` (`time.Time`), `State`, `Catalog`, `Properties` and the remaining pass-through fields (vswhere.go:22-73) carry no logic.
- The `context.Context` argument, with cancellation and timeouts, is a runtime concern and is not modelled.
- Go's error wrapping with `%w` is reduced to the message text and its cause. The zero `Installation{}` returned alongside an error is not modelled; `Result` carries either a value or an error.
- Go distinguishes a nil slice from an empty one. Both are the empty sequence here; the source only tests their length.
- Rendering is deterministic because Dafny functions are. No separate lemma states it.
- A nil `Option` in the options makes `o(&searchOpts)` panic (vswhere.go:140). The `Option` datatype has no nil value, so the model does not capture that panic.
- `WithProducts` and `WithRequires` store the caller's slice, not a copy (vswhere.go:102, 109). A caller that changes the slice's elements after building the option, and before calling `Find`, changes the rendered vector. The model's `Option` holds an immutable sequence, so it does not capture this aliasing.
- Go strings and the standard-error buffer are bytes (`string(stderr.Bytes())`, vswhere.go:201). Dafny's `string` is a sequence of Unicode characters. So the model carries standard error, causes, paths and option values as character sequences, and does not capture bytes that are not valid UTF-8.
- RenderLemmas.FlagPresentIff: requires a well-formed record. A product list holding `-all` puts `-all` in the vector even when `all` is false, so the "only if" half fails without it.
- RenderLemmas.FlagsInFixedOrder: requires a well-formed record, because a value spelled like a flag adds that flag to the vector's flags.
- RenderLemmas.FlagsPartKeywords: requires a well-formed record, for the same reason as FlagsInFixedOrder.
- RenderLemmas.FormatOnlyAtEnd: requires a well-formed record, because a product named `-format` puts `-format` earlier in the vector.
- RenderInverse.ReadRender: requires a well-formed record, because a value spelled like a flag is read as that flag.
- RenderInverse.RenderInjective: requires well-formed records; RenderInverse.RenderNotInjectiveWithFlagValues shows two other records that render alike.
- GetLemmas.GetFindsEveryInstall: assumes a locator that answers consistently from one set of installations with distinct paths. The test at vswhere_test.go:22-35 relies on the real `vswhere.exe` for that.
