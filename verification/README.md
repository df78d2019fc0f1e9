# hinego/gen `boot.go` — a verified model of the command-line front end

`boot.go` is the front end of a gorm/gen code generator. It reads a YAML config
file and thirteen command-line flags and merges them into one `CmdParams`
(`ArgParse`). It checks the driver name and DSN before opening a gorm connection
(`Connect`). It picks the tables to generate and makes one model per table
(`genModels`). This project models those three pieces as pure Dafny functions
and one method:

- `wrappers.dfy` (`Wrappers`): `Option` (a Go nil pointer) and `Result` (a Go `(T, error)` pair).
- `split.dfy` (`Split`): Go's `strings.Split`/`strings.Join` for a one-character separator, proved to be inverse to each other.
- `connect.dfy` (`Connect`): the `DBType` constants, the four dialects and `Validate`, which is `Connect` up to the `gorm.Open` call.
- `params.dfy` (`Params`): `CmdParams`, the parsed `Flags`, the file layer, `Merge` and `ArgParse`, plus lemmas on how the layers take precedence.
- `models.dfy` (`Models`): `TableList` and the `GenModels` loop.

The precedence rules are uneven, and the lemmas pin them down:
- String flags override only when non-empty.
- `-outPath` overrides only when it differs from `DefaultOutPath`. So with no file and the flag at its default, the merged `outPath` is "", not "./dao/query".
- Boolean flags can switch a field on but never off.
- `-db` defaults to "mysql", so a file's `db` survives only if `-db ""` is passed.
- A non-empty `-tables` replaces the file's list with its comma split.

Two consequences of the code are worth stating:
- With no `-c`, a failed load or a nil `database`, `ArgParse` starts from the zero `CmdParams` (boot.go:126-131). Only the `-db` default ("mysql") brings a default value back; `outPath` is "./dao/query" only when the file says so.
- `CmdParams.DB` is a free string; `Connect` rejects unknown names (boot.go:66-67).

## Model

| member | source | states |
|---|---|---|
| Split.Split | boot.go:139-141 | the split of the `-tables` value: one piece more than there are commas, no piece holds a comma, and joining the pieces with "," gives back the flag text |
| Split.SplitJoin | boot.go:140 | the other half of the round trip: splitting the comma-join of any non-empty list of comma-free names gives back that list |
| Connect.ParseDialect | boot.go:57-66 | the `switch t` selects a dialect exactly when `t` is one of the four `DBType` constants, and the dialect selected is the one whose constant is `t` |
| Connect.NameRoundTrip | boot.go:19-25 | each dialect is selected by its own constant and by no other name |
| Connect.Validate | boot.go:53-69 | an empty DSN is refused with "dsn cannot be empty" whatever the driver name; with a non-empty DSN the unknown-db error (carrying the name) occurs exactly when the name is not mysql/postgres/sqlite/sqlserver; otherwise the dialect named is the one opened |
| Params.FileLayer | boot.go:127-131 | the file's parameters are used exactly when `-c` is non-empty and loading succeeded with a non-nil `database`, and then they are used unchanged |
| Params.Merge | boot.go:132-168 | per field: dsn/db/outFile/modelPkgName take the flag when it is non-empty, else the file's value (or ""); outPath takes the flag only when it differs from `DefaultOutPath`; a non-empty `-tables` becomes its comma split (joining back to the flag, commas + 1 entries), an empty one keeps the file's list; each boolean is file value OR flag |
| Params.ArgParse | boot.go:126-131 | with no `-c`, a failed load or a nil `database`, the flags are merged over no file; otherwise over the loaded parameters |
| Params.NoFileIsZeroFile | boot.go:126-131 | having no file behaves exactly like a file holding the all-zero `CmdParams` |
| Params.FlagsOverrideFile | boot.go:132-168 | every flag given a non-default value decides its field whatever the file says, for any two files |
| Params.FileDbSurvivesOnlyEmptyFlag | boot.go:136-138 | the file's `db` survives exactly when `-db` is "" or repeats it; with `-db` at its "mysql" default the result is "mysql" |
| Params.FlagsCannotClearBooleans | boot.go:142-168 | a boolean the file switched on stays on under any flags |
| Params.DefaultFlagsResult | boot.go:112-125 | with every flag at its default, the file comes through unchanged except that `db` becomes "mysql"; with no file the result is the zero parameters with `db` "mysql", so `outPath` is "" and not `DefaultOutPath` |
| Params.MergeIdempotent | boot.go:132-168 | merging the same flags over an already merged result changes nothing |
| Params.TablesFlagExample | boot.go:139-141 | `-tables "a,b,c"` yields exactly ["a", "b", "c"] whatever the file lists |
| Models.TableList | boot.go:73-82 | a non-empty table list is used verbatim and the migrator is not consulted; an empty list yields the migrator's tables, or the wrapped migrator error when listing fails |
| Models.GenModels | boot.go:72-94 | fails exactly when the list is empty and the migrator fails; otherwise returns one slot per table of the chosen list, slot i built from table i, with method options exactly when the generator has options for that table |

## Left out

- Command-line parsing by Go's `flag` package (boot.go:112-125): `Flags` holds the parsed values.
- `loadConfigFile` (boot.go:97-108): opening the file and YAML decoding are I/O plus a foreign decoder. Its outcome is the `Loaded` input, an error or the possibly-nil `database` object. The YAML `version` field is never read by the code.
- `gorm.Open` and the four driver packages (boot.go:59-65) are foreign calls. `Validate` returns the dialect that would be opened, and driver-side connection errors are not modelled.
- `Connect.Validate`: carries the driver name in `UnknownDb` but does not build the `%q`-formatted message text, because Go's string quoting is outside the model.
- `db.Migrator().GetTables()` (boot.go:76) is an input: a table list or an error message.
- `Generator.GetModel`, `GenerateModel`, `WithMethod` and `Execute` live in the generator library. A slot records only its table and whether method options were attached. Which tables have options is an input set.
- Split: only a one-character separator is modelled, since the code only ever splits on ",". Go's special case for an empty separator is not needed.
- Go strings are byte strings; the model uses `seq<char>`, which cannot hold invalid UTF-8. The code only tests strings for equality and emptiness and splits on the ASCII ",", so no behaviour depends on the difference.
- `examples/cmd/gen/generate.go` and `examples/main.go` are demo programs with no logic of their own.
