/** `ArgParse`: the layered merge of an optional YAML file and thirteen command-line
    flags into one `CmdParams`. Flag parsing and file decoding are not modelled; their
    results are the inputs. */
module Params {
  import opened Wrappers
  import Split

  /** `DefaultOutPath`, also the default of the `-outPath` flag. */
  const DefaultOutPath: string := "./dao/query"

  /** The `-tables` flag is split on this character. */
  const TableSep: char := ','

  /** The generator's parameters; also the `database` object of the YAML file. */
  datatype CmdParams = CmdParams(
    dsn: string,
    db: string,
    tables: seq<string>,
    onlyModel: bool,
    outPath: string,
    outFile: string,
    withUnitTest: bool,
    modelPkgName: string,
    fieldNullable: bool,
    fieldWithIndexTag: bool,
    fieldWithTypeTag: bool,
    fieldSignable: bool)

  /** Go's zero `CmdParams`: what `ArgParse` starts from when no file is used. */
  const ZeroParams: CmdParams :=
    CmdParams("", "", [], false, "", "", false, "", false, false, false, false)

  /** The parsed command line: `-c` and one flag per parameter, `-tables` still unsplit. */
  datatype Flags = Flags(
    configPath: string,
    dsn: string,
    db: string,
    tables: string,
    onlyModel: bool,
    outPath: string,
    outFile: string,
    withUnitTest: bool,
    modelPkgName: string,
    fieldNullable: bool,
    fieldWithIndexTag: bool,
    fieldWithTypeTag: bool,
    fieldSignable: bool)

  /** The value of every flag when none is given on the command line. */
  const DefaultFlags: Flags :=
    Flags("", "", "mysql", "", false, DefaultOutPath, "", false, "", false, false, false, false)

  /** What `loadConfigFile` returns: an error, or the (possibly nil) `database` object. */
  type Loaded = Result<Option<CmdParams>, string>

  /** The file layer: the file's parameters are used only when `-c` names a path and
      loading it succeeded with a non-nil `database`. */
  function FileLayer(configPath: string, loaded: Loaded): (file: Option<CmdParams>)
    ensures file.Some? <==> configPath != "" && loaded.Success? && loaded.value.Some?
    ensures file.Some? ==> file.value == loaded.value.value
  {
    if configPath != "" && loaded.Success? then loaded.value else None
  }

  /** A string flag: `if *flag != "" { field = *flag }`. */
  function StringFlag(flag: string, current: string): string {
    if flag != "" then flag else current
  }

  /** A boolean flag: `if *flag { field = *flag }`, so it can only switch a field on. */
  function BoolFlag(flag: bool, current: bool): bool {
    if flag then flag else current
  }

  /** The command-line layer applied over the file layer (or over the zero parameters
      when there is no file), field by field; no flag's test reads
      another field, so `ArgParse`'s sequence of `if` updates is a single record built here. */
  function Merge(file: Option<CmdParams>, flags: Flags): (r: CmdParams)
    // strings override only when non-empty
    ensures r.dsn == (if flags.dsn != "" then flags.dsn else file.GetOr(ZeroParams).dsn)
    ensures r.db == (if flags.db != "" then flags.db else file.GetOr(ZeroParams).db)
    ensures r.outFile == (if flags.outFile != "" then flags.outFile else file.GetOr(ZeroParams).outFile)
    ensures r.modelPkgName ==
      (if flags.modelPkgName != "" then flags.modelPkgName else file.GetOr(ZeroParams).modelPkgName)
    // the output path overrides only when it differs from its default
    ensures r.outPath == (if flags.outPath != DefaultOutPath then flags.outPath else file.GetOr(ZeroParams).outPath)
    // a non-empty table list fully replaces the file's list with its comma split
    ensures flags.tables == "" ==> r.tables == file.GetOr(ZeroParams).tables
    ensures flags.tables != "" ==>
      && Split.Join(r.tables, TableSep) == flags.tables
      && |r.tables| == Split.Count(flags.tables, TableSep) + 1
      && Split.NoSep(r.tables, TableSep)
    // booleans can only be switched on
    ensures r.onlyModel == (file.GetOr(ZeroParams).onlyModel || flags.onlyModel)
    ensures r.withUnitTest == (file.GetOr(ZeroParams).withUnitTest || flags.withUnitTest)
    ensures r.fieldNullable == (file.GetOr(ZeroParams).fieldNullable || flags.fieldNullable)
    ensures r.fieldWithIndexTag == (file.GetOr(ZeroParams).fieldWithIndexTag || flags.fieldWithIndexTag)
    ensures r.fieldWithTypeTag == (file.GetOr(ZeroParams).fieldWithTypeTag || flags.fieldWithTypeTag)
    ensures r.fieldSignable == (file.GetOr(ZeroParams).fieldSignable || flags.fieldSignable)
  {
    var base := file.GetOr(ZeroParams);
    CmdParams(
      dsn := StringFlag(flags.dsn, base.dsn),
      db := StringFlag(flags.db, base.db),
      tables := if flags.tables != "" then Split.Split(flags.tables, TableSep) else base.tables,
      onlyModel := BoolFlag(flags.onlyModel, base.onlyModel),
      outPath := if flags.outPath != DefaultOutPath then flags.outPath else base.outPath,
      outFile := StringFlag(flags.outFile, base.outFile),
      withUnitTest := BoolFlag(flags.withUnitTest, base.withUnitTest),
      modelPkgName := StringFlag(flags.modelPkgName, base.modelPkgName),
      fieldNullable := BoolFlag(flags.fieldNullable, base.fieldNullable),
      fieldWithIndexTag := BoolFlag(flags.fieldWithIndexTag, base.fieldWithIndexTag),
      fieldWithTypeTag := BoolFlag(flags.fieldWithTypeTag, base.fieldWithTypeTag),
      fieldSignable := BoolFlag(flags.fieldSignable, base.fieldSignable))
  }

  /** `ArgParse` after `flag.Parse()`: the file named by `-c` (as loaded) under the flags. */
  function ArgParse(flags: Flags, loaded: Loaded): (r: CmdParams)
    ensures flags.configPath == "" ==> r == Merge(None, flags)
    ensures loaded.Failure? || loaded == Success(None) ==> r == Merge(None, flags)
    ensures flags.configPath != "" && loaded.Success? && loaded.value.Some? ==>
      r == Merge(Some(loaded.value.value), flags)
  {
    Merge(FileLayer(flags.configPath, loaded), flags)
  }

  /** A missing file, a failed load and a nil `database` all behave as a file holding the
      zero parameters. */
  lemma NoFileIsZeroFile(flags: Flags)
    ensures Merge(None, flags) == Merge(Some(ZeroParams), flags)
  {
  }

  /** Every flag given a non-default value decides its field whatever the file says; a
      boolean flag decides its field only when set. */
  lemma FlagsOverrideFile(file1: Option<CmdParams>, file2: Option<CmdParams>, flags: Flags)
    ensures flags.dsn != "" ==> Merge(file1, flags).dsn == Merge(file2, flags).dsn == flags.dsn
    ensures flags.db != "" ==> Merge(file1, flags).db == Merge(file2, flags).db == flags.db
    ensures flags.tables != "" ==>
      Merge(file1, flags).tables == Merge(file2, flags).tables == Split.Split(flags.tables, TableSep)
    ensures flags.outPath != DefaultOutPath ==>
      Merge(file1, flags).outPath == Merge(file2, flags).outPath == flags.outPath
    ensures flags.outFile != "" ==> Merge(file1, flags).outFile == Merge(file2, flags).outFile == flags.outFile
    ensures flags.modelPkgName != "" ==>
      Merge(file1, flags).modelPkgName == Merge(file2, flags).modelPkgName == flags.modelPkgName
    ensures flags.onlyModel ==> Merge(file1, flags).onlyModel && Merge(file2, flags).onlyModel
    ensures flags.withUnitTest ==> Merge(file1, flags).withUnitTest && Merge(file2, flags).withUnitTest
    ensures flags.fieldNullable ==> Merge(file1, flags).fieldNullable && Merge(file2, flags).fieldNullable
    ensures flags.fieldWithIndexTag ==>
      Merge(file1, flags).fieldWithIndexTag && Merge(file2, flags).fieldWithIndexTag
    ensures flags.fieldWithTypeTag ==>
      Merge(file1, flags).fieldWithTypeTag && Merge(file2, flags).fieldWithTypeTag
    ensures flags.fieldSignable ==> Merge(file1, flags).fieldSignable && Merge(file2, flags).fieldSignable
  {
  }

  /** The `-db` flag defaults to "mysql", so a file's `db` survives only when the flag is
      explicitly empty (or repeats the file's value). */
  lemma FileDbSurvivesOnlyEmptyFlag(p: CmdParams, flags: Flags)
    ensures Merge(Some(p), flags).db == p.db <==> flags.db == "" || flags.db == p.db
    ensures Merge(Some(p), flags.(db := DefaultFlags.db)).db == "mysql"
  {
  }

  /** A field the file switched on stays on whatever the boolean flags say. */
  lemma FlagsCannotClearBooleans(p: CmdParams, flags: Flags)
    ensures p.onlyModel ==> Merge(Some(p), flags).onlyModel
    ensures p.withUnitTest ==> Merge(Some(p), flags).withUnitTest
    ensures p.fieldNullable ==> Merge(Some(p), flags).fieldNullable
    ensures p.fieldWithIndexTag ==> Merge(Some(p), flags).fieldWithIndexTag
    ensures p.fieldWithTypeTag ==> Merge(Some(p), flags).fieldWithTypeTag
    ensures p.fieldSignable ==> Merge(Some(p), flags).fieldSignable
  {
  }

  /** With every flag at its default, the file is used as is except that `db` becomes
      "mysql"; with no file either, `outPath` is "" rather than `DefaultOutPath`. */
  lemma DefaultFlagsResult(p: CmdParams)
    ensures Merge(Some(p), DefaultFlags) == p.(db := "mysql")
    ensures Merge(None, DefaultFlags) == ZeroParams.(db := "mysql")
    ensures Merge(None, DefaultFlags).outPath == "" != DefaultOutPath
  {
  }

  /** Applying the same command line to an already merged result changes nothing. */
  lemma MergeIdempotent(file: Option<CmdParams>, flags: Flags)
    ensures Merge(Some(Merge(file, flags)), flags) == Merge(file, flags)
  {
  }

  /** `-tables "a,b,c"` yields the three tables in order, whatever the file lists. */
  lemma TablesFlagExample(file: Option<CmdParams>, flags: Flags)
    requires flags.tables == "a,b,c"
    ensures Merge(file, flags).tables == ["a", "b", "c"]
  {
    var parts := ["a", "b", "c"];
    assert Split.Join(parts, TableSep) == "a,b,c";
    Split.SplitJoin(parts, TableSep);
    Split.SplitJoin(Merge(file, flags).tables, TableSep);
  }
}
