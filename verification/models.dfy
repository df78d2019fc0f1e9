/** `genModels`: which tables get a model, and one model slot per table in order. The
    migrator's table listing and the generator's per-table options are inputs; what
    `GenerateModel` builds inside a slot belongs to the generator library. */
module Models {
  import opened Wrappers

  /** The error `genModels` wraps around a failed `Migrator().GetTables()`. */
  datatype GenError = MigratorFailed(cause: string)

  /** One entry of the returned `models`: the table it is generated from, and whether
      `GetModel` had method options for it (so it was generated `WithMethod(opt)`). */
  datatype ModelSlot = ModelSlot(table: string, withMethod: bool)

  /** The table list: an explicit non-empty list is used verbatim, an empty one asks
      the migrator for all tables. `allTables` is what `GetTables()` would return; it is
      consulted only when `tables` is empty. */
  function TableList(tables: seq<string>, allTables: Result<seq<string>, string>): (r: Result<seq<string>, GenError>)
    ensures |tables| > 0 ==> r == Success(tables)
    ensures |tables| == 0 ==> (r.Success? <==> allTables.Success?)
    ensures |tables| == 0 && r.Success? ==> r.value == allTables.value
    ensures |tables| == 0 && r.Failure? ==> r.error == MigratorFailed(allTables.error)
  {
    if |tables| == 0 then
      match allTables
      case Success(all) => Success(all)
      case Failure(e) => Failure(MigratorFailed(e))
    else Success(tables)
  }

  /** `genModels(g, db, tables)`: `customised` is the set of table names for which
      `g.GetModel` returns options. On success there is exactly one slot per listed
      table, slot `i` built from table `i`. */
  method GenModels(tables: seq<string>, allTables: Result<seq<string>, string>, customised: set<string>)
    returns (r: Result<seq<ModelSlot>, GenError>)
    ensures r.Failure? <==> |tables| == 0 && allTables.Failure?
    ensures r.Failure? ==> r.error == MigratorFailed(allTables.error)
    ensures r.Success? ==>
      var list := if |tables| > 0 then tables else allTables.value;
      && |r.value| == |list|
      && forall i :: 0 <= i < |list| ==>
           r.value[i].table == list[i] && (r.value[i].withMethod <==> list[i] in customised)
  {
    var listed := TableList(tables, allTables);
    if listed.Failure? {
      return Failure(listed.error);
    }
    var list := listed.value;
    var models: seq<ModelSlot> := [];
    var i := 0;
    while i < |list|
      invariant 0 <= i <= |list|
      invariant |models| == i
      invariant forall j :: 0 <= j < i ==>
        models[j].table == list[j] && (models[j].withMethod <==> list[j] in customised)
    {
      var name := list[i];
      if name in customised {
        models := models + [ModelSlot(name, true)];
      } else {
        models := models + [ModelSlot(name, false)];
      }
      i := i + 1;
    }
    return Success(models);
  }
}
