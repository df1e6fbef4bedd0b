/** Start-up seeding of the `storages` table. */
module Seeding {
  import opened Storages

  /** The three storages seeded into an empty table, in insertion order; their
      ids are generated on save. */
  function InitialStorages(): seq<Storage>
  {
    [ Storage(0, "Distribution Center Paris", "Rue de la Paix, Paris", 500, 250, DistributionCenter),
      Storage(0, "Warehouse Center Marseille", "Port de Marseille, Marseille", 300, 150, WarehouseCenter),
      Storage(0, "Distribution Center Lyon", "Avenue Charles de Gaulle, Lyon", 400, 200, DistributionCenter) ]
  }

  /** The seeded rows when the table's next generated id is `next`. */
  function SeededRows(next: int): seq<Storage>
  {
    seq(3, i requires 0 <= i < 3 => InitialStorages()[i].(id := next + i))
  }

  /** The table (rows and next generated id) after `seedInitialData`. */
  function Seed(rows: seq<Storage>, nextId: int): (seq<Storage>, int)
  {
    if |rows| == 0 then (SeededRows(nextId), nextId + 3) else (rows, nextId)
  }

  /** A non-empty table is left as it is; an empty one receives exactly the three
      storages (500, 250, distribution), (300, 150, warehouse), (400, 200,
      distribution), in that order, with consecutive generated ids. */
  lemma SeedContents(rows: seq<Storage>, nextId: int)
    ensures |rows| > 0 ==> Seed(rows, nextId) == (rows, nextId)
    ensures |rows| == 0 ==>
      var r := Seed(rows, nextId).0;
      && |r| == 3
      && (r[0].maxCapacity, r[0].currentCapacity, r[0].kind) == (500, 250, DistributionCenter)
      && (r[1].maxCapacity, r[1].currentCapacity, r[1].kind) == (300, 150, WarehouseCenter)
      && (r[2].maxCapacity, r[2].currentCapacity, r[2].kind) == (400, 200, DistributionCenter)
      && (forall i :: 0 <= i < 3 ==> r[i].id == nextId + i)
  {
  }

  /** Seeding twice leaves the same table as seeding once. */
  lemma SeedIdempotent(rows: seq<Storage>, nextId: int)
    ensures var (r, n) := Seed(rows, nextId); Seed(r, n) == Seed(rows, nextId)
  {
  }

  /** Every seeded storage holds between 0 and its maximum. */
  lemma SeededWithinCapacity(next: int)
    ensures forall i :: 0 <= i < |SeededRows(next)| ==>
      0 <= SeededRows(next)[i].currentCapacity <= SeededRows(next)[i].maxCapacity
  {
  }

  /** `seedInitialData`: counts the storages and, only when there are none,
      saves the initial storages one by one. */
  method SeedInitialData(repo: StorageRepository)
    requires repo.Valid()
    modifies repo
    ensures repo.Valid()
    ensures (repo.rows, repo.nextId) == Seed(old(repo.rows), old(repo.nextId))
  {
    var existing := repo.Count();
    if existing == 0 {
      var initial := InitialStorages();
      for i := 0 to |initial|
        invariant repo.Valid()
        invariant repo.rows == SeededRows(old(repo.nextId))[..i]
        invariant repo.nextId == old(repo.nextId) + i
      {
        var saved := repo.Insert(initial[i]);
        assert SeededRows(old(repo.nextId))[..i + 1] == SeededRows(old(repo.nextId))[..i] + [saved];
      }
      assert SeededRows(old(repo.nextId))[..3] == SeededRows(old(repo.nextId));
    }
  }
}
