/** The `storages` table: the Storage entity and the repository the storage
    service and the start-up seeder both work on. */
module Storages {
  import opened Wrappers

  datatype StorageType = DistributionCenter | WarehouseCenter

  /** One row of the `storages` table. */
  datatype Storage = Storage(
    id: int,
    name: string,
    location: string,
    maxCapacity: int,
    currentCapacity: int,
    kind: StorageType)

  /** Row ids are positive and pairwise distinct (the primary key). */
  ghost predicate UniqueIds(rows: seq<Storage>)
  {
    forall i, j :: 0 <= i < j < |rows| ==> rows[i].id != rows[j].id
  }

  /** The position of the row with primary key `id`, as `findOne({ where: { id } })`. */
  function IndexOfId(rows: seq<Storage>, id: int): (r: Option<nat>)
    ensures r.Some? ==> r.value < |rows| && rows[r.value].id == id
    ensures r.None? <==> forall i :: 0 <= i < |rows| ==> rows[i].id != id
  {
    if rows == [] then None
    else if rows[0].id == id then Some(0)
    else match IndexOfId(rows[1..], id)
      case None => None
      case Some(k) => Some(k + 1)
  }

  /** With distinct ids, looking a row up by its own id finds that row. */
  lemma IndexOfOwnId(rows: seq<Storage>, k: nat)
    requires UniqueIds(rows) && k < |rows|
    ensures IndexOfId(rows, rows[k].id) == Some(k)
  {
    if k > 0 {
      assert rows[0].id != rows[k].id;
      assert UniqueIds(rows[1..]) by {
        forall i, j | 0 <= i < j < |rows| - 1 ensures rows[1..][i].id != rows[1..][j].id {
          assert rows[i + 1].id != rows[j + 1].id;
        }
      }
      IndexOfOwnId(rows[1..], k - 1);
    }
  }

  /** The position of the first row of the given type, as `findOne({ where: { type } })`
      resolved to the first matching row in table order. */
  function FirstOfType(rows: seq<Storage>, kind: StorageType): (r: Option<nat>)
    ensures r.Some? ==> r.value < |rows| && rows[r.value].kind == kind
    ensures r.Some? ==> forall i :: 0 <= i < r.value ==> rows[i].kind != kind
    ensures r.None? <==> forall i :: 0 <= i < |rows| ==> rows[i].kind != kind
  {
    if rows == [] then None
    else if rows[0].kind == kind then Some(0)
    else match FirstOfType(rows[1..], kind)
      case None => None
      case Some(k) => Some(k + 1)
  }

  /** The TypeORM repository of storages: the rows in insertion order and the
      next auto-increment primary key. */
  class StorageRepository {
    var rows: seq<Storage>
    var nextId: int

    ghost predicate Valid()
      reads this
    {
      && nextId >= 1
      && UniqueIds(rows)
      && (forall i :: 0 <= i < |rows| ==> 1 <= rows[i].id < nextId)
    }

    constructor ()
      ensures Valid() && rows == [] && nextId == 1
    {
      rows := [];
      nextId := 1;
    }

    /** `count()`. */
    method Count() returns (n: nat)
      ensures n == |rows|
    {
      n := |rows|;
    }

    /** `save` of a new row: the primary key is generated, every other field is kept. */
    method Insert(s: Storage) returns (saved: Storage)
      requires Valid()
      modifies this
      ensures Valid()
      ensures saved == s.(id := old(nextId))
      ensures rows == old(rows) + [saved] && nextId == old(nextId) + 1
    {
      saved := s.(id := nextId);
      rows := rows + [saved];
      nextId := nextId + 1;
    }

    /** `save` of an existing row: the row with that primary key is replaced. */
    method Update(k: nat, s: Storage)
      requires Valid() && k < |rows| && s.id == rows[k].id
      modifies this
      ensures Valid()
      ensures rows == old(rows)[k := s] && nextId == old(nextId)
    {
      rows := rows[k := s];
    }
  }
}
