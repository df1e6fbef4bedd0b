/** The storage service of the sales microservice: dispatching packages from a
    storage in timed batches, and the clamped capacity update. */
module StorageDispatch {
  import opened Wrappers
  import opened Storages

  /** A package row handed back by the processing service. */
  datatype Packaging = Packaging(id: int, name: string, storageId: int)

  /** The processing service's "packagings from storage" call. Given the storage
      id, the index of the call within one dispatch and the number of packages
      asked for, it returns the packages it handed out, or None when the call
      throws. The call index lets a stateful remote service answer each call
      differently. */
  type PackagingPort = (int, nat, int) -> Option<seq<Packaging>>

  datatype StorageError =
    | NoStorageForRole(role: string)
    | InsufficientPackages(available: int, requested: int)
    | PackagingRetrievalFailed
    | StorageNotFound(id: int)

  function Min(a: int, b: int): int { if a <= b then a else b }

  /** The storage type a caller's role is served from. */
  function StorageTypeFor(role: string): StorageType
  {
    if role == "MANAGER" then DistributionCenter else WarehouseCenter
  }

  /** Packages carried by one delivery. */
  function PackagesPerDelivery(kind: StorageType): (b: int)
    ensures b > 0
  {
    if kind == DistributionCenter then 3 else 1
  }

  /** Simulated milliseconds one delivery takes. */
  function DeliveryTime(kind: StorageType): (ms: int)
    ensures ms > 0
  {
    if kind == DistributionCenter then 500 else 2500
  }

  /** `Math.ceil(n / b)` for an integer `n`, as a loop bound: the number of
      deliveries of `b` packages needed for `n`; a non-positive `n` needs none. */
  function Deliveries(n: int, b: int): (d: nat)
    requires b > 0
    decreases if n <= 0 then 0 else n
  {
    if n <= 0 then 0 else 1 + Deliveries(n - b, b)
  }

  /** `Deliveries(n, b)` is the ceiling of `n / b`: the least count of
      deliveries of `b` packages that covers `n`. */
  lemma {:induction false} DeliveriesIsCeiling(n: int, b: int)
    requires b > 0 && n > 0
    ensures Deliveries(n, b) * b >= n
    ensures (Deliveries(n, b) - 1) * b < n
    decreases n
  {
    if n - b > 0 {
      DeliveriesIsCeiling(n - b, b);
      var d := Deliveries(n - b, b);
      assert (d + 1) * b == d * b + b;
      assert (d - 1) * b == d * b - b;
    }
  }

  /** One delivery less is needed after a full first delivery. */
  lemma DeliveriesStep(x: int, b: int)
    requires b > 0 && x > 0
    ensures Deliveries(x - Min(b, x), b) == Deliveries(x, b) - 1
  {
  }

  /** The amounts the dispatch asks for when every batch returns exactly what it
      asked for: full batches of `b` and a final partial batch. */
  function BatchPlan(n: int, b: int): seq<int>
    requires b > 0
    decreases if n <= 0 then 0 else n
  {
    if n <= 0 then [] else [Min(b, n)] + BatchPlan(n - Min(b, n), b)
  }

  function Sum(xs: seq<int>): int
  {
    if xs == [] then 0 else xs[0] + Sum(xs[1..])
  }

  /** The plan has one entry per delivery, asks for `n` packages in all, and
      every entry but the last is a full batch. */
  lemma {:induction false} BatchPlanShape(n: int, b: int)
    requires b > 0 && n >= 0
    ensures |BatchPlan(n, b)| == Deliveries(n, b)
    ensures Sum(BatchPlan(n, b)) == n
    ensures forall i :: 0 <= i < |BatchPlan(n, b)| - 1 ==> BatchPlan(n, b)[i] == b
    ensures forall i :: 0 <= i < |BatchPlan(n, b)| ==> 1 <= BatchPlan(n, b)[i] <= b
    decreases n
  {
    if n > 0 {
      var m := Min(b, n);
      BatchPlanShape(n - m, b);
      DeliveriesStep(n, b);
      var p := BatchPlan(n, b);
      assert p == [m] + BatchPlan(n - m, b);
      if n - m > 0 {
        assert m == b;
      }
    }
  }

  /** Seven packages from a distribution centre come in three deliveries of
      3, 3 and 1; four from a warehouse come in four deliveries. */
  lemma BatchPlanExamples()
    ensures Deliveries(7, 3) == 3 && BatchPlan(7, 3) == [3, 3, 1]
    ensures Deliveries(7, 3) * DeliveryTime(DistributionCenter) == 1500
    ensures Deliveries(4, 1) == 4 && BatchPlan(4, 1) == [1, 1, 1, 1]
    ensures Deliveries(4, 1) * DeliveryTime(WarehouseCenter) == 10000
  {
  }

  /** What the port gave back for a reply: the packages, or nothing for an error. */
  function Answer(reply: Option<seq<Packaging>>): seq<Packaging>
  {
    match reply
    case None => []
    case Some(batch) => batch
  }

  /** The in-order concatenation of the port's replies to the requests `asked`,
      the k-th request being call number k. */
  function Replies(port: PackagingPort, id: int, asked: seq<int>): seq<Packaging>
    decreases |asked|
  {
    if asked == [] then []
    else Replies(port, id, asked[..|asked| - 1]) + Answer(port(id, |asked| - 1, asked[|asked| - 1]))
  }

  datatype FetchResult =
    | Fetched(packages: seq<Packaging>, asked: seq<int>)
    | FetchFailed(delivered: seq<Packaging>, asked: seq<int>)

  /** The batch loop: `got` holds the packages received so far and `asked` the
      amounts requested so far (its length is the loop index). Each round asks
      for `min(b, n - got.length)`; a failing call ends the loop. */
  function Fetch(port: PackagingPort, id: int, n: int, b: int, deliveries: nat,
                 got: seq<Packaging>, asked: seq<int>): FetchResult
    requires |asked| <= deliveries
    decreases deliveries - |asked|
  {
    if |asked| == deliveries then Fetched(got, asked)
    else
      var ask := Min(b, n - |got|);
      match port(id, |asked|, ask)
      case None => FetchFailed(got, asked + [ask])
      case Some(batch) => Fetch(port, id, n, b, deliveries, got + batch, asked + [ask])
  }

  /** The port hands out exactly as many packages as it is asked for. */
  ghost predicate ExactPort(port: PackagingPort)
  {
    forall id, i, c :: c >= 0 ==> port(id, i, c).Some? && |port(id, i, c).value| == c
  }

  /** Against an exact port the loop asks for the batch plan, in order, and
      receives `n` packages. */
  lemma {:induction false} FetchExact(port: PackagingPort, id: int, n: int, b: int, deliveries: nat,
                                      got: seq<Packaging>, asked: seq<int>)
    requires ExactPort(port) && b > 0
    requires |asked| <= deliveries && |got| <= n
    requires deliveries - |asked| == Deliveries(n - |got|, b)
    ensures Fetch(port, id, n, b, deliveries, got, asked).Fetched?
    ensures Fetch(port, id, n, b, deliveries, got, asked).asked == asked + BatchPlan(n - |got|, b)
    ensures |Fetch(port, id, n, b, deliveries, got, asked).packages| == n
    decreases deliveries - |asked|
  {
    if |asked| < deliveries {
      var x := n - |got|;
      var ask := Min(b, x);
      assert ask >= 1;
      var reply := port(id, |asked|, ask);
      assert reply.Some? && |reply.value| == ask;
      DeliveriesStep(x, b);
      FetchExact(port, id, n, b, deliveries, got + reply.value, asked + [ask]);
      assert BatchPlan(x, b) == [ask] + BatchPlan(x - ask, b);
      assert asked + [ask] + BatchPlan(x - ask, b) == asked + BatchPlan(x, b);
    }
  }

  /** The loop only ever extends the requests made so far, and a run that
      does not fail makes all `deliveries` requests. */
  lemma {:induction false} FetchExtends(port: PackagingPort, id: int, n: int, b: int, deliveries: nat,
                                        got: seq<Packaging>, asked: seq<int>)
    requires |asked| <= deliveries
    ensures var f := Fetch(port, id, n, b, deliveries, got, asked);
      && |asked| <= |f.asked| <= deliveries
      && f.asked[..|asked|] == asked
      && (f.Fetched? ==> |f.asked| == deliveries)
      && (f.FetchFailed? ==> |f.asked| > |asked|)
    decreases deliveries - |asked|
  {
    if |asked| < deliveries {
      var ask := Min(b, n - |got|);
      var asked' := asked + [ask];
      match port(id, |asked|, ask)
      case None =>
      case Some(batch) =>
        FetchExtends(port, id, n, b, deliveries, got + batch, asked');
        var f := Fetch(port, id, n, b, deliveries, got + batch, asked');
        assert f.asked[..|asked|] == f.asked[..|asked'|][..|asked|];
    }
  }

  ghost predicate AllAnswered(port: PackagingPort, id: int, asked: seq<int>)
  {
    forall k :: 0 <= k < |asked| ==> port(id, k, asked[k]).Some?
  }

  /** What the loop returns is exactly the in-order concatenation of the port's
      replies; a run that ends early ends on a failing call and nothing is
      asked after it. */
  lemma {:induction false} FetchReplies(port: PackagingPort, id: int, n: int, b: int, deliveries: nat,
                                        got: seq<Packaging>, asked: seq<int>)
    requires |asked| <= deliveries
    requires got == Replies(port, id, asked) && AllAnswered(port, id, asked)
    ensures var f := Fetch(port, id, n, b, deliveries, got, asked);
      && (f.Fetched? ==> f.packages == Replies(port, id, f.asked) && AllAnswered(port, id, f.asked))
      && (f.FetchFailed? ==> |f.asked| > 0 && port(id, |f.asked| - 1, f.asked[|f.asked| - 1]).None?)
      && (f.FetchFailed? ==> f.delivered == Replies(port, id, f.asked[..|f.asked| - 1]))
    decreases deliveries - |asked|
  {
    if |asked| < deliveries {
      var ask := Min(b, n - |got|);
      var asked' := asked + [ask];
      assert asked'[..|asked|] == asked;
      match port(id, |asked|, ask)
      case None =>
      case Some(batch) =>
        assert Replies(port, id, asked') == got + batch;
        FetchReplies(port, id, n, b, deliveries, got + batch, asked');
    }
  }

  /** Each request asked for `min(b, n - packages received before it)`. */
  ghost predicate AsksRemaining(port: PackagingPort, id: int, n: int, b: int, asked: seq<int>)
    decreases |asked|
  {
    asked == [] ||
    (AsksRemaining(port, id, n, b, asked[..|asked| - 1])
     && asked[|asked| - 1] == Min(b, n - |Replies(port, id, asked[..|asked| - 1])|))
  }

  lemma AsksRemainingExtend(port: PackagingPort, id: int, n: int, b: int, asked: seq<int>, ask: int)
    requires AsksRemaining(port, id, n, b, asked)
    requires ask == Min(b, n - |Replies(port, id, asked)|)
    ensures AsksRemaining(port, id, n, b, asked + [ask])
  {
    assert (asked + [ask])[..|asked|] == asked;
  }

  /** Every request asks for `min(b, n - packages delivered so far)`. */
  lemma {:induction false} FetchAsks(port: PackagingPort, id: int, n: int, b: int, deliveries: nat,
                                     got: seq<Packaging>, asked: seq<int>)
    requires |asked| <= deliveries
    requires got == Replies(port, id, asked) && AsksRemaining(port, id, n, b, asked)
    ensures AsksRemaining(port, id, n, b, Fetch(port, id, n, b, deliveries, got, asked).asked)
    decreases deliveries - |asked|
  {
    if |asked| < deliveries {
      var ask := Min(b, n - |got|);
      var asked' := asked + [ask];
      AsksRemainingExtend(port, id, n, b, asked, ask);
      var reply := port(id, |asked|, ask);
      if reply.Some? {
        assert asked'[..|asked'| - 1] == asked;
        assert Replies(port, id, asked') == got + reply.value;
        FetchAsks(port, id, n, b, deliveries, got + reply.value, asked');
      }
    }
  }

  /** The storage after `updateStorageCapacity(id, increment)`: the capacity
      moves by `increment` and is clamped below at 0 but not above the maximum. */
  function ApplyIncrement(s: Storage, increment: int): (t: Storage)
    ensures t.currentCapacity >= 0
    ensures s.currentCapacity + increment >= 0 ==> t.currentCapacity == s.currentCapacity + increment
    ensures s.currentCapacity + increment < 0 ==> t.currentCapacity == 0
    ensures t == s.(currentCapacity := t.currentCapacity)
  {
    var c := s.currentCapacity + increment;
    s.(currentCapacity := if c < 0 then 0 else c)
  }

  /** The capacity update on the whole table: an unknown id is an error and
      leaves the table alone; otherwise only that row changes. */
  function UpdateCapacity(rows: seq<Storage>, id: int, increment: int): Result<seq<Storage>, StorageError>
  {
    match IndexOfId(rows, id)
    case None => Err(StorageNotFound(id))
    case Some(k) => Ok(rows[k := ApplyIncrement(rows[k], increment)])
  }

  /** Everything `sendPackagingFromStorage` does, as a function of the table
      before the call: the result, the table after it, the requests made to the
      port and the simulated time spent. */
  datatype DispatchOutcome = DispatchOutcome(
    result: Result<seq<Packaging>, StorageError>,
    rows: seq<Storage>,
    asked: seq<int>,
    elapsed: int)

  function Dispatch(rows: seq<Storage>, n: int, role: string, port: PackagingPort): DispatchOutcome
  {
    var kind := StorageTypeFor(role);
    match FirstOfType(rows, kind)
    case None => DispatchOutcome(Err(NoStorageForRole(role)), rows, [], 0)
    case Some(k) =>
      var s := rows[k];
      if s.currentCapacity < n then
        DispatchOutcome(Err(InsufficientPackages(s.currentCapacity, n)), rows, [], 0)
      else
        var b := PackagesPerDelivery(kind);
        var delay := DeliveryTime(kind);
        DispatchAfterFetch(rows, k, n, Fetch(port, s.id, n, b, Deliveries(n, b), [], []), delay)
  }

  /** The outcome once the storage at index `k` has been chosen and the batch
      loop has run. */
  function DispatchAfterFetch(rows: seq<Storage>, k: nat, n: int, fetched: FetchResult, delay: int): DispatchOutcome
    requires k < |rows|
  {
    match fetched
    case FetchFailed(_, asked) => DispatchOutcome(Err(PackagingRetrievalFailed), rows, asked, |asked| * delay)
    case Fetched(packages, asked) =>
      DispatchOutcome(Ok(packages), rows[k := ApplyIncrement(rows[k], -n)], asked, |asked| * delay)
  }

  /** A failed dispatch changes no storage. */
  lemma DispatchFailureChangesNothing(rows: seq<Storage>, n: int, role: string, port: PackagingPort)
    ensures Dispatch(rows, n, role, port).result.Err? ==> Dispatch(rows, n, role, port).rows == rows
  {
  }

  /** With no storage of the role's type the dispatch fails before any delivery. */
  lemma DispatchWithoutStorage(rows: seq<Storage>, n: int, role: string, port: PackagingPort)
    requires forall i :: 0 <= i < |rows| ==> rows[i].kind != StorageTypeFor(role)
    ensures Dispatch(rows, n, role, port) == DispatchOutcome(Err(NoStorageForRole(role)), rows, [], 0)
  {
  }

  /** When the chosen storage holds fewer packages than asked for, the dispatch
      fails before any delivery and nothing changes. */
  lemma DispatchInsufficient(rows: seq<Storage>, n: int, role: string, port: PackagingPort)
    requires FirstOfType(rows, StorageTypeFor(role)).Some?
    requires rows[FirstOfType(rows, StorageTypeFor(role)).value].currentCapacity < n
    ensures var c := rows[FirstOfType(rows, StorageTypeFor(role)).value].currentCapacity;
      Dispatch(rows, n, role, port) == DispatchOutcome(Err(InsufficientPackages(c, n)), rows, [], 0)
  {
  }

  /** A managers's dispatch is served by the first distribution centre, anyone
      else's by the first warehouse. On success that storage's capacity drops by
      exactly the requested `n` (never below 0), no other storage changes, one
      delivery is made per batch and the simulated time is deliveries × delay. */
  lemma {:induction false} DispatchSuccess(rows: seq<Storage>, n: int, role: string, port: PackagingPort)
    requires Dispatch(rows, n, role, port).result.Ok?
    ensures var kind := if role == "MANAGER" then DistributionCenter else WarehouseCenter;
      var k := FirstOfType(rows, kind);
      var o := Dispatch(rows, n, role, port);
      var d := Deliveries(n, if role == "MANAGER" then 3 else 1);
      && k.Some?
      && rows[k.value].currentCapacity >= n
      && |o.rows| == |rows|
      && o.rows[k.value] == rows[k.value].(currentCapacity := rows[k.value].currentCapacity - n)
      && (n >= 0 ==> o.rows[k.value].currentCapacity >= 0)
      && (forall i :: 0 <= i < |rows| && i != k.value ==> o.rows[i] == rows[i])
      && |o.asked| == d
      && o.elapsed == d * (if role == "MANAGER" then 500 else 2500)
  {
    var kind := StorageTypeFor(role);
    var k := FirstOfType(rows, kind).value;
    var s := rows[k];
    var b := PackagesPerDelivery(kind);
    FetchExtends(port, s.id, n, b, Deliveries(n, b), [], []);
  }

  /** The returned packages are the in-order concatenation of the port's
      replies, and each request asked for `min(b, n - delivered so far)`. */
  lemma DispatchReturnsReplies(rows: seq<Storage>, n: int, role: string, port: PackagingPort)
    requires Dispatch(rows, n, role, port).result.Ok?
    ensures var kind := StorageTypeFor(role);
      var s := rows[FirstOfType(rows, kind).value];
      var o := Dispatch(rows, n, role, port);
      var b := PackagesPerDelivery(kind);
      && o.result.value == Replies(port, s.id, o.asked)
      && AsksRemaining(port, s.id, n, b, o.asked)
  {
    var kind := StorageTypeFor(role);
    var s := rows[FirstOfType(rows, kind).value];
    var b := PackagesPerDelivery(kind);
    var f := Fetch(port, s.id, n, b, Deliveries(n, b), [], []);
    var o := Dispatch(rows, n, role, port);
    DispatchIsFetch(rows, n, role, port);
    assert o.result.value == f.packages && o.asked == f.asked;
    FetchReplies(port, s.id, n, b, Deliveries(n, b), [], []);
    assert f.packages == Replies(port, s.id, f.asked);
    FetchAsks(port, s.id, n, b, Deliveries(n, b), [], []);
  }

  /** A successful dispatch returns what the batch loop fetched and reports
      the requests it made. */
  lemma DispatchIsFetch(rows: seq<Storage>, n: int, role: string, port: PackagingPort)
    requires Dispatch(rows, n, role, port).result.Ok?
    ensures var kind := StorageTypeFor(role);
      var s := rows[FirstOfType(rows, kind).value];
      var b := PackagesPerDelivery(kind);
      var f := Fetch(port, s.id, n, b, Deliveries(n, b), [], []);
      var o := Dispatch(rows, n, role, port);
      f.Fetched? && o.result.value == f.packages && o.asked == f.asked
  {
  }

  /** When the port hands out exactly what it is asked for and the storage holds
      enough, the dispatch succeeds, asks for the batch plan (for instance
      [3, 3, 1] for 7 packages from a distribution centre) and returns `n`
      packages. */
  lemma DispatchWithExactPort(rows: seq<Storage>, n: int, role: string, port: PackagingPort)
    requires ExactPort(port) && n >= 0
    requires FirstOfType(rows, StorageTypeFor(role)).Some?
    requires rows[FirstOfType(rows, StorageTypeFor(role)).value].currentCapacity >= n
    ensures var o := Dispatch(rows, n, role, port);
      && o.result.Ok?
      && o.asked == BatchPlan(n, PackagesPerDelivery(StorageTypeFor(role)))
      && |o.result.value| == n
  {
    var kind := StorageTypeFor(role);
    var s := rows[FirstOfType(rows, kind).value];
    var b := PackagesPerDelivery(kind);
    FetchExact(port, s.id, n, b, Deliveries(n, b), [], []);
  }

  /** A failed port call ends the dispatch with an error and no capacity change,
      however many packages earlier batches already delivered. */
  lemma DispatchPortFailure(rows: seq<Storage>, n: int, role: string, port: PackagingPort)
    requires Dispatch(rows, n, role, port).result == Err(PackagingRetrievalFailed)
    ensures var kind := StorageTypeFor(role);
      var s := rows[FirstOfType(rows, kind).value];
      var o := Dispatch(rows, n, role, port);
      && o.rows == rows
      && 0 < |o.asked| <= Deliveries(n, PackagesPerDelivery(kind))
      && port(s.id, |o.asked| - 1, o.asked[|o.asked| - 1]).None?
      && o.elapsed == |o.asked| * DeliveryTime(kind)
  {
    var kind := StorageTypeFor(role);
    var s := rows[FirstOfType(rows, kind).value];
    var b := PackagesPerDelivery(kind);
    FetchReplies(port, s.id, n, b, Deliveries(n, b), [], []);
    FetchExtends(port, s.id, n, b, Deliveries(n, b), [], []);
  }

  /** Capacities that are not negative stay so under every update. */
  lemma UpdateCapacityKeepsNonNegative(rows: seq<Storage>, id: int, increment: int)
    requires forall i :: 0 <= i < |rows| ==> rows[i].currentCapacity >= 0
    ensures UpdateCapacity(rows, id, increment).Ok? ==>
      forall i :: 0 <= i < |rows| ==> UpdateCapacity(rows, id, increment).value[i].currentCapacity >= 0
  {
  }

  /** The maximum is not enforced: a storage at 250 of 500 topped up by 300
      ends at 550. */
  lemma UpdateCapacityMayExceedMaximum()
    ensures var s := Storage(1, "Distribution Center Paris", "Rue de la Paix, Paris", 500, 250, DistributionCenter);
      UpdateCapacity([s], 1, 300) == Ok([s.(currentCapacity := 550)])
  {
    var s := Storage(1, "Distribution Center Paris", "Rue de la Paix, Paris", 500, 250, DistributionCenter);
    assert IndexOfId([s], 1) == Some(0);
    assert [s][0 := ApplyIncrement(s, 300)] == [s.(currentCapacity := 550)];
  }

  /** The storage service, holding the storage repository and a simulated clock
      (milliseconds) that the delivery delays advance. */
  class StorageService {
    const repo: StorageRepository
    var clock: int

    ghost predicate Valid()
      reads this, repo
    {
      repo.Valid()
    }

    constructor (repo: StorageRepository)
      requires repo.Valid()
      ensures Valid() && this.repo == repo && clock == 0
    {
      this.repo := repo;
      clock := 0;
    }

    /** `getStorageById`: the row with that id, or None. */
    method GetStorageById(id: int) returns (r: Option<Storage>)
      requires Valid()
      ensures r.None? <==> forall i :: 0 <= i < |repo.rows| ==> repo.rows[i].id != id
      ensures r.Some? ==> r.value in repo.rows && r.value.id == id
    {
      match IndexOfId(repo.rows, id)
      case None => r := None;
      case Some(k) => r := Some(repo.rows[k]);
    }

    /** `createStorage`: saves a new row with a generated id. */
    method CreateStorage(name: string, location: string, maxCapacity: int,
                         currentCapacity: int, kind: StorageType) returns (saved: Storage)
      requires Valid()
      modifies repo
      ensures Valid()
      ensures saved == Storage(old(repo.nextId), name, location, maxCapacity, currentCapacity, kind)
      ensures repo.rows == old(repo.rows) + [saved]
    {
      saved := repo.Insert(Storage(0, name, location, maxCapacity, currentCapacity, kind));
    }

    /** `updateStorageCapacity`: moves the capacity of the row with that id by
      `increment`, clamped below at 0. */
    method UpdateStorageCapacity(id: int, increment: int) returns (r: Result<Storage, StorageError>)
      requires Valid()
      modifies repo
      ensures Valid() && repo.nextId == old(repo.nextId)
      ensures match UpdateCapacity(old(repo.rows), id, increment)
        case Err(e) => r == Err(e) && repo.rows == old(repo.rows)
        case Ok(rows) => repo.rows == rows && r.Ok? && r.value in rows && r.value.id == id
    {
      match IndexOfId(repo.rows, id)
      case None =>
        r := Err(StorageNotFound(id));
      case Some(k) =>
        var storage := repo.rows[k];
        var capacity := storage.currentCapacity + increment;
        if capacity < 0 {
          capacity := 0;
        }
        // Exceeding maxCapacity only logs a warning.
        storage := storage.(currentCapacity := capacity);
        repo.Update(k, storage);
        assert repo.rows[k] == storage;
        r := Ok(storage);
    }

    /** `sendPackagingFromStorage`: picks the storage for the caller's role,
      checks its capacity, fetches the packages in timed batches and only then
      takes the requested count off the capacity. */
    method SendPackagingFromStorage(n: int, role: string, port: PackagingPort)
      returns (r: Result<seq<Packaging>, StorageError>)
      requires Valid()
      modifies this, repo
      ensures Valid() && repo.nextId == old(repo.nextId)
      ensures var o := Dispatch(old(repo.rows), n, role, port);
        r == o.result && repo.rows == o.rows && clock == old(clock) + o.elapsed
    {
      var kind := StorageTypeFor(role);
      var found := FirstOfType(repo.rows, kind);
      if found.None? {
        r := Err(NoStorageForRole(role));
        assert Dispatch(repo.rows, n, role, port) == DispatchOutcome(r, repo.rows, [], 0);
        return;
      }
      var k := found.value;
      var storage := repo.rows[k];
      if storage.currentCapacity < n {
        r := Err(InsufficientPackages(storage.currentCapacity, n));
        assert Dispatch(repo.rows, n, role, port) == DispatchOutcome(r, repo.rows, [], 0);
        return;
      }
      var perDelivery := PackagesPerDelivery(kind);
      var deliveryTime := DeliveryTime(kind);
      var deliveriesNeeded := Deliveries(n, perDelivery);
      ghost var fetched := Fetch(port, storage.id, n, perDelivery, deliveriesNeeded, [], []);
      assert Dispatch(repo.rows, n, role, port) == DispatchAfterFetch(repo.rows, k, n, fetched, deliveryTime);
      var result := FetchBatches(storage.id, n, perDelivery, deliveriesNeeded, deliveryTime, port);
      if result.FetchFailed? {
        r := Err(PackagingRetrievalFailed);
        return;
      }
      IndexOfOwnId(repo.rows, k);
      var updated := UpdateStorageCapacity(storage.id, -n);
      r := Ok(result.packages);
    }

    /** The delivery loop: waits `deliveryTime` before each batch, asks for
        `min(perDelivery, n - received)` and stops at the first failing call. */
    method FetchBatches(storageId: int, n: int, perDelivery: int, deliveriesNeeded: nat, deliveryTime: int,
                        port: PackagingPort)
      returns (result: FetchResult)
      modifies this
      ensures result == Fetch(port, storageId, n, perDelivery, deliveriesNeeded, [], [])
      ensures clock == old(clock) + |result.asked| * deliveryTime
    {
      var packages: seq<Packaging> := [];
      var asked: seq<int> := [];
      var i := 0;
      while i < deliveriesNeeded
        invariant 0 <= i <= deliveriesNeeded && |asked| == i
        invariant clock == old(clock) + i * deliveryTime
        invariant Fetch(port, storageId, n, perDelivery, deliveriesNeeded, packages, asked)
               == Fetch(port, storageId, n, perDelivery, deliveriesNeeded, [], [])
      {
        clock := clock + deliveryTime;
        var inThisDelivery := Min(perDelivery, n - |packages|);
        var retrieved := port(storageId, i, inThisDelivery);
        asked := asked + [inThisDelivery];
        if retrieved.None? {
          result := FetchFailed(packages, asked);
          return;
        }
        packages := packages + retrieved.value;
        i := i + 1;
      }
      result := Fetched(packages, asked);
    }
  }
}
