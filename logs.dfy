/** The log microservice's table of events and its search. The table is the
    `logs` field of `LogService`; ids come from `nextId` and the creation
    time of an entry is the `now` the caller passes in. */
module Logs {
  import opened Wrappers
  import opened Http

  datatype Log = Log(id: nat, ts: int, logType: string, description: string)

  predicate UniqueIds(logs: seq<Log>)
  {
    forall i, j :: 0 <= i < j < |logs| ==> logs[i].id != logs[j].id
  }

  // ---------------------------------------------------------------------------
  // The query `searchLogs` builds
  // ---------------------------------------------------------------------------

  /** One `andWhere` condition. */
  datatype Condition = TypeIs(logType: string) | NotBefore(fromTs: int) | NotAfter(toTs: int)

  predicate Holds(c: Condition, x: Log)
  {
    match c
    case TypeIs(t) => x.logType == t
    case NotBefore(from) => x.ts >= from
    case NotAfter(to) => x.ts <= to
  }

  predicate HoldsAll(q: seq<Condition>, x: Log)
  {
    forall k :: 0 <= k < |q| ==> Holds(q[k], x)
  }

  /** `getMany`: the rows, in table order, that meet every condition. */
  function Select(logs: seq<Log>, q: seq<Condition>): seq<Log>
  {
    if logs == [] then []
    else Select(logs[..|logs| - 1], q) + (if HoldsAll(q, logs[|logs| - 1]) then [logs[|logs| - 1]] else [])
  }

  /** A row is selected exactly when it is in the table and meets every
      condition; nothing else is added. */
  lemma {:induction false} SelectExact(logs: seq<Log>, q: seq<Condition>, x: Log)
    ensures x in Select(logs, q) <==> x in logs && HoldsAll(q, x)
  {
    if logs != [] {
      var init := logs[..|logs| - 1];
      SelectExact(init, q, x);
      assert logs == init + [logs[|logs| - 1]];
    }
  }

  /** The result is no longer than the table, and with no condition it is the
      whole table. */
  lemma {:induction false} SelectBounds(logs: seq<Log>, q: seq<Condition>)
    ensures |Select(logs, q)| <= |logs|
    ensures q == [] ==> Select(logs, q) == logs
  {
    if logs != [] {
      var init := logs[..|logs| - 1];
      SelectBounds(init, q);
      assert logs == init + [logs[|logs| - 1]];
    }
  }

  /** The conditions built from the three optional arguments, in the order
      the query adds them; an absent or empty argument adds none. */
  function Conditions(logType: Option<string>, fromTs: Option<int>, toTs: Option<int>): (q: seq<Condition>)
    ensures q == [] <==> !Truthy(logType) && fromTs.None? && toTs.None?
  {
    TypeFilter(logType) + FromFilter(fromTs) + ToFilter(toTs)
  }

  function TypeFilter(logType: Option<string>): seq<Condition>
  {
    if Truthy(logType) then [TypeIs(logType.value)] else []
  }

  function FromFilter(fromTs: Option<int>): seq<Condition>
  {
    if fromTs.Some? then [NotBefore(fromTs.value)] else []
  }

  function ToFilter(toTs: Option<int>): seq<Condition>
  {
    if toTs.Some? then [NotAfter(toTs.value)] else []
  }

  /** A row meets the built query exactly when it meets every filter whose
      argument was given, with both time bounds inclusive. */
  lemma ConditionsMeaning(logType: Option<string>, fromTs: Option<int>, toTs: Option<int>, x: Log)
    ensures HoldsAll(Conditions(logType, fromTs, toTs), x) <==>
      (Truthy(logType) ==> x.logType == logType.value)
      && (fromTs.Some? ==> x.ts >= fromTs.value)
      && (toTs.Some? ==> x.ts <= toTs.value)
  {
    var a, b, c := TypeFilter(logType), FromFilter(fromTs), ToFilter(toTs);
    HoldsAllAppend(a, b, x);
    HoldsAllAppend(a + b, c, x);
    assert HoldsAll(a, x) <==> (Truthy(logType) ==> x.logType == logType.value) by {
      if Truthy(logType) { assert a[0] == TypeIs(logType.value); }
    }
    assert HoldsAll(b, x) <==> (fromTs.Some? ==> x.ts >= fromTs.value) by {
      if fromTs.Some? { assert b[0] == NotBefore(fromTs.value); }
    }
    assert HoldsAll(c, x) <==> (toTs.Some? ==> x.ts <= toTs.value) by {
      if toTs.Some? { assert c[0] == NotAfter(toTs.value); }
    }
  }

  lemma HoldsAllAppend(p: seq<Condition>, q: seq<Condition>, x: Log)
    ensures HoldsAll(p + q, x) <==> HoldsAll(p, x) && HoldsAll(q, x)
  {
    if HoldsAll(p, x) && HoldsAll(q, x) {
      forall k | 0 <= k < |p + q| ensures Holds((p + q)[k], x) {
        if k >= |p| {
          assert (p + q)[k] == q[k - |p|];
        }
      }
    }
    if HoldsAll(p + q, x) {
      forall k | 0 <= k < |p| ensures Holds(p[k], x) {
        assert (p + q)[k] == p[k];
      }
      forall k | 0 <= k < |q| ensures Holds(q[k], x) {
        assert (p + q)[|p| + k] == q[k];
      }
    }
  }

  // ---------------------------------------------------------------------------
  // Deleting and updating by id
  // ---------------------------------------------------------------------------

  /** The table after `delete(id)`: every row with that id removed, the order of
      the others kept. */
  function Without(logs: seq<Log>, id: nat): seq<Log>
  {
    if logs == [] then []
    else Without(logs[..|logs| - 1], id) + (if logs[|logs| - 1].id == id then [] else [logs[|logs| - 1]])
  }

  lemma {:induction false} WithoutExact(logs: seq<Log>, id: nat, x: Log)
    ensures x in Without(logs, id) <==> x in logs && x.id != id
  {
    if logs != [] {
      var init := logs[..|logs| - 1];
      WithoutExact(init, id, x);
      assert logs == init + [logs[|logs| - 1]];
    }
  }

  /** With unique ids, deleting an id that is present removes exactly one row,
      and deleting an absent one changes nothing. */
  lemma {:induction false} WithoutCount(logs: seq<Log>, id: nat)
    requires UniqueIds(logs)
    ensures UniqueIds(Without(logs, id))
    ensures (exists i :: 0 <= i < |logs| && logs[i].id == id) ==> |Without(logs, id)| == |logs| - 1
    ensures (forall i :: 0 <= i < |logs| ==> logs[i].id != id) ==> Without(logs, id) == logs
  {
    if logs != [] {
      var init := logs[..|logs| - 1];
      var last := logs[|logs| - 1];
      assert logs == init + [last];
      WithoutCount(init, id);
      var w := Without(init, id);
      forall i, j | 0 <= i < j < |Without(logs, id)|
        ensures Without(logs, id)[i].id != Without(logs, id)[j].id
      {
        if last.id != id && j == |w| {
          assert Without(logs, id)[i] in w;
          WithoutExact(init, id, Without(logs, id)[i]);
        }
      }
      if last.id == id {
        assert forall i :: 0 <= i < |init| ==> init[i].id != id;
      } else if exists i :: 0 <= i < |logs| && logs[i].id == id {
        var i :| 0 <= i < |logs| && logs[i].id == id;
        assert i < |init| && init[i].id == id;
      }
    }
  }

  /** The table after `update(id, { description })`: the row with that id gets
      the new description, every other row and field is kept. */
  function WithDescription(logs: seq<Log>, id: nat, description: string): (r: seq<Log>)
    ensures |r| == |logs|
    ensures forall i :: 0 <= i < |logs| && logs[i].id != id ==> r[i] == logs[i]
    ensures forall i :: 0 <= i < |logs| && logs[i].id == id ==> r[i] == logs[i].(description := description)
  {
    seq(|logs|, i requires 0 <= i < |logs| =>
      if logs[i].id == id then logs[i].(description := description) else logs[i])
  }

  lemma UpdateKeepsIds(logs: seq<Log>, id: nat, description: string)
    requires UniqueIds(logs)
    ensures UniqueIds(WithDescription(logs, id, description))
    ensures forall i :: 0 <= i < |logs| ==> WithDescription(logs, id, description)[i].id == logs[i].id
  {
  }

  // ---------------------------------------------------------------------------
  // The service
  // ---------------------------------------------------------------------------

  class LogService {
    var logs: seq<Log>
    var nextId: nat

    /** Ids are unique and below the next one to hand out. */
    ghost predicate Valid()
      reads this
    {
      UniqueIds(logs) && forall i :: 0 <= i < |logs| ==> logs[i].id < nextId
    }

    constructor()
      ensures Valid() && logs == [] && nextId == 1
    {
      logs := [];
      nextId := 1;
    }

    /** `addLog`: one new entry with the given type and description. */
    method AddLog(logType: string, description: string, now: int)
      requires Valid()
      modifies this
      ensures Valid()
      ensures logs == old(logs) + [Log(old(nextId), now, logType, description)]
      ensures nextId == old(nextId) + 1
    {
      logs := logs + [Log(nextId, now, logType, description)];
      nextId := nextId + 1;
    }

    /** `updateLog`: only the description of the entry with that id changes;
        an unknown id changes nothing. */
    method UpdateLog(id: nat, description: string)
      requires Valid()
      modifies this
      ensures Valid()
      ensures logs == WithDescription(old(logs), id, description) && nextId == old(nextId)
    {
      UpdateKeepsIds(logs, id, description);
      var updated := WithDescription(logs, id, description);
      assert forall i :: 0 <= i < |updated| ==> updated[i].id == logs[i].id < nextId;
      logs := updated;
    }

    /** `deleteLog`: the entry with that id is gone, the others stay in order. */
    method DeleteLog(id: nat)
      requires Valid()
      modifies this
      ensures Valid()
      ensures logs == Without(old(logs), id) && nextId == old(nextId)
    {
      WithoutCount(logs, id);
      var kept := Without(logs, id);
      forall i | 0 <= i < |kept| ensures kept[i].id < nextId {
        WithoutExact(logs, id, kept[i]);
        var j :| 0 <= j < |logs| && logs[j] == kept[i];
      }
      logs := kept;
    }

    /** `searchLogs`: builds the query one condition at a time, then returns
        the matching rows. */
    method SearchLogs(logType: Option<string>, fromTs: Option<int>, toTs: Option<int>) returns (r: seq<Log>)
      ensures r == Select(logs, Conditions(logType, fromTs, toTs))
      ensures forall x :: x in r <==>
        x in logs
        && (Truthy(logType) ==> x.logType == logType.value)
        && (fromTs.Some? ==> x.ts >= fromTs.value)
        && (toTs.Some? ==> x.ts <= toTs.value)
      ensures !Truthy(logType) && fromTs.None? && toTs.None? ==> r == logs
    {
      var q: seq<Condition> := [];
      if Truthy(logType) {
        q := q + [TypeIs(logType.value)];
      }
      if fromTs.Some? {
        q := q + [NotBefore(fromTs.value)];
      }
      if toTs.Some? {
        q := q + [NotAfter(toTs.value)];
      }
      assert q == Conditions(logType, fromTs, toTs);
      r := Select(logs, q);
      forall x
        ensures x in r <==>
          x in logs
          && (Truthy(logType) ==> x.logType == logType.value)
          && (fromTs.Some? ==> x.ts >= fromTs.value)
          && (toTs.Some? ==> x.ts <= toTs.value)
      {
        SelectExact(logs, q, x);
        ConditionsMeaning(logType, fromTs, toTs, x);
      }
      SelectBounds(logs, q);
    }
  }
}
