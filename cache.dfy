/** The local result cache (ObjectiveFunction_client/cache.py): a write-once,
    exact-match table from a full parameter key (parameter name to integer
    storage code) to the id and value of a completed run.

    The sqlite table is modelled by its rows. The table's UNIQUE constraint
    over the parameter columns and its primary key on `id` become the two
    uniqueness invariants of `ObjFunCache.Valid`. */
module Cache {
  import opened Common

  /** One row of the `lookup` table. */
  datatype Row = Row(key: map<string, int>, id: int, value: JsonVal)

  /** The record `__getitem__` returns. */
  datatype CachedRun = CachedRun(id: int, value: JsonVal, state: LookupState)

  /** An existing cache file: the column names of its `lookup` table and its
      rows. */
  datatype StoredTable = StoredTable(columns: seq<string>, rows: seq<Row>)

  /** No two rows share a parameter tuple (the UNIQUE constraint). */
  predicate UniqueKeys(rows: seq<Row>)
  {
    forall i, j :: 0 <= i < j < |rows| ==> rows[i].key != rows[j].key
  }

  /** No two rows share an id (the primary key). */
  predicate UniqueIds(rows: seq<Row>)
  {
    forall i, j :: 0 <= i < j < |rows| ==> rows[i].id != rows[j].id
  }

  /** The ids stored in the table. */
  ghost function Ids(rows: seq<Row>): set<int>
  {
    set i | 0 <= i < |rows| :: rows[i].id
  }

  /** With the primary key in force, the table has one row per stored id. */
  lemma {:induction false} UniqueIdsCount(rows: seq<Row>)
    requires UniqueIds(rows)
    ensures |Ids(rows)| == |rows|
    decreases |rows|
  {
    if rows != [] {
      var init := rows[..|rows| - 1];
      UniqueIdsCount(init);
      assert Ids(rows) == Ids(init) + {rows[|rows| - 1].id};
      assert rows[|rows| - 1].id !in Ids(init);
    }
  }

  predicate HasKey(rows: seq<Row>, key: map<string, int>)
  {
    exists i :: 0 <= i < |rows| && rows[i].key == key
  }

  predicate HasId(rows: seq<Row>, id: int)
  {
    exists i :: 0 <= i < |rows| && rows[i].id == id
  }

  /** `_check_key` passes: the sorted key names are the cache's parameter
      tuple, i.e. the key has exactly one entry per parameter. */
  predicate KeyMatches(parameters: seq<string>, keys: set<string>)
  {
    multiset(parameters) == multiset(keys)
  }

  predicate ResultTypeOk(resultType: string)
  {
    resultType == "real" || resultType == "text"
  }

  function LowerChar(c: char): char
  {
    if 'A' <= c <= 'Z' then (c as int + 32) as char else c
  }

  /** sqlite compares column names without regard to ASCII case. */
  function Lower(s: string): (r: string)
    ensures |r| == |s|
  {
    seq(|s|, i requires 0 <= i < |s| => LowerChar(s[i]))
  }

  /** The columns `_create_cache` declares, in table order. */
  function TableColumns(parameters: seq<string>): seq<string>
  {
    ["id"] + parameters + ["value"]
  }

  /** `create table` succeeds only when no two column names coincide. */
  predicate DistinctColumns(columns: seq<string>)
  {
    forall i, j :: 0 <= i < j < |columns| ==> Lower(columns[i]) != Lower(columns[j])
  }

  lemma SameMembers(a: seq<string>, b: seq<string>)
    requires multiset(a) == multiset(b)
    ensures forall x :: x in a <==> x in b
  {
    forall x ensures x in a <==> x in b {
      assert x in a <==> x in multiset(a);
      assert x in b <==> x in multiset(b);
    }
  }

  /** The name check of `_create_cache`: every parameter name alphanumeric. */
  method CheckNewNames(parameters: seq<string>) returns (r: Outcome<Error>)
    ensures r.Pass? <==> forall i :: 0 <= i < |parameters| ==> IsAlnum(parameters[i])
    ensures r.Fail? ==> r.error == ValueError
  {
    var i := 0;
    while i < |parameters|
      invariant 0 <= i <= |parameters|
      invariant forall k :: 0 <= k < i ==> IsAlnum(parameters[k])
    {
      if !IsAlnum(parameters[i]) {
        return Fail(ValueError);
      }
      i := i + 1;
    }
    r := Pass;
  }

  /** `_check_cache`: the existing table has #parameters + 2 columns, among
      them every parameter, `id` and `value`. */
  method CheckExistingColumns(parameters: seq<string>, names: seq<string>) returns (r: Outcome<Error>)
    ensures r.Pass? <==>
              && |names| == |parameters| + 2
              && (forall i :: 0 <= i < |parameters| ==> parameters[i] in names)
              && "id" in names && "value" in names
    ensures r.Fail? ==> r.error == RuntimeError
  {
    if |names| != |parameters| + 2 {
      return Fail(RuntimeError);
    }
    var error := false;
    var i := 0;
    while i < |parameters|
      invariant 0 <= i <= |parameters|
      invariant error <==> exists k :: 0 <= k < i && parameters[k] !in names
    {
      if parameters[i] !in names {
        error := true;
      }
      i := i + 1;
    }
    var fixed := ["id", "value"];
    var j := 0;
    while j < |fixed|
      invariant 0 <= j <= |fixed|
      invariant error <==>
                  (exists k :: 0 <= k < |parameters| && parameters[k] !in names) ||
                  (exists k :: 0 <= k < j && fixed[k] !in names)
    {
      if fixed[j] !in names {
        error := true;
      }
      j := j + 1;
    }
    assert fixed[0] == "id" && fixed[1] == "value";
    r := if error then Fail(RuntimeError) else Pass;
  }

  class ObjFunCache {
    /** The sorted tuple of parameter names. */
    const parameters: seq<string>
    const resultType: string
    var rows: seq<Row>

    ghost predicate Valid()
      reads this
    {
      |parameters| > 0 && Sorted(parameters) && UniqueKeys(rows) && UniqueIds(rows)
    }

    constructor (parameters: seq<string>, resultType: string, rows: seq<Row>)
      requires |parameters| > 0 && Sorted(parameters) && UniqueKeys(rows) && UniqueIds(rows)
      ensures Valid()
      ensures this.parameters == parameters && this.resultType == resultType && this.rows == rows
    {
      this.parameters := parameters;
      this.resultType := resultType;
      this.rows := rows;
    }

    /** `__len__`: the number of rows, which is the number of stored ids. */
    function Len(): (n: nat)
      reads this
      ensures Valid() ==> n == |Ids(rows)|
    {
      assert Valid() ==> |Ids(rows)| == |rows| by {
        if Valid() {
          UniqueIdsCount(rows);
        }
      }
      |rows|
    }

    /** `_check_key`: compares `sorted(key.keys())` with the parameter tuple. */
    method CheckKey(key: map<string, int>) returns (ok: bool)
      requires Valid()
      ensures ok <==> KeyMatches(parameters, key.Keys)
    {
      var listed := SortedKeys(key.Keys);
      SortedKeysMatch(parameters, listed, key.Keys);
      ok := listed == parameters;
    }

    /** `__getitem__`: KeyError for a malformed key, LookupError on a miss,
        otherwise the stored id and value, always reported as COMPLETED. */
    method Get(key: map<string, int>) returns (r: Result<CachedRun, Error>)
      requires Valid()
      ensures !KeyMatches(parameters, key.Keys) ==> r == Failure(KeyError)
      ensures KeyMatches(parameters, key.Keys) && !HasKey(rows, key) ==> r == Failure(LookupError)
      ensures r.Success? <==> KeyMatches(parameters, key.Keys) && HasKey(rows, key)
      ensures r.Success? ==>
                r.value.state == COMPLETED &&
                exists i :: 0 <= i < |rows| && rows[i].key == key &&
                            r.value == CachedRun(rows[i].id, rows[i].value, COMPLETED)
    {
      var ok := CheckKey(key);
      if !ok {
        return Failure(KeyError);
      }
      var i := 0;
      while i < |rows|
        invariant 0 <= i <= |rows|
        invariant forall k :: 0 <= k < i ==> rows[k].key != key
      {
        if rows[i].key == key {
          return Success(CachedRun(rows[i].id, rows[i].value, COMPLETED));
        }
        i := i + 1;
      }
      r := Failure(LookupError);
    }

    /** `__setitem__`: KeyError for a malformed key; RuntimeError, with the
        table unchanged, when the parameter tuple or the id is already stored;
        otherwise exactly one row is added. */
    method Set(key: map<string, int>, id: int, value: JsonVal) returns (r: Outcome<Error>)
      requires Valid()
      modifies this
      ensures Valid()
      ensures !KeyMatches(parameters, key.Keys) ==> r == Fail(KeyError)
      ensures r.Pass? <==>
                KeyMatches(parameters, key.Keys) && !HasKey(old(rows), key) && !HasId(old(rows), id)
      ensures r.Fail? ==> rows == old(rows) && (r.error == KeyError || r.error == RuntimeError)
      ensures KeyMatches(parameters, key.Keys) && r.Fail? ==> r.error == RuntimeError
      ensures r.Pass? ==> rows == old(rows) + [Row(key, id, value)]
    {
      var ok := CheckKey(key);
      if !ok {
        return Fail(KeyError);
      }
      var i := 0;
      while i < |rows|
        invariant 0 <= i <= |rows|
        invariant forall k :: 0 <= k < i ==> rows[k].key != key && rows[k].id != id
      {
        if rows[i].key == key || rows[i].id == id {
          return Fail(RuntimeError);
        }
        i := i + 1;
      }
      rows := rows + [Row(key, id, value)];
      r := Pass;
    }

    /** `__delitem__` is not supported. */
    method Delete(key: map<string, int>) returns (r: Outcome<Error>)
      ensures r == Fail(NotImplementedError)
    {
      r := Fail(NotImplementedError);
    }

    /** `__iter__` is not supported. */
    method Iterate() returns (r: Outcome<Error>)
      ensures r == Fail(NotImplementedError)
    {
      r := Fail(NotImplementedError);
    }
  }

  /** `ObjFunCache(dbName, parameters, result_type)`. `existing` is None for
      `:memory:` or a file that does not exist yet (the table is created),
      and the table found in the file otherwise (its columns are checked). */
  method OpenCache(names: seq<string>, resultType: string, existing: Option<StoredTable>)
    returns (r: Result<ObjFunCache, Error>)
    requires existing.Some? ==> UniqueKeys(existing.value.rows) && UniqueIds(existing.value.rows)
    ensures !ResultTypeOk(resultType) ==> r == Failure(ValueError)
    ensures ResultTypeOk(resultType) && |names| == 0 ==> r == Failure(ValueError)
    ensures ResultTypeOk(resultType) && |names| > 0 && existing.None? ==>
              (r.Success? <==> (forall i :: 0 <= i < |names| ==> IsAlnum(names[i])) &&
                               DistinctColumns(TableColumns(Sort(names))))
    ensures ResultTypeOk(resultType) && |names| > 0 && existing.Some? ==>
              var cols := existing.value.columns;
              (r.Success? <==> && |cols| == |names| + 2
                               && (forall i :: 0 <= i < |names| ==> names[i] in cols)
                               && "id" in cols && "value" in cols)
    ensures ResultTypeOk(resultType) && |names| > 0 && existing.None? &&
            (exists i :: 0 <= i < |names| && !IsAlnum(names[i])) ==>
              r == Failure(ValueError)
    ensures ResultTypeOk(resultType) && |names| > 0 && existing.None? &&
            (forall i :: 0 <= i < |names| ==> IsAlnum(names[i])) &&
            !DistinctColumns(TableColumns(Sort(names))) ==>
              r == Failure(DatabaseError)
    ensures ResultTypeOk(resultType) && |names| > 0 && existing.Some? && r.Failure? ==>
              r.error == RuntimeError
    ensures r.Success? ==>
              && fresh(r.value) && r.value.Valid()
              && r.value.parameters == Sort(names)
              && r.value.resultType == resultType
              && r.value.rows == (if existing.None? then [] else existing.value.rows)
  {
    if !ResultTypeOk(resultType) {
      return Failure(ValueError);
    }
    if |names| == 0 {
      return Failure(ValueError);
    }
    var parameters := Sort(names);
    SameMembers(parameters, names);
    var rows: seq<Row>;
    if existing.None? {
      var named := CheckNewNames(parameters);
      if named.Fail? {
        assert !(forall i :: 0 <= i < |names| ==> IsAlnum(names[i])) by {
          var k :| 0 <= k < |parameters| && !IsAlnum(parameters[k]);
          assert parameters[k] in names;
        }
        return Failure(named.error);
      }
      assert forall i :: 0 <= i < |names| ==> IsAlnum(names[i]) by {
        forall i | 0 <= i < |names| ensures IsAlnum(names[i]) {
          assert names[i] in parameters;
        }
      }
      if !DistinctColumns(TableColumns(parameters)) {
        return Failure(DatabaseError);
      }
      rows := [];
    } else {
      var checked := CheckExistingColumns(parameters, existing.value.columns);
      assert (forall i :: 0 <= i < |parameters| ==> parameters[i] in existing.value.columns) <==>
             (forall i :: 0 <= i < |names| ==> names[i] in existing.value.columns) by {
        if forall i :: 0 <= i < |parameters| ==> parameters[i] in existing.value.columns {
          forall i | 0 <= i < |names| ensures names[i] in existing.value.columns {
            assert names[i] in parameters;
          }
        }
        if forall i :: 0 <= i < |names| ==> names[i] in existing.value.columns {
          forall i | 0 <= i < |parameters| ensures parameters[i] in existing.value.columns {
            assert parameters[i] in names;
          }
        }
      }
      if checked.Fail? {
        return Failure(checked.error);
      }
      rows := existing.value.rows;
    }
    var cache := new ObjFunCache(parameters, resultType, rows);
    r := Success(cache);
  }

  /** After a successful `__setitem__`, the key is present and the only
      row carrying it is the one just added, so `__getitem__` returns
      exactly the stored id and value. */
  lemma StoredRowIsFound(rows: seq<Row>, key: map<string, int>, id: int, value: JsonVal)
    requires !HasKey(rows, key)
    ensures HasKey(rows + [Row(key, id, value)], key)
    ensures var grown := rows + [Row(key, id, value)];
            forall i :: 0 <= i < |grown| && grown[i].key == key ==> grown[i] == Row(key, id, value)
  {
    var grown := rows + [Row(key, id, value)];
    assert grown[|rows|].key == key;
  }
}
