/** Shared vocabulary of the client: exceptions, run states, run types,
    failure-compatible wrappers, JSON values and run records, and the few
    pieces of Python's built-in behaviour the client relies on (ordering and
    sorting of `str`, `str.isalnum`, `str(int)`). */
module Common {

  /** The Python exceptions the client raises. */
  datatype Error =
    | ValueError
    | TypeError
    | RuntimeError
    | KeyError
    | LookupError
    | IndexError
    | ZeroDivisionError
    | NotImplementedError
    | DatabaseError       // sqlite3.OperationalError raised by the storage engine

  /** Lifecycle states of a run, as far as the client uses them. */
  datatype LookupState = NEW | PROVISIONAL | ACTIVE | COMPLETED

  /** The run-type tag sent to the server when a scenario is created. */
  datatype RunType = MISFIT | PATH

  datatype Option<+T> = None | Some(value: T)

  datatype Result<+T, +E> = Success(value: T) | Failure(error: E)

  datatype Outcome<+E> = Pass | Fail(error: E)

  /** A scalar JSON value as it travels to and from the server. */
  datatype JsonVal = JStr(s: string) | JInt(i: int) | JReal(r: real)

  /** Python's `==` on the scalars above: numbers compare by value whatever
      their type (`1 == 1.0`), strings by content, a number never equals a
      string. */
  predicate JsonEq(a: JsonVal, b: JsonVal): (eq: bool)
    ensures a == b ==> eq
    ensures a.JStr? != b.JStr? ==> !eq
    ensures a.JInt? && b.JInt? ==> (eq <==> a.i == b.i)
    ensures a.JInt? && b.JReal? ==> (eq <==> a.i as real == b.r)
  {
    match (a, b)
    case (JStr(x), JStr(y)) => x == y
    case (JStr(_), _) => false
    case (_, JStr(_)) => false
    case _ => Number(a) == Number(b)
  }

  function Number(a: JsonVal): real
    requires !a.JStr?
  {
    if a.JInt? then a.i as real else a.r
  }

  /** One labelled entry of a pandas Series. */
  datatype Entry = Entry(name: string, value: real)

  type Series = seq<Entry>

  function SeriesIndex(s: Series): (r: seq<string>)
    ensures |r| == |s| && forall i :: 0 <= i < |s| ==> r[i] == s[i].name
  {
    if s == [] then [] else [s[0].name] + SeriesIndex(s[1..])
  }

  /** A field of a run record (a Python dict returned by the server and
      augmented by the client). */
  datatype Field =
    | StateField(state: LookupState)
    | ValueField(v: JsonVal)
    | ArrayField(a: seq<real>)
    | SeriesField(series: Series)

  type RunRecord = map<string, Field>

  // ---------------------------------------------------------------------
  // Python's ordering of `str`: lexicographic on code points.

  predicate Less(a: string, b: string)
    decreases |a|
  {
    if |a| == 0 then |b| > 0
    else if |b| == 0 then false
    else if a[0] != b[0] then a[0] < b[0]
    else Less(a[1..], b[1..])
  }

  lemma {:induction false} LessIrreflexive(a: string)
    ensures !Less(a, a)
    decreases |a|
  {
    if |a| > 0 { LessIrreflexive(a[1..]); }
  }

  lemma {:induction false} LessTransitive(a: string, b: string, c: string)
    requires Less(a, b) && Less(b, c)
    ensures Less(a, c)
    decreases |a|
  {
    if |a| > 0 && |b| > 0 && |c| > 0 && a[0] == b[0] && b[0] == c[0] {
      LessTransitive(a[1..], b[1..], c[1..]);
    }
  }

  lemma {:induction false} LessTotal(a: string, b: string)
    ensures a == b || Less(a, b) || Less(b, a)
    decreases |a|
  {
    if |a| > 0 && |b| > 0 && a[0] == b[0] {
      LessTotal(a[1..], b[1..]);
      if a[1..] == b[1..] {
        assert a == [a[0]] + a[1..] && b == [b[0]] + b[1..];
      }
    }
  }

  /** "Not greater than" is transitive. */
  lemma NotLessTransitive(a: string, b: string, c: string)
    requires !Less(b, a) && !Less(c, b)
    ensures !Less(c, a)
  {
    LessTotal(a, b);
    LessTotal(b, c);
    if Less(c, a) {
      if a != b && b != c {
        LessTransitive(a, b, c);
        LessTransitive(a, c, a);
        LessIrreflexive(a);
      }
    }
  }

  /** Non-decreasing in Python's order, as `sorted` returns. */
  predicate Sorted(s: seq<string>)
  {
    forall i, j :: 0 <= i < j < |s| ==> !Less(s[j], s[i])
  }

  lemma PrependLeast(x: string, s: seq<string>)
    requires Sorted(s) && s != [] && !Less(s[0], x)
    ensures Sorted([x] + s)
  {
    forall j | 0 <= j < |s| ensures !Less(s[j], x) {
      if j > 0 { NotLessTransitive(x, s[0], s[j]); }
    }
  }

  lemma PrependHead(x: string, s: seq<string>, t: seq<string>)
    requires Sorted(s) && s != [] && Less(s[0], x)
    requires Sorted(t) && multiset(t) == multiset(s[1..]) + multiset{x}
    ensures Sorted([s[0]] + t)
  {
    forall j | 0 <= j < |t| ensures !Less(t[j], s[0]) {
      assert t[j] in multiset(t);
      if t[j] == x {
        LessTotal(x, s[0]);
        if Less(x, s[0]) { LessTransitive(x, s[0], x); LessIrreflexive(x); }
      } else {
        assert t[j] in multiset(s[1..]);
        var k :| 0 <= k < |s[1..]| && s[1..][k] == t[j];
        assert s[k + 1] == t[j];
      }
    }
  }

  function Insert(x: string, s: seq<string>): (r: seq<string>)
    requires Sorted(s)
    ensures |r| == |s| + 1
    ensures multiset(r) == multiset(s) + multiset{x}
    ensures Sorted(r)
  {
    if s == [] then [x]
    else if !Less(s[0], x) then
      PrependLeast(x, s);
      [x] + s
    else
      SortedTail(s);
      var t := Insert(x, s[1..]);
      assert s == [s[0]] + s[1..];
      PrependHead(x, s, t);
      [s[0]] + t
  }

  /** Python's `sorted` on a list of strings. */
  function Sort(s: seq<string>): (r: seq<string>)
    ensures |r| == |s|
    ensures multiset(r) == multiset(s)
    ensures Sorted(r)
  {
    if s == [] then []
    else
      assert s == [s[0]] + s[1..];
      Insert(s[0], Sort(s[1..]))
  }

  lemma SortedHeadIsLeast(s: seq<string>, x: string)
    requires Sorted(s) && x in s
    ensures !Less(x, s[0])
  {
    var k :| 0 <= k < |s| && s[k] == x;
    if k == 0 { LessIrreflexive(x); }
  }

  lemma SortedTail(s: seq<string>)
    requires Sorted(s) && |s| > 0
    ensures Sorted(s[1..])
  {
    forall i, j | 0 <= i < j < |s| - 1 ensures !Less(s[1..][j], s[1..][i]) {
      assert s[1..][j] == s[j + 1] && s[1..][i] == s[i + 1];
    }
  }

  /** A sorted arrangement of a multiset is unique: this is why comparing
      `sorted(...)` results compares contents. */
  lemma {:induction false} SortedUnique(a: seq<string>, b: seq<string>)
    requires Sorted(a) && Sorted(b) && multiset(a) == multiset(b)
    ensures a == b
    decreases |a|
  {
    assert |a| == |multiset(a)| == |multiset(b)| == |b|;
    if |a| > 0 {
      assert a[0] in multiset(b) && b[0] in multiset(a);
      SortedHeadIsLeast(b, a[0]);
      SortedHeadIsLeast(a, b[0]);
      LessTotal(a[0], b[0]);
      assert a == [a[0]] + a[1..] && b == [b[0]] + b[1..];
      assert multiset(a[1..]) == multiset(a) - multiset{a[0]};
      assert multiset(b[1..]) == multiset(b) - multiset{b[0]};
      SortedTail(a);
      SortedTail(b);
      SortedUnique(a[1..], b[1..]);
    }
  }

  /** `sorted(d.keys())`, built by walking over the keys. */
  method SortedKeys(keys: set<string>) returns (r: seq<string>)
    ensures Sorted(r)
    ensures multiset(r) == multiset(keys)
  {
    var listed: seq<string> := [];
    var rest := keys;
    while rest != {}
      invariant rest <= keys
      invariant multiset(listed) + multiset(rest) == multiset(keys)
      decreases |rest|
    {
      var x :| x in rest;
      assert multiset(rest) == multiset(rest - {x}) + multiset{x};
      listed := listed + [x];
      rest := rest - {x};
    }
    r := Sort(listed);
  }

  /** `sorted(ks) == params` for the distinct names `ks` of a dict, where
      `params` was itself produced by `sorted`, means exactly that `params`
      lists each key once. */
  lemma SortedKeysMatch(params: seq<string>, listed: seq<string>, keys: set<string>)
    requires Sorted(params) && Sorted(listed)
    requires multiset(listed) == multiset(keys)
    ensures listed == params <==> multiset(params) == multiset(keys)
  {
    if multiset(params) == multiset(keys) {
      SortedUnique(params, listed);
    }
  }

  // ---------------------------------------------------------------------
  // `str.isalnum` (restricted to ASCII) and `str(int)`.

  predicate IsAlnumChar(c: char)
  {
    ('a' <= c <= 'z') || ('A' <= c <= 'Z') || ('0' <= c <= '9')
  }

  /** `s.isalnum()`: non-empty and every character a letter or a digit. */
  predicate IsAlnum(s: string): (ok: bool)
    ensures ok ==> s != ""
    ensures ok ==> forall i :: 0 <= i < |s| ==> s[i] !in " _-.,;:'\"/()"
  {
    |s| > 0 && forall i :: 0 <= i < |s| ==> IsAlnumChar(s[i])
  }

  function Digit(d: nat): (c: char)
    requires d < 10
    ensures '0' <= c <= '9'
  {
    ['0', '1', '2', '3', '4', '5', '6', '7', '8', '9'][d]
  }

  function DigitValue(c: char): nat
  {
    if '0' <= c <= '9' then (c as int - '0' as int) as nat else 0
  }

  /** Decimal digits of a natural number, most significant first. */
  function NatToString(n: nat): (r: string)
    ensures |r| > 0
    ensures forall i :: 0 <= i < |r| ==> '0' <= r[i] <= '9'
  {
    if n < 10 then [Digit(n)] else NatToString(n / 10) + [Digit(n % 10)]
  }

  function ParseNat(s: string): nat
  {
    if s == [] then 0 else ParseNat(s[..|s| - 1]) * 10 + DigitValue(s[|s| - 1])
  }

  lemma {:induction false} ParseNatToString(n: nat)
    ensures ParseNat(NatToString(n)) == n
  {
    if n >= 10 {
      var s := NatToString(n);
      assert s[..|s| - 1] == NatToString(n / 10);
      ParseNatToString(n / 10);
    }
  }

  /** Python's `str(n)` for an int. */
  function IntToString(n: int): (r: string)
    ensures |r| > 0
  {
    if n < 0 then "-" + NatToString(-n) else NatToString(n)
  }

  /** Distinct ids give distinct decimal texts. */
  lemma NatToStringUnsigned(n: nat)
    ensures NatToString(n)[0] != '-'
  {
    assert '0' <= NatToString(n)[0] <= '9';
  }

  lemma NatToStringInjective(a: nat, b: nat)
    requires NatToString(a) == NatToString(b)
    ensures a == b
  {
    ParseNatToString(a);
    ParseNatToString(b);
  }

  lemma IntToStringInjective(a: int, b: int)
    requires IntToString(a) == IntToString(b)
    ensures a == b
  {
    if a < 0 && b < 0 {
      var s, t := NatToString(-a), NatToString(-b);
      assert ("-" + s)[1..] == s;
      assert ("-" + t)[1..] == t;
      NatToStringInjective(-a, -b);
    } else if a >= 0 && b >= 0 {
      NatToStringInjective(a, b);
    } else if a < 0 {
      NatToStringUnsigned(b);
    } else {
      NatToStringUnsigned(a);
    }
  }

  // ---------------------------------------------------------------------
  // Run records and the files results are kept in.

  /** `run['state'] == LookupState.COMPLETED`. */
  predicate Completed(run: RunRecord)
    requires "state" in run
  {
    run["state"] == StateField(COMPLETED)
  }

  /** `str(Path(dir) / name)` for a plain file name: pathlib drops a
      trailing '/' of the directory and renders an empty directory as '.',
      which then vanishes from the joined path. */
  function JoinPath(dir: string, name: string): (r: string)
    ensures |r| >= |name| && r[|r| - |name|..] == name
  {
    if dir == [] then name
    else if dir[|dir| - 1] == '/' then dir + name
    else dir + "/" + name
  }

  /** `dir / f'{stem}{id}{ext}'`. */
  function NumberedFile(dir: string, stem: string, id: int, ext: string): (r: string)
    ensures var name := stem + IntToString(id) + ext;
            |r| >= |name| > |stem| + |ext| && r[|r| - |name|..] == name
  {
    JoinPath(dir, stem + IntToString(id) + ext)
  }

  lemma CommonPrefix(p: string, x: string, y: string)
    requires p + x == p + y
    ensures x == y
  {
    assert x == (p + x)[|p|..];
    assert y == (p + y)[|p|..];
  }

  /** Different runs are stored in different files. */
  lemma NumberedFileInjective(dir: string, stem: string, ext: string, i: int, j: int)
    requires NumberedFile(dir, stem, i, ext) == NumberedFile(dir, stem, j, ext)
    ensures i == j
  {
    var s, t := IntToString(i), IntToString(j);
    var x, y := stem + s + ext, stem + t + ext;
    if dir == [] {
    } else if dir[|dir| - 1] == '/' {
      CommonPrefix(dir, x, y);
    } else {
      assert dir + "/" + x == (dir + "/") + x;
      assert dir + "/" + y == (dir + "/") + y;
      CommonPrefix(dir + "/", x, y);
    }
    assert x == y;
    assert |s| == |t|;
    assert s == x[|stem|..|stem| + |s|];
    assert t == y[|stem|..|stem| + |t|];
    IntToStringInjective(i, j);
  }
}
