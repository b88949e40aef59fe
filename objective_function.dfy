/** The constructor logic of the objective function
    (ObjectiveFunction_client/objective_function.py): the parameters are
    split into active and constant ones, listed in sorted order, and turned
    into the wire schema; the schema is then either sent to the server to
    create the study or compared with the schema the server already holds.

    The HTTP exchanges are inputs: a `StudyResponse` gives the status of the
    schema request, the schema the server returned and the status of the
    create request. */
module ObjectiveFunctions {
  import opened Common
  import opened Parameters
  import opened Proxies

  /** Parameter name to `to_dict` schema. */
  type ParamDict = map<string, map<string, JsonVal>>

  datatype StudyResponse = StudyResponse(getStatus: int, remote: ParamDict, createStatus: int)

  /** The objective-function flavours; each hands its run type to the
      server. */
  datatype Variant = MisfitVariant | ResidualVariant | SimObsVariant

  /** The run type each flavour passes both at construction and to
      `setDefaultScenario`: MISFIT for the misfit flavour, PATH for the two
      that store their results in files. */
  function RunTypeOf(v: Variant): (t: RunType)
    ensures t == MISFIT <==> v == MisfitVariant
    ensures t == PATH <==> v != MisfitVariant
  {
    if v == MisfitVariant then MISFIT else PATH
  }

  /** The loop that sorts parameters by their `constant` flag. */
  method Partition(params: map<string, Parameter>)
    returns (active: map<string, Parameter>, constants: map<string, Parameter>)
    ensures active.Keys !! constants.Keys
    ensures active.Keys + constants.Keys == params.Keys
    ensures forall p :: p in params ==> (p in constants <==> params[p].constant)
    ensures forall p :: p in active ==> active[p] == params[p]
    ensures forall p :: p in constants ==> constants[p] == params[p]
  {
    active, constants := map[], map[];
    var rest := params.Keys;
    while rest != {}
      invariant rest <= params.Keys
      invariant forall p :: p in active <==> p in params && p !in rest && !params[p].constant
      invariant forall p :: p in constants <==> p in params && p !in rest && params[p].constant
      invariant forall p :: p in active ==> active[p] == params[p]
      invariant forall p :: p in constants ==> constants[p] == params[p]
      decreases |rest|
    {
      var p :| p in rest;
      if params[p].constant {
        constants := constants[p := params[p]];
      } else {
        active := active[p := params[p]];
      }
      rest := rest - {p};
    }
  }

  /** `parameters[p].to_dict`. */
  function ParamSchema(p: Parameter): map<string, JsonVal>
  {
    p.schema.ToDict()
  }

  /** The wire schema of a parameter mapping: each name to its `to_dict`. */
  function SchemaOf(params: map<string, Parameter>): (d: ParamDict)
    ensures d.Keys == params.Keys
  {
    map p | p in params :: ParamSchema(params[p])
  }

  lemma SameEntries(a: ParamDict, b: ParamDict)
    requires a.Keys == b.Keys && forall k :: k in a ==> a[k] == b[k]
    ensures a == b
  {
  }

  /** The loop that builds `param_dict`. */
  method BuildParamDict(params: map<string, Parameter>) returns (d: ParamDict)
    ensures d == SchemaOf(params)
  {
    d := map[];
    var rest := params.Keys;
    while rest != {}
      invariant rest <= params.Keys
      invariant forall p :: p in d <==> p in params && p !in rest
      invariant forall p :: p in d ==> d[p] == ParamSchema(params[p])
      decreases |rest|
    {
      var p :| p in rest;
      d := d[p := ParamSchema(params[p])];
      rest := rest - {p};
    }
    SameEntries(d, SchemaOf(params));
  }

  /** Some key of a remote schema is missing locally or holds a value that
      is not `==` to the local one. Keys only the local schema has do not
      count. */
  predicate KeyMismatch(local: map<string, JsonVal>, remote: map<string, JsonVal>)
  {
    exists k :: k in remote && (k !in local || !JsonEq(local[k], remote[k]))
  }

  /** The nested loops of objective_function.py:84-100 would set `error`. */
  predicate SchemaMismatch(d: ParamDict, remote: ParamDict)
  {
    exists p :: p in remote && (p !in d || KeyMismatch(d[p], remote[p]))
  }

  /** The inner loop: one remote parameter's keys. */
  method FindKeyMismatch(local: map<string, JsonVal>, remote: map<string, JsonVal>) returns (error: bool)
    ensures error <==> KeyMismatch(local, remote)
  {
    error := false;
    var rest := remote.Keys;
    while rest != {}
      invariant rest <= remote.Keys
      invariant error <==> exists k :: k in remote && k !in rest && (k !in local || !JsonEq(local[k], remote[k]))
      decreases |rest|
    {
      var k :| k in rest;
      if k !in local {
        error := true;
      } else if !JsonEq(local[k], remote[k]) {
        error := true;
      }
      rest := rest - {k};
    }
  }

  /** The outer loop: every remote parameter. */
  method FindMismatch(d: ParamDict, remote: ParamDict) returns (error: bool)
    ensures error <==> SchemaMismatch(d, remote)
  {
    error := false;
    var rest := remote.Keys;
    while rest != {}
      invariant rest <= remote.Keys
      invariant error <==> exists p :: p in remote && p !in rest && (p !in d || KeyMismatch(d[p], remote[p]))
      decreases |rest|
    {
      var p :| p in rest;
      if p !in d {
        error := true;
      } else {
        var e := FindKeyMismatch(d[p], remote[p]);
        if e {
          error := true;
        }
      }
      rest := rest - {p};
    }
  }

  /** objective_function.py:66-102 as written: the `raise` at line 101 belongs to the
      branch taken when the parameter counts agree, so a count mismatch is
      only logged, and a status other than 200 or 404 checks nothing. */
  function LoadOrCreateAsWritten(numParams: nat, d: ParamDict, resp: StudyResponse): (r: Outcome<Error>)
    ensures r.Fail? ==> r.error == RuntimeError
    ensures resp.getStatus == 404 ==> (r.Pass? <==> resp.createStatus == 201)
    ensures resp.getStatus == 200 ==> (r.Fail? <==> numParams == |resp.remote| && SchemaMismatch(d, resp.remote))
    ensures resp.getStatus != 200 && resp.getStatus != 404 ==> r.Pass?
  {
    if resp.getStatus == 404 then
      if resp.createStatus != 201 then Fail(RuntimeError) else Pass
    else if resp.getStatus == 200 then
      if numParams != |resp.remote| then Pass
      else if SchemaMismatch(d, resp.remote) then Fail(RuntimeError)
      else Pass
    else Pass
  }

  /** The gate with `if error: raise` after the count check and the loops
      alike, as the `error = True` at objective_function.py:82 evidently intends. */
  function LoadOrCreate(numParams: nat, d: ParamDict, resp: StudyResponse): (r: Outcome<Error>)
    ensures r.Fail? ==> r.error == RuntimeError
    ensures resp.getStatus == 404 ==> (r.Pass? <==> resp.createStatus == 201)
    ensures resp.getStatus == 200 ==> (r.Pass? <==> numParams == |resp.remote| && !SchemaMismatch(d, resp.remote))
    ensures resp.getStatus != 200 && resp.getStatus != 404 ==> r.Pass?
  {
    if resp.getStatus == 404 then
      if resp.createStatus != 201 then Fail(RuntimeError) else Pass
    else if resp.getStatus == 200 then
      if numParams != |resp.remote| || SchemaMismatch(d, resp.remote) then Fail(RuntimeError)
      else Pass
    else Pass
  }

  /** The two gates differ exactly on a 200 response whose parameter count
      disagrees with the local one. */
  lemma GatesDifferOnCountOnly(numParams: nat, d: ParamDict, resp: StudyResponse)
    ensures LoadOrCreateAsWritten(numParams, d, resp) != LoadOrCreate(numParams, d, resp) <==>
            resp.getStatus == 200 && numParams != |resp.remote|
  {
  }

  /** A server holding one parameter of two passes the gate as written. */
  lemma CountMismatchNotRaised()
    ensures var d: ParamDict := map["a" := IntSchema(0, 1).ToDict(), "b" := IntSchema(0, 1).ToDict()];
            var resp := StudyResponse(200, map["a" := IntSchema(0, 1).ToDict()], 0);
            LoadOrCreateAsWritten(|d|, d, resp) == Pass && LoadOrCreate(|d|, d, resp) == Fail(RuntimeError)
  {
    var d: ParamDict := map["a" := IntSchema(0, 1).ToDict(), "b" := IntSchema(0, 1).ToDict()];
    var remote: ParamDict := map["a" := IntSchema(0, 1).ToDict()];
    assert d.Keys == {"a", "b"};
    assert |d| == 2 && |remote| == 1;
  }

  lemma SubsetSameSize(a: set<string>, b: set<string>)
    requires a <= b && |a| == |b|
    ensures a == b
  {
    var c := b - a;
    assert b == a + c && a * c == {};
    assert |b| == |a| + |c|;
    assert c == {};
  }

  /** When the schema comparison passes, the server knows exactly the local
      parameter names. */
  lemma GatePassMeansSameNames(d: ParamDict, resp: StudyResponse)
    requires resp.getStatus == 200
    requires LoadOrCreate(|d|, d, resp).Pass?
    ensures d.Keys == resp.remote.Keys
  {
    assert resp.remote.Keys <= d.Keys;
    SubsetSameSize(resp.remote.Keys, d.Keys);
  }

  /** Values are compared with `!=`, not with the 1e-12 tolerance of
      parameter equality: a bound off by 1e-13 is a mismatch. */
  lemma ComparisonIsExact()
    ensures var local := FloatSchema(0.0, 1.0, 0.5);
            var remote := FloatSchema(0.0000000000001, 1.0, 0.5);
            Equal(local, remote) &&
            var d: ParamDict := map["a" := local.ToDict()];
            LoadOrCreate(1, d, StudyResponse(200, map["a" := remote.ToDict()], 0)) == Fail(RuntimeError)
  {
    var local := FloatSchema(0.0, 1.0, 0.5);
    var remote := FloatSchema(0.0000000000001, 1.0, 0.5);
    var d: ParamDict := map["a" := local.ToDict()];
    var r: ParamDict := map["a" := remote.ToDict()];
    assert "minv" in r["a"] && !JsonEq(d["a"]["minv"], r["a"]["minv"]);
    assert KeyMismatch(d["a"], r["a"]);
    assert SchemaMismatch(d, r);
  }

  /** A key only the local schema has is not checked. */
  lemma LocalOnlyKeysIgnored()
    ensures var local := FloatSchema(0.0, 1.0, 0.5).ToDict();
            var d: ParamDict := map["a" := local];
            var remote: ParamDict := map["a" := local - {"resolution"}];
            LoadOrCreate(1, d, StudyResponse(200, remote, 0)) == Pass
  {
    var local := FloatSchema(0.0, 1.0, 0.5).ToDict();
    var d: ParamDict := map["a" := local];
    var remote: ParamDict := map["a" := local - {"resolution"}];
    assert !KeyMismatch(d["a"], remote["a"]) by {
      forall k | k in remote["a"] ensures k in local && JsonEq(local[k], remote["a"][k]) {
        assert remote["a"][k] == local[k];
        match local[k]
        case JStr(_) =>
        case _ =>
      }
    }
    assert !SchemaMismatch(d, remote);
  }

  /** objective_function.py:66-102 with the gate evidently intended: the create-status
      check on 404, the count check and the nested loops on 200. */
  method CheckStudy(numParams: nat, d: ParamDict, resp: StudyResponse) returns (r: Outcome<Error>)
    ensures r == LoadOrCreate(numParams, d, resp)
  {
    r := Pass;
    if resp.getStatus == 404 {
      if resp.createStatus != 201 {
        r := Fail(RuntimeError);
      }
    } else if resp.getStatus == 200 {
      var error := false;
      if numParams != |resp.remote| {
        error := true;
      } else {
        error := FindMismatch(d, resp.remote);
      }
      if error {
        r := Fail(RuntimeError);
      }
    }
  }

  class ObjectiveFunction {
    const study: string
    const basedir: string
    const prelim: bool
    const proxy: Proxy
    const parameters: map<string, Parameter>
    const activeParameters: map<string, Parameter>
    const constantParameters: map<string, Parameter>
    /** `_paramlist`: every parameter name, sorted. */
    const paramList: seq<string>
    /** `_active_paramlist`: the active parameter names, sorted. */
    const activeParamList: seq<string>

    ghost predicate Valid()
    {
      && |parameters| > 0
      && activeParameters.Keys !! constantParameters.Keys
      && activeParameters.Keys + constantParameters.Keys == parameters.Keys
      && (forall p :: p in parameters ==> (p in constantParameters <==> parameters[p].constant))
      && (forall p :: p in activeParameters ==> activeParameters[p] == parameters[p])
      && (forall p :: p in constantParameters ==> constantParameters[p] == parameters[p])
      && Sorted(paramList) && multiset(paramList) == multiset(parameters.Keys)
      && Sorted(activeParamList) && multiset(activeParamList) == multiset(activeParameters.Keys)
    }

    constructor (study: string, basedir: string, prelim: bool, proxy: Proxy,
                 parameters: map<string, Parameter>,
                 activeParameters: map<string, Parameter>,
                 constantParameters: map<string, Parameter>,
                 paramList: seq<string>, activeParamList: seq<string>)
      ensures this.study == study && this.basedir == basedir && this.prelim == prelim
      ensures this.proxy == proxy && this.parameters == parameters
      ensures this.activeParameters == activeParameters && this.constantParameters == constantParameters
      ensures this.paramList == paramList && this.activeParamList == activeParamList
    {
      this.study := study;
      this.basedir := basedir;
      this.prelim := prelim;
      this.proxy := proxy;
      this.parameters := parameters;
      this.activeParameters := activeParameters;
      this.constantParameters := constantParameters;
      this.paramList := paramList;
      this.activeParamList := activeParamList;
    }

    /** `num_params`: the length of `_paramlist`, and the active count plus
        the constants. */
    function NumParams(): (n: nat)
      ensures Valid() ==> n == |paramList| == |activeParameters| + |constantParameters|
    {
      assert Valid() ==> |parameters| == |paramList| == |activeParameters| + |constantParameters| by {
        if Valid() {
          PartitionCounts(parameters, activeParameters, constantParameters, paramList);
        }
      }
      |parameters|
    }

    /** `num_active_params`: the length of `_active_paramlist`, at most
        `num_params`. */
    function NumActiveParams(): (n: nat)
      ensures Valid() ==> n == |activeParamList| && n <= |parameters|
    {
      assert Valid() ==> |activeParameters| == |activeParamList| <= |parameters| by {
        if Valid() {
          PartitionCounts(activeParameters, activeParameters, map[], activeParamList);
          PartitionCounts(parameters, activeParameters, constantParameters, paramList);
        }
      }
      |activeParameters|
    }
  }

  /** The counts agree with the partition and with the sorted lists:
      `num_params` is `num_active_params` plus the number of constants, and
      a list holding each name once (as `_paramlist` does) is as long as the
      set of names. */
  lemma PartitionCounts(all: map<string, Parameter>, active: map<string, Parameter>,
                        constants: map<string, Parameter>, list: seq<string>)
    requires active.Keys !! constants.Keys && active.Keys + constants.Keys == all.Keys
    requires multiset(list) == multiset(all.Keys)
    ensures |all| == |active| + |constants|
    ensures |list| == |all|
  {
    assert |all.Keys| == |all| && |active.Keys| == |active| && |constants.Keys| == |constants|;
    assert |list| == |multiset(list)| == |multiset(all.Keys)|;
  }

  /** A list holding each name of a set once has no repeats. */
  lemma ListedOnce(all: set<string>, list: seq<string>)
    requires multiset(list) == multiset(all)
    ensures forall i, j :: 0 <= i < j < |list| ==> list[i] != list[j]
  {
    forall i, j | 0 <= i < j < |list| ensures list[i] != list[j] {
      assert multiset(list)[list[i]] == 1;
      assert list == list[..j] + list[j..];
      assert list[i] in multiset(list[..j]);
    }
  }

  /** objective_function.py:44-60: the object with its partition and sorted name lists. */
  method Assemble(study: string, basedir: string, prelim: bool, proxy: Proxy,
                  params: map<string, Parameter>) returns (o: ObjectiveFunction)
    requires |params| > 0
    ensures fresh(o) && o.Valid()
    ensures o.parameters == params && o.study == study && o.basedir == basedir
    ensures o.prelim == prelim && o.proxy == proxy
    ensures o.NumParams() == o.NumActiveParams() + |o.constantParameters|
    ensures |o.paramList| == o.NumParams() && |o.activeParamList| == o.NumActiveParams()
  {
    var active, constants := Partition(params);
    var paramList := SortedKeys(params.Keys);
    var activeParamList := SortedKeys(active.Keys);
    PartitionCounts(params, active, constants, paramList);
    PartitionCounts(active, active, map[], activeParamList);
    o := new ObjectiveFunction(study, basedir, prelim, proxy, params, active, constants,
                               paramList, activeParamList);
  }

  /** `ObjectiveFunction(appname, secret, study, basedir, parameters, ...)`.
      An empty base URL fails in the proxy first; an empty parameter mapping
      raises RuntimeError. `request` is the schema posted to `create_study`,
      present exactly when the server did not know the study. */
  method NewObjectiveFunction(study: string, basedir: string, params: map<string, Parameter>,
                              prelim: bool, urlBase: string, resp: StudyResponse)
    returns (r: Result<ObjectiveFunction, Error>, request: Option<ParamDict>)
    ensures urlBase == [] ==> r == Failure(IndexError) && request == None
    ensures urlBase != [] && |params| == 0 ==> r == Failure(RuntimeError) && request == None
    ensures urlBase != [] && |params| > 0 ==>
              && (r.Success? <==> LoadOrCreate(|params|, SchemaOf(params), resp).Pass?)
              && (request.Some? <==> resp.getStatus == 404)
              && (request.Some? ==> request.value == SchemaOf(params))
    ensures r.Failure? && urlBase != [] ==> r.error == RuntimeError
    ensures r.Success? ==>
              && fresh(r.value) && r.value.Valid()
              && r.value.parameters == params && r.value.study == study
              && r.value.basedir == basedir && r.value.prelim == prelim
              && Success(r.value.proxy.urlBase) == NormaliseBase(urlBase)
              && r.value.NumParams() == r.value.NumActiveParams() + |r.value.constantParameters|
              && |r.value.paramList| == r.value.NumParams()
              && |r.value.activeParamList| == r.value.NumActiveParams()
  {
    request := None;
    var proxy := NewProxy(urlBase);
    if proxy.Failure? {
      return Failure(proxy.error), None;
    }
    if |params| == 0 {
      return Failure(RuntimeError), None;
    }
    var o := Assemble(study, basedir, prelim, proxy.value, params);
    var d := BuildParamDict(params);
    if resp.getStatus == 404 {
      request := Some(d);
    }
    var gate := CheckStudy(|params|, d, resp);
    if gate.Fail? {
      return Failure(gate.error), request;
    }
    r := Success(o);
  }
}
