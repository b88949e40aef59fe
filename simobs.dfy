/** The simulated-observations flavour
    (ObjectiveFunction_client/objective_function_simobs.py): each run's
    result is a series labelled by observation name, kept in a file
    `simobs_<id>.json` of the scenario's directory. The observation names are
    registered with the server when the study is created and compared with
    the server's when it is loaded. */
module SimObsObjective {
  import opened Common

  /** The distinct names in order of first occurrence: the index of
      `pandas.Series({n: ... for n in names})`. */
  function Dedup(names: seq<string>): (r: seq<string>)
    ensures forall n :: n in r <==> n in names
    ensures forall i, j :: 0 <= i < j < |r| ==> r[i] != r[j]
    ensures |r| <= |names|
    decreases |names|
  {
    if names == [] then []
    else
      var d := Dedup(names[..|names| - 1]);
      assert names == names[..|names| - 1] + [names[|names| - 1]];
      if names[|names| - 1] in d then d else d + [names[|names| - 1]]
  }

  /** Names that are already distinct are kept as they are. */
  lemma {:induction false} DedupDistinct(names: seq<string>)
    requires forall i, j :: 0 <= i < j < |names| ==> names[i] != names[j]
    ensures Dedup(names) == names
    decreases |names|
  {
    if names != [] {
      var init := names[..|names| - 1];
      DedupDistinct(init);
      assert names[|names| - 1] !in init;
      assert names == init + [names[|names| - 1]];
    }
  }

  predicate UnitValues(s: Series)
  {
    forall i :: 0 <= i < |s| ==> 0.0 <= s[i].value < 1.0
  }

  /** `scenario_dir(scenario) / f'simobs_{id}.json'`. */
  function SimObsFile(scenarioDir: string, id: int): (r: string)
    ensures var name := "simobs_" + IntToString(id) + ".json";
            |r| >= |name| && r[|r| - |name|..] == name
  {
    NumberedFile(scenarioDir, "simobs_", id, ".json")
  }

  /** Two runs never share a result file. */
  lemma SimObsFilesDistinct(scenarioDir: string, i: int, j: int)
    requires i != j
    ensures SimObsFile(scenarioDir, i) != SimObsFile(scenarioDir, j)
  {
    if SimObsFile(scenarioDir, i) == SimObsFile(scenarioDir, j) {
      NumberedFileInjective(scenarioDir, "simobs_", ".json", i, j);
    }
  }

  class ObjectiveFunctionSimObs {
    const observationNames: seq<string>

    constructor (observationNames: seq<string>)
      ensures this.observationNames == observationNames
    {
      this.observationNames := observationNames;
    }

    /** `num_residuals`: the number of observation names, repeats
        included. */
    function NumResiduals(): (n: nat)
      ensures n == |observationNames|
    {
      |observationNames|
    }

    /** `_create_study`, after the base class: the observation names are
        registered, and any status but 201 raises. */
    function CreateStudyObs(status: int): (r: Outcome<Error>)
      ensures r.Pass? <==> status == 201
      ensures r.Fail? ==> r.error == RuntimeError
    {
      if status == 404 then Fail(RuntimeError)
      else if status != 201 then Fail(RuntimeError)
      else Pass
    }

    /** The server's names agree with ours: as many, and each one known. */
    predicate ObsNamesMatch(remote: seq<string>)
    {
      |remote| == |observationNames| && forall i :: 0 <= i < |remote| ==> remote[i] in observationNames
    }

    /** `_load_study`, after the base class: `status` and `remote` are the
        answer to the request for the study's observation names. */
    method LoadStudyObs(status: int, remote: seq<string>) returns (r: Outcome<Error>)
      ensures status != 200 ==> r == Fail(RuntimeError)
      ensures r.Pass? <==> status == 200 && ObsNamesMatch(remote)
      ensures r.Fail? ==> r.error == RuntimeError
    {
      if status != 200 {
        return Fail(RuntimeError);
      }
      var error := false;
      if |remote| != |observationNames| {
        error := true;
      } else {
        var i := 0;
        while i < |remote|
          invariant 0 <= i <= |remote|
          invariant error <==> exists k :: 0 <= k < i && remote[k] !in observationNames
        {
          if remote[i] !in observationNames {
            error := true;
          }
          i := i + 1;
        }
      }
      r := if error then Fail(RuntimeError) else Pass;
    }

    /** A series fits: one entry per observation name counted with repeats,
        and every name in its index. */
    predicate SimObsMatch(series: Series)
    {
      |series| == NumResiduals() &&
      forall i :: 0 <= i < |observationNames| ==> observationNames[i] in SeriesIndex(series)
    }

    /** `_check_simobs`. */
    method CheckSimObs(series: Series) returns (r: Result<Series, Error>)
      ensures r.Success? <==> SimObsMatch(series)
      ensures r.Success? ==> r.value == series
      ensures r.Failure? ==> r.error == RuntimeError
    {
      var index := SeriesIndex(series);
      var error := false;
      if |series| != NumResiduals() {
        error := true;
      }
      var i := 0;
      while i < |observationNames|
        invariant 0 <= i <= |observationNames|
        invariant error <==>
                    |series| != NumResiduals() ||
                    exists k :: 0 <= k < i && observationNames[k] !in index
      {
        if observationNames[i] !in index {
          error := true;
        }
        i := i + 1;
      }
      r := if error then Failure(RuntimeError) else Success(series);
    }

    /** `get_result` after the base class has returned `run`. A run that is
        not complete gets one `random.random()` draw per distinct
        observation name; a completed one the series `parsed` read from the
        file `run['value']`, which must pass `_check_simobs`. Only the
        `simobs` entry changes. */
    method GetResult(run: RunRecord, parsed: Series) returns (r: Result<RunRecord, Error>)
      ensures "state" !in run ==> r == Failure(KeyError)
      ensures r.Success? <==>
                "state" in run && (Completed(run) ==> "value" in run && SimObsMatch(parsed))
      ensures "state" in run && Completed(run) && "value" !in run ==> r == Failure(KeyError)
      ensures r.Failure? && "state" in run && Completed(run) && "value" in run ==> r.error == RuntimeError
      ensures r.Failure? ==> r.error == KeyError || r.error == RuntimeError
      ensures r.Success? ==> r.value.Keys == run.Keys + {"simobs"}
      ensures r.Success? ==> forall k :: k in run && k != "simobs" ==> r.value[k] == run[k]
      ensures r.Success? && !Completed(run) ==>
                && r.value["simobs"].SeriesField?
                && SeriesIndex(r.value["simobs"].series) == Dedup(observationNames)
                && UnitValues(r.value["simobs"].series)
      ensures r.Success? && Completed(run) ==> r.value["simobs"] == SeriesField(parsed)
    {
      if "state" !in run {
        return Failure(KeyError);
      }
      if !Completed(run) {
        var names := Dedup(observationNames);
        var placeholder: Series :| SeriesIndex(placeholder) == names && UnitValues(placeholder) by {
          var zeros := seq(|names|, i requires 0 <= i < |names| => Entry(names[i], 0.0));
          assert SeriesIndex(zeros) == names;
          assert UnitValues(zeros);
        }
        return Success(run["simobs" := SeriesField(placeholder)]);
      }
      if "value" !in run {
        return Failure(KeyError);
      }
      var checked := CheckSimObs(parsed);
      if checked.Failure? {
        return Failure(checked.error);
      }
      r := Success(run["simobs" := SeriesField(parsed)]);
    }

    /** `_set_data`: the series is checked, then written to the run's file,
        whose name is the payload. */
    method SetData(scenarioDir: string, runId: int, result: Series)
      returns (r: Result<map<string, Field>, Error>)
      ensures r.Success? <==> SimObsMatch(result)
      ensures r.Failure? ==> r.error == RuntimeError
      ensures r.Success? ==> r.value == map["value" := ValueField(JStr(SimObsFile(scenarioDir, runId)))]
    {
      var checked := CheckSimObs(result);
      if checked.Failure? {
        return Failure(checked.error);
      }
      r := Success(map["value" := ValueField(JStr(SimObsFile(scenarioDir, runId)))]);
    }

    /** `__call__`: the `simobs` entry of the record the base class
        returns. */
    function Call(result: RunRecord): (r: Result<Field, Error>)
      ensures r.Success? <==> "simobs" in result
      ensures r.Success? ==> r.value == result["simobs"]
      ensures r.Failure? ==> r.error == KeyError
    {
      if "simobs" in result then Success(result["simobs"]) else Failure(KeyError)
    }
  }

  /** With distinct observation names, the placeholder of an incomplete run
      itself passes `_check_simobs`. */
  lemma PlaceholderFits(o: ObjectiveFunctionSimObs, placeholder: Series)
    requires forall i, j :: 0 <= i < j < |o.observationNames| ==> o.observationNames[i] != o.observationNames[j]
    requires SeriesIndex(placeholder) == Dedup(o.observationNames)
    ensures o.SimObsMatch(placeholder)
  {
    DedupDistinct(o.observationNames);
  }

  /** With a repeated observation name the placeholder is one entry short
      of `num_residuals`, so it would not pass `_check_simobs`. */
  lemma RepeatedNameShortensPlaceholder(o: ObjectiveFunctionSimObs, placeholder: Series)
    requires o.observationNames == ["a", "a"]
    requires SeriesIndex(placeholder) == Dedup(o.observationNames)
    ensures |placeholder| == 1 && !o.SimObsMatch(placeholder)
  {
    assert o.observationNames[..1] == ["a"];
    assert Dedup(["a"]) == ["a"] by {
      assert ["a"][..0] == [];
    }
  }
}
