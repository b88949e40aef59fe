/** The misfit flavour (ObjectiveFunction_client/objective_function_misfit.py):
    the server stores one number per run, and the client reports it as the
    run's `misfit`, or a random placeholder while the run is not complete. */
module MisfitObjective {
  import opened Common

  /** The upper end of the placeholder range, `100 * random.random()`. */
  const PlaceholderScale: real := 100.0

  /** `get_result` after the base class has returned `run`; `draw` is the
      value `random.random()` returned. The only change to the record is its
      `misfit` entry. */
  function GetResult(run: RunRecord, draw: real): (r: Result<RunRecord, Error>)
    requires 0.0 <= draw < 1.0
    ensures "state" !in run ==> r == Failure(KeyError)
    ensures r.Failure? ==> r.error == KeyError
    ensures r.Success? <==> "state" in run && (Completed(run) ==> "value" in run)
    ensures r.Success? ==> r.value.Keys == run.Keys + {"misfit"}
    ensures r.Success? ==> forall k :: k in run && k != "misfit" ==> r.value[k] == run[k]
    ensures r.Success? && Completed(run) ==> r.value["misfit"] == run["value"]
    ensures r.Success? && !Completed(run) ==>
              && r.value["misfit"].ValueField? && r.value["misfit"].v.JReal?
              && 0.0 <= r.value["misfit"].v.r < PlaceholderScale
  {
    if "state" !in run then Failure(KeyError)
    else if !Completed(run) then Success(run["misfit" := ValueField(JReal(PlaceholderScale * draw))])
    else if "value" !in run then Failure(KeyError)
    else Success(run["misfit" := run["value"]])
  }

  /** `_set_data`: the result is stored as the run's value. */
  function SetData(result: Field): (d: map<string, Field>)
    ensures d.Keys == {"value"} && d["value"] == result
  {
    map["value" := result]
  }

  /** `__call__`: the `misfit` entry of the record the base class returns. */
  function Call(result: RunRecord): (r: Result<Field, Error>)
    ensures r.Success? <==> "misfit" in result
    ensures r.Success? ==> r.value == result["misfit"]
    ensures r.Failure? ==> r.error == KeyError
  {
    if "misfit" in result then Success(result["misfit"]) else Failure(KeyError)
  }

  /** What `_set_data` stores is what a completed run reports as its
      misfit, and what `__call__` then returns. */
  lemma StoredResultIsMisfit(run: RunRecord, result: Field, draw: real)
    requires 0.0 <= draw < 1.0
    requires "state" in run && Completed(run)
    ensures var stored := run + SetData(result);
            && GetResult(stored, draw).Success?
            && GetResult(stored, draw).value["misfit"] == result
            && Call(GetResult(stored, draw).value) == Success(result)
  {
    var stored := run + SetData(result);
    assert "state" in stored && stored["state"] == run["state"];
    assert "value" in stored && stored["value"] == result;
  }

  /** A record that already carries a misfit entry has it replaced and
      nothing else touched, so post-processing twice is the same as once. */
  lemma GetResultIdempotentWhenCompleted(run: RunRecord, draw: real, draw': real)
    requires 0.0 <= draw < 1.0 && 0.0 <= draw' < 1.0
    requires GetResult(run, draw).Success? && Completed(run)
    ensures GetResult(GetResult(run, draw).value, draw') == GetResult(run, draw)
  {
    var once := GetResult(run, draw).value;
    assert "state" in once && once["state"] == run["state"];
    assert once["value"] == run["value"] == once["misfit"];
    assert once["misfit" := once["value"]] == once;
  }
}
