/** The residual flavour (ObjectiveFunction_client/objective_function_residual.py):
    each run's result is a vector kept in a file `residuals_<id>.npy` under
    the base directory, and the object remembers the length of the first
    vector it sees. */
module ResidualObjective {
  import opened Common

  /** The vector length assumed while none has been seen. */
  const DefaultNumResiduals: nat := 50

  /** The one-shot latch on `_num_residuals`: the first size seen is kept. */
  function Latch(known: Option<nat>, size: nat): (r: Option<nat>)
    ensures r.Some?
    ensures known.Some? ==> r == known
    ensures known.None? ==> r == Some(size)
  {
    if known.None? then Some(size) else known
  }

  /** `basedir / f'residuals_{id}.npy'`. */
  function ResidualFile(basedir: string, id: int): (r: string)
    ensures var name := "residuals_" + IntToString(id) + ".npy";
            |r| >= |name| && r[|r| - |name|..] == name
  {
    NumberedFile(basedir, "residuals_", id, ".npy")
  }

  /** Two runs never share a residual file. */
  lemma ResidualFilesDistinct(basedir: string, i: int, j: int)
    requires i != j
    ensures ResidualFile(basedir, i) != ResidualFile(basedir, j)
  {
    if ResidualFile(basedir, i) == ResidualFile(basedir, j) {
      NumberedFileInjective(basedir, "residuals_", ".npy", i, j);
    }
  }

  predicate UnitInterval(v: seq<real>)
  {
    forall i :: 0 <= i < |v| ==> 0.0 <= v[i] < 1.0
  }

  class ObjectiveFunctionResidual {
    const basedir: string
    /** `_num_residuals`: None until a vector has been seen. */
    var known: Option<nat>

    constructor (basedir: string)
      ensures this.basedir == basedir && known == None
    {
      this.basedir := basedir;
      known := None;
    }

    /** `num_residuals`. */
    function NumResiduals(): (n: nat)
      reads this
      ensures known.None? ==> n == DefaultNumResiduals
      ensures known.Some? ==> n == known.value
    {
      if known.None? then DefaultNumResiduals else known.value
    }

    /** `get_result` after the base class has returned `run`. A run that is
        not complete gets `num_residuals` draws of `numpy.random.rand`; a
        completed one the vector `stored` read from the file `run['path']`,
        whose size is latched. Only the `residual` entry changes. */
    method GetResult(run: RunRecord, stored: seq<real>) returns (r: Result<RunRecord, Error>)
      modifies this
      ensures "state" !in run ==> r == Failure(KeyError)
      ensures r.Failure? ==> r.error == KeyError && known == old(known)
      ensures r.Success? <==> "state" in run && (Completed(run) ==> "path" in run)
      ensures r.Success? ==> r.value.Keys == run.Keys + {"residual"}
      ensures r.Success? ==> forall k :: k in run && k != "residual" ==> r.value[k] == run[k]
      ensures r.Success? && !Completed(run) ==>
                && r.value["residual"].ArrayField?
                && |r.value["residual"].a| == old(NumResiduals())
                && UnitInterval(r.value["residual"].a)
                && known == old(known)
      ensures r.Success? && Completed(run) ==>
                r.value["residual"] == ArrayField(stored) && known == Latch(old(known), |stored|)
    {
      if "state" !in run {
        return Failure(KeyError);
      }
      if !Completed(run) {
        var n := NumResiduals();
        var placeholder: seq<real> :| |placeholder| == n && UnitInterval(placeholder) by {
          assert UnitInterval(seq(n, _ => 0.0));
        }
        return Success(run["residual" := ArrayField(placeholder)]);
      }
      if "path" !in run {
        return Failure(KeyError);
      }
      if known.None? {
        known := Some(|stored|);
      }
      r := Success(run["residual" := ArrayField(stored)]);
    }

    /** `_set_data` for the run with id `runId`: the vector goes to its
        residual file, whose name is the payload; its size is latched. */
    method SetData(runId: int, result: seq<real>) returns (d: map<string, Field>)
      modifies this
      ensures d == map["path" := ValueField(JStr(ResidualFile(basedir, runId)))]
      ensures known == Latch(old(known), |result|)
    {
      if known.None? {
        known := Some(|result|);
      }
      d := map["path" := ValueField(JStr(ResidualFile(basedir, runId)))];
    }

    /** `__call__`: the `residual` entry of the record the base class
        returns. */
    function Call(result: RunRecord): (r: Result<Field, Error>)
      ensures r.Success? <==> "residual" in result
      ensures r.Success? ==> r.value == result["residual"]
      ensures r.Failure? ==> r.error == KeyError
    {
      if "residual" in result then Success(result["residual"]) else Failure(KeyError)
    }
  }

  /** The latch after a sequence of vectors of the given sizes: the size
      known before, or else the first size seen. */
  function LatchAll(known: Option<nat>, sizes: seq<nat>): (r: Option<nat>)
    ensures known.Some? ==> r == known
    ensures known.None? && sizes != [] ==> r == Some(sizes[0])
    ensures known.None? && sizes == [] ==> r == None
    decreases |sizes|
  {
    if sizes == [] then known else LatchAll(Latch(known, sizes[0]), sizes[1..])
  }
}
