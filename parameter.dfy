/** Bounded optimisation parameters and their integer storage encoding
    (ObjectiveFunction_client/parameter.py).

    A parameter is a closed variant: an integer parameter with inclusive bounds,
    or a float parameter with inclusive bounds and a resolution. The immutable
    part (the `Schema`) carries every pure operation: the bounds check, the
    encoding to an integer storage code and back, snapping, equality and the
    wire schema. The `Parameter` class adds the mutable, checked `value` and the
    `constant` flag. */
module Parameters {
  import opened Common

  /** `sys.maxsize` on a 64-bit CPython build. */
  const MaxSize: int := 0x7FFF_FFFF_FFFF_FFFF

  /** Fraction of the resolution a float value may lie beyond its bounds. */
  const Tolerance: real := 0.99

  /** Absolute tolerance of float-parameter equality (1e-12). */
  const EqTolerance: real := 0.000000000001

  /** A constructor argument as Python sees it: an `int` or a `float`. */
  datatype Num = PyInt(i: int) | PyFloat(r: real)
  {
    /** `float(x)` */
    function AsReal(): real
    {
      if PyInt? then i as real else r
    }
  }

  function Abs(x: real): real
  {
    if x < 0.0 then -x else x
  }

  predicate IsInteger(x: real)
  {
    x.Floor as real == x
  }

  /** Python's `round(x)` for a float: the nearest integer, ties to even. */
  function Round(x: real): (r: int)
    ensures -0.5 <= r as real - x <= 0.5
    ensures Abs(r as real - x) == 0.5 ==> r % 2 == 0
  {
    var f := x.Floor;
    var d := x - f as real;
    if d < 0.5 then f
    else if d > 0.5 then f + 1
    else if f % 2 == 0 then f
    else f + 1
  }

  /** The two properties of `Round` determine it: any integer within 1/2 of
      `x` that is even on a tie is `Round(x)`. */
  lemma RoundUnique(x: real, k: int)
    requires -0.5 <= k as real - x <= 0.5
    requires Abs(k as real - x) == 0.5 ==> k % 2 == 0
    ensures k == Round(x)
  {
  }

  /** Rounding an integral value gives that value back. */
  lemma RoundInteger(k: int)
    ensures Round(k as real) == k
  {
  }

  /** The immutable part of a parameter: its variant and bounds. */
  datatype Schema =
    | IntSchema(imin: int, imax: int)
    | FloatSchema(fmin: real, fmax: real, resolution: real)
  {
    /** The constructor's guarantees: `minv < maxv`, and for floats a
        non-zero resolution whose code range fits below `sys.maxsize`. */
    predicate Valid()
    {
      match this
      case IntSchema(lo, hi) => lo < hi
      case FloatSchema(lo, hi, res) =>
        lo < hi && res != 0.0 && Round((hi - lo) / res) <= MaxSize - 1
    }

    /** `check_value` does not raise: inclusive bounds for ints, bounds
        widened by 0.99 resolution on each side for floats. */
    predicate Accepts(v: real): (ok: bool)
      ensures FloatSchema? && resolution >= 0.0 && fmin <= v <= fmax ==> ok
      ensures FloatSchema? && resolution > 0.0 && ok ==> fmin - resolution < v < fmax + resolution
    {
      match this
      case IntSchema(lo, hi) => lo as real <= v <= hi as real
      case FloatSchema(lo, hi, res) => lo - Tolerance * res <= v <= hi + Tolerance * res
    }

    /** The natural value a storage code stands for, before its check. */
    function Decode(code: int): real
    {
      match this
      case IntSchema(_, _) => code as real
      case FloatSchema(lo, _, res) => lo + code as real * res
    }

    /** `transform`: check the bounds, then discretise. */
    function Transform(v: real): (r: Result<int, Error>)
      requires Valid()
      requires IntSchema? ==> IsInteger(v)
      ensures r.Success? <==> Accepts(v)
      ensures r.Failure? ==> r.error == ValueError
      ensures r.Success? && IntSchema? ==> r.value as real == v
      ensures r.Success? && FloatSchema? ==>
                -0.5 <= r.value as real - (v - fmin) / resolution <= 0.5
      ensures r.Success? && FloatSchema? && Abs(r.value as real - (v - fmin) / resolution) == 0.5 ==>
                r.value % 2 == 0
    {
      if !Accepts(v) then Failure(ValueError)
      else match this
        case IntSchema(_, _) => Success(v.Floor)
        case FloatSchema(lo, _, res) => Success(Round((v - lo) / res))
    }

    /** `inv_transform`: decode, then check the decoded value. */
    function InvTransform(code: int): (r: Result<real, Error>)
      ensures r.Success? <==> Accepts(Decode(code))
      ensures r.Failure? ==> r.error == ValueError
      ensures r.Success? ==> r.value == Decode(code)
    {
      var v := Decode(code);
      if Accepts(v) then Success(v) else Failure(ValueError)
    }

    /** `__call__`: snap a value to the storage grid. */
    function Snap(v: real): (r: Result<real, Error>)
      requires Valid()
      requires IntSchema? ==> IsInteger(v)
      ensures r.Failure? ==> r.error == ValueError
      ensures r.Success? ==> Accepts(v) && Accepts(r.value)
      ensures IntSchema? ==> r == if Accepts(v) then Success(v) else Failure(ValueError)
    {
      match Transform(v)
      case Failure(e) => Failure(e)
      case Success(code) => InvTransform(code)
    }

    /** `to_dict`: the wire schema sent to and compared with the server. */
    function ToDict(): (d: map<string, JsonVal>)
      ensures "type" in d && "minv" in d && "maxv" in d
      ensures IntSchema? <==> d["type"] == JStr("int")
      ensures FloatSchema? <==> d["type"] == JStr("float")
      ensures IntSchema? ==> d.Keys == {"type", "minv", "maxv"}
      ensures FloatSchema? ==> d.Keys == {"type", "minv", "maxv", "resolution"}
      ensures IntSchema? ==> d["minv"] == JInt(imin) && d["maxv"] == JInt(imax)
      ensures FloatSchema? ==>
                d["minv"] == JReal(fmin) && d["maxv"] == JReal(fmax) && d["resolution"] == JReal(resolution)
    {
      match this
      case IntSchema(lo, hi) =>
        map["minv" := JInt(lo), "maxv" := JInt(hi), "type" := JStr("int")]
      case FloatSchema(lo, hi, res) =>
        map["minv" := JReal(lo), "maxv" := JReal(hi), "type" := JStr("float"),
            "resolution" := JReal(res)]
    }
  }

  /** `a == b`, i.e. `a.__eq__(b)`: same variant and bounds; float bounds and
      resolutions each within 1e-12. The value and the constant flag take no
      part. */
  predicate Equal(a: Schema, b: Schema): (eq: bool)
    ensures a == b ==> eq
    ensures eq ==> a.IntSchema? == b.IntSchema?
  {
    match (a, b)
    case (IntSchema(lo, hi), IntSchema(lo', hi')) => lo' == lo && hi' == hi
    case (FloatSchema(lo, hi, res), FloatSchema(lo', hi', res')) =>
      Abs(res' - res) <= EqTolerance && Abs(lo' - lo) <= EqTolerance && Abs(hi' - hi) <= EqTolerance
    case _ => false
  }

  // ---------------------------------------------------------------------
  // Construction.

  /** The checks of `ParameterInt.__init__`, in order: every argument an
      `int` (TypeError), then `minv < maxv` and the value within bounds
      (ValueError). */
  function ValidateInt(value: Num, minv: Num, maxv: Num): (r: Result<Schema, Error>)
    ensures r.Success? <==>
              value.PyInt? && minv.PyInt? && maxv.PyInt? &&
              minv.i < maxv.i && minv.i <= value.i <= maxv.i
    ensures !(value.PyInt? && minv.PyInt? && maxv.PyInt?) ==> r == Failure(TypeError)
    ensures value.PyInt? && minv.PyInt? && maxv.PyInt? && r.Failure? ==> r.error == ValueError
    ensures r.Success? ==>
              r.value == IntSchema(minv.i, maxv.i) && r.value.Valid() && r.value.Accepts(value.AsReal())
  {
    if !value.PyInt? then Failure(TypeError)
    else if !minv.PyInt? then Failure(TypeError)
    else if !maxv.PyInt? then Failure(TypeError)
    else
      var s := IntSchema(minv.i, maxv.i);
      if !s.Valid() then Failure(ValueError)
      else if !s.Accepts(value.i as real) then Failure(ValueError)
      else Success(s)
  }

  /** The checks of `ParameterFloat.__init__`, in order: `minv < maxv`, the
      value within the tolerance band, then the code range
      `round((maxv - minv) / resolution)` at most `sys.maxsize - 1`; a zero
      resolution fails that division. */
  function ValidateFloat(value: Num, minv: Num, maxv: Num, resolution: Num): (r: Result<Schema, Error>)
    ensures r.Success? <==>
              var s := FloatSchema(minv.AsReal(), maxv.AsReal(), resolution.AsReal());
              s.Valid() && s.Accepts(value.AsReal())
    ensures minv.AsReal() >= maxv.AsReal() ==> r == Failure(ValueError)
    ensures r.Failure? && r.error == ZeroDivisionError ==> resolution.AsReal() == 0.0
    ensures r.Failure? && resolution.AsReal() != 0.0 ==> r.error == ValueError
    ensures minv.AsReal() < maxv.AsReal() && resolution.AsReal() == 0.0 &&
            FloatSchema(minv.AsReal(), maxv.AsReal(), 0.0).Accepts(value.AsReal()) ==>
              r == Failure(ZeroDivisionError)
    ensures r.Success? ==>
              r.value == FloatSchema(minv.AsReal(), maxv.AsReal(), resolution.AsReal())
  {
    var lo, hi, res := minv.AsReal(), maxv.AsReal(), resolution.AsReal();
    var s := FloatSchema(lo, hi, res);
    if lo >= hi then Failure(ValueError)
    else if !s.Accepts(value.AsReal()) then Failure(ValueError)
    else if res == 0.0 then Failure(ZeroDivisionError)
    else if Round((hi - lo) / res) > MaxSize - 1 then Failure(ValueError)
    else Success(s)
  }

  /** A parameter: a schema, a `constant` flag and a checked mutable value. */
  class Parameter {
    const schema: Schema
    const constant: bool
    var value: real

    ghost predicate Valid()
      reads this
    {
      schema.Valid() && schema.Accepts(value)
    }

    constructor (schema: Schema, value: real, constant: bool)
      requires schema.Valid() && schema.Accepts(value)
      ensures Valid()
      ensures this.schema == schema && this.value == value && this.constant == constant
    {
      this.schema := schema;
      this.value := value;
      this.constant := constant;
    }

    /** The `value` setter: check first, store only on success, otherwise
        keep the old value. */
    method SetValue(v: real) returns (r: Outcome<Error>)
      requires Valid()
      modifies this
      ensures Valid()
      ensures r.Pass? <==> schema.Accepts(v)
      ensures r.Fail? ==> r.error == ValueError
      ensures value == if r.Pass? then v else old(value)
    {
      if schema.Accepts(v) {
        value := v;
        r := Pass;
      } else {
        r := Fail(ValueError);
      }
    }
  }

  /** `ParameterInt(value, minv, maxv, constant)`. */
  method NewParameterInt(value: Num, minv: Num, maxv: Num, constant: bool)
    returns (r: Result<Parameter, Error>)
    ensures r.Failure? <==> ValidateInt(value, minv, maxv).Failure?
    ensures r.Failure? ==> r.error == ValidateInt(value, minv, maxv).error
    ensures r.Success? ==>
              fresh(r.value) && r.value.Valid() &&
              r.value.schema == IntSchema(minv.i, maxv.i) &&
              r.value.value == value.AsReal() && r.value.constant == constant
  {
    match ValidateInt(value, minv, maxv)
    case Failure(e) =>
      r := Failure(e);
    case Success(s) =>
      var p := new Parameter(s, value.AsReal(), constant);
      r := Success(p);
  }

  /** `ParameterFloat(value, minv, maxv, resolution, constant)`. */
  method NewParameterFloat(value: Num, minv: Num, maxv: Num, resolution: Num, constant: bool)
    returns (r: Result<Parameter, Error>)
    ensures r.Failure? <==> ValidateFloat(value, minv, maxv, resolution).Failure?
    ensures r.Failure? ==> r.error == ValidateFloat(value, minv, maxv, resolution).error
    ensures r.Success? ==>
              fresh(r.value) && r.value.Valid() &&
              r.value.schema == FloatSchema(minv.AsReal(), maxv.AsReal(), resolution.AsReal()) &&
              r.value.value == value.AsReal() && r.value.constant == constant
  {
    match ValidateFloat(value, minv, maxv, resolution)
    case Failure(e) =>
      r := Failure(e);
    case Success(s) =>
      var p := new Parameter(s, value.AsReal(), constant);
      r := Success(p);
  }

  // ---------------------------------------------------------------------
  // Properties of the encoding.

  /** Integer parameters: `transform` and `inv_transform` are the identity
      on in-bounds values and raise ValueError on the rest. */
  lemma IntCodecIsIdentity(s: Schema, v: int)
    requires s.IntSchema? && s.Valid()
    ensures s.Transform(v as real) ==
              if s.imin <= v <= s.imax then Success(v) else Failure(ValueError)
    ensures s.InvTransform(v) ==
              if s.imin <= v <= s.imax then Success(v as real) else Failure(ValueError)
    ensures s.imin <= v <= s.imax ==> s.Snap(v as real) == Success(v as real)
  {
  }

  lemma MulBound(e: real, res: real)
    requires -0.5 <= e <= 0.5 && res > 0.0
    ensures -res / 2.0 <= e * res <= res / 2.0
  {
    assert (0.5 - e) * res >= 0.0;
    assert (e + 0.5) * res >= 0.0;
  }

  /** The step from a rounded quotient to a distance: a code within half
      of `(v - lo) / res` decodes to within half a step of `v`. */
  lemma DecodeNear(lo: real, v: real, res: real, k: int)
    requires res > 0.0
    requires -0.5 <= k as real - (v - lo) / res <= 0.5
    ensures -res / 2.0 <= (lo + k as real * res) - v <= res / 2.0
  {
    var q := (v - lo) / res;
    assert q * res == v - lo;
    var e := k as real - q;
    assert (lo + k as real * res) - v == e * res;
    MulBound(e, res);
  }

  /** Float parameters: snapping an in-bounds value never fails and moves it
      by at most half a resolution step. */
  lemma FloatSnapWithinHalfStep(s: Schema, v: real)
    requires s.FloatSchema? && s.Valid() && s.resolution > 0.0
    requires s.fmin <= v <= s.fmax
    ensures s.Snap(v).Success?
    ensures Abs(s.Snap(v).value - v) <= s.resolution / 2.0
  {
    var lo, res := s.fmin, s.resolution;
    assert Tolerance * res >= res / 2.0;
    assert s.Accepts(v);
    var k := s.Transform(v).value;
    DecodeNear(lo, v, res, k);
    var w := s.Decode(k);
    assert -res / 2.0 <= w - v <= res / 2.0;
    assert s.Accepts(w);
    assert s.Snap(v) == Success(w);
  }

  /** `inv_transform` is followed exactly by `transform`: a code whose decoded
      value passes the check is encoded back to itself. */
  lemma CodeRoundTrip(s: Schema, code: int)
    requires s.Valid()
    requires s.InvTransform(code).Success?
    ensures s.IntSchema? ==> IsInteger(s.InvTransform(code).value)
    ensures s.Transform(s.InvTransform(code).value) == Success(code)
  {
    var w := s.Decode(code);
    if s.FloatSchema? {
      var lo, res := s.fmin, s.resolution;
      assert w - lo == code as real * res;
      assert (w - lo) / res == code as real;
      RoundInteger(code);
    }
  }

  /** Snapping is idempotent: a snapped value is already on the grid. */
  lemma SnapIdempotent(s: Schema, v: real)
    requires s.Valid()
    requires s.IntSchema? ==> IsInteger(v)
    requires s.Snap(v).Success?
    ensures s.IntSchema? ==> IsInteger(s.Snap(v).value)
    ensures s.Snap(s.Snap(v).value) == s.Snap(v)
  {
    var code := s.Transform(v).value;
    CodeRoundTrip(s, code);
  }

  /** The cases of tests/test_parameter_float.py for the parameter
      `ParameterFloat(0, -10, 20, resolution=1)`, including the tie -0.5,
      whose code 9.5 rounds to the even 10. */
  lemma FloatEncodingExamples()
    ensures var s := FloatSchema(-10.0, 20.0, 1.0);
      && s.Valid()
      && s.Transform(-10.0) == Success(0)
      && s.Transform(-9.6) == Success(0)
      && s.Transform(0.0) == Success(10)
      && s.Transform(-0.5) == Success(10)
      && s.Transform(19.0) == Success(29)
      && s.Transform(20.0) == Success(30)
      && s.Transform(-15.0) == Failure(ValueError)
      && s.Transform(21.0) == Failure(ValueError)
      && s.InvTransform(0) == Success(-10.0)
      && s.InvTransform(-1) == Failure(ValueError)
      && s.InvTransform(31) == Failure(ValueError)
  {
    var s := FloatSchema(-10.0, 20.0, 1.0);
    RoundInteger(30);
    assert Round(9.5) == 10;
    assert Round(0.4) == 0;
  }

  /** `ParameterFloat(0, -1e12, 1e12, resolution=1e-10)` is refused: its code
      range 2e22 exceeds `sys.maxsize - 1`. */
  lemma ResolutionTooFineExample()
    ensures ValidateFloat(PyInt(0), PyFloat(-1000000000000.0), PyFloat(1000000000000.0),
                          PyFloat(0.0000000001)) == Failure(ValueError)
  {
    var q := (1000000000000.0 - -1000000000000.0) / 0.0000000001;
    assert q == 20000000000000000000000 as real;
    RoundInteger(20000000000000000000000);
  }

  /** Equality is symmetric, and for integer parameters it is exactly equality
      of the bounds. */
  lemma EqualProperties(a: Schema, b: Schema)
    ensures Equal(a, b) == Equal(b, a)
    ensures a.IntSchema? && b.IntSchema? ==> (Equal(a, b) <==> a == b)
  {
  }

  /** The wire schema determines the parameter schema: two parameters with
      the same `to_dict` have the same variant, bounds and resolution. */
  lemma ToDictInjective(a: Schema, b: Schema)
    requires a.ToDict() == b.ToDict()
    ensures a == b
  {
    var d := a.ToDict();
    assert d["minv"] == b.ToDict()["minv"] && d["maxv"] == b.ToDict()["maxv"];
    if a.FloatSchema? {
      assert d["resolution"] == b.ToDict()["resolution"];
    }
  }
}
