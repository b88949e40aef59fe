# ObjectiveFunction client — a Dafny model

This project models the client-side bookkeeping of the ObjectiveFunction
client, a Python library for optimising model parameters against a remote
run server. It covers:

- **Parameters.** Integer and float parameters carry bounds, a checked
  mutable value and a `constant` flag. Each one encodes its value as an
  integer storage code and decodes it back, "snaps" a value to the storage
  grid, and describes itself to the server as a wire schema (`to_dict`).
- **The local result cache.** This is a write-once table from a complete
  parameter key (name → storage code) to the id and value of a completed
  run. It checks result types, names, column sets and key shapes, and
  keeps both the parameter tuple and the id unique.
- **The objective-function constructor.** It rejects an empty parameter
  set and splits the parameters into active and constant ones. It lists
  the names in sorted order and builds the wire schema. It then either
  creates the study on the server or compares that schema with the one the
  server holds.
- **The three objective-function flavours.**
  - *Misfit*: one number per run.
  - *Residual*: a vector per run, kept in a file, with a one-shot latch
    on the vector length.
  - *SimObs*: a series of simulated observations labelled by observation
    name.

  Each flavour turns a run record into its result entry. It gives a random
  placeholder while the run is not complete. Each also builds the payload
  stored for a new result.
- **The proxy's URL joining.** The base URL gets a trailing '/', and each
  end point is appended to it.

Modules and files:

| file | module | models |
|---|---|---|
| common.dfy | `Common` | exceptions, run states and types, result wrappers, JSON scalars and Python `==` on them, run records, Python's `str` order and `sorted`, `str.isalnum`, `str(int)`, pathlib joining |
| parameter.dfy | `Parameters` | ObjectiveFunction_client/parameter.py |
| cache.dfy | `Cache` | ObjectiveFunction_client/cache.py |
| proxy.dfy | `Proxies` | ObjectiveFunction_client/proxy.py (URL handling) |
| objective_function.dfy | `ObjectiveFunctions` | ObjectiveFunction_client/objective_function.py |
| misfit.dfy | `MisfitObjective` | ObjectiveFunction_client/objective_function_misfit.py |
| residual.dfy | `ResidualObjective` | ObjectiveFunction_client/objective_function_residual.py |
| simobs.dfy | `SimObsObjective` | ObjectiveFunction_client/objective_function_simobs.py |

Modelling choices:

- **Python numbers.**
  - Floats are `real`.
  - Python's `round` is nearest-integer with ties to even (`Parameters.Round`).
  - `sys.maxsize` is the constant `Parameters.MaxSize` = 2^63 − 1.
  - A constructor argument is `Num`, which is either `PyInt` or `PyFloat`, so that `ParameterInt`'s type checks can be stated.
- **Parameters.** A parameter is a class `Parameters.Parameter` with an immutable `Schema` (the closed variant `IntSchema | FloatSchema`) and a mutable `value`.
- **The cache.** The cache is a class over a sequence of rows. An existing cache file is given as its column names and rows.
- **Server and file inputs.**
  - Server responses are inputs: status codes and the returned records.
  - Files read by the flavours are inputs: the vector stored at `run['path']` and the series parsed from `run['value']`.
- **Placeholders.** Random placeholders are either a parameter with its documented range (Misfit) or a nondeterministic choice within that range (Residual, SimObs).
- **Base-class calls.** The flavours call base-class members that are not part of this model (`get_result`, `__call__`, `_create_study`, `_load_study`, `scenario_dir`). Each hook therefore takes what the base class hands it: the run record, the response status, the scenario directory.

## Model

| member | source | states |
|---|---|---|
| Common.Sort | ObjectiveFunction_client/cache.py:21 | `sorted` of a list of names: same length, same elements with multiplicity, non-decreasing in Python's `str` order |
| Common.SortedUnique | ObjectiveFunction_client/cache.py:91 | two sorted arrangements of the same multiset are equal, so comparing `sorted(...)` results compares contents |
| Common.SortedKeys | ObjectiveFunction_client/cache.py:91 | `sorted(key.keys())`: a sorted listing of exactly the dict's keys |
| Common.SortedKeysMatch | ObjectiveFunction_client/cache.py:90-92 | the sorted keys of a dict equal a sorted tuple iff the tuple lists each key exactly once |
| Common.JsonEq | ObjectiveFunction_client/objective_function.py:97 | Python `==` on JSON scalars: identical values are equal, a string never equals a number, ints compare exactly, and an int equals a real of the same value |
| Common.IsAlnum | ObjectiveFunction_client/cache.py:55 | an alphanumeric name is non-empty and contains no blank, underscore, dash, dot, comma, colon, semicolon, quote, slash or parenthesis |
| Common.IntToString | ObjectiveFunction_client/objective_function_residual.py:91 | `str(id)` is non-empty |
| Common.IntToStringInjective | ObjectiveFunction_client/objective_function_residual.py:91 | distinct ids have distinct decimal renderings |
| Common.JoinPath | ObjectiveFunction_client/objective_function_residual.py:91 | `str(dir / name)` ends with the file name |
| Common.NumberedFile | ObjectiveFunction_client/objective_function_residual.py:91 | the path ends with the file name `stem + str(id) + ext`, which is longer than stem and extension together |
| Common.NumberedFileInjective | ObjectiveFunction_client/objective_function_simobs.py:143 | `dir / f'{stem}{id}{ext}'` determines the id |
| Parameters.Round | ObjectiveFunction_client/parameter.py:183 | `round` lands within 1/2 of its argument, and on a tie it picks the even integer |
| Parameters.RoundUnique | ObjectiveFunction_client/parameter.py:183 | any integer within 1/2 of `x` that is even on a tie is `round(x)`, so those two properties pin Python's rounding |
| Parameters.Schema.Transform | ObjectiveFunction_client/parameter.py:181-183 | encoding succeeds iff `check_value` passes, else ValueError; the identity for ints; for floats, a code within 1/2 of `(v - minv) / resolution` and even on a tie, which by `RoundUnique` is exactly `round((v - minv) / resolution)` |
| Parameters.Schema.InvTransform | ObjectiveFunction_client/parameter.py:185-188 | decoding gives `minv + code * resolution` (the code itself for ints) and fails with ValueError exactly when that value fails `check_value` |
| Parameters.Schema.Accepts | ObjectiveFunction_client/parameter.py:164-168 | `check_value`: for a non-negative resolution the float bounds themselves are accepted, and for a positive one every accepted value lies less than one resolution outside the bounds |
| Parameters.Schema.Snap | ObjectiveFunction_client/parameter.py:80-82 | `__call__` fails only with ValueError, succeeds only on an accepted value and returns an accepted value; on ints it is the identity in bounds |
| Parameters.Schema.ToDict | ObjectiveFunction_client/parameter.py:190-195 | the wire schema has keys type/minv/maxv, plus resolution for floats; `type` tells the variant, and minv, maxv and resolution carry the parameter's own bounds and resolution (ints as JSON ints, floats as JSON reals) |
| Parameters.ValidateInt | ObjectiveFunction_client/parameter.py:98-107 | `ParameterInt` accepts exactly int arguments with minv < maxv and minv ≤ value ≤ maxv; a non-int argument gives TypeError before any bounds check, every other rejection gives ValueError |
| Parameters.ValidateFloat | ObjectiveFunction_client/parameter.py:148-157 | `ParameterFloat` accepts exactly minv < maxv, a value in the tolerance band, a non-zero resolution and a code range `round((maxv - minv) / res)` ≤ `sys.maxsize - 1`; minv ≥ maxv is ValueError; valid bounds and value with a zero resolution give ZeroDivisionError, and only a zero resolution does |
| Parameters.Parameter.constructor | ObjectiveFunction_client/parameter.py:19-28 | a parameter starts with a value its schema accepts |
| Parameters.Parameter.SetValue | ObjectiveFunction_client/parameter.py:35-39 | the setter stores `v` iff `check_value(v)` passes; otherwise ValueError and the old value is kept |
| Parameters.NewParameterInt | ObjectiveFunction_client/parameter.py:98-107 | construction fails exactly as `ValidateInt` says, and otherwise yields a fresh parameter with those bounds, value and flag |
| Parameters.NewParameterFloat | ObjectiveFunction_client/parameter.py:148-157 | construction fails exactly as `ValidateFloat` says, and otherwise yields a fresh parameter with those bounds, resolution, value and flag |
| Parameters.IntCodecIsIdentity | ObjectiveFunction_client/parameter.py:118-124 | integer `transform` and `inv_transform` are the identity in bounds and raise ValueError outside, so snapping leaves in-bounds ints unchanged |
| Parameters.FloatSnapWithinHalfStep | ObjectiveFunction_client/parameter.py:80-82 | for a positive resolution, snapping any value in [minv, maxv] succeeds and moves it by at most resolution / 2 |
| Parameters.CodeRoundTrip | ObjectiveFunction_client/parameter.py:181-188 | a code that `inv_transform` accepts is encoded back to itself |
| Parameters.SnapIdempotent | ObjectiveFunction_client/parameter.py:80-82 | snapping a snapped value gives the same value |
| Parameters.FloatEncodingExamples | tests/test_parameter_float.py:59-86 | on [-10, 20] with resolution 1: the listed codes, 9.5 rounding to the even 10, and codes -1 and 31 rejected on decoding |
| Parameters.ResolutionTooFineExample | ObjectiveFunction_client/parameter.py:156-157 | resolution 1e-10 over [-1e12, 1e12] is rejected with ValueError |
| Parameters.EqualProperties | ObjectiveFunction_client/parameter.py:109-116 | `__eq__` is symmetric, and on ints is exactly equality of the bounds |
| Parameters.Equal | ObjectiveFunction_client/parameter.py:170-179 | `__eq__` holds between identical schemas and never between an int and a float parameter |
| Parameters.ToDictInjective | ObjectiveFunction_client/parameter.py:190-195 | the wire schema determines the variant, bounds and resolution |
| Cache.CheckNewNames | ObjectiveFunction_client/cache.py:54-56 | passes iff every parameter name is alphanumeric, else ValueError |
| Cache.CheckExistingColumns | ObjectiveFunction_client/cache.py:74-88 | passes iff the table has #parameters + 2 columns including every parameter, `id` and `value`, else RuntimeError |
| Cache.OpenCache | ObjectiveFunction_client/cache.py:12-88 | ValueError for a result type other than real/text or no names; a new table fails with ValueError when some name is not alphanumeric and otherwise with the storage engine's DatabaseError when two column names coincide; a reopened table fails with RuntimeError exactly when the column check fails; the cache's parameters are the sorted names, and a new cache is empty |
| Cache.ObjFunCache.constructor | ObjectiveFunction_client/cache.py:21 | the cache starts with both uniqueness invariants |
| Cache.ObjFunCache.Len | ObjectiveFunction_client/cache.py:124-127 | `len` counts the rows, which under the primary key is the number of distinct stored ids |
| Cache.UniqueIdsCount | ObjectiveFunction_client/cache.py:124-127 | a table whose ids are unique has as many rows as ids |
| Cache.ObjFunCache.CheckKey | ObjectiveFunction_client/cache.py:90-92 | the key check passes iff the key has exactly one entry per parameter |
| Cache.ObjFunCache.Get | ObjectiveFunction_client/cache.py:94-104 | KeyError for a malformed key, LookupError when no row has the key, otherwise that row's id and value with state COMPLETED |
| Cache.ObjFunCache.Set | ObjectiveFunction_client/cache.py:106-116 | KeyError for a malformed key; for a well-formed key, RuntimeError with the table unchanged when the parameter tuple or the id is stored already; otherwise exactly one row appended (so `len` grows by one); uniqueness preserved |
| Cache.ObjFunCache.Delete | ObjectiveFunction_client/cache.py:118-119 | always NotImplementedError |
| Cache.ObjFunCache.Iterate | ObjectiveFunction_client/cache.py:121-122 | always NotImplementedError |
| Cache.StoredRowIsFound | ObjectiveFunction_client/cache.py:94-116 | after a successful set the key is present and the only row with it is the new one, so get returns the stored id and value |
| Proxies.NormaliseBase | ObjectiveFunction_client/proxy.py:21-23 | IndexError iff the base is empty; the result ends with '/', equals the base if it already did, and is base + '/' otherwise |
| Proxies.Proxy.constructor | ObjectiveFunction_client/proxy.py:21-23 | the proxy keeps a base that already ends with '/' |
| Proxies.NormaliseIdempotent | ObjectiveFunction_client/proxy.py:22-23 | normalising a normalised base changes nothing |
| Proxies.UrlIgnoresTrailingSlash | ObjectiveFunction_client/proxy.py:21-23 | a base with and without its trailing '/' gives the same end points |
| Proxies.Proxy.Url | ObjectiveFunction_client/proxy.py:49-57 | `url(u)` has the base as prefix, `u` as the rest, and length |base| + |u| |
| Proxies.NewProxy | ObjectiveFunction_client/proxy.py:18-23 | the proxy's base is the normalised base, and an empty base fails with IndexError |
| ObjectiveFunctions.RunTypeOf | ObjectiveFunction_client/objective_function_misfit.py:46-56 | the misfit flavour uses run type MISFIT, the residual and simobs flavours PATH |
| ObjectiveFunctions.Partition | ObjectiveFunction_client/objective_function.py:45-51 | active and constant parameters are disjoint, together cover all parameters, and a parameter is constant iff its flag says so |
| ObjectiveFunctions.BuildParamDict | ObjectiveFunction_client/objective_function.py:62-64 | `param_dict` maps each parameter name to its `to_dict` and has no other keys |
| ObjectiveFunctions.FindKeyMismatch | ObjectiveFunction_client/objective_function.py:90-100 | the inner loop flags an error iff some remote key is missing locally or its value is not `==` to the local one |
| ObjectiveFunctions.FindMismatch | ObjectiveFunction_client/objective_function.py:84-100 | the outer loop flags an error iff some remote parameter is missing locally or has a mismatching key |
| ObjectiveFunctions.LoadOrCreateAsWritten | ObjectiveFunction_client/objective_function.py:66-102 | the gate as written: on 404 it passes iff creation returns 201; on 200 it fails only when the counts agree and the schemas mismatch; every other status passes |
| ObjectiveFunctions.LoadOrCreate | ObjectiveFunction_client/objective_function.py:66-102 | the corrected gate: on 200 it passes iff the counts agree and nothing mismatches; 404 and other statuses as written |
| ObjectiveFunctions.CheckStudy | ObjectiveFunction_client/objective_function.py:66-102 | the create/compare logic computes the corrected gate `LoadOrCreate` (see Left out and Findings for how it differs from the code as written) |
| ObjectiveFunctions.GatesDifferOnCountOnly | ObjectiveFunction_client/objective_function.py:79-83 | the two gates disagree exactly on a 200 answer whose parameter count differs from the local one |
| ObjectiveFunctions.CountMismatchNotRaised | ObjectiveFunction_client/objective_function.py:79-83 | a server holding one of two local parameters passes the gate as written and fails the corrected one |
| ObjectiveFunctions.GatePassMeansSameNames | ObjectiveFunction_client/objective_function.py:79-102 | when the comparison passes, the server knows exactly the local parameter names |
| ObjectiveFunctions.ComparisonIsExact | ObjectiveFunction_client/objective_function.py:97 | a bound off by 1e-13 counts as a mismatch, although parameter equality would accept it |
| ObjectiveFunctions.LocalOnlyKeysIgnored | ObjectiveFunction_client/objective_function.py:90-91 | a key only the local schema has is not checked |
| ObjectiveFunctions.ObjectiveFunction.constructor | ObjectiveFunction_client/objective_function.py:44-60 | the object keeps the given study, directory, flag, proxy, parameters, partition and sorted lists |
| ObjectiveFunctions.ObjectiveFunction.NumParams | ObjectiveFunction_client/objective_function.py:117-120 | `num_params` of a valid object is the length of `_paramlist` and the number of active plus constant parameters |
| ObjectiveFunctions.ObjectiveFunction.NumActiveParams | ObjectiveFunction_client/objective_function.py:122-125 | `num_active_params` of a valid object is the length of `_active_paramlist` and at most `num_params` |
| ObjectiveFunctions.PartitionCounts | ObjectiveFunction_client/objective_function.py:117-125 | `num_params` is `num_active_params` plus the number of constants, and each sorted name list is as long as its set of names |
| ObjectiveFunctions.ListedOnce | ObjectiveFunction_client/objective_function.py:52-55 | `_paramlist` and `_active_paramlist` list no name twice |
| ObjectiveFunctions.Assemble | ObjectiveFunction_client/objective_function.py:44-60 | the object holds the given parameters with their active/constant partition and the sorted lists `_paramlist` and `_active_paramlist`, whose lengths are `num_params` and `num_active_params`, the first being the second plus the number of constants |
| ObjectiveFunctions.NewObjectiveFunction | ObjectiveFunction_client/objective_function.py:39-102 | IndexError for an empty base URL, RuntimeError for no parameters; otherwise success iff the corrected gate passes, and the schema posted on 404 is `param_dict`; a constructed object satisfies everything `Assemble` promises |
| MisfitObjective.GetResult | ObjectiveFunction_client/objective_function_misfit.py:71-76 | KeyError without a state (or a completed run without a value); otherwise only `misfit` is added: the run's value when COMPLETED, else a placeholder in [0, 100) |
| MisfitObjective.SetData | ObjectiveFunction_client/objective_function_misfit.py:78-79 | the payload is exactly {value: result} |
| MisfitObjective.Call | ObjectiveFunction_client/objective_function_misfit.py:93 | returns the record's `misfit` entry, KeyError if there is none |
| MisfitObjective.StoredResultIsMisfit | ObjectiveFunction_client/objective_function_misfit.py:71-93 | what `_set_data` stores comes back as the misfit of the completed run and as the value of `__call__` |
| MisfitObjective.GetResultIdempotentWhenCompleted | ObjectiveFunction_client/objective_function_misfit.py:74-76 | post-processing a completed run twice is the same as once |
| ResidualObjective.Latch | ObjectiveFunction_client/objective_function_residual.py:86-87 | the latch keeps a known size and otherwise records the new one |
| ResidualObjective.LatchAll | ObjectiveFunction_client/objective_function_residual.py:94-95 | after any sequence of vectors the latch holds the size known before, or else the first size seen |
| ResidualObjective.ResidualFilesDistinct | ObjectiveFunction_client/objective_function_residual.py:91 | two runs never share a residual file |
| ResidualObjective.ResidualFile | ObjectiveFunction_client/objective_function_residual.py:91 | the residual file of a run ends in `residuals_<id>.npy` |
| ResidualObjective.ObjectiveFunctionResidual.constructor | ObjectiveFunction_client/objective_function_residual.py:51 | no size is known at first |
| ResidualObjective.ObjectiveFunctionResidual.NumResiduals | ObjectiveFunction_client/objective_function_residual.py:53-59 | 50 while no size is known, the latched size afterwards |
| ResidualObjective.ObjectiveFunctionResidual.GetResult | ObjectiveFunction_client/objective_function_residual.py:80-88 | KeyError without a state or (COMPLETED) without a path; otherwise only `residual` is added: `num_residuals` draws in [0, 1) with the latch unchanged, or the stored vector with its size latched |
| ResidualObjective.ObjectiveFunctionResidual.SetData | ObjectiveFunction_client/objective_function_residual.py:90-96 | the payload is {path: basedir/residuals_<id>.npy} and the result's size is latched |
| ResidualObjective.ObjectiveFunctionResidual.Call | ObjectiveFunction_client/objective_function_residual.py:109 | returns the record's `residual` entry, KeyError if there is none |
| SimObsObjective.Dedup | ObjectiveFunction_client/objective_function_simobs.py:131-134 | the placeholder's index: the observation names without repeats, no longer than the list |
| SimObsObjective.DedupDistinct | ObjectiveFunction_client/objective_function_simobs.py:131-134 | distinct names index the placeholder in their given order |
| SimObsObjective.SimObsFilesDistinct | ObjectiveFunction_client/objective_function_simobs.py:143 | two runs never share a result file |
| SimObsObjective.SimObsFile | ObjectiveFunction_client/objective_function_simobs.py:143 | the result file of a run ends in `simobs_<id>.json` |
| SimObsObjective.ObjectiveFunctionSimObs.constructor | ObjectiveFunction_client/objective_function_simobs.py:44 | the observation names are stored |
| SimObsObjective.ObjectiveFunctionSimObs.NumResiduals | ObjectiveFunction_client/objective_function_simobs.py:90-93 | the number of observation names |
| SimObsObjective.ObjectiveFunctionSimObs.CreateStudyObs | ObjectiveFunction_client/objective_function_simobs.py:53-60 | registering the names passes iff the status is 201, else RuntimeError |
| SimObsObjective.ObjectiveFunctionSimObs.LoadStudyObs | ObjectiveFunction_client/objective_function_simobs.py:66-84 | passes iff the status is 200, the counts agree and every remote name is known locally; RuntimeError otherwise |
| SimObsObjective.ObjectiveFunctionSimObs.CheckSimObs | ObjectiveFunction_client/objective_function_simobs.py:103-115 | passes, returning the series, iff its length is `num_residuals` and every observation name is in its index; RuntimeError otherwise |
| SimObsObjective.ObjectiveFunctionSimObs.GetResult | ObjectiveFunction_client/objective_function_simobs.py:129-139 | KeyError without a state, and KeyError for a completed run without a value; otherwise only `simobs` is added: one draw in [0, 1) per distinct name, or the parsed series, which must pass the check (else RuntimeError) |
| SimObsObjective.ObjectiveFunctionSimObs.SetData | ObjectiveFunction_client/objective_function_simobs.py:141-145 | the series is checked first (RuntimeError); the payload is {value: scenario_dir/simobs_<id>.json} |
| SimObsObjective.ObjectiveFunctionSimObs.Call | ObjectiveFunction_client/objective_function_simobs.py:158 | returns the record's `simobs` entry, KeyError if there is none |
| SimObsObjective.PlaceholderFits | ObjectiveFunction_client/objective_function_simobs.py:130-137 | with distinct observation names the placeholder itself passes `_check_simobs` |
| SimObsObjective.RepeatedNameShortensPlaceholder | ObjectiveFunction_client/objective_function_simobs.py:91-134 | with a repeated name the placeholder is shorter than `num_residuals` and would fail `_check_simobs` |

## Left out

- HTTP transport is not modelled: the session, retries, the token request and its status check in `Proxy.__init__`, and the verbs get/post/put/delete. Responses are inputs.
- sqlite is not modelled:
  - the connection and commits;
  - the text of the select and insert queries;
  - SQL keywords used as parameter names;
  - the column types.
- `ObjFunCache` does not compare the result type of a reopened table with the requested one, and neither does the model.
- Cache.OpenCache assumes a reopened table looks as `_create_cache` would have made it:
  - its rows already satisfy the UNIQUE and primary-key constraints;
  - it has those constraints, so a repeated parameter tuple or id is refused (RuntimeError);
  - its columns are in the order `id`, sorted parameters, `value`.
  The column check of cache.py:67-88 checks only which columns exist and how many. The insert of cache.py:36-37 fills the columns by position. A reopened table with its columns in another order, such as `[id, b, a, value]`, would therefore store a parameter's code under another parameter's column, and a later lookup of that key would raise LookupError. A reopened table without the constraints would accept a duplicate insert.
- Cache.StoredRowIsFound: holds only under the same assumptions about a reopened table.
- Cache.ObjFunCache.Set: takes the run's id and value directly rather than a run dict, so a run without `id` or `value` (a KeyError in Python) is not modelled.
- Cache.CheckNewNames: `str.isalnum` is modelled for ASCII letters and digits only. Non-ASCII letters and digits, which Python also accepts, are treated as rejected.
- File I/O is not modelled: `numpy.save`/`load`, `pandas.to_json`/`read_json` and the files behind them. The stored vector and the parsed series are inputs.
- Values are IEEE-754 in Python and reals here. Binary rounding error and float-to-int overflow are therefore not modelled.
- ObjectiveFunctions.CheckStudy and ObjectiveFunctions.NewObjectiveFunction use the corrected gate `ObjectiveFunctions.LoadOrCreate`. The code as written (`ObjectiveFunctions.LoadOrCreateAsWritten`) accepts a 200 answer whose parameter count differs from the local one, and constructs the object; the corrected constructor refuses it with RuntimeError. See Findings.
- Parameters.NewParameterFloat and Parameters.NewParameterInt take every argument explicitly. The defaults `resolution=1e-6` of `ParameterFloat` and `constant=False` of both classes are not modelled.
- Parameters.Schema.Transform: for an integer parameter it requires an integral argument. Python's `ParameterInt.transform` would also pass an in-bounds non-integral float through unchanged.
- Parameters.FloatSnapWithinHalfStep: stated for a positive resolution only. The source also accepts a negative resolution, which inverts the tolerance band.
- The run dict that `get_result` mutates in place is modelled as a value: the hook returns the updated record.
- `__call__`, `get_result`, `_create_study`, `_load_study`, `setDefaultScenario` and `scenario_dir` of the base class are not part of this model. Neither are the other base members the flavours rely on, such as `values2params`, `get_new`, `set_result` and the state gates. The flavours' hooks take that base behaviour's results as inputs.
- ResidualObjective.ObjectiveFunctionResidual.SetData: takes the run id rather than the run dict, so a run without `id` is not modelled. The run id is assumed to be an int.
- Common.JoinPath: models pathlib only for a directory with at most one trailing '/' and for the empty directory. Repeated slashes and '.' components are not normalised.
- Randomness is not modelled as a distribution. `random.random()` is a parameter in [0, 1) for the misfit flavour and a nondeterministic choice in [0, 1) for the residual and simobs placeholders.
- Logging, configuration files, the optimiser drivers (nlopt, dfols), the command-line tools, the demo script and every `__main__` block are not part of this model.

## Findings

| source | as written | input that shows it | evidently intended | confidence | as-written member | corrected member |
|---|---|---|---|---|---|---|
| ObjectiveFunction_client/objective_function.py:79-102 | The `if error: raise` at line 101 sits inside the `else:` of line 83. A parameter-count mismatch sets `error` at line 82, but nothing is raised and construction succeeds. | Local parameters `a` and `b`; the server answers 200 with a schema for `a` only. | Raise RuntimeError whenever `error` is set, including on a count mismatch. | not executed | ObjectiveFunctions.CountMismatchNotRaised | ObjectiveFunctions.GatePassMeansSameNames |

`ObjectiveFunctions.LoadOrCreateAsWritten` models the gate as written, and
`ObjectiveFunctions.CountMismatchNotRaised` exhibits the input above.
`ObjectiveFunctions.LoadOrCreate` is the corrected gate, and
`ObjectiveFunctions.NewObjectiveFunction` uses it.
`ObjectiveFunctions.GatePassMeansSameNames` proves the intended property of
the corrected gate: when it passes, the local and remote parameter names
coincide. `ObjectiveFunctions.GatesDifferOnCountOnly` shows that the
correction changes nothing else.

A status other than 200 or 404 also runs no comparison. The corrected gate
keeps that behaviour, because the intended handling of such a status is not
evident from the code.
