/** Maintenance of the flat `factor.param` parameter map behind the factor picker
    (frontend/src/components/FactorConfiguration/index.tsx). Maps are values here, so the
    caller's `parameters` is never changed: every operation returns a new map. */
module FactorConfiguration {
  import opened Wrappers
  import opened Strs
  import opened Js

  /** One tunable parameter of a factor, with its constraint's default value. */
  datatype ParameterDefinition = ParameterDefinition(name: string, default: JsValue)

  datatype FactorInfo = FactorInfo(name: string, parameters: seq<ParameterDefinition>)

  type Parameters = map<string, JsValue>

  /** `${factorName}.${paramName}`. */
  function ParamKey(factorName: string, paramName: string): string {
    factorName + "." + paramName
  }

  /** `key.split('.')[0]`: the factor a key belongs to. */
  function FactorOf(key: string): string {
    Before(key, '.')
  }

  /** A key built from a dot-free factor name belongs to that factor. */
  lemma FactorOfParamKey(factorName: string, paramName: string)
    requires '.' !in factorName
    ensures FactorOf(ParamKey(factorName, paramName)) == factorName
  {
    var t := "." + paramName;
    assert ParamKey(factorName, paramName) == factorName + t;
    SplitFreeHead(factorName, t, '.');
    assert Split(t, '.')[0] == "";
  }

  /** `factors.find(f => f.name === name)`. */
  function FindFactor(factors: seq<FactorInfo>, name: string): (r: Option<FactorInfo>)
    ensures r.None? <==> forall i :: 0 <= i < |factors| ==> factors[i].name != name
    ensures r.Some? ==> r.value in factors && r.value.name == name
  {
    if factors == [] then None
    else if factors[0].name == name then Some(factors[0])
    else FindFactor(factors[1..], name)
  }

  // ---------------------------------------------------------------- specification

  /** The entries whose factor is still selected. */
  function Kept(parameters: Parameters, newFactors: seq<string>): Parameters {
    map k | k in parameters && FactorOf(k) in newFactors :: parameters[k]
  }

  /** The (key, default) pairs of one factor's parameters, in declaration order. */
  function ParamDefaults(factorName: string, ps: seq<ParameterDefinition>): (r: seq<(string, JsValue)>)
    ensures |r| == |ps|
    ensures forall j :: 0 <= j < |ps| ==> r[j] == (ParamKey(factorName, ps[j].name), ps[j].default)
  {
    if ps == [] then []
    else
      var last := ps[|ps| - 1];
      ParamDefaults(factorName, ps[..|ps| - 1]) + [(ParamKey(factorName, last.name), last.default)]
  }

  /** The default of every parameter of every selected, known factor, in visiting order. */
  function Defaults(newFactors: seq<string>, factors: seq<FactorInfo>): seq<(string, JsValue)> {
    if newFactors == [] then []
    else
      var name := newFactors[|newFactors| - 1];
      Defaults(newFactors[..|newFactors| - 1], factors) + FactorDefaults(name, factors)
  }

  function FactorDefaults(name: string, factors: seq<FactorInfo>): seq<(string, JsValue)> {
    match FindFactor(factors, name)
    case Some(f) => ParamDefaults(name, f.parameters)
    case None => []
  }

  /** Adds each pair whose key is still missing, in order: an earlier pair for the same
      key wins, and a key already present keeps its value. */
  function FillMissing(m: Parameters, pairs: seq<(string, JsValue)>): Parameters {
    if pairs == [] then m
    else
      var before := FillMissing(m, pairs[..|pairs| - 1]);
      var (k, v) := pairs[|pairs| - 1];
      if k in before then before else before[k := v]
  }

  /** Some pair has this key. */
  predicate HasPair(pairs: seq<(string, JsValue)>, key: string) {
    exists i :: 0 <= i < |pairs| && pairs[i].0 == key
  }

  lemma HasPairConcat(a: seq<(string, JsValue)>, b: seq<(string, JsValue)>, key: string)
    ensures HasPair(a + b, key) <==> HasPair(a, key) || HasPair(b, key)
  {
    if HasPair(a + b, key) {
      var i :| 0 <= i < |a + b| && (a + b)[i].0 == key;
      if i < |a| { assert a[i].0 == key; } else { assert b[i - |a|].0 == key; }
    }
    if HasPair(a, key) {
      var i :| 0 <= i < |a| && a[i].0 == key;
      assert (a + b)[i].0 == key;
    }
    if HasPair(b, key) {
      var i :| 0 <= i < |b| && b[i].0 == key;
      assert (a + b)[|a| + i].0 == key;
    }
  }

  /** Filling in two batches is filling in their concatenation. */
  lemma {:induction false} FillMissingConcat(m: Parameters, a: seq<(string, JsValue)>, b: seq<(string, JsValue)>)
    ensures FillMissing(m, a + b) == FillMissing(FillMissing(m, a), b)
    decreases |b|
  {
    if b == [] {
      assert a + b == a;
    } else {
      assert (a + b)[..|a + b| - 1] == a + b[..|b| - 1];
      assert (a + b)[|a + b| - 1] == b[|b| - 1];
      FillMissingConcat(m, a, b[..|b| - 1]);
    }
  }

  /** A key is present afterwards iff it was present or some pair has it. */
  lemma {:induction false} FillMissingHas(m: Parameters, pairs: seq<(string, JsValue)>, key: string)
    ensures key in FillMissing(m, pairs) <==> key in m || HasPair(pairs, key)
  {
    if pairs != [] {
      var init := pairs[..|pairs| - 1];
      FillMissingHas(m, init, key);
      assert pairs == init + [pairs[|pairs| - 1]];
      HasPairConcat(init, [pairs[|pairs| - 1]], key);
    }
  }

  /** A key already present keeps its value. */
  lemma {:induction false} FillMissingKeeps(m: Parameters, pairs: seq<(string, JsValue)>, key: string)
    requires key in m
    ensures key in FillMissing(m, pairs) && FillMissing(m, pairs)[key] == m[key]
  {
    if pairs != [] {
      FillMissingKeeps(m, pairs[..|pairs| - 1], key);
    }
  }

  /** A key that was missing gets the value of its first pair. */
  lemma {:induction false} FillMissingFirst(m: Parameters, pairs: seq<(string, JsValue)>, i: int)
    requires 0 <= i < |pairs| && pairs[i].0 !in m
    requires forall j :: 0 <= j < i ==> pairs[j].0 != pairs[i].0
    ensures pairs[i].0 in FillMissing(m, pairs) && FillMissing(m, pairs)[pairs[i].0] == pairs[i].1
  {
    var init := pairs[..|pairs| - 1];
    if i == |pairs| - 1 {
      FillMissingHas(m, init, pairs[i].0);
      assert !HasPair(init, pairs[i].0);
    } else {
      FillMissingFirst(m, init, i);
      FillMissingKeeps(FillMissing(m, init), [pairs[|pairs| - 1]], pairs[i].0);
      FillMissingConcat(m, init, [pairs[|pairs| - 1]]);
      assert pairs == init + [pairs[|pairs| - 1]];
    }
  }

  /** The key of a parameter of a selected factor that `factors` knows. */
  predicate IsDefaultKey(newFactors: seq<string>, factors: seq<FactorInfo>, key: string) {
    exists n, p :: n in newFactors && FindFactor(factors, n).Some? && p in FindFactor(factors, n).value.parameters && key == ParamKey(n, p.name)
  }

  lemma FactorDefaultsKeys(name: string, factors: seq<FactorInfo>, key: string)
    ensures HasPair(FactorDefaults(name, factors), key) <==>
      FindFactor(factors, name).Some? && exists p :: p in FindFactor(factors, name).value.parameters && key == ParamKey(name, p.name)
  {
    if FindFactor(factors, name).Some? {
      var ps := FindFactor(factors, name).value.parameters;
      var d := FactorDefaults(name, factors);
      if HasPair(d, key) {
        var i :| 0 <= i < |d| && d[i].0 == key;
        assert ps[i] in ps && key == ParamKey(name, ps[i].name);
      }
      if exists p :: p in ps && key == ParamKey(name, p.name) {
        var p :| p in ps && key == ParamKey(name, p.name);
        var j :| 0 <= j < |ps| && ps[j] == p;
        assert d[j].0 == key;
      }
    }
  }

  /** The pair keys of `Defaults` are exactly the keys of the selected, known factors' parameters. */
  lemma {:induction false} DefaultsKeys(newFactors: seq<string>, factors: seq<FactorInfo>, key: string)
    ensures HasPair(Defaults(newFactors, factors), key) <==> IsDefaultKey(newFactors, factors, key)
  {
    if newFactors != [] {
      var init := newFactors[..|newFactors| - 1];
      var name := newFactors[|newFactors| - 1];
      DefaultsKeys(init, factors, key);
      HasPairConcat(Defaults(init, factors), FactorDefaults(name, factors), key);
      FactorDefaultsKeys(name, factors, key);
      assert newFactors == init + [name];
      if IsDefaultKey(newFactors, factors, key) {
        var n, p :| n in newFactors && FindFactor(factors, n).Some? && p in FindFactor(factors, n).value.parameters && key == ParamKey(n, p.name);
        if n in init {
          assert IsDefaultKey(init, factors, key);
        }
      }
      if IsDefaultKey(init, factors, key) {
        var n, p :| n in init && FindFactor(factors, n).Some? && p in FindFactor(factors, n).value.parameters && key == ParamKey(n, p.name);
        assert n in newFactors;
      }
    }
  }

  // ---------------------------------------------------------------- handlers

  /** The first `forEach` of `handleFactorChange`: delete every entry whose factor is not
      selected any more. */
  method DropUnselected(parameters: Parameters, newFactors: seq<string>) returns (kept: Parameters)
    ensures kept == Kept(parameters, newFactors)
  {
    kept := parameters;
    var remaining := parameters.Keys;
    while remaining != {}
      invariant remaining <= parameters.Keys
      invariant kept == map k | k in parameters && (k in remaining || FactorOf(k) in newFactors) :: parameters[k]
      decreases remaining
    {
      var key :| key in remaining;
      if FactorOf(key) !in newFactors {
        kept := kept - {key};
      }
      remaining := remaining - {key};
    }
  }

  /** The inner `forEach`: give each parameter of one factor its default unless it has an entry. */
  method AddFactorDefaults(m: Parameters, factorName: string, ps: seq<ParameterDefinition>) returns (r: Parameters)
    ensures r == FillMissing(m, ParamDefaults(factorName, ps))
  {
    r := m;
    var j := 0;
    while j < |ps|
      invariant 0 <= j <= |ps|
      invariant r == FillMissing(m, ParamDefaults(factorName, ps[..j]))
    {
      var paramKey := ParamKey(factorName, ps[j].name);
      assert ps[..j + 1][..j] == ps[..j];
      if paramKey !in r {
        r := r[paramKey := ps[j].default];
      }
      j := j + 1;
    }
    assert ps[..j] == ps;
  }

  lemma DefaultsStep(newFactors: seq<string>, factors: seq<FactorInfo>, i: int)
    requires 0 <= i < |newFactors|
    ensures Defaults(newFactors[..i + 1], factors) == Defaults(newFactors[..i], factors) + FactorDefaults(newFactors[i], factors)
  {
    assert newFactors[..i + 1][..i] == newFactors[..i];
  }

  /** `handleFactorChange`: drop the entries of factors no longer selected, then give every
      parameter of every selected factor that is still missing its default. */
  method HandleFactorChange(parameters: Parameters, newFactors: seq<string>, factors: seq<FactorInfo>)
    returns (newParameters: Parameters)
    ensures newParameters == FillMissing(Kept(parameters, newFactors), Defaults(newFactors, factors))
  {
    newParameters := DropUnselected(parameters, newFactors);
    ghost var kept := newParameters;
    var i := 0;
    while i < |newFactors|
      invariant 0 <= i <= |newFactors|
      invariant newParameters == FillMissing(kept, Defaults(newFactors[..i], factors))
    {
      var factorName := newFactors[i];
      DefaultsStep(newFactors, factors, i);
      FillMissingConcat(kept, Defaults(newFactors[..i], factors), FactorDefaults(factorName, factors));
      var factor := FindFactor(factors, factorName);
      if factor.Some? {
        newParameters := AddFactorDefaults(newParameters, factorName, factor.value.parameters);
      }
      i := i + 1;
    }
    assert newFactors[..i] == newFactors;
  }

  /** Every parameter of every selected factor found in `factors` has an entry afterwards. */
  lemma FactorChangeCoversParameters(parameters: Parameters, newFactors: seq<string>, factors: seq<FactorInfo>, name: string, p: ParameterDefinition)
    requires name in newFactors && FindFactor(factors, name).Some? && p in FindFactor(factors, name).value.parameters
    ensures ParamKey(name, p.name) in FillMissing(Kept(parameters, newFactors), Defaults(newFactors, factors))
  {
    var key := ParamKey(name, p.name);
    DefaultsKeys(newFactors, factors, key);
    FillMissingHas(Kept(parameters, newFactors), Defaults(newFactors, factors), key);
  }

  /** An entry of a factor that stays selected keeps its value; it is not reset to the default. */
  lemma FactorChangePreserves(parameters: Parameters, newFactors: seq<string>, factors: seq<FactorInfo>, key: string)
    requires key in parameters && FactorOf(key) in newFactors
    ensures var r := FillMissing(Kept(parameters, newFactors), Defaults(newFactors, factors));
      key in r && r[key] == parameters[key]
  {
    FillMissingKeeps(Kept(parameters, newFactors), Defaults(newFactors, factors), key);
  }

  /** Every entry afterwards is a kept one or the key of a selected factor's parameter, and
      an unselected factor's entry is gone unless such a key re-creates it; so, when no
      selected factor name contains a dot, every key's factor is selected. */
  lemma FactorChangeKeys(parameters: Parameters, newFactors: seq<string>, factors: seq<FactorInfo>, key: string)
    ensures key in FillMissing(Kept(parameters, newFactors), Defaults(newFactors, factors)) <==>
      (key in parameters && FactorOf(key) in newFactors) || IsDefaultKey(newFactors, factors, key)
    ensures (key in FillMissing(Kept(parameters, newFactors), Defaults(newFactors, factors)) &&
             forall k :: 0 <= k < |newFactors| ==> '.' !in newFactors[k])
      ==> FactorOf(key) in newFactors
  {
    FillMissingHas(Kept(parameters, newFactors), Defaults(newFactors, factors), key);
    DefaultsKeys(newFactors, factors, key);
    if !(key in parameters && FactorOf(key) in newFactors) && IsDefaultKey(newFactors, factors, key) &&
       forall k :: 0 <= k < |newFactors| ==> '.' !in newFactors[k] {
      var n, p :| n in newFactors && FindFactor(factors, n).Some? && p in FindFactor(factors, n).value.parameters && key == ParamKey(n, p.name);
      FactorOfParamKey(n, p.name);
    }
  }

  /** A key that was not kept gets the default of the first parameter that produces it. */
  lemma FactorChangeDefault(parameters: Parameters, newFactors: seq<string>, factors: seq<FactorInfo>, i: int)
    requires 0 <= i < |Defaults(newFactors, factors)|
    requires Defaults(newFactors, factors)[i].0 !in Kept(parameters, newFactors)
    requires forall j :: 0 <= j < i ==> Defaults(newFactors, factors)[j].0 != Defaults(newFactors, factors)[i].0
    ensures var d := Defaults(newFactors, factors)[i];
      var r := FillMissing(Kept(parameters, newFactors), Defaults(newFactors, factors));
      d.0 in r && r[d.0] == d.1
  {
    FillMissingFirst(Kept(parameters, newFactors), Defaults(newFactors, factors), i);
  }

  /** `key.split('.')[1]`; a key with no dot would give `undefined`, which as a property
      name is the text "undefined". */
  function SecondSegment(key: string): string {
    var parts := Split(key, '.');
    if |parts| >= 2 then parts[1] else "undefined"
  }

  /** A key made of a dot-free factor name and a dot-free remainder yields that remainder. */
  lemma SecondSegmentOfKey(factorName: string, rest: string)
    requires '.' !in factorName && '.' !in rest
    ensures SecondSegment(ParamKey(factorName, rest)) == rest
  {
    assert Join([factorName, rest], ".") == ParamKey(factorName, rest);
    SplitJoin([factorName, rest], '.');
  }

  /** `handleParameterChange`: the edited entry is set, and the parameters of that factor
      are collected under their own names for validation. */
  method HandleParameterChange(parameters: Parameters, factorName: string, paramName: string, value: JsValue)
    returns (newParameters: Parameters, factorParams: Parameters)
    ensures ParamKey(factorName, paramName) in newParameters && newParameters[ParamKey(factorName, paramName)] == value
    ensures forall k :: k != ParamKey(factorName, paramName) ==>
      (k in newParameters <==> k in parameters) && (k in parameters ==> newParameters[k] == parameters[k])
    ensures forall p :: p in factorParams <==>
      exists k :: k in newParameters && StartsWith(k, factorName + ".") && SecondSegment(k) == p
    ensures forall p :: p in factorParams ==>
      exists k :: k in newParameters && StartsWith(k, factorName + ".") && SecondSegment(k) == p && factorParams[p] == newParameters[k]
  {
    newParameters := parameters[ParamKey(factorName, paramName) := value];
    factorParams := map[];
    var remaining := newParameters.Keys;
    while remaining != {}
      invariant remaining <= newParameters.Keys
      invariant forall k :: k in newParameters && k !in remaining && StartsWith(k, factorName + ".") ==> SecondSegment(k) in factorParams
      invariant forall p :: p in factorParams ==>
        exists k :: k in newParameters && k !in remaining && StartsWith(k, factorName + ".") && SecondSegment(k) == p && factorParams[p] == newParameters[k]
      decreases remaining
    {
      var key :| key in remaining;
      if StartsWith(key, factorName + ".") {
        factorParams := factorParams[SecondSegment(key) := newParameters[key]];
      }
      remaining := remaining - {key};
    }
  }

  /** When the factor name and every parameter name after it are dot-free, the collected
      map is exactly that factor's entries under their parameter names. */
  lemma FactorParamsExact(newParameters: Parameters, factorParams: Parameters, factorName: string)
    requires '.' !in factorName
    requires forall k :: k in newParameters && StartsWith(k, factorName + ".") ==> '.' !in k[|factorName| + 1..]
    requires forall p :: p in factorParams <==>
      exists k :: k in newParameters && StartsWith(k, factorName + ".") && SecondSegment(k) == p
    requires forall p :: p in factorParams ==>
      exists k :: k in newParameters && StartsWith(k, factorName + ".") && SecondSegment(k) == p && factorParams[p] == newParameters[k]
    ensures forall p :: p in factorParams ==> ParamKey(factorName, p) in newParameters && factorParams[p] == newParameters[ParamKey(factorName, p)]
    ensures forall p :: '.' !in p && ParamKey(factorName, p) in newParameters ==> p in factorParams
  {
    forall p | p in factorParams
      ensures ParamKey(factorName, p) in newParameters && factorParams[p] == newParameters[ParamKey(factorName, p)]
    {
      var k :| k in newParameters && StartsWith(k, factorName + ".") && SecondSegment(k) == p && factorParams[p] == newParameters[k];
      var rest := k[|factorName| + 1..];
      assert k == ParamKey(factorName, rest);
      SecondSegmentOfKey(factorName, rest);
    }
    forall p | '.' !in p && ParamKey(factorName, p) in newParameters
      ensures p in factorParams
    {
      var k := ParamKey(factorName, p);
      assert StartsWith(k, factorName + ".");
      SecondSegmentOfKey(factorName, p);
    }
  }

  /** `parameters[paramKey] ?? param.constraint.default`: the stored value unless it is
      missing, undefined or null. */
  function DisplayedValue(parameters: Parameters, factor: FactorInfo, param: ParameterDefinition): (r: JsValue)
    ensures var key := ParamKey(factor.name, param.name);
      (key in parameters && !parameters[key].Undefined? && !parameters[key].Null? ==> r == parameters[key])
      && (key !in parameters || parameters[key].Undefined? || parameters[key].Null? ==> r == param.default)
  {
    match Get(parameters, ParamKey(factor.name, param.name))
    case Undefined => param.default
    case Null => param.default
    case v => v
  }

  /** An edited value that is neither undefined nor null is what the input shows next. */
  lemma EditThenDisplay(parameters: Parameters, factor: FactorInfo, param: ParameterDefinition, value: JsValue)
    requires !value.Undefined? && !value.Null?
    ensures DisplayedValue(parameters[ParamKey(factor.name, param.name) := value], factor, param) == value
  {
  }
}
