/**
 * The hypothesis-chart sampler and the slider defaults. Formulas are
 * evaluated by an abstract evaluator passed in as `eval`: it maps a formula
 * and a scope of named numbers to the number it returns, or to the error it
 * throws.
 */
module Chart {
  import opened Base
  import opened Types

  /** The sampler always draws this many points for a usable configuration. */
  const SampleCount: nat := 10

  /** One chart row: `amt` (the x value), H0 and H1. The label `xVal.toFixed(1)` is not modelled. */
  datatype ChartPoint = ChartPoint(x: real, h0: real, h1: real)

  type Evaluator = (string, map<string, real>) -> Result<real, string>

  function Max(a: real, b: real): real {
    if a >= b then a else b
  }

  /** `simValues[main.name] || main.defaultValue`: a missing or zero value falls back. */
  function CurrentValue(main: SimulationVariable, simValues: map<string, real>): real {
    if main.name in simValues && simValues[main.name] != 0.0 then simValues[main.name] else main.defaultValue
  }

  /** Half of the variable's declared span. */
  function Window(main: SimulationVariable): real {
    (main.max - main.min) / 2.0
  }

  /** The window is centred on the current value, clamped below only. */
  function Start(main: SimulationVariable, simValues: map<string, real>): real {
    Max(main.min, CurrentValue(main, simValues) - Window(main) / 2.0)
  }

  function XAt(main: SimulationVariable, simValues: map<string, real>, i: int): real {
    Start(main, simValues) + (Window(main) / 10.0) * (i as real)
  }

  /** H0 first, then H1; a throw stops the rest of the try block. */
  function EvaluatePair(config: SimulationConfig, scope: map<string, real>, eval: Evaluator): (real, real) {
    match eval(config.h0Formula, scope)
    case Failure(_) => (0.0, 0.0)
    case Success(h0) =>
      match eval(config.h1Formula, scope)
      case Failure(_) => (h0, 0.0)
      case Success(h1) => (h0, h1)
  }

  function PointAt(config: SimulationConfig, simValues: map<string, real>, eval: Evaluator, i: int): ChartPoint
    requires |config.independentVariables| > 0
  {
    var main := config.independentVariables[0];
    var x := XAt(main, simValues, i);
    var hs := EvaluatePair(config, simValues[main.name := x], eval);
    ChartPoint(x, hs.0, hs.1)
  }

  /** Whether the sampler has a primary variable to work with. */
  predicate Usable(config: Option<SimulationConfig>) {
    config.Some? && |config.value.independentVariables| > 0
  }

  /** The chart the sampler produces, as a value. */
  function ChartSpec(config: Option<SimulationConfig>, simValues: map<string, real>, eval: Evaluator): seq<ChartPoint> {
    if !Usable(config) then []
    else seq(SampleCount, i requires 0 <= i < SampleCount => PointAt(config.value, simValues, eval, i))
  }

  /** calculateChartData: the loop that pushes one point per sample. */
  method CalculateChartData(config: Option<SimulationConfig>, simValues: map<string, real>, eval: Evaluator)
    returns (data: seq<ChartPoint>)
    ensures data == ChartSpec(config, simValues, eval)
  {
    if config.None? {
      return [];
    }
    data := [];
    var simulationConfig := config.value;
    if |simulationConfig.independentVariables| == 0 {
      return [];
    }
    var mainVar := simulationConfig.independentVariables[0];
    var currentX := if mainVar.name in simValues && simValues[mainVar.name] != 0.0 then simValues[mainVar.name] else mainVar.defaultValue;
    var range := (mainVar.max - mainVar.min) / 2.0;
    var start := Max(mainVar.min, currentX - range / 2.0);
    assert start == Start(mainVar, simValues);
    for i := 0 to SampleCount
      invariant |data| == i
      invariant forall k :: 0 <= k < i ==> data[k] == PointAt(simulationConfig, simValues, eval, k)
    {
      var xVal := start + (range / 10.0) * (i as real);
      var h0 := 0.0;
      var h1 := 0.0;
      var scope := simValues[mainVar.name := xVal];
      var r0 := eval(simulationConfig.h0Formula, scope);
      if r0.Success? {
        h0 := r0.value;
        var r1 := eval(simulationConfig.h1Formula, scope);
        if r1.Success? {
          h1 := r1.value;
        }
      }
      assert (h0, h1) == EvaluatePair(simulationConfig, scope, eval);
      assert xVal == XAt(mainVar, simValues, i);
      assert ChartPoint(xVal, h0, h1) == PointAt(simulationConfig, simValues, eval, i);
      data := data + [ChartPoint(xVal, h0, h1)];
    }
  }

  /** No configuration, or no first variable: an empty chart. Otherwise
      exactly ten points, whatever the formulas do. */
  lemma ChartLength(config: Option<SimulationConfig>, simValues: map<string, real>, eval: Evaluator)
    ensures |ChartSpec(config, simValues, eval)| == if Usable(config) then 10 else 0
  {
  }

  /** The first point is never below the variable's minimum. */
  lemma FirstPointAtLeastMin(config: SimulationConfig, simValues: map<string, real>, eval: Evaluator)
    requires |config.independentVariables| > 0
    ensures ChartSpec(Some(config), simValues, eval)[0].x >= config.independentVariables[0].min
  {
  }

  /** With a proper span, the sample points strictly increase. */
  lemma SamplesIncrease(config: SimulationConfig, simValues: map<string, real>, eval: Evaluator, i: nat, j: nat)
    requires |config.independentVariables| > 0
    requires config.independentVariables[0].max > config.independentVariables[0].min
    requires i < j < 10
    ensures ChartSpec(Some(config), simValues, eval)[i].x < ChartSpec(Some(config), simValues, eval)[j].x
  {
    var main := config.independentVariables[0];
    var spec := ChartSpec(Some(config), simValues, eval);
    assert spec[i].x == XAt(main, simValues, i);
    assert spec[j].x == XAt(main, simValues, j);
    var step := Window(main) / 10.0;
    assert step > 0.0;
    assert step * (j as real) - step * (i as real) == step * ((j - i) as real);
    assert step * ((j - i) as real) > 0.0;
  }

  /** Consecutive points are one tenth of the window apart. */
  lemma SampleSpacing(config: SimulationConfig, simValues: map<string, real>, eval: Evaluator, i: nat)
    requires |config.independentVariables| > 0
    requires i + 1 < 10
    ensures ChartSpec(Some(config), simValues, eval)[i + 1].x - ChartSpec(Some(config), simValues, eval)[i].x
            == Window(config.independentVariables[0]) / 10.0
  {
    var main := config.independentVariables[0];
    var spec := ChartSpec(Some(config), simValues, eval);
    assert spec[i].x == XAt(main, simValues, i);
    assert spec[i + 1].x == XAt(main, simValues, i + 1);
    var step := Window(main) / 10.0;
    assert step * ((i + 1) as real) == step * (i as real) + step;
  }

  /** Each point's formulas see the slider values with the primary variable
      overridden by the point's x. A thrown H0 zeroes both values; a thrown
      H1 keeps H0; any returned number is kept as it is. */
  lemma PointEvaluation(config: SimulationConfig, simValues: map<string, real>, eval: Evaluator, i: nat)
    requires |config.independentVariables| > 0
    requires i < 10
    ensures var p := ChartSpec(Some(config), simValues, eval)[i];
            var main := config.independentVariables[0];
            var scope := simValues[main.name := p.x];
            && (eval(config.h0Formula, scope).Failure? ==> p.h0 == 0.0 && p.h1 == 0.0)
            && (eval(config.h0Formula, scope).Success? ==> p.h0 == eval(config.h0Formula, scope).value)
            && (eval(config.h0Formula, scope).Success? && eval(config.h1Formula, scope).Failure? ==> p.h1 == 0.0)
            && (eval(config.h0Formula, scope).Success? && eval(config.h1Formula, scope).Success? ==>
                  p.h1 == eval(config.h1Formula, scope).value)
  {
  }

  /** A formula that throws everywhere yields an all-zero column, and the
      chart still has ten points. */
  lemma ThrowingH0GivesZeros(config: SimulationConfig, simValues: map<string, real>, eval: Evaluator)
    requires |config.independentVariables| > 0
    requires forall scope :: eval(config.h0Formula, scope).Failure?
    ensures |ChartSpec(Some(config), simValues, eval)| == 10
    ensures forall i :: 0 <= i < 10 ==>
      ChartSpec(Some(config), simValues, eval)[i].h0 == 0.0 && ChartSpec(Some(config), simValues, eval)[i].h1 == 0.0
  {
  }

  /** The worked example: min 0, max 10, current 4 gives a window of 5, a
      first point at 1.5 and a last at 6.0. */
  lemma WorkedExample(config: SimulationConfig, simValues: map<string, real>, eval: Evaluator)
    requires |config.independentVariables| > 0
    requires config.independentVariables[0].min == 0.0 && config.independentVariables[0].max == 10.0
    requires CurrentValue(config.independentVariables[0], simValues) == 4.0
    ensures ChartSpec(Some(config), simValues, eval)[0].x == 1.5
    ensures ChartSpec(Some(config), simValues, eval)[9].x == 6.0
  {
  }

  /** The upper end is not clamped: current 10 on [0, 10] samples up to 12. */
  lemma UpperEndNotClamped(config: SimulationConfig, simValues: map<string, real>, eval: Evaluator)
    requires |config.independentVariables| > 0
    requires config.independentVariables[0].min == 0.0 && config.independentVariables[0].max == 10.0
    requires CurrentValue(config.independentVariables[0], simValues) == 10.0
    ensures ChartSpec(Some(config), simValues, eval)[9].x == 12.0
    ensures ChartSpec(Some(config), simValues, eval)[9].x > config.independentVariables[0].max
  {
  }

  // ---------------------------------------------------------------------
  // Slider defaults fetched with a new configuration
  // ---------------------------------------------------------------------

  /** The map `forEach` builds: each name to its defaultValue, later entries
      overwriting earlier ones with the same name. */
  function Defaults(vars: seq<SimulationVariable>): map<string, real> {
    if vars == [] then map[]
    else Defaults(vars[..|vars| - 1])[vars[|vars| - 1].name := vars[|vars| - 1].defaultValue]
  }

  method DefaultValues(vars: seq<SimulationVariable>) returns (defaults: map<string, real>)
    ensures defaults == Defaults(vars)
  {
    defaults := map[];
    for i := 0 to |vars|
      invariant defaults == Defaults(vars[..i])
    {
      assert vars[..i + 1][..i] == vars[..i];
      defaults := defaults[vars[i].name := vars[i].defaultValue];
    }
    assert vars[..|vars|] == vars;
  }

  /** Exactly the declared names are keys. */
  lemma {:induction false} DefaultsKeys(vars: seq<SimulationVariable>)
    ensures Defaults(vars).Keys == set i | 0 <= i < |vars| :: vars[i].name
  {
    if vars != [] {
      var init := vars[..|vars| - 1];
      DefaultsKeys(init);
      assert forall i :: 0 <= i < |init| ==> init[i] == vars[i];
    }
  }

  /** A variable whose name no later variable repeats gets its own default. */
  lemma {:induction false} DefaultsValue(vars: seq<SimulationVariable>, i: nat)
    requires i < |vars|
    requires forall j :: i < j < |vars| ==> vars[j].name != vars[i].name
    ensures vars[i].name in Defaults(vars) && Defaults(vars)[vars[i].name] == vars[i].defaultValue
  {
    if i < |vars| - 1 {
      var init := vars[..|vars| - 1];
      DefaultsValue(init, i);
    }
  }

  /** Right after a configuration is fetched, the chart is centred on the
      primary variable's default, unless a later variable reuses its name. */
  lemma FreshConfigCentredOnDefault(config: SimulationConfig)
    requires |config.independentVariables| > 0
    requires forall j :: 0 < j < |config.independentVariables| ==>
      config.independentVariables[j].name != config.independentVariables[0].name
    ensures CurrentValue(config.independentVariables[0], Defaults(config.independentVariables))
            == config.independentVariables[0].defaultValue
  {
    DefaultsValue(config.independentVariables, 0);
  }
}
