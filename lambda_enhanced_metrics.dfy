/**
 * The Lambda Insights ("enhanced") metric catalog of a Lambda function: six
 * CPU and memory getters over one shared builder, and the function-cost math
 * metric.
 */
module LambdaEnhancedMetrics {
  import opened Wrappers
  import opened Strings
  import opened Metrics

  const LambdaInsightsNamespace := "LambdaInsights"

  /** A Lambda function, as far as its metrics are concerned: its name, as a concrete string. */
  datatype LambdaFunction = LambdaFunction(functionName: string)

  /**
   * The dimensions `enhancedMetric` builds: the name split on `:`, the first
   * piece as `function_name`, the second (if any) as `version`.
   */
  function EnhancedDimensions(functionName: string): (d: Dimensions)
    ensures d.Keys == {"function_name", "version"}
    ensures d["function_name"].Some? && ':' !in d["function_name"].value
    ensures d["version"].Some? ==> ':' !in d["version"].value
  {
    var parts := Split(functionName, ':');
    map["function_name" := Some(parts[0]),
        "version" := if |parts| > 1 then Some(parts[1]) else None]
  }

  /** `enhancedMetric(metricName, statistic, label, color)` */
  function EnhancedMetric(f: LambdaFunction, metricName: string, statistic: Statistic,
                          displayLabel: string, color: Option<string>): (m: Metric)
    ensures m.Primitive? && m.namespace == "LambdaInsights"
    ensures m.metricName == metricName && m.statistic == statistic && m.displayLabel == displayLabel
    ensures m.color == color
    ensures m.dimensions == EnhancedDimensions(f.functionName)
    ensures m.dimensions.Keys == {"function_name", "version"}
  {
    CreateMetric(metricName, statistic, displayLabel, EnhancedDimensions(f.functionName),
                 color, LambdaInsightsNamespace)
  }

  /** The six enhanced getters. */
  datatype EnhancedGetter =
    | MaxCpuTotalTime | P90CpuTotalTime | AvgCpuTotalTime
    | MaxMemoryUtilization | P90MemoryUtilization | AvgMemoryUtilization

  /**
   * A getter's metric: an uncoloured LambdaInsights metric on the function's
   * dimensions, `cpu_total_time` for the CPU getters and `memory_utilization`
   * for the memory ones, at the getter's own statistic.
   */
  function Enhanced(f: LambdaFunction, g: EnhancedGetter): (m: Metric)
    ensures m.Primitive? && m.namespace == "LambdaInsights" && m.color == None
    ensures m.dimensions == EnhancedDimensions(f.functionName)
    ensures m.metricName == "cpu_total_time"
        <==> g == MaxCpuTotalTime || g == P90CpuTotalTime || g == AvgCpuTotalTime
    ensures m.metricName == "memory_utilization"
        <==> g == MaxMemoryUtilization || g == P90MemoryUtilization || g == AvgMemoryUtilization
    ensures m.statistic == Max <==> g == MaxCpuTotalTime || g == MaxMemoryUtilization
    ensures m.statistic == P90 <==> g == P90CpuTotalTime || g == P90MemoryUtilization
    ensures m.statistic == Average <==> g == AvgCpuTotalTime || g == AvgMemoryUtilization
  {
    match g
    case MaxCpuTotalTime => EnhancedMetric(f, "cpu_total_time", Max, "CPUTotalTime.Max", None)
    case P90CpuTotalTime => EnhancedMetric(f, "cpu_total_time", P90, "CPUTotalTime.P90", None)
    case AvgCpuTotalTime => EnhancedMetric(f, "cpu_total_time", Average, "CPUTotalTime.Avg", None)
    case MaxMemoryUtilization => EnhancedMetric(f, "memory_utilization", Max, "MemoryUtilization.Max", None)
    case P90MemoryUtilization => EnhancedMetric(f, "memory_utilization", P90, "MemoryUtilization.P90", None)
    case AvgMemoryUtilization => EnhancedMetric(f, "memory_utilization", Average, "MemoryUtilization.Avg", None)
  }

  /** `lambdaFunction.metricDuration({ statistic: SUM })` */
  function FunctionDuration(f: LambdaFunction): (m: Metric)
    ensures m.Provided? && m.construct == f.functionName && m.helper == "metricDuration"
    ensures m.options.statistic == Some(Sum) && m.options.displayLabel == None
  {
    Provided(f.functionName, "metricDuration", MetricOptions(Some(Sum), None))
  }

  /** `memory_utilization * duration` */
  const FunctionCostExpr: Expr := Binary(Mul, Var("memory_utilization"), Var("duration"))

  /** Maximum memory utilisation times summed duration; the two bindings are the tree's variables. */
  function EnhancedMetricFunctionCost(f: LambdaFunction): (m: Metric)
    ensures m.MathMetric? && m.usingMetrics.Keys == FreeVars(m.expression) == {"memory_utilization", "duration"}
    ensures m.usingMetrics["memory_utilization"] == Enhanced(f, MaxMemoryUtilization)
    ensures m.usingMetrics["duration"] == FunctionDuration(f)
  {
    CreateMetricMath(FunctionCostExpr,
                     map["memory_utilization" := Enhanced(f, MaxMemoryUtilization),
                         "duration" := FunctionDuration(f)],
                     "Function Cost (avg: ${AVG}, max: ${MAX})")
  }

  /**
   * `function_name` is the text before the first `:` (all of it when there
   * is none); `version` is the text between the first and the second `:`,
   * and absent exactly when the name holds no `:`.
   */
  lemma {:induction false} DimensionsFromName(functionName: string)
    ensures var d := EnhancedDimensions(functionName);
      d.Keys == {"function_name", "version"} && d["function_name"].Some?
      && ':' !in d["function_name"].value
      && (d["version"].None? <==> ':' !in functionName)
      && (d["version"].None? ==> d["function_name"].value == functionName)
      && (d["version"].Some? ==>
            var name, version := d["function_name"].value, d["version"].value;
            var end := |name| + 1 + |version|;
            ':' !in version && end <= |functionName|
            && functionName[..end] == name + ":" + version
            && (end == |functionName| || functionName[end] == ':'))
  {
    var parts := Split(functionName, ':');
    JoinSplit(functionName, ':');
    if |parts| == 1 {
      assert Join(parts, ':') == parts[0];
    } else {
      var tail := Join(parts[1..], ':');
      assert functionName == parts[0] + [':'] + tail;
      assert functionName[|parts[0]|] == ':';
      if |parts| == 2 {
        assert tail == parts[1];
        assert functionName[..|parts[0]| + 1 + |parts[1]|] == functionName;
      } else {
        assert tail == parts[1] + [':'] + Join(parts[2..], ':');
        assert functionName == parts[0] + ":" + parts[1] + [':'] + Join(parts[2..], ':');
      }
    }
  }

  /** Every enhanced metric is a LambdaInsights metric without a color. */
  lemma EnhancedMetricsShape(f: LambdaFunction, g: EnhancedGetter)
    ensures var m := Enhanced(f, g);
      m.Primitive? && m.namespace == "LambdaInsights" && m.color == None
      && m.dimensions == EnhancedDimensions(f.functionName)
  {
  }

  /** The CPU getters: `cpu_total_time` at MAX, P90 and AVERAGE. */
  lemma CpuGetters(f: LambdaFunction)
    ensures Enhanced(f, MaxCpuTotalTime).metricName == "cpu_total_time"
         && Enhanced(f, MaxCpuTotalTime).statistic == Max
         && Enhanced(f, MaxCpuTotalTime).displayLabel == "CPUTotalTime.Max"
    ensures Enhanced(f, P90CpuTotalTime).metricName == "cpu_total_time"
         && Enhanced(f, P90CpuTotalTime).statistic == P90
         && Enhanced(f, P90CpuTotalTime).displayLabel == "CPUTotalTime.P90"
    ensures Enhanced(f, AvgCpuTotalTime).metricName == "cpu_total_time"
         && Enhanced(f, AvgCpuTotalTime).statistic == Average
         && Enhanced(f, AvgCpuTotalTime).displayLabel == "CPUTotalTime.Avg"
  {
  }

  /** The memory getters: `memory_utilization` at MAX, P90 and AVERAGE. */
  lemma MemoryGetters(f: LambdaFunction)
    ensures Enhanced(f, MaxMemoryUtilization).metricName == "memory_utilization"
         && Enhanced(f, MaxMemoryUtilization).statistic == Max
         && Enhanced(f, MaxMemoryUtilization).displayLabel == "MemoryUtilization.Max"
    ensures Enhanced(f, P90MemoryUtilization).metricName == "memory_utilization"
         && Enhanced(f, P90MemoryUtilization).statistic == P90
         && Enhanced(f, P90MemoryUtilization).displayLabel == "MemoryUtilization.P90"
    ensures Enhanced(f, AvgMemoryUtilization).metricName == "memory_utilization"
         && Enhanced(f, AvgMemoryUtilization).statistic == Average
         && Enhanced(f, AvgMemoryUtilization).displayLabel == "MemoryUtilization.Avg"
  {
  }

  lemma FunctionCostVariableNames()
    ensures IsVariableToken("memory_utilization") && IsVariableToken("duration")
  {
  }

  /**
   * The function-cost expression uses exactly its two bindings: the maximum
   * memory utilisation and the summed duration.
   */
  lemma FunctionCostIntegrity(f: LambdaFunction)
    ensures BindsExactlyItsVariables(EnhancedMetricFunctionCost(f))
    ensures Lexemes(FunctionCostExpr) == ["memory_utilization", "*", "duration"]
  {
    FunctionCostVariableNames();
    BindsExactlyItsVariablesFromTree(EnhancedMetricFunctionCost(f));
  }

  lemma FunctionCostBindings(f: LambdaFunction)
    ensures EnhancedMetricFunctionCost(f).usingMetrics
         == map["memory_utilization" := Enhanced(f, MaxMemoryUtilization),
                "duration" := Provided(f.functionName, "metricDuration", MetricOptions(Some(Sum), None))]
    ensures Enhanced(f, MaxMemoryUtilization).statistic == Max
    ensures EnhancedMetricFunctionCost(f).displayLabel == "Function Cost (avg: ${AVG}, max: ${MAX})"
  {
  }
}
