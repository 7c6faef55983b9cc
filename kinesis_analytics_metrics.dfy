/**
 * The Kinesis Data Analytics metric catalog: eleven getters, each a spec
 * literal handed to one builder that fixes namespace and dimensions.
 */
module KinesisAnalyticsMetrics {
  import opened Wrappers
  import opened Metrics

  const KinesisAnalyticsNamespace := "AWS/KinesisAnalytics"

  /** The catalog's `MetricsSpec`: a metric name, its description, an optional statistic. */
  datatype MetricsSpec = MetricsSpec(name: string, description: string, metricStatistic: Option<Statistic>)

  /** The dimension hash set once by the constructor: `{ Application: props.application }`. */
  function ApplicationDimensions(application: string): (d: Dimensions)
    ensures d.Keys == {"Application"} && d["Application"] == Some(application)
  {
    map["Application" := Some(application)]
  }

  /**
   * `generateMetric`. TypeScript's `generateMetric` uses `metricStatistic || AVERAGE`;
   * no statistic value is falsy, so this is "the given statistic, else AVERAGE".
   */
  function GenerateMetric(dimensions: Dimensions, spec: MetricsSpec): (m: Metric)
    ensures m.Primitive? && m.namespace == "AWS/KinesisAnalytics" && m.color == None
    ensures m.dimensions == dimensions
    ensures m.metricName == spec.name && m.displayLabel == spec.description
    ensures spec.metricStatistic.None? ==> m.statistic == Average
    ensures spec.metricStatistic.Some? ==> m.statistic == spec.metricStatistic.value
  {
    CreateMetric(spec.name, spec.metricStatistic.GetOr(Average), spec.description,
                 dimensions, None, KinesisAnalyticsNamespace)
  }

  /** The eleven getters. */
  datatype Getter =
    | KPUsCount | DowntimeMs | UptimeMs | FullRestartsCount
    | NumberOfFailedCheckpointsCount | LastCheckpointDurationMs | LastCheckpointSizeBytes
    | CpuUtilizationPercent | HeapMemoryUtilizationPercent
    | OldGenerationGCTimeMs | OldGenerationGCCount

  /** The spec literal each getter passes to `generateMetric`. */
  function SpecOf(g: Getter): (s: MetricsSpec)
    ensures s.metricStatistic.None?
        <==> g != NumberOfFailedCheckpointsCount && g != LastCheckpointSizeBytes && g != OldGenerationGCCount
    ensures s.metricStatistic.Some? ==> s.metricStatistic.value == Sum || s.metricStatistic.value == N
  {
    match g
    case KPUsCount => MetricsSpec("KPUs", "Kinesis Processing Units", None)
    case DowntimeMs => MetricsSpec("downtime", "Downtime", None)
    case UptimeMs => MetricsSpec("uptime", "Uptime", None)
    case FullRestartsCount => MetricsSpec("fullRestarts", "Restarts", None)
    case NumberOfFailedCheckpointsCount => MetricsSpec("numberOfFailedCheckpoints", "Failed Checkpoints", Some(Sum))
    case LastCheckpointDurationMs => MetricsSpec("lastCheckpointDuration", "Last Checkpoint Duration", None)
    case LastCheckpointSizeBytes => MetricsSpec("lastCheckpointSize", "Last Checkpoint Size", Some(Sum))
    case CpuUtilizationPercent => MetricsSpec("cpuUtilization", "CPU Utilization", None)
    case HeapMemoryUtilizationPercent => MetricsSpec("heapMemoryUtilization", "Heap Memory Utilization", None)
    case OldGenerationGCTimeMs => MetricsSpec("oldGenerationGCTime", "GC Time", None)
    case OldGenerationGCCount => MetricsSpec("oldGenerationGCCount", "GC Count", Some(N))
  }

  /** The metric a getter returns for the application `application`. */
  function MetricOf(application: string, g: Getter): (m: Metric)
    ensures m.Primitive? && m.dimensions == ApplicationDimensions(application)
    ensures m.metricName == SpecOf(g).name && m.displayLabel == SpecOf(g).description
  {
    GenerateMetric(ApplicationDimensions(application), SpecOf(g))
  }

  /** Every metric is dimensioned exactly by the application, in the Kinesis Analytics namespace, uncoloured. */
  lemma MetricShape(application: string, g: Getter)
    ensures var m := MetricOf(application, g);
      m.Primitive? && m.dimensions == map["Application" := Some(application)]
      && m.namespace == "AWS/KinesisAnalytics" && m.color == None
  {
  }

  /** Failed checkpoints and last checkpoint size use SUM, the GC count N, all others AVERAGE. */
  lemma Statistics(application: string, g: Getter)
    ensures MetricOf(application, g).statistic == Sum
        <==> g == NumberOfFailedCheckpointsCount || g == LastCheckpointSizeBytes
    ensures MetricOf(application, g).statistic == N <==> g == OldGenerationGCCount
    ensures MetricOf(application, g).statistic == Average
        <==> g != NumberOfFailedCheckpointsCount && g != LastCheckpointSizeBytes && g != OldGenerationGCCount
  {
  }

  /** A getter's metric name and label are its spec's name and description. */
  lemma NameAndLabel(application: string, g: Getter)
    ensures MetricOf(application, g).metricName == SpecOf(g).name
    ensures MetricOf(application, g).displayLabel == SpecOf(g).description
    ensures MetricOf(application, KPUsCount).metricName == "KPUs"
    ensures MetricOf(application, KPUsCount).displayLabel == "Kinesis Processing Units"
  {
  }

  /** No two getters produce the same metric name. */
  lemma NamesDistinct(application: string, g1: Getter, g2: Getter)
    requires g1 != g2
    ensures MetricOf(application, g1).metricName != MetricOf(application, g2).metricName
  {
  }
}
