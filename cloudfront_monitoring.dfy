/**
 * Monitoring of one CloudFront distribution: it creates the alarms asked
 * for, in four families (low TPS, high TPS, 4xx rate, 5xx rate), collects
 * each alarm's annotation for its graph family, hands every created alarm
 * to an optional consumer, and lays out a summary and a full dashboard.
 */
module CloudFrontMonitoring {
  import opened Wrappers
  import opened Metrics
  import opened AlarmOverrides
  import opened Widgets

  datatype ErrorType = Error | Fault

  /** Which specialised alarm factory call creates the alarm. */
  datatype AlarmKind = MinTps | MaxTps | ErrorRate(errorType: ErrorType)

  /** A horizontal line drawn on a graph at an alarm threshold. */
  datatype HorizontalAnnotation = HorizontalAnnotation(value: real, displayLabel: string)

  /** What an alarm factory hands back for one alarm. */
  datatype CreatedAlarm = CreatedAlarm(alarmName: string, disambiguator: string, annotation: HorizontalAnnotation)

  /** A threshold (minimum or maximum TPS, maximum error rate) plus the common overrides. */
  datatype Threshold = Threshold(value: real, custom: CustomAlarmThreshold)

  /** The alarms to add, one list per family, each in the order its record is iterated. */
  datatype MonitoringOptions = MonitoringOptions(
    addLowTpsAlarm: seq<(string, Threshold)>,
    addHighTpsAlarm: seq<(string, Threshold)>,
    addError4xxRate: seq<(string, Threshold)>,
    addError5xxRate: seq<(string, Threshold)>)

  /** The six metrics the distribution's metric factory supplies. */
  datatype DistributionMetrics = DistributionMetrics(
    tps: Metric,
    downloadedBytes: Metric,
    uploadedBytes: Metric,
    cacheHitRate: Metric,
    error4xxRate: Metric,
    error5xxRate: Metric)

  /**
   * The alarm factories, already bound to the monitoring's alarm friendly
   * name: kind, metric, threshold and disambiguator in, created alarm out.
   */
  type AlarmFactory = (AlarmKind, Metric, Threshold, string) -> CreatedAlarm

  /**
   * The alarms one family's loop creates: one per entry, in iteration
   * order, each made by the factory from that entry alone.
   */
  function Family(factory: AlarmFactory, kind: AlarmKind, metric: Metric, entries: seq<(string, Threshold)>)
    : (alarms: seq<CreatedAlarm>)
    ensures |alarms| == |entries|
    ensures forall i :: 0 <= i < |entries| ==> alarms[i] == factory(kind, metric, entries[i].1, entries[i].0)
  {
    seq(|entries|, i requires 0 <= i < |entries| => factory(kind, metric, entries[i].1, entries[i].0))
  }

  function TpsAlarms(factory: AlarmFactory, metrics: DistributionMetrics, options: MonitoringOptions)
    : seq<CreatedAlarm>
  {
    Family(factory, MinTps, metrics.tps, options.addLowTpsAlarm)
      + Family(factory, MaxTps, metrics.tps, options.addHighTpsAlarm)
  }

  function ErrorRateAlarms(factory: AlarmFactory, metrics: DistributionMetrics, options: MonitoringOptions)
    : seq<CreatedAlarm>
  {
    Family(factory, ErrorRate(Error), metrics.error4xxRate, options.addError4xxRate)
      + Family(factory, ErrorRate(Fault), metrics.error5xxRate, options.addError5xxRate)
  }

  /** The annotations of the given alarms, in the same order. */
  function Annotations(alarms: seq<CreatedAlarm>): (annotations: seq<HorizontalAnnotation>)
    ensures |annotations| == |alarms|
    ensures forall i :: 0 <= i < |alarms| ==> annotations[i] == alarms[i].annotation
  {
    seq(|alarms|, i requires 0 <= i < |alarms| => alarms[i].annotation)
  }

  lemma FamilySnoc(factory: AlarmFactory, kind: AlarmKind, metric: Metric, entries: seq<(string, Threshold)>, i: nat)
    requires i < |entries|
    ensures Family(factory, kind, metric, entries[..i + 1])
         == Family(factory, kind, metric, entries[..i]) + [factory(kind, metric, entries[i].1, entries[i].0)]
  {
  }

  lemma AnnotationsSnoc(alarms: seq<CreatedAlarm>, alarm: CreatedAlarm)
    ensures Annotations(alarms + [alarm]) == Annotations(alarms) + [alarm.annotation]
  {
  }

  lemma AnnotationsAppend(a: seq<CreatedAlarm>, b: seq<CreatedAlarm>)
    ensures Annotations(a + b) == Annotations(a) + Annotations(b)
  {
  }

  /**
   * The annotation lists line up with the alarms: the first list holds the
   * annotations of the first alarms, the second those of all the others,
   * each at its alarm's position.
   */
  ghost predicate AnnotationsAligned(alarms: seq<CreatedAlarm>, ta: seq<HorizontalAnnotation>,
                                     ea: seq<HorizontalAnnotation>)
  {
    && |ta| + |ea| == |alarms|
    && (forall i :: 0 <= i < |ta| ==> ta[i] == alarms[i].annotation)
    && (forall j :: 0 <= j < |ea| ==> ea[j] == alarms[|ta| + j].annotation)
  }

  /** The annotations of two alarm lists line up with the alarms of their concatenation. */
  lemma AnnotationsOfConcat(t: seq<CreatedAlarm>, e: seq<CreatedAlarm>, alarms: seq<CreatedAlarm>,
                            ta: seq<HorizontalAnnotation>, ea: seq<HorizontalAnnotation>)
    requires alarms == t + e && ta == Annotations(t) && ea == Annotations(e)
    ensures |ta| == |t| && |ea| == |e|
    ensures AnnotationsAligned(alarms, ta, ea)
  {
    forall i | 0 <= i < |ta|
      ensures ta[i] == alarms[i].annotation
    {
      assert alarms[i] == t[i];
    }
    forall j | 0 <= j < |ea|
      ensures ea[j] == alarms[|ta| + j].annotation
    {
      assert alarms[|t| + j] == e[j];
    }
  }

  /**
   * Every alarm the monitoring creates, family by family, and which factory
   * call made each: low-TPS alarms are minimum-TPS alarms on the TPS metric,
   * high-TPS alarms maximum-TPS alarms on it, 4xx alarms error-rate alarms on
   * the 4xx metric and 5xx alarms fault-rate alarms on the 5xx metric.
   */
  lemma AllAlarmsByFamily(factory: AlarmFactory, metrics: DistributionMetrics, options: MonitoringOptions)
    ensures var alarms := TpsAlarms(factory, metrics, options) + ErrorRateAlarms(factory, metrics, options);
      var low, high, e4, e5 := options.addLowTpsAlarm, options.addHighTpsAlarm,
                               options.addError4xxRate, options.addError5xxRate;
      && |alarms| == |low| + |high| + |e4| + |e5|
      && (forall i :: 0 <= i < |low| ==> alarms[i] == factory(MinTps, metrics.tps, low[i].1, low[i].0))
      && (forall i :: 0 <= i < |high| ==>
            alarms[|low| + i] == factory(MaxTps, metrics.tps, high[i].1, high[i].0))
      && (forall i :: 0 <= i < |e4| ==>
            alarms[|low| + |high| + i] == factory(ErrorRate(Error), metrics.error4xxRate, e4[i].1, e4[i].0))
      && (forall i :: 0 <= i < |e5| ==>
            alarms[|low| + |high| + |e4| + i]
              == factory(ErrorRate(Fault), metrics.error5xxRate, e5[i].1, e5[i].0))
  {
  }

  /** Receives the created alarms; it records each batch it is handed. */
  class AlarmConsumer {
    var consumed: seq<seq<CreatedAlarm>>

    constructor ()
      ensures consumed == []
    {
      consumed := [];
    }

    method Consume(alarms: seq<CreatedAlarm>)
      modifies this
      ensures consumed == old(consumed) + [alarms]
    {
      consumed := consumed + [alarms];
    }
  }

  class CloudFrontDistributionMonitoring {
    const title: string
    const distributionUrl: Option<string>
    const metrics: DistributionMetrics
    const factory: AlarmFactory

    var tpsAnnotations: seq<HorizontalAnnotation>
    var errorRateAnnotations: seq<HorizontalAnnotation>
    /** The alarms registered so far, in creation order. */
    var alarms: seq<CreatedAlarm>

    /**
     * The annotations fit the alarms: the TPS graph's lines are those of the
     * TPS alarms, the error graph's those of the error-rate alarms, and the
     * alarm list is the TPS alarms followed by the error-rate alarms.
     */
    ghost predicate Valid(options: MonitoringOptions)
      reads this
    {
      && alarms == TpsAlarms(factory, metrics, options) + ErrorRateAlarms(factory, metrics, options)
      && tpsAnnotations == Annotations(TpsAlarms(factory, metrics, options))
      && errorRateAnnotations == Annotations(ErrorRateAlarms(factory, metrics, options))
    }

    /**
     * Every alarm's annotation is on exactly one graph, at the alarm's own
     * position: the TPS graph holds those of the first alarms, the TPS ones,
     * and the error graph those of all the others, in the same order.
     */
    lemma AnnotationsFollowAlarms(options: MonitoringOptions)
      requires Valid(options)
      ensures |tpsAnnotations| == |options.addLowTpsAlarm| + |options.addHighTpsAlarm|
      ensures |errorRateAnnotations| == |options.addError4xxRate| + |options.addError5xxRate|
      ensures AnnotationsAligned(alarms, tpsAnnotations, errorRateAnnotations)
    {
      AnnotationsOfConcat(TpsAlarms(factory, metrics, options), ErrorRateAlarms(factory, metrics, options),
                          alarms, tpsAnnotations, errorRateAnnotations);
    }

    /** Registers a created alarm with the monitoring. */
    method AddAlarm(alarm: CreatedAlarm)
      modifies this
      ensures alarms == old(alarms) + [alarm]
      ensures tpsAnnotations == old(tpsAnnotations) && errorRateAnnotations == old(errorRateAnnotations)
    {
      alarms := alarms + [alarm];
    }

    /**
     * One TPS family's loop: creates an alarm per entry, in order, keeps its
     * annotation for the TPS graph and registers the alarm.
     */
    method AddTpsAlarms(kind: AlarmKind, metric: Metric, entries: seq<(string, Threshold)>)
      requires !kind.ErrorRate?
      modifies this
      ensures alarms == old(alarms) + Family(factory, kind, metric, entries)
      ensures tpsAnnotations == old(tpsAnnotations) + Annotations(Family(factory, kind, metric, entries))
      ensures errorRateAnnotations == old(errorRateAnnotations)
    {
      ghost var alarms0, own0 := alarms, tpsAnnotations;
      ghost var done: seq<CreatedAlarm> := [];
      for i := 0 to |entries|
        invariant done == Family(factory, kind, metric, entries[..i])
        invariant alarms == alarms0 + done
        invariant tpsAnnotations == own0 + Annotations(done)
        invariant errorRateAnnotations == old(errorRateAnnotations)
      {
        var (disambiguator, alarmProps) := entries[i];
        var createdAlarm := factory(kind, metric, alarmProps, disambiguator);
        FamilySnoc(factory, kind, metric, entries, i);
        AnnotationsSnoc(done, createdAlarm);
        done := done + [createdAlarm];
        tpsAnnotations := tpsAnnotations + [createdAlarm.annotation];
        AddAlarm(createdAlarm);
      }
      assert entries[..|entries|] == entries;
    }

    /**
     * One error-rate family's loop: creates an alarm per entry, in order, keeps
     * its annotation for the error graph and registers the alarm.
     */
    method AddErrorRateAlarms(errorType: ErrorType, metric: Metric, entries: seq<(string, Threshold)>)
      modifies this
      ensures alarms == old(alarms) + Family(factory, ErrorRate(errorType), metric, entries)
      ensures errorRateAnnotations == old(errorRateAnnotations) + Annotations(Family(factory, ErrorRate(errorType), metric, entries))
      ensures tpsAnnotations == old(tpsAnnotations)
    {
      ghost var alarms0, own0 := alarms, errorRateAnnotations;
      ghost var done: seq<CreatedAlarm> := [];
      for i := 0 to |entries|
        invariant done == Family(factory, ErrorRate(errorType), metric, entries[..i])
        invariant alarms == alarms0 + done
        invariant errorRateAnnotations == own0 + Annotations(done)
        invariant tpsAnnotations == old(tpsAnnotations)
      {
        var (disambiguator, alarmProps) := entries[i];
        var createdAlarm := factory(ErrorRate(errorType), metric, alarmProps, disambiguator);
        FamilySnoc(factory, ErrorRate(errorType), metric, entries, i);
        AnnotationsSnoc(done, createdAlarm);
        done := done + [createdAlarm];
        errorRateAnnotations := errorRateAnnotations + [createdAlarm.annotation];
        AddAlarm(createdAlarm);
      }
      assert entries[..|entries|] == entries;
    }

    /**
     * Creates the alarms of the four families in order, keeps each alarm's
     * annotation for its graph, then hands the whole alarm list to the
     * consumer, once, when one is given.
     */
    constructor (title: string, distributionUrl: Option<string>, metrics: DistributionMetrics,
                 factory: AlarmFactory, options: MonitoringOptions, useCreatedAlarms: AlarmConsumer?)
      modifies useCreatedAlarms
      ensures this.title == title && this.distributionUrl == distributionUrl
      ensures this.metrics == metrics && this.factory == factory
      ensures Valid(options)
      ensures useCreatedAlarms != null ==> useCreatedAlarms.consumed == old(useCreatedAlarms.consumed) + [alarms]
    {
      this.title := title;
      this.distributionUrl := distributionUrl;
      this.metrics := metrics;
      this.factory := factory;
      errorRateAnnotations := [];
      tpsAnnotations := [];
      alarms := [];
      new;
      ghost var low := Family(factory, MinTps, metrics.tps, options.addLowTpsAlarm);
      ghost var high := Family(factory, MaxTps, metrics.tps, options.addHighTpsAlarm);
      ghost var e4 := Family(factory, ErrorRate(Error), metrics.error4xxRate, options.addError4xxRate);
      ghost var e5 := Family(factory, ErrorRate(Fault), metrics.error5xxRate, options.addError5xxRate);
      AddTpsAlarms(MinTps, metrics.tps, options.addLowTpsAlarm);
      assert alarms == low && tpsAnnotations == Annotations(low) && errorRateAnnotations == [];
      AddTpsAlarms(MaxTps, metrics.tps, options.addHighTpsAlarm);
      assert alarms == low + high && tpsAnnotations == Annotations(low) + Annotations(high);
      AddErrorRateAlarms(Error, metrics.error4xxRate, options.addError4xxRate);
      assert alarms == low + high + e4 && errorRateAnnotations == Annotations(e4);
      AddErrorRateAlarms(Fault, metrics.error5xxRate, options.addError5xxRate);
      assert alarms == (low + high) + (e4 + e5);
      assert errorRateAnnotations == Annotations(e4) + Annotations(e5);
      AnnotationsAppend(low, high);
      AnnotationsAppend(e4, e5);
      if useCreatedAlarms != null {
        useCreatedAlarms.Consume(alarms);
      }
    }

    /** The header: the service family, the distribution's title and its console link. */
    function TitleWidget(): (w: Widget)
      ensures w.HeaderWidget? && w.family == "CloudFront Distribution"
      ensures w.title == title && w.goToLinkUrl == distributionUrl
    {
      HeaderWidget("CloudFront Distribution", title, distributionUrl)
    }

    /** The TPS graph: the requests-per-second metric alone, on a count axis from zero. */
    function TpsWidget(width: nat, height: nat): (w: Widget)
      ensures w.GraphWidget? && w.width == width && w.height == height
      ensures w.title == "TPS" && w.left == [metrics.tps] && w.leftYAxis == Some(CountAxisFromZero)
    {
      GraphWidget(width, height, "TPS", [metrics.tps], Some(CountAxisFromZero))
    }

    /** The cache graph: the hit rate alone, on a percentage axis from 0 to 100. */
    function CacheWidget(width: nat, height: nat): (w: Widget)
      ensures w.GraphWidget? && w.width == width && w.height == height
      ensures w.title == "Hit Rate" && w.left == [metrics.cacheHitRate]
      ensures w.leftYAxis == Some(PercentageAxisFromZeroToHundred)
    {
      GraphWidget(width, height, "Hit Rate", [metrics.cacheHitRate], Some(PercentageAxisFromZeroToHundred))
    }

    /** The traffic graph: downloaded then uploaded bytes, on a byte-size axis from zero. */
    function TrafficWidget(width: nat, height: nat): (w: Widget)
      ensures w.GraphWidget? && w.width == width && w.height == height
      ensures w.title == "Traffic" && w.left == [metrics.downloadedBytes, metrics.uploadedBytes]
      ensures w.leftYAxis == Some(SizeAxisBytesFromZero)
    {
      GraphWidget(width, height, "Traffic", [metrics.downloadedBytes, metrics.uploadedBytes],
                  Some(SizeAxisBytesFromZero))
    }

    /** The error graph: the 4xx then the 5xx rate, on the default axis. */
    function ErrorRateWidget(width: nat, height: nat): (w: Widget)
      ensures w.GraphWidget? && w.width == width && w.height == height
      ensures w.title == "Errors (rate)" && w.left == [metrics.error4xxRate, metrics.error5xxRate]
      ensures w.leftYAxis == None
    {
      GraphWidget(width, height, "Errors (rate)", [metrics.error4xxRate, metrics.error5xxRate], None)
    }

    /** The summary: the header, then TPS and error rate, each half a row. */
    function SummaryWidgets(): (ws: seq<Widget>)
      ensures |ws| == 3 && ws[0] == TitleWidget()
      ensures ws[1].GraphWidget? && ws[2].GraphWidget?
      ensures ws[1].width == ws[2].width == HalfWidth && ws[1].width + ws[2].width == FullWidth
      ensures ws[1].height == ws[2].height == DefaultSummaryWidgetHeight
      ensures ws[1].title == "TPS" && ws[1].left == [metrics.tps]
      ensures ws[2].title == "Errors (rate)" && ws[2].left == [metrics.error4xxRate, metrics.error5xxRate]
    {
      [TitleWidget(),
       TpsWidget(HalfWidth, DefaultSummaryWidgetHeight),
       ErrorRateWidget(HalfWidth, DefaultSummaryWidgetHeight)]
    }

    /** The full view: the header, then TPS, cache, traffic and error rate, each a quarter row. */
    function Widgets(): (ws: seq<Widget>)
      ensures |ws| == 5 && ws[0] == TitleWidget()
      ensures forall i :: 1 <= i < 5 ==>
        ws[i].GraphWidget? && ws[i].width == QuarterWidth && ws[i].height == DefaultGraphWidgetHeight
      ensures ws[1].width + ws[2].width + ws[3].width + ws[4].width == FullWidth
      ensures ws[1].title == "TPS" && ws[1].left == [metrics.tps]
      ensures ws[2].title == "Hit Rate" && ws[2].left == [metrics.cacheHitRate]
      ensures ws[3].title == "Traffic" && ws[3].left == [metrics.downloadedBytes, metrics.uploadedBytes]
      ensures ws[4].title == "Errors (rate)" && ws[4].left == [metrics.error4xxRate, metrics.error5xxRate]
    {
      [TitleWidget(),
       TpsWidget(QuarterWidth, DefaultGraphWidgetHeight),
       CacheWidget(QuarterWidth, DefaultGraphWidgetHeight),
       TrafficWidget(QuarterWidth, DefaultGraphWidgetHeight),
       ErrorRateWidget(QuarterWidth, DefaultGraphWidgetHeight)]
    }

    /**
     * The summary shows a subset of the full view: its graphs are the full
     * view's first and last graphs, with the same title, metrics and axis.
     */
    lemma SummaryWithinFull()
      ensures var s, f := SummaryWidgets(), Widgets();
        && s[0] == f[0]
        && s[1].title == f[1].title && s[1].left == f[1].left && s[1].leftYAxis == f[1].leftYAxis
        && s[2].title == f[4].title && s[2].left == f[4].left && s[2].leftYAxis == f[4].leftYAxis
    {
    }

    /**
     * Every metric the dashboard graphs is one of the distribution's six, and
     * each of the six is graphed in the full view.
     */
    lemma WidgetsShowAllMetrics()
      ensures var six := {metrics.tps, metrics.downloadedBytes, metrics.uploadedBytes,
                          metrics.cacheHitRate, metrics.error4xxRate, metrics.error5xxRate};
        && (forall w | w in Widgets() && w.GraphWidget? :: forall m | m in w.left :: m in six)
        && (forall m | m in six :: exists w | w in Widgets() && w.GraphWidget? :: m in w.left)
    {
      var ws := Widgets();
      assert ws[1].left == [metrics.tps];
      assert ws[2].left == [metrics.cacheHitRate];
      assert ws[3].left == [metrics.downloadedBytes, metrics.uploadedBytes];
      assert ws[4].left == [metrics.error4xxRate, metrics.error5xxRate];
    }
  }
}
