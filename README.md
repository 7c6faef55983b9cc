# cdk-monitoring-constructs: a Dafny model of its core

This project models the deterministic core of cdk-monitoring-constructs. The library turns declarative
per-resource monitoring options into three things: metric descriptors, alarms and dashboard widget lists.
Each piece of the core is modelled in the form the TypeScript code takes:

- **CloudFront distribution monitoring** (`cloudfront_monitoring.dfy`, module `CloudFrontMonitoring`).
  - It is a class whose constructor walks the four alarm families in a fixed order: low TPS, high TPS,
    4xx rate, then 5xx rate.
  - For each entry it asks the TPS or the error alarm factory for one alarm, appends that alarm's
    annotation to `tpsAnnotations` or `errorRateAnnotations`, and registers the alarm with `AddAlarm`.
  - After all four loops it hands the alarm list to the optional consumer, once.
  - `SummaryWidgets` and `Widgets` build fixed widget lists. They are functions of the monitoring's
    constant fields only, so they cannot depend on the annotation or alarm lists.
- **The alarm override record** (`custom_alarm_threshold.dfy`, module `AlarmOverrides`).
  - `CustomAlarmThreshold` is a datatype of optional fields.
  - A field with one override resolves with `Option.GetOr`: the explicit override, if present, wins
    over a single fallback.
  - The fallback comes from one place per field: the alarm-type default (comparison operator,
    missing-data treatment), the facade default (actions enabled, datapoints, evaluation periods),
    a generated value (dedupe string, description, period) or a fixed constant.
  - The action strategy alone has two layers before its fallback, resolved by the general
    first-present-wins rule `FirstPresent`: override, then facade default, then no action.
  - The documentation and runbook links are passed through as given.
  - `ActionsFor` gives the actions of an SNS notification strategy for each alarm state.
  - The default alarm name is `{prefix}-{alarmFriendlyName}-{metricAlarmFriendlyName}-{disambiguator}`.
  - The three alarms of the action test are proved to get the names and per-state actions the test expects.
- **Metric catalogs** (`sqs_queue_metrics.dfy`, `lambda_enhanced_metrics.dfy`,
  `kinesis_analytics_metrics.dfy`, built on `metrics.dfy`).
  - Each getter is a function producing a metric descriptor.
  - A math metric is an expression tree plus a bindings map. `Lexemes` gives the expression's token
    sequence; it is proved to equal the token sequence of the expression text the catalog passes on.
  - Referential integrity is proved on that token sequence: the variables of the text, `PERIOD`
    excluded, are exactly the binding keys.
  - The Lambda Insights dimensions come from a model of JavaScript's `split(":")` (`strings.dfy`).
    Destructuring the split result into two names is modelled too.
- **The key/value table widget** (`key_value_table.dfy`, module `KeyValueTable`).
  - `ToMarkdown` is the widget's one-pass loop over three string accumulators.
  - It is proved equal to the recursive specification `Markdown`.
  - `Markdown` is proved lossless for plain cells: when no key or value holds `|` or a line break,
    splitting it gives back the three rows and the cells, and equal tables come from equal entry lists.
    A cell holding either character breaks the table's layout, and nothing is claimed for it.

`widgets.dfy` holds the widget descriptors and the dashboard layout constants. `wrappers.dfy` holds `Option`.

Outside inputs become parameters:
- the CloudFront title (from the naming strategy);
- the console URL (an optional string);
- the six distribution metrics (from the distribution's metric factory);
- the alarm factories (one function value, already bound to the monitoring's alarm-friendly name);
- in `ResolveAlarm`, the generated dedupe string, description text and default period.

## Model

| member | source | states |
|---|---|---|
| CloudFrontMonitoring.CloudFrontDistributionMonitoring.constructor | lib/monitoring/aws-cloudfront/CloudFrontDistributionMonitoring.ts:94-152 | registered alarms are low-TPS, high-TPS, 4xx then 5xx alarms, each family in entry order; the TPS annotation list holds exactly the TPS alarms' annotations and the error list exactly the error-rate alarms'; the consumer receives the complete alarm list once; title, URL and metrics are kept as given |
| CloudFrontMonitoring.CloudFrontDistributionMonitoring.AddTpsAlarms | lib/monitoring/aws-cloudfront/CloudFrontDistributionMonitoring.ts:108-127 | one TPS family's loop appends one factory-made alarm per entry, in order, to the alarms, appends its annotation to the TPS annotations, and leaves the error annotations unchanged |
| CloudFrontMonitoring.CloudFrontDistributionMonitoring.AddErrorRateAlarms | lib/monitoring/aws-cloudfront/CloudFrontDistributionMonitoring.ts:128-149 | one error family's loop does the same with the error-rate factory call and the error annotations, leaving the TPS annotations unchanged |
| CloudFrontMonitoring.CloudFrontDistributionMonitoring.AddAlarm | lib/monitoring/aws-cloudfront/CloudFrontDistributionMonitoring.ts:116 | registering appends the alarm to the alarm list and changes neither annotation list |
| CloudFrontMonitoring.AlarmConsumer.Consume | lib/monitoring/aws-cloudfront/CloudFrontDistributionMonitoring.ts:151 | the consumer records exactly the batch it is given |
| CloudFrontMonitoring.Family | lib/monitoring/aws-cloudfront/CloudFrontDistributionMonitoring.ts:108-117 | a family has one alarm per entry; alarm i is the factory's result for entry i's spec and disambiguator |
| CloudFrontMonitoring.AllAlarmsByFamily | lib/monitoring/aws-cloudfront/CloudFrontDistributionMonitoring.ts:108-149 | the alarm count is the sum of the four family sizes; position by position, low-TPS entries are min-TPS alarms on the TPS metric, then high-TPS ones max-TPS alarms on it, then 4xx entries ERROR-rate alarms on the 4xx metric, then 5xx entries FAULT-rate alarms on the 5xx metric, each with its own disambiguator |
| CloudFrontMonitoring.CloudFrontDistributionMonitoring.AnnotationsFollowAlarms | lib/monitoring/aws-cloudfront/CloudFrontDistributionMonitoring.ts:94-149 | after construction the TPS annotations number low plus high entries, the error annotations 4xx plus 5xx entries, the two lists together number the alarms, and each annotation sits at its alarm's position (TPS list first, error list after it) |
| CloudFrontMonitoring.CloudFrontDistributionMonitoring.TitleWidget | lib/monitoring/aws-cloudfront/CloudFrontDistributionMonitoring.ts:172-178 | the header shows the CloudFront Distribution family, the monitoring's title and the console URL as its link |
| CloudFrontMonitoring.CloudFrontDistributionMonitoring.TpsWidget | lib/monitoring/aws-cloudfront/CloudFrontDistributionMonitoring.ts:180-188 | the TPS graph has the requested size, plots only the TPS metric and uses a count axis from zero |
| CloudFrontMonitoring.CloudFrontDistributionMonitoring.CacheWidget | lib/monitoring/aws-cloudfront/CloudFrontDistributionMonitoring.ts:190-198 | the hit-rate graph has the requested size, plots only the cache hit rate and uses a percentage axis from 0 to 100 |
| CloudFrontMonitoring.CloudFrontDistributionMonitoring.TrafficWidget | lib/monitoring/aws-cloudfront/CloudFrontDistributionMonitoring.ts:200-208 | the traffic graph has the requested size, plots downloaded then uploaded bytes and uses a byte-size axis from zero |
| CloudFrontMonitoring.CloudFrontDistributionMonitoring.ErrorRateWidget | lib/monitoring/aws-cloudfront/CloudFrontDistributionMonitoring.ts:210-217 | the error graph has the requested size, plots the 4xx then the 5xx rate and sets no axis |
| CloudFrontMonitoring.CloudFrontDistributionMonitoring.SummaryWidgets | lib/monitoring/aws-cloudfront/CloudFrontDistributionMonitoring.ts:154-217 | the summary is the header, then the TPS graph (the TPS metric) and the error graph (4xx then 5xx rate), each half a row wide and of summary height, together filling one dashboard row |
| CloudFrontMonitoring.CloudFrontDistributionMonitoring.Widgets | lib/monitoring/aws-cloudfront/CloudFrontDistributionMonitoring.ts:162-217 | the full view is the header, then the TPS graph (TPS), the hit-rate graph (cache hit rate), the traffic graph (downloaded then uploaded bytes) and the error graph (4xx then 5xx rate), each a quarter row wide and of graph height, together filling one dashboard row |
| CloudFrontMonitoring.CloudFrontDistributionMonitoring.SummaryWithinFull | lib/monitoring/aws-cloudfront/CloudFrontDistributionMonitoring.ts:154-217 | the summary's header is the full view's one; its two graphs are the full view's TPS and error graphs (same title, metrics, axis) resized |
| CloudFrontMonitoring.CloudFrontDistributionMonitoring.WidgetsShowAllMetrics | lib/monitoring/aws-cloudfront/CloudFrontDistributionMonitoring.ts:180-217 | every graphed metric is one of the distribution's six, and the full view graphs all six |
| AlarmOverrides.FirstPresent | lib/common/alarm/CustomAlarmThreshold.ts:10-15 | resolution picks the first present layer; with no layer present it gives the fallback |
| AlarmOverrides.ActionsFor | test/common/alarm/actions.test.ts:37-54 | no strategy gives no actions; `notifySns` gives its alarm topic on ALARM and the OK and no-data topics only when given |
| AlarmOverrides.AlarmName | lib/common/alarm/CustomAlarmThreshold.ts:24-28 | a present name override is the alarm name exactly; otherwise it is the default prefix-friendly-metric-disambiguator name |
| AlarmOverrides.ActionStrategy | lib/common/alarm/CustomAlarmThreshold.ts:10-15 | the action override wins; without it the facade default applies; without both, no action |
| AlarmOverrides.ResolveAlarm | lib/common/alarm/CustomAlarmThreshold.ts:9-108 | for every field, a present override is the resolved value exactly, and an absent one falls back: name and action as above; dedupe string, description and period to the generated values; comparison operator and missing-data treatment to the alarm-type default; actions-enabled, datapoints and evaluation periods to the facade default; low-sample evaluation to true; range fill to false; no tags and no parameters; links passed through; per-state actions as the strategy gives them |
| AlarmOverrides.DefaultAlarmName | test/common/alarm/actions.test.ts:64-80 | the default name is prefix, alarm friendly name, metric friendly name and disambiguator, in that order, joined by `-` |
| AlarmOverrides.DefaultAlarmNameSplits | test/common/alarm/actions.test.ts:64 | splitting a default name on `-` gives back prefix, friendly name, metric friendly name and disambiguator, when none holds a `-` |
| AlarmOverrides.DefaultAlarmNameInjective | test/common/alarm/actions.test.ts:64-76 | two alarms whose dash-free name parts give the same default name have the same parts |
| AlarmOverrides.ScenarioNoActionOverride | test/common/alarm/actions.test.ts:63-68 | with prefix Test and no action anywhere, the alarm is named Test-DummyAlarmName-AlarmForDummyMetric1-NoActionOverride and has no action in any state |
| AlarmOverrides.ScenarioSimpleSnsAction | test/common/alarm/actions.test.ts:69-74 | `notifySns(Alarm)` gives the SimpleSnsAction alarm one ALARM action and none on OK or no data |
| AlarmOverrides.ScenarioComplexSnsAction | test/common/alarm/actions.test.ts:75-80 | `notifySns(Alarm, OK, NoData)` gives the ComplexSnsAction alarm one action per state, each to its own topic |
| Strings.Split | lib/monitoring/aws-lambda/LambdaFunctionEnhancedMetricFactory.ts:87-88 | a split has at least one piece and no piece holds the separator |
| Strings.JoinSplit | lib/monitoring/aws-lambda/LambdaFunctionEnhancedMetricFactory.ts:87-88 | joining the pieces of a split with the separator gives back the string |
| Strings.SplitJoin | lib/monitoring/aws-lambda/LambdaFunctionEnhancedMetricFactory.ts:87-88 | splitting a join of separator-free pieces gives back the pieces |
| LambdaEnhancedMetrics.EnhancedDimensions | lib/monitoring/aws-lambda/LambdaFunctionEnhancedMetricFactory.ts:87-96 | the dimensions are exactly `function_name` and `version`; the function name is always present and neither value holds a `:` |
| LambdaEnhancedMetrics.Enhanced | lib/monitoring/aws-lambda/LambdaFunctionEnhancedMetricFactory.ts:16-62 | each getter's metric is an uncoloured LambdaInsights metric on the name-derived dimensions; it is `cpu_total_time` exactly for the CPU getters and `memory_utilization` exactly for the memory ones; MAX, P90 and AVERAGE each exactly for their two getters |
| LambdaEnhancedMetrics.FunctionDuration | lib/monitoring/aws-lambda/LambdaFunctionEnhancedMetricFactory.ts:75-79 | the duration is the function's own `metricDuration` at SUM, without a label |
| LambdaEnhancedMetrics.EnhancedMetricFunctionCost | lib/monitoring/aws-lambda/LambdaFunctionEnhancedMetricFactory.ts:64-73 | the function cost is a math metric whose binding keys are exactly its tree's variables, `memory_utilization` and `duration`, bound to the MAX memory getter and the SUM duration |
| LambdaEnhancedMetrics.DimensionsFromName | lib/monitoring/aws-lambda/LambdaFunctionEnhancedMetricFactory.ts:87-96 | `function_name` is the text before the first `:`, or the whole name without one; `version` is absent exactly when there is no `:`, otherwise it is the `:`-free text after the first `:`, ending at the second `:` or at the end |
| LambdaEnhancedMetrics.EnhancedMetric | lib/monitoring/aws-lambda/LambdaFunctionEnhancedMetricFactory.ts:81-100 | an enhanced metric is in the LambdaInsights namespace with the given name, statistic, label and color, dimensioned by `function_name` and `version` |
| LambdaEnhancedMetrics.EnhancedMetricsShape | lib/monitoring/aws-lambda/LambdaFunctionEnhancedMetricFactory.ts:16-62 | each of the six getters gives an uncoloured LambdaInsights metric with the name-derived dimensions |
| LambdaEnhancedMetrics.CpuGetters | lib/monitoring/aws-lambda/LambdaFunctionEnhancedMetricFactory.ts:16-38 | the CPU getters are `cpu_total_time` at MAX, P90 and AVERAGE, labelled CPUTotalTime.Max, .P90 and .Avg |
| LambdaEnhancedMetrics.MemoryGetters | lib/monitoring/aws-lambda/LambdaFunctionEnhancedMetricFactory.ts:40-62 | the memory getters are `memory_utilization` at MAX, P90 and AVERAGE, labelled MemoryUtilization.Max, .P90 and .Avg |
| LambdaEnhancedMetrics.FunctionCostIntegrity | lib/monitoring/aws-lambda/LambdaFunctionEnhancedMetricFactory.ts:64-73 | the function-cost expression's text is `memory_utilization * duration` and its variables are exactly its binding keys |
| LambdaEnhancedMetrics.FunctionCostBindings | lib/monitoring/aws-lambda/LambdaFunctionEnhancedMetricFactory.ts:64-79 | `memory_utilization` is bound to the MAX memory metric and `duration` to the SUM duration; the label is verbatim |
| KinesisAnalyticsMetrics.ApplicationDimensions | lib/monitoring/aws-kinesisanalytics/KinesisDataAnalyticsMetricFactory.ts:29-33 | the dimension hash has the one key `Application`, holding the application name |
| KinesisAnalyticsMetrics.SpecOf | lib/monitoring/aws-kinesisanalytics/KinesisDataAnalyticsMetricFactory.ts:35-113 | a getter's spec names no statistic exactly when it is not failed checkpoints, last checkpoint size or GC count; a named statistic is SUM or N |
| KinesisAnalyticsMetrics.MetricOf | lib/monitoring/aws-kinesisanalytics/KinesisDataAnalyticsMetricFactory.ts:35-124 | a getter's metric is a primitive metric on the application's dimensions with its spec's name and description |
| KinesisAnalyticsMetrics.GenerateMetric | lib/monitoring/aws-kinesisanalytics/KinesisDataAnalyticsMetricFactory.ts:115-124 | a generated metric has the spec's name and description, the given dimensions, namespace AWS/KinesisAnalytics and no color; its statistic is the spec's, or AVERAGE when the spec has none |
| KinesisAnalyticsMetrics.MetricShape | lib/monitoring/aws-kinesisanalytics/KinesisDataAnalyticsMetricFactory.ts:29-33 | every getter's metric is dimensioned exactly by `Application`, in the Kinesis Analytics namespace, uncoloured |
| KinesisAnalyticsMetrics.Statistics | lib/monitoring/aws-kinesisanalytics/KinesisDataAnalyticsMetricFactory.ts:63-113 | SUM exactly for failed checkpoints and last checkpoint size, N exactly for the GC count, AVERAGE exactly for the other eight |
| KinesisAnalyticsMetrics.NameAndLabel | lib/monitoring/aws-kinesisanalytics/KinesisDataAnalyticsMetricFactory.ts:35-40 | each getter's metric name and label are its spec's name and description (KPUs / Kinesis Processing Units for the first) |
| KinesisAnalyticsMetrics.NamesDistinct | lib/monitoring/aws-kinesisanalytics/KinesisDataAnalyticsMetricFactory.ts:35-113 | different getters give different metric names |
| Metrics.FreeVarsAreTextVariables | lib/monitoring/aws-sqs/SqsQueueMetricFactory.ts:58-90 | for a well-formed expression, the variables of the tree are exactly the identifiers of its text other than `PERIOD` |
| Metrics.BindsExactlyItsVariablesFromTree | lib/monitoring/aws-sqs/SqsQueueMetricFactory.ts:58-90 | a math metric whose tree variables are its binding keys is bound both ways, in the tree and in the text |
| SqsQueueMetrics.MetricApproximateVisibleMessageCount | lib/monitoring/aws-sqs/SqsQueueMetricFactory.ts:18-24 | the queue's own visible-messages metric, adapted, at the default statistic, labelled Visible |
| SqsQueueMetrics.MetricIncomingMessageCount | lib/monitoring/aws-sqs/SqsQueueMetricFactory.ts:26-33 | the queue's own sent-messages metric, adapted, at SUM, labelled Incoming |
| SqsQueueMetrics.MetricDeletedMessageCount | lib/monitoring/aws-sqs/SqsQueueMetricFactory.ts:35-40 | the queue's own deleted-messages metric, not adapted, at SUM, labelled Deleted |
| SqsQueueMetrics.MetricApproximateAgeOfOldestMessageInSeconds | lib/monitoring/aws-sqs/SqsQueueMetricFactory.ts:42-48 | the queue's own oldest-message-age metric, adapted, at the default statistic, labelled Age |
| SqsQueueMetrics.MetricAverageMessageSizeInBytes | lib/monitoring/aws-sqs/SqsQueueMetricFactory.ts:50-56 | the queue's own sent-message-size metric, adapted, at the default statistic, labelled Size |
| SqsQueueMetrics.MetricProductionRate | lib/monitoring/aws-sqs/SqsQueueMetricFactory.ts:58-66 | a math metric whose only binding, `productionVolume`, is its tree's only variable and is the incoming count |
| SqsQueueMetrics.MetricConsumptionRate | lib/monitoring/aws-sqs/SqsQueueMetricFactory.ts:68-76 | a math metric whose only binding, `consumptionVolume`, is its tree's only variable and is the deleted count |
| SqsQueueMetrics.MetricTimeToDrain | lib/monitoring/aws-sqs/SqsQueueMetricFactory.ts:78-90 | a math metric whose binding keys are exactly its tree's variables, bound to the visible, incoming and deleted counts |
| SqsQueueMetrics.ProductionRateTokens | lib/monitoring/aws-sqs/SqsQueueMetricFactory.ts:60 | the production-rate tree has the tokens of `(productionVolume / PERIOD(productionVolume))` |
| SqsQueueMetrics.ConsumptionRateTokens | lib/monitoring/aws-sqs/SqsQueueMetricFactory.ts:70 | the consumption-rate tree has the tokens of `(consumptionVolume / PERIOD(consumptionVolume))` |
| SqsQueueMetrics.TimeToDrainTokens | lib/monitoring/aws-sqs/SqsQueueMetricFactory.ts:82 | the time-to-drain tree has the tokens of `(visibleMessages / (consumptionVolume - incomingVolume)) * (PERIOD(consumptionVolume))` |
| SqsQueueMetrics.ProductionRateIntegrity | lib/monitoring/aws-sqs/SqsQueueMetricFactory.ts:58-66 | every variable of the production-rate text is bound and every binding is used |
| SqsQueueMetrics.ConsumptionRateIntegrity | lib/monitoring/aws-sqs/SqsQueueMetricFactory.ts:68-76 | every variable of the consumption-rate text is bound and every binding is used |
| SqsQueueMetrics.TimeToDrainIntegrity | lib/monitoring/aws-sqs/SqsQueueMetricFactory.ts:80-90 | the time-to-drain text's variables are exactly visibleMessages, incomingVolume and consumptionVolume, the binding keys |
| SqsQueueMetrics.TimeToDrainBindings | lib/monitoring/aws-sqs/SqsQueueMetricFactory.ts:83-87 | visibleMessages, incomingVolume and consumptionVolume are bound to the visible, incoming and deleted metrics |
| SqsQueueMetrics.RateBindings | lib/monitoring/aws-sqs/SqsQueueMetricFactory.ts:26-76 | the production rate binds only productionVolume, to the adapted SUM incoming metric; the consumption rate binds only consumptionVolume, to the unadapted SUM deleted metric |
| SqsQueueMetrics.MathLabelsVerbatim | lib/monitoring/aws-sqs/SqsQueueMetricFactory.ts:64-88 | the three math labels are passed on verbatim, `${AVG}` and `${MAX}` included |
| SqsQueueMetrics.Adaptation | lib/monitoring/aws-sqs/SqsQueueMetricFactory.ts:18-56 | visible, incoming, age and size go through the adapter, deleted does not; incoming and deleted use SUM |
| KeyValueTable.Markdown | lib/dashboard/widget/KeyValueTableWidget.ts:19-25 | the table is the key row, a line break, a separator line of four characters per entry, a line break and the value row |
| KeyValueTable.ToMarkdown | lib/dashboard/widget/KeyValueTableWidget.ts:14-26 | the one-pass loop over three accumulators returns exactly the table `Markdown` specifies |
| KeyValueTable.KeyValueTableWidget | lib/dashboard/widget/KeyValueTableWidget.ts:5-12 | the widget is a text widget of full width and height 2 showing the table |
| KeyValueTable.AppendEntry | lib/dashboard/widget/KeyValueTableWidget.ts:19-23 | one more entry extends the key row by `\| key`, the separator row by `\|---` and the value row by `\| value`, keeping the earlier prefix |
| KeyValueTable.SubHeaderRowLength | lib/dashboard/widget/KeyValueTableWidget.ts:21 | the separator row has four characters per entry |
| KeyValueTable.EmptyTable | lib/dashboard/widget/KeyValueTableWidget.ts:15-25 | no entries give two line breaks and nothing else |
| KeyValueTable.RowCells | lib/dashboard/widget/KeyValueTableWidget.ts:19-22 | splitting a row on `\|` gives an empty piece, then each cell with its leading blank, when no cell holds `\|` |
| KeyValueTable.MarkdownLines | lib/dashboard/widget/KeyValueTableWidget.ts:25 | splitting the table on line breaks gives exactly the key row, the separator row and the value row, when no key or value holds a line break |
| KeyValueTable.MarkdownInjective | lib/dashboard/widget/KeyValueTableWidget.ts:14-26 | when no key or value holds `\|` or a line break, equal tables come from equal entry lists |

## Left out

- CDK construct binding is not modelled: stacks, CloudFormation synthesis and the `TextWidget`/`GraphWidget`/header widget classes. Widgets and alarms are plain descriptors. Widget descriptors carry kind, size, title, metrics and axis, but not the header widget's own size.
- The console URL factory is not modelled; the URL is an opaque `Option<string>` parameter.
- The naming strategy is not modelled: title and alarm-friendly name resolution. The title is a parameter, and the alarm factory is assumed already bound to the alarm-friendly name.
- The bodies of the TPS, error and base alarm factories are not modelled, nor `addAlarm` beyond appending to the alarm list. The factory is an abstract function parameter, so nothing is claimed about alarm names, annotation values or thresholds inside it.
- The bodies of `createMetric`, `createMetricMath` and `adaptMetric` are not modelled. They are stand-ins that build the descriptor from their arguments unchanged; the CloudFront metric factory is not part of this model.
- Numeric evaluation of math expressions (CloudWatch-side floating point) is not modelled; only variable binding is checked.
- CDK tokens in Lambda function names are not modelled; the name is a concrete string.
- JavaScript `for…in` key ordering is not modelled: each alarm-options record is a sequence of (disambiguator, threshold) pairs in iteration order. An absent record is the empty sequence, and distinct keys are not enforced.
- The billing widget's snapshot output is not modelled.
- `customTags` and `customParams` are carried through uninterpreted; `customParams` values are strings here rather than arbitrary values.
- The layout constants come from `lib/common/widget`, which is not part of this model. The model uses a row of 24 units, half and quarter widths, and heights 5 (graph) and 6 (summary).
- The period override is modelled as a number of seconds rather than a `Duration`.
- Threshold values and their kinds (`LowTpsThreshold`, `HighTpsThreshold`, `ErrorRateThreshold`) are modelled as one record: a real threshold plus the common overrides.
- AlarmOverrides.ResolveAlarm: the alarm-type default layer covers only the comparison operator and the missing-data treatment, the two fields whose comments name an alarm-specific default.
