/**
 * The SQS queue metric catalog: five primitive getters and three math
 * metrics (production rate, consumption rate, time to drain).
 */
module SqsQueueMetrics {
  import opened Wrappers
  import opened Metrics

  /** A queue, as far as its metric helpers are concerned: its identity. */
  type Queue = string

  const VisibleLabel := "Visible"
  const IncomingLabel := "Incoming"
  const DeletedLabel := "Deleted"
  const AgeLabel := "Age"
  const SizeLabel := "Size"
  const ProductionRateLabel := "Production TPS (avg: ${AVG}, max: ${MAX})"
  const ConsumptionRateLabel := "Consumption TPS (avg: ${AVG}, max: ${MAX})"
  const TimeToDrainLabel := "Time to Drain (seconds) (avg: ${AVG}, max: ${MAX})"

  /** The queue's visible-message count, adapted, at the helper's default statistic. */
  function MetricApproximateVisibleMessageCount(queue: Queue): (m: Metric)
    ensures m.Adapted? && m.source.Provided? && m.source.construct == queue
    ensures m.source.helper == "metricApproximateNumberOfMessagesVisible"
    ensures m.source.options == MetricOptions(None, Some("Visible"))
  {
    AdaptMetric(Provided(queue, "metricApproximateNumberOfMessagesVisible",
                         MetricOptions(None, Some(VisibleLabel))))
  }

  /** The queue's sent-message count, adapted, summed. */
  function MetricIncomingMessageCount(queue: Queue): (m: Metric)
    ensures m.Adapted? && m.source.Provided? && m.source.construct == queue
    ensures m.source.helper == "metricNumberOfMessagesSent"
    ensures m.source.options == MetricOptions(Some(Sum), Some("Incoming"))
  {
    AdaptMetric(Provided(queue, "metricNumberOfMessagesSent",
                         MetricOptions(Some(Sum), Some(IncomingLabel))))
  }

  /** The queue's deleted-message count, summed. Unlike its siblings, it is not adapted. */
  function MetricDeletedMessageCount(queue: Queue): (m: Metric)
    ensures m.Provided? && m.construct == queue && m.helper == "metricNumberOfMessagesDeleted"
    ensures m.options == MetricOptions(Some(Sum), Some("Deleted"))
  {
    Provided(queue, "metricNumberOfMessagesDeleted", MetricOptions(Some(Sum), Some(DeletedLabel)))
  }

  /** The age of the queue's oldest message, adapted, at the helper's default statistic. */
  function MetricApproximateAgeOfOldestMessageInSeconds(queue: Queue): (m: Metric)
    ensures m.Adapted? && m.source.Provided? && m.source.construct == queue
    ensures m.source.helper == "metricApproximateAgeOfOldestMessage"
    ensures m.source.options == MetricOptions(None, Some("Age"))
  {
    AdaptMetric(Provided(queue, "metricApproximateAgeOfOldestMessage",
                         MetricOptions(None, Some(AgeLabel))))
  }

  /** The size of the queue's sent messages, adapted, at the helper's default statistic. */
  function MetricAverageMessageSizeInBytes(queue: Queue): (m: Metric)
    ensures m.Adapted? && m.source.Provided? && m.source.construct == queue
    ensures m.source.helper == "metricSentMessageSize"
    ensures m.source.options == MetricOptions(None, Some("Size"))
  {
    AdaptMetric(Provided(queue, "metricSentMessageSize", MetricOptions(None, Some(SizeLabel))))
  }

  /** `(productionVolume / PERIOD(productionVolume))` */
  const ProductionRateExpr: Expr :=
    Paren(Binary(Div, Var("productionVolume"), Period(Var("productionVolume"))))

  /** `(consumptionVolume / PERIOD(consumptionVolume))` */
  const ConsumptionRateExpr: Expr :=
    Paren(Binary(Div, Var("consumptionVolume"), Period(Var("consumptionVolume"))))

  /** `(visibleMessages / (consumptionVolume - incomingVolume)) * (PERIOD(consumptionVolume))` */
  const TimeToDrainExpr: Expr :=
    Binary(Mul,
           Paren(Binary(Div, Var("visibleMessages"),
                        Paren(Binary(Sub, Var("consumptionVolume"), Var("incomingVolume"))))),
           Paren(Period(Var("consumptionVolume"))))

  /** Messages sent per second: the one binding is the incoming count, and it is the tree's only variable. */
  function MetricProductionRate(queue: Queue): (m: Metric)
    ensures m.MathMetric? && m.usingMetrics.Keys == FreeVars(m.expression) == {"productionVolume"}
    ensures m.usingMetrics["productionVolume"] == MetricIncomingMessageCount(queue)
    ensures m.displayLabel == ProductionRateLabel
  {
    CreateMetricMath(ProductionRateExpr,
                     map["productionVolume" := MetricIncomingMessageCount(queue)],
                     ProductionRateLabel)
  }

  /** Messages deleted per second: the one binding is the deleted count, and it is the tree's only variable. */
  function MetricConsumptionRate(queue: Queue): (m: Metric)
    ensures m.MathMetric? && m.usingMetrics.Keys == FreeVars(m.expression) == {"consumptionVolume"}
    ensures m.usingMetrics["consumptionVolume"] == MetricDeletedMessageCount(queue)
    ensures m.displayLabel == ConsumptionRateLabel
  {
    CreateMetricMath(ConsumptionRateExpr,
                     map["consumptionVolume" := MetricDeletedMessageCount(queue)],
                     ConsumptionRateLabel)
  }

  /**
   * Visible messages over the net consumption rate: the tree's variables
   * are exactly the three bindings, visible, incoming and deleted.
   */
  function MetricTimeToDrain(queue: Queue): (m: Metric)
    ensures m.MathMetric?
    ensures m.usingMetrics.Keys == FreeVars(m.expression)
         == {"visibleMessages", "incomingVolume", "consumptionVolume"}
    ensures m.usingMetrics["visibleMessages"] == MetricApproximateVisibleMessageCount(queue)
    ensures m.usingMetrics["incomingVolume"] == MetricIncomingMessageCount(queue)
    ensures m.usingMetrics["consumptionVolume"] == MetricDeletedMessageCount(queue)
    ensures m.displayLabel == TimeToDrainLabel
  {
    CreateMetricMath(TimeToDrainExpr,
                     map["visibleMessages" := MetricApproximateVisibleMessageCount(queue),
                         "incomingVolume" := MetricIncomingMessageCount(queue),
                         "consumptionVolume" := MetricDeletedMessageCount(queue)],
                     TimeToDrainLabel)
  }

  // The expression trees have exactly the tokens of the texts the catalog
  // passes on.

  lemma ProductionRateTokens()
    ensures Lexemes(ProductionRateExpr)
         == ["(", "productionVolume", "/", "PERIOD", "(", "productionVolume", ")", ")"]
  {
  }

  lemma ConsumptionRateTokens()
    ensures Lexemes(ConsumptionRateExpr)
         == ["(", "consumptionVolume", "/", "PERIOD", "(", "consumptionVolume", ")", ")"]
  {
  }

  lemma TimeToDrainTokens()
    ensures Lexemes(TimeToDrainExpr)
         == ["(", "visibleMessages", "/", "(", "consumptionVolume", "-", "incomingVolume", ")", ")",
             "*", "(", "PERIOD", "(", "consumptionVolume", ")", ")"]
  {
  }

  lemma VariableNames()
    ensures IsVariableToken("productionVolume") && IsVariableToken("consumptionVolume")
    ensures IsVariableToken("visibleMessages") && IsVariableToken("incomingVolume")
  {
  }

  /**
   * Referential integrity of the three math metrics, both ways: the
   * identifiers of each expression's text (`PERIOD` excluded) are exactly
   * the keys of its bindings.
   */
  lemma ProductionRateIntegrity(queue: Queue)
    ensures BindsExactlyItsVariables(MetricProductionRate(queue))
  {
    VariableNames();
    BindsExactlyItsVariablesFromTree(MetricProductionRate(queue));
  }

  lemma ConsumptionRateIntegrity(queue: Queue)
    ensures BindsExactlyItsVariables(MetricConsumptionRate(queue))
  {
    VariableNames();
    BindsExactlyItsVariablesFromTree(MetricConsumptionRate(queue));
  }

  lemma TimeToDrainIntegrity(queue: Queue)
    ensures BindsExactlyItsVariables(MetricTimeToDrain(queue))
    ensures MetricTimeToDrain(queue).usingMetrics.Keys == {"visibleMessages", "incomingVolume", "consumptionVolume"}
  {
    VariableNames();
    BindsExactlyItsVariablesFromTree(MetricTimeToDrain(queue));
  }

  /** Which primitive each variable of the time-to-drain expression stands for. */
  lemma TimeToDrainBindings(queue: Queue)
    ensures MetricTimeToDrain(queue).usingMetrics
         == map["visibleMessages" := MetricApproximateVisibleMessageCount(queue),
                "incomingVolume" := MetricIncomingMessageCount(queue),
                "consumptionVolume" := MetricDeletedMessageCount(queue)]
  {
  }

  /**
   * The production rate is over the SUM of sent messages (adapted), the
   * consumption rate over the SUM of deleted messages (not adapted).
   */
  lemma RateBindings(queue: Queue)
    ensures var b := MetricProductionRate(queue).usingMetrics;
      b.Keys == {"productionVolume"}
      && b["productionVolume"] == Adapted(Provided(queue, "metricNumberOfMessagesSent",
                                                   MetricOptions(Some(Sum), Some("Incoming"))))
    ensures var b := MetricConsumptionRate(queue).usingMetrics;
      b.Keys == {"consumptionVolume"}
      && b["consumptionVolume"] == Provided(queue, "metricNumberOfMessagesDeleted",
                                            MetricOptions(Some(Sum), Some("Deleted")))
  {
  }

  /** Math-metric labels keep the `${AVG}` and `${MAX}` placeholders verbatim. */
  lemma MathLabelsVerbatim(queue: Queue)
    ensures MetricProductionRate(queue).displayLabel == "Production TPS (avg: ${AVG}, max: ${MAX})"
    ensures MetricConsumptionRate(queue).displayLabel == "Consumption TPS (avg: ${AVG}, max: ${MAX})"
    ensures MetricTimeToDrain(queue).displayLabel == "Time to Drain (seconds) (avg: ${AVG}, max: ${MAX})"
  {
  }

  /** Visible, incoming, age and size are adapted; deleted is not. */
  lemma Adaptation(queue: Queue)
    ensures MetricApproximateVisibleMessageCount(queue).Adapted?
    ensures MetricIncomingMessageCount(queue).Adapted?
    ensures MetricApproximateAgeOfOldestMessageInSeconds(queue).Adapted?
    ensures MetricAverageMessageSizeInBytes(queue).Adapted?
    ensures MetricDeletedMessageCount(queue).Provided?
    ensures MetricIncomingMessageCount(queue).source.options.statistic == Some(Sum)
    ensures MetricDeletedMessageCount(queue).options.statistic == Some(Sum)
  {
  }
}
