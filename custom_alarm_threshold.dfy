/**
 * The per-alarm override record and how its fields resolve against the
 * alarm-specific and facade-wide defaults: first present value wins.
 */
module AlarmOverrides {
  import opened Wrappers
  import opened Strings

  datatype ComparisonOperator =
    | GreaterThanOrEqualToThreshold | GreaterThanThreshold
    | LessThanThreshold | LessThanOrEqualToThreshold
    | LessThanLowerOrGreaterThanUpperThreshold | GreaterThanUpperThreshold | LessThanLowerThreshold

  datatype TreatMissingData = Breaching | NotBreaching | Ignore | Missing

  /** The three states an alarm moves between; each has its own action list. */
  datatype AlarmState = Alarm | Ok | InsufficientData

  /** An SNS topic, by name. */
  type Topic = string

  datatype AlarmAction = SnsAction(topic: Topic)

  /**
   * An alarm action strategy: none at all, or `notifySns(onAlarm, onOk?,
   * onInsufficientData?)`.
   */
  datatype AlarmActionStrategy =
    | NoopAction
    | SnsActionStrategy(onAlarmTopic: Topic, onOkTopic: Option<Topic>, onInsufficientDataTopic: Option<Topic>)

  /** The actions a strategy attaches to one state of the alarm. */
  function ActionsFor(strategy: AlarmActionStrategy, state: AlarmState): (actions: seq<AlarmAction>)
    ensures strategy.NoopAction? ==> actions == []
    ensures strategy.SnsActionStrategy? && state == Alarm ==> actions == [SnsAction(strategy.onAlarmTopic)]
    ensures strategy.SnsActionStrategy? && state == Ok ==>
      if strategy.onOkTopic.Some? then actions == [SnsAction(strategy.onOkTopic.value)] else actions == []
    ensures strategy.SnsActionStrategy? && state == InsufficientData ==>
      if strategy.onInsufficientDataTopic.Some? then actions == [SnsAction(strategy.onInsufficientDataTopic.value)]
      else actions == []
  {
    match strategy
    case NoopAction => []
    case SnsActionStrategy(onAlarm, onOk, onNoData) =>
      match state
      case Alarm => [SnsAction(onAlarm)]
      case Ok => if onOk.Some? then [SnsAction(onOk.value)] else []
      case InsufficientData => if onNoData.Some? then [SnsAction(onNoData.value)] else []
  }

  /**
   * The override record. Every field is optional; `None` stands for a field
   * left `undefined`. Tags and parameters are carried, never interpreted.
   */
  datatype CustomAlarmThreshold = CustomAlarmThreshold(
    actionOverride: Option<AlarmActionStrategy>,
    dedupeStringOverride: Option<string>,
    alarmNameOverride: Option<string>,
    alarmDescriptionOverride: Option<string>,
    customTags: Option<seq<string>>,
    customParams: Option<map<string, string>>,
    comparisonOperatorOverride: Option<ComparisonOperator>,
    treatMissingDataOverride: Option<TreatMissingData>,
    evaluateLowSampleCountPercentile: Option<bool>,
    actionsEnabled: Option<bool>,
    datapointsToAlarm: Option<int>,
    evaluationPeriods: Option<int>,
    periodSeconds: Option<nat>,
    documentationLink: Option<string>,
    runbookLink: Option<string>,
    fillAlarmRange: Option<bool>)

  /** The record with no field set. */
  const NoOverrides := CustomAlarmThreshold(None, None, None, None, None, None, None, None,
                                            None, None, None, None, None, None, None, None)

  /**
   * The first present value among `layers`, in order; `fallback` when none
   * is present. The action strategy resolves through two layers this way;
   * a field with a single override layer uses `Option.GetOr`, the one-layer
   * case of the same rule.
   */
  function FirstPresent<T>(layers: seq<Option<T>>, fallback: T): (r: T)
    ensures (forall i :: 0 <= i < |layers| ==> layers[i].None?) ==> r == fallback
    ensures forall i :: 0 <= i < |layers| && layers[i].Some? && (forall j :: 0 <= j < i ==> layers[j].None?) ==>
      r == layers[i].value
    decreases |layers|
  {
    if |layers| == 0 then fallback
    else if layers[0].Some? then layers[0].value
    else FirstPresent(layers[1..], fallback)
  }

  /** What the facade supplies for every alarm it creates. */
  datatype FacadeDefaults = FacadeDefaults(
    alarmNamePrefix: string,
    actionsEnabled: bool,
    datapointsToAlarm: int,
    evaluationPeriods: int,
    action: Option<AlarmActionStrategy>)

  /** What a specialised alarm factory fixes for its kind of alarm. */
  datatype AlarmTypeDefaults = AlarmTypeDefaults(
    comparisonOperator: ComparisonOperator,
    treatMissingData: TreatMissingData)

  /**
   * Values derived by code outside this model: the default dedupe string of
   * the naming strategy, the generated ticket text, and the metric
   * factory's default period.
   */
  datatype Generated = Generated(dedupeString: string, description: string, periodSeconds: nat)

  /** Where an alarm lives: the facade prefix and the two friendly names that name it. */
  datatype AlarmIdentity = AlarmIdentity(
    alarmFriendlyName: string,
    metricAlarmFriendlyName: string,
    disambiguator: string)

  datatype ResolvedAlarm = ResolvedAlarm(
    alarmName: string,
    dedupeString: string,
    description: string,
    comparisonOperator: ComparisonOperator,
    treatMissingData: TreatMissingData,
    evaluateLowSampleCountPercentile: bool,
    actionsEnabled: bool,
    datapointsToAlarm: int,
    evaluationPeriods: int,
    periodSeconds: nat,
    alarmActions: seq<AlarmAction>,
    okActions: seq<AlarmAction>,
    insufficientDataActions: seq<AlarmAction>,
    documentationLink: Option<string>,
    runbookLink: Option<string>,
    fillAlarmRange: bool,
    customTags: seq<string>,
    customParams: map<string, string>)

  /**
   * `{prefix}-{alarmFriendlyName}-{metricAlarmFriendlyName}-{disambiguator}`:
   * the four parts, in that order, joined by `-`.
   */
  function DefaultAlarmName(prefix: string, id: AlarmIdentity): (name: string)
    ensures name == Join([prefix, id.alarmFriendlyName, id.metricAlarmFriendlyName, id.disambiguator], '-')
  {
    var parts := [prefix, id.alarmFriendlyName, id.metricAlarmFriendlyName, id.disambiguator];
    assert parts[1..][1..][1..] == [id.disambiguator];
    assert Join(parts[1..][1..], '-') == id.metricAlarmFriendlyName + "-" + id.disambiguator;
    assert Join(parts[1..], '-') == id.alarmFriendlyName + "-" + id.metricAlarmFriendlyName + "-" + id.disambiguator;
    prefix + "-" + id.alarmFriendlyName + "-" + id.metricAlarmFriendlyName + "-" + id.disambiguator
  }

  function AlarmName(facade: FacadeDefaults, id: AlarmIdentity, spec: CustomAlarmThreshold): (name: string)
    ensures spec.alarmNameOverride.Some? ==> name == spec.alarmNameOverride.value
    ensures spec.alarmNameOverride.None? ==> name == DefaultAlarmName(facade.alarmNamePrefix, id)
  {
    spec.alarmNameOverride.GetOr(DefaultAlarmName(facade.alarmNamePrefix, id))
  }

  /** The action strategy in force: the alarm's override, else the facade default, else none. */
  function ActionStrategy(facade: FacadeDefaults, spec: CustomAlarmThreshold): (s: AlarmActionStrategy)
    ensures spec.actionOverride.Some? ==> s == spec.actionOverride.value
    ensures spec.actionOverride.None? && facade.action.Some? ==> s == facade.action.value
    ensures spec.actionOverride.None? && facade.action.None? ==> s == NoopAction
  {
    var layers := [spec.actionOverride, facade.action];
    assert layers[0] == spec.actionOverride && layers[1] == facade.action;
    FirstPresent(layers, NoopAction)
  }

  /** Resolves the override record into a complete alarm definition. */
  function ResolveAlarm(facade: FacadeDefaults, typeDefaults: AlarmTypeDefaults, id: AlarmIdentity,
                        generated: Generated, spec: CustomAlarmThreshold): (r: ResolvedAlarm)
    ensures r.alarmName == AlarmName(facade, id, spec)
    ensures r.dedupeString == spec.dedupeStringOverride.GetOr(generated.dedupeString)
    ensures spec.alarmDescriptionOverride.Some? ==> r.description == spec.alarmDescriptionOverride.value
    ensures spec.alarmDescriptionOverride.None? ==> r.description == generated.description
    ensures spec.comparisonOperatorOverride.Some? ==> r.comparisonOperator == spec.comparisonOperatorOverride.value
    ensures spec.comparisonOperatorOverride.None? ==> r.comparisonOperator == typeDefaults.comparisonOperator
    ensures spec.treatMissingDataOverride.Some? ==> r.treatMissingData == spec.treatMissingDataOverride.value
    ensures spec.treatMissingDataOverride.None? ==> r.treatMissingData == typeDefaults.treatMissingData
    ensures spec.actionsEnabled.None? ==> r.actionsEnabled == facade.actionsEnabled
    ensures spec.datapointsToAlarm.None? ==> r.datapointsToAlarm == facade.datapointsToAlarm
    ensures spec.evaluationPeriods.None? ==> r.evaluationPeriods == facade.evaluationPeriods
    ensures spec.actionsEnabled.Some? ==> r.actionsEnabled == spec.actionsEnabled.value
    ensures spec.datapointsToAlarm.Some? ==> r.datapointsToAlarm == spec.datapointsToAlarm.value
    ensures spec.evaluationPeriods.Some? ==> r.evaluationPeriods == spec.evaluationPeriods.value
    ensures spec.evaluateLowSampleCountPercentile.Some? ==>
      r.evaluateLowSampleCountPercentile == spec.evaluateLowSampleCountPercentile.value
    ensures spec.evaluateLowSampleCountPercentile.None? ==> r.evaluateLowSampleCountPercentile
    ensures spec.fillAlarmRange.Some? ==> r.fillAlarmRange == spec.fillAlarmRange.value
    ensures spec.fillAlarmRange.None? ==> !r.fillAlarmRange
    ensures spec.periodSeconds.Some? ==> r.periodSeconds == spec.periodSeconds.value
    ensures spec.periodSeconds.None? ==> r.periodSeconds == generated.periodSeconds
    ensures r.documentationLink == spec.documentationLink && r.runbookLink == spec.runbookLink
    ensures spec.customTags.Some? ==> r.customTags == spec.customTags.value
    ensures spec.customTags.None? ==> r.customTags == []
    ensures spec.customParams.Some? ==> r.customParams == spec.customParams.value
    ensures spec.customParams.None? ==> r.customParams == map[]
    ensures forall state: AlarmState ::
      ActionsFor(ActionStrategy(facade, spec), state)
        == (match state
            case Alarm => r.alarmActions
            case Ok => r.okActions
            case InsufficientData => r.insufficientDataActions)
  {
    var strategy := ActionStrategy(facade, spec);
    ResolvedAlarm(
      AlarmName(facade, id, spec),
      spec.dedupeStringOverride.GetOr(generated.dedupeString),
      spec.alarmDescriptionOverride.GetOr(generated.description),
      spec.comparisonOperatorOverride.GetOr(typeDefaults.comparisonOperator),
      spec.treatMissingDataOverride.GetOr(typeDefaults.treatMissingData),
      spec.evaluateLowSampleCountPercentile.GetOr(true),
      spec.actionsEnabled.GetOr(facade.actionsEnabled),
      spec.datapointsToAlarm.GetOr(facade.datapointsToAlarm),
      spec.evaluationPeriods.GetOr(facade.evaluationPeriods),
      spec.periodSeconds.GetOr(generated.periodSeconds),
      ActionsFor(strategy, Alarm),
      ActionsFor(strategy, Ok),
      ActionsFor(strategy, InsufficientData),
      spec.documentationLink,
      spec.runbookLink,
      spec.fillAlarmRange.GetOr(false),
      spec.customTags.GetOr([]),
      spec.customParams.GetOr(map[]))
  }

  /**
   * The default name determines the alarm: when no part holds a `-`, two
   * alarms with the same default name have the same prefix, friendly names
   * and disambiguator.
   */
  lemma DefaultAlarmNameInjective(p1: string, id1: AlarmIdentity, p2: string, id2: AlarmIdentity)
    requires NameParts(p1, id1) && NameParts(p2, id2)
    requires DefaultAlarmName(p1, id1) == DefaultAlarmName(p2, id2)
    ensures p1 == p2 && id1 == id2
  {
    DefaultAlarmNameSplits(p1, id1);
    DefaultAlarmNameSplits(p2, id2);
  }

  predicate NameParts(prefix: string, id: AlarmIdentity)
  {
    '-' !in prefix && '-' !in id.alarmFriendlyName && '-' !in id.metricAlarmFriendlyName && '-' !in id.disambiguator
  }

  /** Splitting a default name on `-` gives back its four parts. */
  lemma DefaultAlarmNameSplits(prefix: string, id: AlarmIdentity)
    requires NameParts(prefix, id)
    ensures Split(DefaultAlarmName(prefix, id), '-')
         == [prefix, id.alarmFriendlyName, id.metricAlarmFriendlyName, id.disambiguator]
  {
    SplitJoin([prefix, id.alarmFriendlyName, id.metricAlarmFriendlyName, id.disambiguator], '-');
  }

  /** The override record that sets only the action strategy. */
  function WithAction(action: AlarmActionStrategy): (spec: CustomAlarmThreshold)
    ensures spec.actionOverride == Some(action)
    ensures spec == NoOverrides.(actionOverride := Some(action))
  {
    NoOverrides.(actionOverride := Some(action))
  }

  /**
   * The three alarms of the action scenario: prefix `Test`, friendly name
   * `DummyAlarmName`, metric friendly name `AlarmForDummyMetric1`, and no
   * facade-wide default action.
   */
  function ScenarioFacade(f: FacadeDefaults): FacadeDefaults
  {
    f.(alarmNamePrefix := "Test", action := None)
  }

  function ScenarioIdentity(disambiguator: string): AlarmIdentity
  {
    AlarmIdentity("DummyAlarmName", "AlarmForDummyMetric1", disambiguator)
  }

  /** The scenario's default names share one prefix, spelt out. */
  lemma ScenarioName(d: string)
    ensures DefaultAlarmName("Test", ScenarioIdentity(d)) == "Test-DummyAlarmName-AlarmForDummyMetric1-" + d
  {
    assert "Test" + "-" == "Test-";
    assert "Test-" + "DummyAlarmName" == "Test-DummyAlarmName";
    assert "Test-DummyAlarmName" + "-" == "Test-DummyAlarmName-";
    assert "Test-DummyAlarmName-" + "AlarmForDummyMetric1" == "Test-DummyAlarmName-AlarmForDummyMetric1";
    assert "Test-DummyAlarmName-AlarmForDummyMetric1" + "-" == "Test-DummyAlarmName-AlarmForDummyMetric1-";
  }

  lemma ScenarioNameNoActionOverride()
    ensures DefaultAlarmName("Test", ScenarioIdentity("NoActionOverride")) == "Test-DummyAlarmName-AlarmForDummyMetric1-NoActionOverride"
  {
    ScenarioName("NoActionOverride");
    assert "Test-DummyAlarmName-AlarmForDummyMetric1-" + "NoActionOverride" == "Test-DummyAlarmName-AlarmForDummyMetric1-NoActionOverride";
  }

  lemma ScenarioNameSimpleSnsAction()
    ensures DefaultAlarmName("Test", ScenarioIdentity("SimpleSnsAction")) == "Test-DummyAlarmName-AlarmForDummyMetric1-SimpleSnsAction"
  {
    ScenarioName("SimpleSnsAction");
    assert "Test-DummyAlarmName-AlarmForDummyMetric1-" + "SimpleSnsAction" == "Test-DummyAlarmName-AlarmForDummyMetric1-SimpleSnsAction";
  }

  lemma ScenarioNameComplexSnsAction()
    ensures DefaultAlarmName("Test", ScenarioIdentity("ComplexSnsAction")) == "Test-DummyAlarmName-AlarmForDummyMetric1-ComplexSnsAction"
  {
    ScenarioName("ComplexSnsAction");
    assert "Test-DummyAlarmName-AlarmForDummyMetric1-" + "ComplexSnsAction" == "Test-DummyAlarmName-AlarmForDummyMetric1-ComplexSnsAction";
  }

  /** No override and no facade default: no action on any state. */
  lemma ScenarioNoActionOverride(f: FacadeDefaults, t: AlarmTypeDefaults, g: Generated)
    ensures var r := ResolveAlarm(ScenarioFacade(f), t, ScenarioIdentity("NoActionOverride"), g, NoOverrides);
      && r.alarmName == "Test-DummyAlarmName-AlarmForDummyMetric1-NoActionOverride"
      && r.alarmActions == [] && r.okActions == [] && r.insufficientDataActions == []
  {
    ScenarioNameNoActionOverride();
  }

  /** `notifySns` with one topic: an action on ALARM only. */
  lemma ScenarioSimpleSnsAction(f: FacadeDefaults, t: AlarmTypeDefaults, g: Generated)
    ensures var r := ResolveAlarm(ScenarioFacade(f), t, ScenarioIdentity("SimpleSnsAction"), g,
                                  WithAction(SnsActionStrategy("Alarm", None, None)));
      && r.alarmName == "Test-DummyAlarmName-AlarmForDummyMetric1-SimpleSnsAction"
      && r.alarmActions == [SnsAction("Alarm")] && r.okActions == [] && r.insufficientDataActions == []
  {
    ScenarioNameSimpleSnsAction();
  }

  /** `notifySns` with three topics: one action per state. */
  lemma ScenarioComplexSnsAction(f: FacadeDefaults, t: AlarmTypeDefaults, g: Generated)
    ensures var r := ResolveAlarm(ScenarioFacade(f), t, ScenarioIdentity("ComplexSnsAction"), g,
                                  WithAction(SnsActionStrategy("Alarm", Some("OK"), Some("NoData"))));
      && r.alarmName == "Test-DummyAlarmName-AlarmForDummyMetric1-ComplexSnsAction"
      && r.alarmActions == [SnsAction("Alarm")]
      && r.okActions == [SnsAction("OK")]
      && r.insufficientDataActions == [SnsAction("NoData")]
  {
    ScenarioNameComplexSnsAction();
  }
}
