/**
 * The dashboard widgets the monitored resources emit, and the layout
 * constants they are sized with (a dashboard row is 24 units wide).
 */
module Widgets {
  import opened Wrappers
  import opened Metrics

  const FullWidth: nat := 24
  const HalfWidth: nat := FullWidth / 2
  const QuarterWidth: nat := FullWidth / 4
  const DefaultGraphWidgetHeight: nat := 5
  const DefaultSummaryWidgetHeight: nat := 6

  /** The predefined left Y axes. */
  datatype Axis = CountAxisFromZero | PercentageAxisFromZeroToHundred | SizeAxisBytesFromZero

  datatype Widget =
    | HeaderWidget(family: string, title: string, goToLinkUrl: Option<string>)
    | GraphWidget(width: nat, height: nat, title: string, left: seq<Metric>, leftYAxis: Option<Axis>)
    | TextWidget(width: nat, height: nat, markdown: string)
}
