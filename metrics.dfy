/**
 * Metric descriptors as the metric catalogs build them: metrics made by the
 * shared metric factory, metrics made by a construct's own helper methods,
 * adapted metrics, and math metrics over an expression with variable bindings.
 */
module Metrics {
  import opened Wrappers

  /** The statistics the catalogs use (the library's `MetricStatistic`). */
  datatype Statistic = P50 | P90 | P99 | Average | Sum | Max | Min | N

  /**
   * A dimension hash. A value is `None` where the TypeScript object literal
   * holds `undefined` for that key.
   */
  type Dimensions = map<string, Option<string>>

  datatype BinaryOp = Add | Sub | Mul | Div

  /**
   * A metric-math expression: bare variable references, `PERIOD(x)` (a
   * builtin, not a variable), the four arithmetic operators and explicit
   * parentheses.
   */
  datatype Expr =
    | Var(id: string)
    | Period(arg: Expr)
    | Binary(op: BinaryOp, left: Expr, right: Expr)
    | Paren(inner: Expr)

  /** The variables an expression references; `PERIOD` is never one of them. */
  function FreeVars(e: Expr): set<string>
  {
    match e
    case Var(id) => {id}
    case Period(arg) => FreeVars(arg)
    case Binary(_, l, r) => FreeVars(l) + FreeVars(r)
    case Paren(inner) => FreeVars(inner)
  }

  function OpText(op: BinaryOp): string
  {
    match op
    case Add => "+"
    case Sub => "-"
    case Mul => "*"
    case Div => "/"
  }

  /** The expression's text as a token sequence (whitespace dropped). */
  function Lexemes(e: Expr): seq<string>
  {
    match e
    case Var(id) => [id]
    case Period(arg) => ["PERIOD", "("] + Lexemes(arg) + [")"]
    case Binary(op, l, r) => Lexemes(l) + [OpText(op)] + Lexemes(r)
    case Paren(inner) => ["("] + Lexemes(inner) + [")"]
  }

  predicate IsIdentifierChar(c: char)
  {
    'a' <= c <= 'z' || 'A' <= c <= 'Z' || '0' <= c <= '9' || c == '_'
  }

  predicate IsIdentifier(t: string)
  {
    |t| > 0 && !('0' <= t[0] <= '9') && forall i :: 0 <= i < |t| ==> IsIdentifierChar(t[i])
  }

  /** An identifier token of the text that names a variable: every one but the `PERIOD` builtin. */
  predicate IsVariableToken(t: string)
  {
    IsIdentifier(t) && t != "PERIOD"
  }

  /** The variables a token sequence mentions. */
  function TokenVariables(ts: seq<string>): set<string>
  {
    set t | t in ts && IsVariableToken(t)
  }

  /** Every variable reference of the tree is a proper identifier other than `PERIOD`. */
  predicate WellFormed(e: Expr)
  {
    match e
    case Var(id) => IsVariableToken(id)
    case Period(arg) => WellFormed(arg)
    case Binary(_, l, r) => WellFormed(l) && WellFormed(r)
    case Paren(inner) => WellFormed(inner)
  }

  lemma TokenVariablesAppend(a: seq<string>, b: seq<string>)
    ensures TokenVariables(a + b) == TokenVariables(a) + TokenVariables(b)
  {
    assert forall t :: t in a + b <==> t in a || t in b;
  }

  /**
   * `FreeVars` is exactly the set of identifiers that appear in the
   * expression's text, `PERIOD` excluded: the check that "every identifier
   * of the expression is bound" can be made on the tree.
   */
  lemma {:induction false} FreeVarsAreTextVariables(e: Expr)
    requires WellFormed(e)
    ensures FreeVars(e) == TokenVariables(Lexemes(e))
  {
    match e
    case Var(id) =>
      assert Lexemes(e) == [id];
    case Period(arg) =>
      FreeVarsAreTextVariables(arg);
      TokenVariablesAppend(["PERIOD", "("], Lexemes(arg));
      TokenVariablesAppend(["PERIOD", "("] + Lexemes(arg), [")"]);
      assert !IsVariableToken("(") && !IsVariableToken(")") && !IsVariableToken("PERIOD");
      assert TokenVariables(["PERIOD", "("]) == {};
      assert TokenVariables([")"]) == {};
    case Binary(op, l, r) =>
      FreeVarsAreTextVariables(l);
      FreeVarsAreTextVariables(r);
      TokenVariablesAppend(Lexemes(l), [OpText(op)]);
      TokenVariablesAppend(Lexemes(l) + [OpText(op)], Lexemes(r));
      assert !IsVariableToken(OpText(op));
      assert TokenVariables([OpText(op)]) == {};
    case Paren(inner) =>
      FreeVarsAreTextVariables(inner);
      TokenVariablesAppend(["("], Lexemes(inner));
      TokenVariablesAppend(["("] + Lexemes(inner), [")"]);
      assert !IsVariableToken("(") && !IsVariableToken(")");
      assert TokenVariables(["("]) == {};
      assert TokenVariables([")"]) == {};
  }

  /** The options a construct's own metric helper is called with. */
  datatype MetricOptions = MetricOptions(statistic: Option<Statistic>, displayLabel: Option<string>)

  datatype Metric =
      /** `MetricFactory.createMetric(name, statistic, label, dimensions, color, namespace)` */
    | Primitive(namespace: string, metricName: string, statistic: Statistic, displayLabel: string,
                dimensions: Dimensions, color: Option<string>)
      /** A metric made by a construct's helper, e.g. `queue.metricNumberOfMessagesSent(options)`. */
    | Provided(construct: string, helper: string, options: MetricOptions)
      /** `MetricFactory.adaptMetric(source)` */
    | Adapted(source: Metric)
      /** `MetricFactory.createMetricMath(expression, usingMetrics, label)` */
    | MathMetric(expression: Expr, usingMetrics: map<string, Metric>, displayLabel: string)

  // The shared metric factory's bodies are not part of this model: each of
  // the three calls below builds the descriptor from its arguments unchanged.

  function CreateMetric(metricName: string, statistic: Statistic, displayLabel: string,
                        dimensions: Dimensions, color: Option<string>, namespace: string): Metric
  {
    Primitive(namespace, metricName, statistic, displayLabel, dimensions, color)
  }

  function CreateMetricMath(expression: Expr, usingMetrics: map<string, Metric>, displayLabel: string): Metric
  {
    MathMetric(expression, usingMetrics, displayLabel)
  }

  function AdaptMetric(source: Metric): Metric
  {
    Adapted(source)
  }

  /**
   * Referential integrity of a math metric: every variable of the expression
   * is bound; and, the other way round, every binding is used.
   */
  predicate WellBound(m: Metric)
  {
    m.MathMetric? ==> FreeVars(m.expression) <= m.usingMetrics.Keys
  }

  predicate NoUnusedBindings(m: Metric)
  {
    m.MathMetric? ==> m.usingMetrics.Keys <= FreeVars(m.expression)
  }

  /**
   * Referential integrity in terms of the expression's text: it is well
   * formed, and its variables are exactly the binding keys.
   */
  predicate BindsExactlyItsVariables(m: Metric)
  {
    m.MathMetric? && WellFormed(m.expression)
    && TokenVariables(Lexemes(m.expression)) == m.usingMetrics.Keys
  }

  /** The text-level check follows from the tree-level one. */
  lemma BindsExactlyItsVariablesFromTree(m: Metric)
    requires m.MathMetric? && WellFormed(m.expression)
    requires FreeVars(m.expression) == m.usingMetrics.Keys
    ensures BindsExactlyItsVariables(m) && WellBound(m) && NoUnusedBindings(m)
  {
    FreeVarsAreTextVariables(m.expression);
  }
}
