/**
 * The two validated records of the ast package that the parser never builds:
 * a comparison and a conditional. Their compact constructors reject null
 * operands (None here) and, for the comparison, an operator outside the six.
 */
module Records {
  import opened Results
  import opened Ast

  datatype ComparisonExpr = ComparisonExpr(operator: string, left: Expr, right: Expr)

  datatype ConditionalExpr = ConditionalExpr(condition: Expr, trueExpr: Expr, falseExpr: Expr)

  /** The IllegalArgumentException a constructor throws, by its message. */
  datatype IllegalArgument = IllegalArgument(message: string)

  /** isValidOperator: exactly the six comparison operators. */
  predicate IsValidOperator(operator: string) {
    operator == "<" || operator == ">" || operator == "<=" || operator == ">=" || operator == "==" || operator == "!="
  }

  /** new ComparisonExpr(operator, left, right); a null argument is None. */
  function NewComparison(operator: Option<string>, left: Option<Expr>, right: Option<Expr>): (r: Result<ComparisonExpr, IllegalArgument>)
    ensures r.Ok? <==> operator.Some? && IsValidOperator(operator.value) && left.Some? && right.Some?
    ensures r.Ok? ==> r.value.operator == operator.value && r.value.left == left.value && r.value.right == right.value
    // the checks in their order: operator present, operator valid, left, right
    ensures operator.None? || operator.value == "" ==> r == Err(IllegalArgument("Operator cannot be null or empty"))
    ensures operator.Some? && operator.value != "" && !IsValidOperator(operator.value)
            ==> r == Err(IllegalArgument("Invalid comparison operator: " + operator.value))
    ensures operator.Some? && IsValidOperator(operator.value) && left.None?
            ==> r == Err(IllegalArgument("Left operand cannot be null"))
    ensures operator.Some? && IsValidOperator(operator.value) && left.Some? && right.None?
            ==> r == Err(IllegalArgument("Right operand cannot be null"))
  {
    if operator.None? || operator.value == "" then Err(IllegalArgument("Operator cannot be null or empty"))
    else if !IsValidOperator(operator.value) then Err(IllegalArgument("Invalid comparison operator: " + operator.value))
    else if left.None? then Err(IllegalArgument("Left operand cannot be null"))
    else if right.None? then Err(IllegalArgument("Right operand cannot be null"))
    else Ok(ComparisonExpr(operator.value, left.value, right.value))
  }

  /** new ConditionalExpr(condition, trueExpr, falseExpr); a null argument is None. */
  function NewConditional(condition: Option<Expr>, trueExpr: Option<Expr>, falseExpr: Option<Expr>): (r: Result<ConditionalExpr, IllegalArgument>)
    ensures r.Ok? <==> condition.Some? && trueExpr.Some? && falseExpr.Some?
    ensures r.Ok? ==> r.value.condition == condition.value && r.value.trueExpr == trueExpr.value
                      && r.value.falseExpr == falseExpr.value
    // the checks in their order: condition, then trueExpr, then falseExpr
    ensures condition.None? ==> r == Err(IllegalArgument("Condition expression cannot be null"))
    ensures condition.Some? && trueExpr.None? ==> r == Err(IllegalArgument("True expression cannot be null"))
    ensures condition.Some? && trueExpr.Some? && falseExpr.None? ==> r == Err(IllegalArgument("False expression cannot be null"))
  {
    if condition.None? then Err(IllegalArgument("Condition expression cannot be null"))
    else if trueExpr.None? then Err(IllegalArgument("True expression cannot be null"))
    else if falseExpr.None? then Err(IllegalArgument("False expression cannot be null"))
    else Ok(ConditionalExpr(condition.value, trueExpr.value, falseExpr.value))
  }

  /** The invariant every ComparisonExpr object satisfies. */
  predicate ValidComparison(c: ComparisonExpr) {
    IsValidOperator(c.operator)
  }

  /**
   * The records a constructor can produce are exactly the valid ones, and
   * rebuilding a record from its own fields gives it back.
   */
  lemma ComparisonRoundTrip(c: ComparisonExpr)
    ensures NewComparison(Some(c.operator), Some(c.left), Some(c.right)).Ok? <==> ValidComparison(c)
    ensures ValidComparison(c) ==> NewComparison(Some(c.operator), Some(c.left), Some(c.right)) == Ok(c)
  {
  }

  /** Every valid operator is one or two characters long, so never empty. */
  lemma ValidOperatorShape(operator: string)
    requires IsValidOperator(operator)
    ensures 1 <= |operator| <= 2
    ensures operator[|operator| - 1] in "<>="
  {
  }

  /** Every conditional record is rebuilt from its own fields. */
  lemma ConditionalRoundTrip(c: ConditionalExpr)
    ensures NewConditional(Some(c.condition), Some(c.trueExpr), Some(c.falseExpr)) == Ok(c)
  {
  }
}
