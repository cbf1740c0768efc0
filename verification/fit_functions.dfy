/**
 * Functions.py: the polynomial models handed to the curve fit. The
 * exponential, natural-log and Gaussian models use exp and log and are not
 * part of this model.
 */
module FitFunctions {

  /** line: y = a x + b. */
  function Line(x: real, a: real, b: real): real
  {
    a * x + b
  }

  /** line_zero_intercept: y = a x. */
  function LineZeroIntercept(x: real, a: real): real
  {
    a * x
  }

  /** quadratic: y = a x^2 + b x + c. */
  function Quadratic(x: real, a: real, b: real, c: real): real
  {
    a * (x * x) + b * x + c
  }

  /** cubic: y = a x^3 + b x^2 + c x + d. */
  function Cubic(x: real, a: real, b: real, c: real, d: real): real
  {
    a * (x * x * x) + b * (x * x) + c * x + d
  }

  /** The intercept is the value at x = 0. */
  lemma LineAtZero(a: real, b: real)
    ensures Line(0.0, a, b) == b
  {
  }

  /** The zero-intercept line is the line with b = 0. */
  lemma LineZeroInterceptIsLine(x: real, a: real)
    ensures LineZeroIntercept(x, a) == Line(x, a, 0.0)
  {
  }

  /** Each model with its leading coefficient 0 is the model one degree lower. */
  lemma LowerDegreeModels(x: real, a: real, b: real, c: real, d: real)
    ensures Quadratic(x, 0.0, b, c) == Line(x, b, c)
    ensures Cubic(x, 0.0, b, c, d) == Quadratic(x, b, c, d)
  {
  }

  /** Two points of a line differ by the slope times the difference of their x values. */
  lemma LineDifference(x1: real, x2: real, a: real, b: real)
    ensures Line(x1, a, b) - Line(x2, a, b) == a * (x1 - x2)
  {
  }

  /** So two points with distinct x values determine the slope, and then the intercept. */
  lemma LineThroughTwoPoints(x1: real, x2: real, a: real, b: real)
    requires x1 != x2
    ensures a == (Line(x1, a, b) - Line(x2, a, b)) / (x1 - x2)
    ensures b == Line(x1, a, b) - a * x1
  {
    LineDifference(x1, x2, a, b);
  }
}
