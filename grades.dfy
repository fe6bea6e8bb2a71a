/**
 * The student marks calculator: the total of the marks, the percentage
 * over the five marks the script reads, and the grade label for a
 * percentage.
 */
module Grades {

  /** The script reads exactly this many marks. */
  const MARK_COUNT := 5

  /** `calc_total`: the sum of the marks; marks between 0 and 100 give a total between 0 and 100 per mark. */
  function CalcTotal(marks: seq<real>): (r: real)
    ensures (forall i :: 0 <= i < |marks| ==> 0.0 <= marks[i] <= 100.0) ==> 0.0 <= r <= 100.0 * |marks| as real
  {
    if marks == [] then 0.0 else marks[0] + CalcTotal(marks[1..])
  }

  /** The total of two lists read one after the other is the sum of their totals. */
  lemma {:induction false} CalcTotalAppend(a: seq<real>, b: seq<real>)
    ensures CalcTotal(a + b) == CalcTotal(a) + CalcTotal(b)
  {
    if a != [] {
      CalcTotalAppend(a[1..], b);
      assert (a + b)[1..] == a[1..] + b;
    } else {
      assert a + b == b;
    }
  }

  /** `calc_percentage`: the total divided by the number of marks, five; multiplying back gives the total. */
  function CalcPercentage(total: real): (r: real)
    ensures r * MARK_COUNT as real == total
  {
    total / MARK_COUNT as real
  }

  /** Five marks between 0 and 100 give a percentage between 0 and 100. */
  lemma PercentageInRange(marks: seq<real>)
    requires |marks| == MARK_COUNT
    requires forall i :: 0 <= i < |marks| ==> 0.0 <= marks[i] <= 100.0
    ensures 0.0 <= CalcPercentage(CalcTotal(marks)) <= 100.0
  {
  }

  /**
   * `calc_grade`: one of five labels by fixed thresholds; every percentage
   * gets exactly one, in the bands named below (note the lower-case "c").
   */
  function CalcGrade(percentage: real): (g: string)
    ensures g in {"A+", "A", "B", "c", "Fail"}
    ensures g == "A+" <==> percentage >= 90.0
    ensures g == "A" <==> 80.0 <= percentage < 90.0
    ensures g == "B" <==> 70.0 <= percentage < 80.0
    ensures g == "c" <==> 60.0 <= percentage < 70.0
    ensures g == "Fail" <==> percentage < 60.0
  {
    if percentage >= 90.0 then "A+"
    else if percentage >= 80.0 then "A"
    else if percentage >= 70.0 then "B"
    else if percentage >= 60.0 then "c"
    else "Fail"
  }

  /** The position of a label from "Fail" (0) up to "A+" (4). */
  function Rank(g: string): nat {
    if g == "A+" then 4
    else if g == "A" then 3
    else if g == "B" then 2
    else if g == "c" then 1
    else 0
  }

  /** A higher percentage never gets a lower grade. */
  lemma GradeMonotone(p: real, q: real)
    requires p <= q
    ensures Rank(CalcGrade(p)) <= Rank(CalcGrade(q))
  {
  }
}
