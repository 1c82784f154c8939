/** The CSS class chosen for each departure and arrival row. */
module RowStyle {
  import opened LiveBoard

  datatype RowClass = Cancelled | Late | Plain

  /** `Number(t.delay) / 60 > 5`: a delay that is not a number is never late. */
  predicate IsLate(t: Event): (late: bool)
    ensures late <==> t.delay.Some? && t.delay.value > 300
  {
    match t.delay
    case None => false
    case Some(d) => d as real / 60.0 > 5.0
  }

  /**
   * A departure row: `cancelled` when `t.canceled === "1"`, otherwise `late`
   * when the delay exceeds five minutes, otherwise no class.
   */
  function DepartureRowClass(t: Event): (c: RowClass)
    ensures c == Cancelled <==> t.canceled == "1"
    ensures c == Late <==> t.canceled != "1" && t.delay.Some? && t.delay.value > 300
  {
    if t.canceled == "1" then Cancelled
    else if IsLate(t) then Late
    else Plain
  }

  /** An arrival row: `late` when the delay exceeds five minutes, otherwise no class. */
  function ArrivalRowClass(t: Event): (c: RowClass)
    ensures c != Cancelled
    ensures c == Late <==> t.delay.Some? && t.delay.value > 300
  {
    if IsLate(t) then Late else Plain
  }

  /** The two rules differ only in that a cancelled departure is marked cancelled, whatever its delay. */
  lemma DepartureRuleExtendsArrivalRule(t: Event)
    ensures DepartureRowClass(t) == if t.canceled == "1" then Cancelled else ArrivalRowClass(t)
  {
  }
}
