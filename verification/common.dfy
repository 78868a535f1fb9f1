/** Small value types shared by every part of the model. */
module Common {

  /** An optional value; `None` stands for a key that a map does not hold. */
  datatype Option<T> = None | Some(value: T)

  /** The result of dividing an accumulated total by a line count. Java's
      floating-point division by a zero count yields NaN: every total divided
      here is a sum over no lines when the count is zero, so it is 0.0/0. */
  datatype Quotient = NaN | Value(value: real)

  /** `total / count` with the count promoted to floating point. */
  function Divide(total: real, count: int): (q: Quotient)
    requires count >= 0
    ensures q.NaN? <==> count == 0
    ensures q.Value? ==> q.value * (count as real) == total
  {
    if count == 0 then NaN else Value(total / count as real)
  }
}
