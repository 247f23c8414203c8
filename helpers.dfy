/** lib/helpers.ts: the numeric clamp shared by the scorer, for the integer
    score and for the confidence. */
module Helpers {

  /** `Math.min(max, Math.max(min, value))` */
  function Clamp(value: int, min: int, max: int): (r: int)
    ensures min <= max ==> min <= r <= max
    ensures min <= value <= max ==> r == value
    ensures value > max ==> r == max
    ensures value < min && min <= max ==> r == min
    ensures min > max ==> r == max
  {
    var atLeastMin := if value < min then min else value;
    if max < atLeastMin then max else atLeastMin
  }

  /** The same clamp on the exact values of doubles. */
  function ClampReal(value: real, min: real, max: real): (r: real)
    ensures min <= max ==> min <= r <= max
    ensures min <= value <= max ==> r == value
  {
    var atLeastMin := if value < min then min else value;
    if max < atLeastMin then max else atLeastMin
  }
}
