/** The three summary cards of the dashboard
    (src/components/dashboard/SalesSummary.tsx): the trend arrow, its colour
    and the magnitude shown beside it. */
module SalesSummary {
  import opened Common

  /** The arrow of a card; `null` is `NoIcon`. */
  datatype TrendIcon = ArrowUp | ArrowDown | NoIcon

  /** `getTrendIcon`. */
  function TrendIconFor(percentage: real): (icon: TrendIcon)
    ensures icon == ArrowUp <==> percentage > 0.0
    ensures icon == ArrowDown <==> percentage < 0.0
    ensures icon == NoIcon <==> percentage == 0.0
  {
    if percentage > 0.0 then ArrowUp else if percentage < 0.0 then ArrowDown else NoIcon
  }

  /** `getTrendColorClass`. */
  function TrendColorClass(percentage: real): (c: string)
    ensures c == "text-green-500" <==> percentage > 0.0
    ensures c == "text-red-500" <==> percentage < 0.0
    ensures c == "text-gray-500" <==> percentage == 0.0
  {
    if percentage > 0.0 then "text-green-500" else if percentage < 0.0 then "text-red-500" else "text-gray-500"
  }

  /** The arrow and the colour of a card always tell the same story. */
  lemma IconAgreesWithColour(percentage: real)
    ensures TrendIconFor(percentage) == ArrowUp <==> TrendColorClass(percentage) == "text-green-500"
    ensures TrendIconFor(percentage) == ArrowDown <==> TrendColorClass(percentage) == "text-red-500"
    ensures TrendIconFor(percentage) == NoIcon <==> TrendColorClass(percentage) == "text-gray-500"
  {
  }

  /** The number shown before "% dari kemarin": the size of the change,
      whose sign the arrow carries. */
  function ShownPercentage(percentage: real): (m: real)
    ensures m >= 0.0
    ensures m == percentage || m == -percentage
    ensures TrendIconFor(percentage) == ArrowDown ==> m == -percentage
  {
    Abs(percentage)
  }

  /** The arrow and the shown magnitude together recover the percentage. */
  lemma ShownPercentageRecoversChange(percentage: real)
    ensures percentage == (if TrendIconFor(percentage) == ArrowDown then -ShownPercentage(percentage)
                           else ShownPercentage(percentage))
  {
  }
}
