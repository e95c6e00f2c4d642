/** The colour families the panels choose between (each stands for a set of Tailwind classes or
    canvas colours in the views). */
module Palette {
  datatype Colour = Green | Yellow | Red | Blue | Gray

  /** `getStatusColor`: the colour of an equipment or statistic status. */
  function StatusColour(status: string): (c: Colour)
    ensures c == Green <==> status == "healthy"
    ensures c == Yellow <==> status == "warning"
    ensures c == Red <==> status == "critical"
    ensures c == Gray <==> status !in {"healthy", "warning", "critical"}
  {
    if status == "healthy" then Green
    else if status == "warning" then Yellow
    else if status == "critical" then Red
    else Gray
  }

  /** The two-way ternary used for status dots and health bars: green for healthy, yellow for
      warning, and red for every other status, an unknown one included. */
  function IndicatorColour(status: string): (c: Colour)
    ensures c == Green <==> status == "healthy"
    ensures c == Yellow <==> status == "warning"
    ensures c == Red <==> status != "healthy" && status != "warning"
  {
    if status == "healthy" then Green else if status == "warning" then Yellow else Red
  }

  /** The indicator agrees with the status lookup exactly on the three known statuses; an
      unknown status is gray in the lookup but red on the indicator. */
  lemma IndicatorAgreesOnKnown(status: string)
    ensures IndicatorColour(status) == StatusColour(status)
            <==> status in {"healthy", "warning", "critical"}
    ensures status !in {"healthy", "warning", "critical"}
            ==> StatusColour(status) == Gray && IndicatorColour(status) == Red
  {
  }
}
