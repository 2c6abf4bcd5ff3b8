/**
 * The level and colour the signal indicator (`features/audio/SignalIndicator.tsx`)
 * derives from a signal strength. It repeats the thresholds of
 * `getSignalLevel` with capitalised level names, and picks one colour class
 * per level for its three bars.
 */
module SignalIndicator {
  import AudioUtils

  const Emerald := "bg-emerald-500"
  const Yellow := "bg-yellow-500"
  const Red := "bg-red-500"

  /** The `level` constant of the component. */
  function Level(signalStrength: real): (level: string)
    ensures level == "High" <==> signalStrength > 20.0
    ensures level == "Medium" <==> 10.0 < signalStrength <= 20.0
    ensures level == "Low" <==> signalStrength <= 10.0
  {
    if signalStrength > 20.0 then "High"
    else if signalStrength > 10.0 then "Medium"
    else "Low"
  }

  /** The `color` constant: a lookup on the level name, red for anything else. */
  function Color(level: string): (c: string)
    ensures c == Emerald <==> level == "High"
    ensures c == Yellow <==> level == "Medium"
    ensures c == Red <==> level != "High" && level != "Medium"
  {
    if level == "High" then Emerald
    else if level == "Medium" then Yellow
    else Red
  }

  /** The three levels get three different colours, each the documented one. */
  lemma ColorOneToOne()
    ensures Color("High") == Emerald && Color("Medium") == Yellow && Color("Low") == Red
    ensures Emerald != Yellow && Yellow != Red && Red != Emerald
  {
  }

  /** The bars are emerald, yellow or red exactly on the strength bands. */
  lemma ColorOfStrength(s: real)
    ensures Color(Level(s)) == Emerald <==> s > 20.0
    ensures Color(Level(s)) == Yellow <==> 10.0 < s <= 20.0
    ensures Color(Level(s)) == Red <==> s <= 10.0
  {
  }

  /** The boundary strengths fall into the lower band. */
  lemma BoundaryLevels()
    ensures Level(20.0) == "Medium" && Level(10.0) == "Low"
  {
  }

  /** Upper-cases the first letter of an ASCII word, as in "high" to "High". */
  function Capitalize(w: string): (r: string)
    ensures |r| == |w|
    ensures |w| > 0 ==> r[1..] == w[1..]
  {
    if |w| > 0 && 'a' <= w[0] <= 'z' then [(w[0] as int - 32) as char] + w[1..] else w
  }

  /** For every strength the indicator shows the level of `getSignalLevel`, capitalised. */
  lemma AgreesWithGetSignalLevel(s: real)
    ensures Level(s) == Capitalize(AudioUtils.GetSignalLevel(s))
  {
  }
}
