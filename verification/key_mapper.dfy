/** Maps a directional-pad value to the CEC named key the playback device understands. */
module KeyMapper {
  import opened JsStrings

  const CenterValue: string := "center"
  const OkKey: string := "Ok"

  /** The value a navigator click carries, mapped to a named key: `center` is `Ok`,
      anything else keeps its characters with the first one upper-cased. */
  function NavigatorKey(v: string): (k: string)
    ensures v == CenterValue ==> k == OkKey
    ensures v != CenterValue ==> |k| == |v|
    ensures v != CenterValue && |v| > 0 ==> k[0] == UpperChar(v[0]) && k[1..] == v[1..]
    ensures |k| > 0 ==> !IsLowerAscii(k[0])
  {
    if v == CenterValue then OkKey else Capitalize(v)
  }

  /** The five values the directional pad reports */
  datatype Direction = Up | Down | Left | Right | Center

  function DirectionValue(d: Direction): string {
    match d
    case Up => "up"
    case Down => "down"
    case Left => "left"
    case Right => "right"
    case Center => "center"
  }

  /** The named key a remote control sends for each direction */
  function DirectionKey(d: Direction): string {
    match d
    case Up => "Up"
    case Down => "Down"
    case Left => "Left"
    case Right => "Right"
    case Center => "Ok"
  }

  /** The mapping agrees with the remote-control key table on every pad value */
  lemma NavigatorKeyMatchesDirectionTable(d: Direction)
    ensures NavigatorKey(DirectionValue(d)) == DirectionKey(d)
  {
    match d
    case Up => assert Capitalize("up") == "Up";
    case Down => assert Capitalize("down") == "Down";
    case Left => assert Capitalize("left") == "Left";
    case Right => assert Capitalize("right") == "Right";
    case Center =>
  }
}
