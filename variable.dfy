/**
 * Wire constants and record types shared by the server and the client
 * (lib4Server/common/variable.h; the client's copy in lib4Client declares the
 * same values, so one definition serves both sides).
 */
module Variable {
  import opened Wrappers

  /** `enum Header`: the tag that opens every frame. */
  const COMMAND: int := 1
  const PLAN: int := 2
  const STATUS: int := 3

  /** `enum cmdType`: the command a COMMAND frame carries. */
  datatype CmdType = Start | Stop | Pause | Resume

  /** The wire value of a command tag (START = 1 ... RESUME = 4). */
  function CmdValue(c: CmdType): (v: int)
    ensures 1 <= v <= 4
  {
    match c
    case Start => 1
    case Stop => 2
    case Pause => 3
    case Resume => 4
  }

  /** The command tag a wire value stands for, if any. */
  function CmdOf(v: int): (c: Option<CmdType>)
    ensures c.Some? <==> 1 <= v <= 4
    ensures c.Some? ==> CmdValue(c.value) == v
  {
    if v == 1 then Some(Start)
    else if v == 2 then Some(Stop)
    else if v == 3 then Some(Pause)
    else if v == 4 then Some(Resume)
    else None
  }

  /** Tags and commands correspond one to one. */
  lemma CmdTagsRoundTrip(c: CmdType)
    ensures CmdOf(CmdValue(c)) == Some(c)
    ensures forall d :: CmdValue(d) == CmdValue(c) ==> d == c
  {
  }

  /** `Spot3DCoordinate`: one sonication target, three coordinates of type `C`. */
  datatype Spot3D<C> = Spot3D(x: C, y: C, z: C)

  /**
   * `SpotSonicationParameter`. VOLT is declared in a header that is not part of
   * this model; it is a number that is only copied and reset to zero, so `real`.
   */
  datatype SonicationParameter = SonicationParameter(
    volt: real, totalTime: int, period: int, dutyCycle: int, coolingTime: int)

  const ZeroParameter := SonicationParameter(0.0, 0, 0, 0, 0)
}
