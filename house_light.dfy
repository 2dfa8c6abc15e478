/** The house-light status snapshot published by the controller. */
module HouseLight {

  /** A protobuf `int32` field. */
  newtype Int32 = x: int | -0x8000_0000 <= x < 0x8000_0000

  /** One decoded `HlState` publication. */
  datatype HlState = HlState(manual: bool, ephemera: bool, brightness: Int32, daytime: bool)
}
