/** The tile record the server keeps one of per map square.

    The packed 64-bit layout lives in a header that is not part of this model.  A tile is a
    record of independent fields, so each setter frames all the others.  */
module Tiles {

  // GC_ubyte
  type ubyte = n: int | 0 <= n < 256

  datatype TerrType = Dirt | Fertile | Rock | Water | Dunes

  datatype Temperature = Freezing | Cold | Chilly | Mild | Warm | Hot | Burning

  // In enumeration order: the odd positions are the diagonals.
  datatype Direction = N | NE | E | SE | S | SW | W | NW

  datatype TileAction = Idle | Moving | MovingVertically

  datatype Tile = Tile(
    terrType: TerrType,
    elevation: ubyte,
    temperature: Temperature,
    thingId: ubyte,
    action: TileAction,
    facing: Direction
  )

  function Elevations(tiles: seq<Tile>): (h: seq<int>)
    ensures |h| == |tiles|
    ensures forall i :: 0 <= i < |h| ==> h[i] == tiles[i].elevation
  {
    seq(|tiles|, i requires 0 <= i < |tiles| => tiles[i].elevation)
  }
}
