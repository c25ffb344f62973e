/** A map tile: what has been blitted onto its surface and from which
    sides the player may not enter it. */
module Tiles {

  /** Collision flags in the order (Top, Right, Bottom, Left). */
  datatype Collision = Collision(top: bool, right: bool, bottom: bool, left: bool)

  const NoCollision := Collision(false, false, false, false)

  /** The tile type the tileset module declares for tiles drawn above the
      map's occupants. */
  const TYPE_ABOVE_ACTORS := "aboveActors"

  /** A rectangle in pixels: (x, y, width, height). */
  datatype Rect = Rect(x: int, y: int, w: int, h: int)

  /** A tile's surface is modelled by the tileset rectangles blitted onto
      it, in blit order. */
  datatype Tile = Tile(blits: seq<Rect>, collision: Collision)

  const EmptyTile := Tile([], NoCollision)
}
