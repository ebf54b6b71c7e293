/** A sprite sheet laid out as one row of tiles, each `tileSize` wide and
    `heightInTiles` tall; `HorizontalRect` cuts out the rectangle of one
    tile. */
module SpriteSheets {
  import opened Geometry

  datatype SpriteSheet = SpriteSheet(heightInTiles: int, tileSize: int)

  /** `NewSpriteSheet(heightInTiles, tileSize)` keeps both arguments, in
      that order. */
  function NewSpriteSheet(heightInTiles: int, tileSize: int): (s: SpriteSheet)
    ensures s.heightInTiles == heightInTiles && s.tileSize == tileSize
  {
    SpriteSheet(heightInTiles, tileSize)
  }

  /** The rectangle of tile `index`: `tileSize` wide, starting at
      `index * tileSize`, from row 0 down to `heightInTiles`. */
  function HorizontalRect(s: SpriteSheet, index: int): Rectangle
  {
    var x := index * s.tileSize;
    Rect(x, 0, x + s.tileSize, s.heightInTiles)
  }

  /** For non-negative sizes the tile spans exactly
      `[index * tileSize, index * tileSize + tileSize]` by `[0, heightInTiles]`. */
  lemma HorizontalRectBounds(s: SpriteSheet, index: int)
    requires s.tileSize >= 0 && s.heightInTiles >= 0
    ensures HorizontalRect(s, index).min == Point(index * s.tileSize, 0)
    ensures HorizontalRect(s, index).max == Point(index * s.tileSize + s.tileSize, s.heightInTiles)
  {
  }

  /** Whatever the signs, the result is canonical, as wide as `|tileSize|`
      and as tall as `|heightInTiles|`. */
  lemma HorizontalRectShape(s: SpriteSheet, index: int)
    ensures Canonical(HorizontalRect(s, index))
    ensures HorizontalRect(s, index).max.x - HorizontalRect(s, index).min.x
         == (if s.tileSize >= 0 then s.tileSize else -s.tileSize)
    ensures HorizontalRect(s, index).max.y - HorizontalRect(s, index).min.y
         == (if s.heightInTiles >= 0 then s.heightInTiles else -s.heightInTiles)
    ensures HorizontalRect(s, index).min.y == Min(0, s.heightInTiles)
  {
  }

  /** Consecutive tiles abut: for a non-negative tile size tile `i` ends
      where tile `i + 1` starts; for a negative one the order is reversed. */
  lemma ConsecutiveTilesAbut(s: SpriteSheet, index: int)
    ensures s.tileSize >= 0 ==>
      HorizontalRect(s, index).max.x == HorizontalRect(s, index + 1).min.x
    ensures s.tileSize < 0 ==>
      HorizontalRect(s, index + 1).max.x == HorizontalRect(s, index).min.x
  {
    var t := s.tileSize;
    assert (index + 1) * t == index * t + t;
  }
}
