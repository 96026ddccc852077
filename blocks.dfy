/**
 * The block catalogue: the block type tags and the colour lookup that the
 * renderer uses for each tag (src/renderer/src/utils/blocks.ts).
 */
module Blocks {
  import opened Wrappers

  /** The block type tags; `Id` is the number the enum assigns to each. */
  datatype BlockType = Empty | Grass | Dirt {

    function Id(): int {
      match this
      case Empty => 0
      case Grass => 1
      case Dirt => 2
    }
  }

  /** The tag a stored id stands for, if any. */
  function FromId(id: int): (r: Option<BlockType>)
    ensures r.Some? <==> 0 <= id <= 2
    ensures r.Some? ==> r.value.Id() == id
  {
    if id == 0 then Some(Empty)
    else if id == 1 then Some(Grass)
    else if id == 2 then Some(Dirt)
    else None
  }

  /** Every tag is recovered from its id, so distinct tags have distinct ids. */
  lemma IdRoundTrip(b: BlockType)
    ensures FromId(b.Id()) == Some(b)
  {
  }

  /** Colours are 24-bit RGB values. */
  const GRASS_COLOR: int := 0x3fab24
  const DIRT_COLOR: int := 0x5e4123
  const FALLBACK_COLOR: int := 0xffffff

  /** A catalogue entry: its id, its name and, for solid blocks, its colour. */
  datatype Block = Block(id: int, name: string, color: Option<int>)

  /** The static catalogue, keyed by block id. */
  const Catalogue: map<int, Block> := map[
    Empty.Id() := Block(Empty.Id(), "empty", None),
    Grass.Id() := Block(Grass.Id(), "grass", Some(GRASS_COLOR)),
    Dirt.Id() := Block(Dirt.Id(), "dirt", Some(DIRT_COLOR))
  ]

  /** Each catalogue entry sits under its own id, and only Empty lacks a colour. */
  lemma CatalogueWellFormed()
    ensures forall id :: id in Catalogue ==> Catalogue[id].id == id && FromId(id).Some?
    ensures forall id :: id in Catalogue ==> (Catalogue[id].color.None? <==> id == Empty.Id())
  {
  }

  /**
   * The colour drawn for a block id: the catalogue colour when the entry
   * exists and has one, white otherwise (Empty and unknown ids alike).
   */
  function BlockColor(id: int): (c: int)
    ensures id == Grass.Id() ==> c == GRASS_COLOR
    ensures id == Dirt.Id() ==> c == DIRT_COLOR
    ensures id != Grass.Id() && id != Dirt.Id() ==> c == FALLBACK_COLOR
  {
    if id in Catalogue && Catalogue[id].color.Some? then Catalogue[id].color.value
    else FALLBACK_COLOR
  }
}
