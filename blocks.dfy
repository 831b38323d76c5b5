/** Blocks: an optional colour plus a transient "exploding" (highlighted) flag. */
module Blocks {

  datatype Option<T> = None | Some(value: T)

  /** The six colours; their declaration order gives the display code. */
  datatype BlockKind = Blue | Yellow | Green | Red | Cyan | Magenta

  /** Display ordinal of a kind, its position in the declaration. */
  function Ordinal(k: BlockKind): (n: int)
    ensures 0 <= n < 6
  {
    match k
    case Blue => 0
    case Yellow => 1
    case Green => 2
    case Red => 3
    case Cyan => 4
    case Magenta => 5
  }

  datatype Block = Block(kind: Option<BlockKind>, exploding: bool) {

    /** A block of the given kind that is not exploding. */
    static function New(kind: Option<BlockKind>): (b: Block)
      ensures b.kind == kind && !b.exploding
    {
      Block(kind, false)
    }

    /** The derived default block: no kind, not exploding. */
    static function Default(): (b: Block)
      ensures b.Empty() && !b.exploding
    {
      Block(None, false)
    }

    /** Empty means the block has no kind. */
    predicate Empty()
    {
      kind.None?
    }

    /** Block equality compares the kinds only; the exploding flag is ignored. */
    predicate Eq(other: Block)
    {
      kind == other.kind
    }

    /** Replaces the kind in place, keeping the exploding flag. */
    function Update(k: Option<BlockKind>): (b: Block)
      ensures b.Eq(New(k)) && b.exploding == exploding
      ensures b.Empty() <==> k.None?
    {
      this.(kind := k)
    }

    /** Display code: 6 while exploding, else the kind's ordinal, -1 when empty. */
    function Numbered(): (n: int)
      ensures -1 <= n <= 6
      ensures n == 6 <==> exploding
      ensures n == -1 <==> !exploding && Empty()
      ensures !exploding && kind.Some? ==> n == Ordinal(kind.value)
    {
      if exploding then 6
      else match kind
        case Some(k) => Ordinal(k)
        case None => -1
    }
  }

  /** Block equality is an equivalence and does not see the exploding flag. */
  lemma EqIsEquivalence(a: Block, b: Block, c: Block, flag: bool)
    ensures a.Eq(a)
    ensures a.Eq(b) <==> b.Eq(a)
    ensures a.Eq(b) && b.Eq(c) ==> a.Eq(c)
    ensures a.Eq(a.(exploding := flag))
  {
  }

  /** Two non-exploding blocks show the same display code exactly when they are equal. */
  lemma NumberedSeparatesKinds(a: Block, b: Block)
    requires !a.exploding && !b.exploding
    ensures a.Numbered() == b.Numbered() <==> a.Eq(b)
  {
    if a.kind.Some? && b.kind.Some? && a.kind != b.kind {
      match a.kind.value
      case Blue =>
      case Yellow =>
      case Green =>
      case Red =>
      case Cyan =>
      case Magenta =>
    }
  }

  /** The default block is empty (the unit test of block.rs). */
  lemma DefaultIsEmpty()
    ensures Block.Default().Empty()
  {
  }
}
