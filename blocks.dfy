/**
 * Flattening a sequence of blocks into one buffer.
 *
 * Every buffer the mesh generator fills is built one segment at a time: each
 * segment appends a fixed-size group of vertices (a ring) or of faces. The
 * specification of those buffers is therefore "the blocks, one after another",
 * and the lemmas here say where block k lands in the flattened buffer.
 */
module Blocks {

  /** The blocks laid end to end, in order. */
  function Concat<T>(blocks: seq<seq<T>>): seq<T>
  {
    if blocks == [] then [] else Concat(blocks[..|blocks| - 1]) + blocks[|blocks| - 1]
  }

  /** Every block has exactly `width` elements. */
  ghost predicate Uniform<T>(blocks: seq<seq<T>>, width: nat)
  {
    forall k :: 0 <= k < |blocks| ==> |blocks[k]| == width
  }

  /** Appending one more block appends its elements to the buffer, after whatever precedes it. */
  lemma ConcatSnoc<T>(prefix: seq<T>, blocks: seq<seq<T>>, b: seq<T>)
    ensures prefix + Concat(blocks + [b]) == prefix + Concat(blocks) + b
  {
    assert (blocks + [b])[..|blocks|] == blocks;
    assert Concat(blocks + [b]) == Concat(blocks) + b;
  }

  /** A buffer of `|blocks|` blocks of width `width` has `|blocks| * width` elements. */
  lemma {:induction false} ConcatLength<T>(blocks: seq<seq<T>>, width: nat)
    requires Uniform(blocks, width)
    ensures |Concat(blocks)| == |blocks| * width
  {
    if blocks != [] {
      var n := |blocks|;
      ConcatLength(blocks[..n - 1], width);
      assert n * width == (n - 1) * width + width;
    }
  }

  /** A slice that ends inside the first operand of an append is a slice of that operand. */
  lemma SliceOfAppend<T>(a: seq<T>, b: seq<T>, lo: nat, hi: nat)
    requires lo <= hi <= |a|
    ensures (a + b)[lo..hi] == a[lo..hi]
  {
  }

  /** Block k of a uniform buffer occupies positions [k * width, k * width + width). */
  lemma {:induction false} ConcatBlock<T>(blocks: seq<seq<T>>, width: nat, k: nat)
    requires Uniform(blocks, width)
    requires k < |blocks|
    ensures |Concat(blocks)| == |blocks| * width
    ensures k * width + width <= |Concat(blocks)|
    ensures Concat(blocks)[k * width .. k * width + width] == blocks[k]
  {
    var n := |blocks|;
    var init := blocks[..n - 1];
    var last := blocks[n - 1];
    assert Concat(blocks) == Concat(init) + last;
    assert |last| == width;
    assert Uniform(init, width);
    ConcatLength(init, width);
    assert |Concat(blocks)| == n * width by {
      MulSucc(n - 1, width);
    }
    if k < n - 1 {
      ConcatBlock(init, width, k);
      assert init[k] == blocks[k];
      SliceOfAppend(Concat(init), last, k * width, k * width + width);
    } else {
      assert k * width == |Concat(init)| by {
        assert k == |init|;
      }
      LastBlock(Concat(init), last);
    }
  }

  /** One more block of width w adds w elements. */
  lemma MulSucc(a: nat, w: nat)
    ensures a * w + w == (a + 1) * w
  {
  }

  /** The last block of a buffer is its tail. */
  lemma LastBlock<T>(front: seq<T>, last: seq<T>)
    ensures (front + last)[|front| .. |front| + |last|] == last
  {
  }

  /** Every element of the buffer comes from some block. */
  lemma {:induction false} ConcatMember<T>(blocks: seq<seq<T>>, x: T)
    requires x in Concat(blocks)
    ensures exists k :: 0 <= k < |blocks| && x in blocks[k]
  {
    var n := |blocks|;
    assert blocks != [];
    if x in blocks[n - 1] {
    } else {
      ConcatMember(blocks[..n - 1], x);
      var k :| 0 <= k < n - 1 && x in blocks[..n - 1][k];
      assert x in blocks[k];
    }
  }
}
