/** The map-loading hook that deletes the shadow layer of a map. A map's tile
    data is a flat array of layers of `width * height` cells each; the
    shadow layer is the second-to-last block. */
module EraseShadows {

  /** The part of `$dataMap` the eraser touches. */
  class DataMap {
    const width: nat
    const height: nat
    const data: array<int>

    constructor (width: nat, height: nat, data: array<int>)
      ensures this.width == width && this.height == height && this.data == data
    {
      this.width, this.height, this.data := width, height, data;
    }
  }

  function Zeros(n: nat): seq<int> {
    seq(n, _ => 0)
  }

  /** The tile data after erasure: the block of `cellCount` cells that ends
      `cellCount` cells before the end is replaced by zeros. */
  function Erased(data: seq<int>, cellCount: nat): (r: seq<int>)
    requires 2 * cellCount <= |data|
    ensures |r| == |data|
    ensures forall i :: |data| - 2 * cellCount <= i < |data| - cellCount ==> r[i] == 0
    ensures forall i :: 0 <= i < |data| - 2 * cellCount || |data| - cellCount <= i < |data| ==> r[i] == data[i]
  {
    data[..|data| - 2 * cellCount] + Zeros(cellCount) + data[|data| - cellCount..]
  }

  /** Erasing twice is erasing once. */
  lemma ErasedTwice(data: seq<int>, cellCount: nat)
    requires 2 * cellCount <= |data|
    ensures Erased(Erased(data, cellCount), cellCount) == Erased(data, cellCount)
  {
    var once := Erased(data, cellCount);
    var twice := Erased(once, cellCount);
    forall i | 0 <= i < |data| ensures twice[i] == once[i] {
    }
  }

  /** A map without cells keeps its data. */
  lemma ErasedEmptyMap(data: seq<int>)
    ensures Erased(data, 0) == data
  {
    var r := Erased(data, 0);
    forall i | 0 <= i < |data| ensures r[i] == data[i] {
    }
  }

  /** `erase_shadows(map)`: zero the shadow layer in place. */
  method EraseShadowsOf(dataMap: DataMap)
    requires 2 * (dataMap.width * dataMap.height) <= dataMap.data.Length
    modifies dataMap.data
    ensures dataMap.data[..] == Erased(old(dataMap.data[..]), dataMap.width * dataMap.height)
  {
    var data := dataMap.data;
    var cellCount, len := dataMap.width * dataMap.height, data.Length;
    for i := len - cellCount * 2 to len - cellCount
      invariant forall k :: 0 <= k < len ==> data[k] == (if len - cellCount * 2 <= k < i then 0 else old(data[k]))
    {
      data[i] := 0;
    }
    ghost var r := Erased(old(data[..]), cellCount);
    forall k | 0 <= k < len ensures data[..][k] == r[k] {
    }
  }
}
