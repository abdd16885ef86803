/**
  The workspace's blocks: positioned, sized, stacked rectangles, and the pure
  transformations the workspace applies to the whole sequence of them.
 */
module Layout {

  datatype Block = Block(id: int, x: int, y: int, width: int, height: int, zIndex: int)

  /** The ids of the blocks, in order. */
  function Ids(bs: seq<Block>): (r: seq<int>)
    ensures |r| == |bs|
  {
    seq(|bs|, i requires 0 <= i < |bs| => bs[i].id)
  }

  /** No two blocks share an id. */
  predicate UniqueIds(bs: seq<Block>)
  {
    forall i, j :: 0 <= i < j < |bs| ==> bs[i].id != bs[j].id
  }

  /** The five blocks a fresh workspace starts with, stepped diagonally by 40. */
  function DefaultBlocks(): (r: seq<Block>)
    ensures |r| == 5
    ensures forall i :: 0 <= i < 5 ==>
              r[i].id == i + 1 && r[i].x == 10 + 40 * i && r[i].y == 10 + 40 * i
              && r[i].width == 300 && r[i].height == 100 && r[i].zIndex == i + 1
    ensures UniqueIds(r)
    ensures Ids(r) == [1, 2, 3, 4, 5]
    ensures forall i, j :: 0 <= i < j < 5 ==> r[i].zIndex < r[j].zIndex
  {
    var r := seq(5, i requires 0 <= i < 5 =>
                   Block(i + 1, 10 + i * 40, 10 + i * 40, 300, 100, i + 1));
    assert Ids(r) == [1, 2, 3, 4, 5];
    r
  }

  function Max(a: int, b: int): int { if a >= b then a else b }

  /** `Math.max(...bs.map(b => b.zIndex))` over a non-empty sequence. */
  function MaxZ(bs: seq<Block>): (m: int)
    requires |bs| > 0
    ensures forall j :: 0 <= j < |bs| ==> bs[j].zIndex <= m
    ensures exists j :: 0 <= j < |bs| && bs[j].zIndex == m
  {
    if |bs| == 1 then bs[0].zIndex
    else
      var rest := MaxZ(bs[1..]);
      assert forall j :: 1 <= j < |bs| ==> bs[j] == bs[1..][j - 1];
      Max(bs[0].zIndex, rest)
  }

  /**
    `bringToFront`: every block with the id gets zIndex one above the current maximum.
    An empty workspace has no maximum and nothing to raise.
   */
  function BringToFront(bs: seq<Block>, id: int): (r: seq<Block>)
    ensures |r| == |bs| && Ids(r) == Ids(bs)
    ensures forall j :: 0 <= j < |bs| ==> r[j].(zIndex := bs[j].zIndex) == bs[j]
    ensures forall j :: 0 <= j < |bs| && bs[j].id != id ==> r[j] == bs[j]
    ensures forall k :: 0 <= k < |bs| && bs[k].id == id ==> r[k].zIndex == MaxZ(bs) + 1
    ensures forall j, k :: 0 <= j < |bs| && 0 <= k < |bs| && bs[j].id != id && bs[k].id == id
              ==> r[j].zIndex < r[k].zIndex
  {
    if |bs| == 0 then bs
    else
      var top := MaxZ(bs) + 1;
      seq(|bs|, j requires 0 <= j < |bs| =>
            if bs[j].id == id then bs[j].(zIndex := top) else bs[j])
  }

  /** `updatePosition`: blocks with the id move to (x, y); nothing else changes. */
  function UpdatePosition(bs: seq<Block>, id: int, x: int, y: int): (r: seq<Block>)
    ensures |r| == |bs| && Ids(r) == Ids(bs)
    ensures forall j :: 0 <= j < |bs| ==> r[j].(x := bs[j].x, y := bs[j].y) == bs[j]
    ensures forall j :: 0 <= j < |bs| && bs[j].id == id ==> r[j].x == x && r[j].y == y
    ensures forall j :: 0 <= j < |bs| && bs[j].id != id ==> r[j] == bs[j]
  {
    seq(|bs|, j requires 0 <= j < |bs| =>
          if bs[j].id == id then bs[j].(x := x, y := y) else bs[j])
  }

  /** `updateSize`: blocks with the id take the new width and height; nothing else changes. */
  function UpdateSize(bs: seq<Block>, id: int, width: int, height: int): (r: seq<Block>)
    ensures |r| == |bs| && Ids(r) == Ids(bs)
    ensures forall j :: 0 <= j < |bs| ==>
              r[j].(width := bs[j].width, height := bs[j].height) == bs[j]
    ensures forall j :: 0 <= j < |bs| && bs[j].id == id ==>
              r[j].width == width && r[j].height == height
    ensures forall j :: 0 <= j < |bs| && bs[j].id != id ==> r[j] == bs[j]
  {
    seq(|bs|, j requires 0 <= j < |bs| =>
          if bs[j].id == id then bs[j].(width := width, height := height) else bs[j])
  }

  /** `deleteBlock`: `bs.filter(b => b.id !== id)`. */
  function DeleteBlock(bs: seq<Block>, id: int): (r: seq<Block>)
    ensures |r| <= |bs|
    ensures forall b :: b in r <==> b in bs && b.id != id
  {
    if bs == [] then []
    else (if bs[0].id == id then [] else [bs[0]]) + DeleteBlock(bs[1..], id)
  }

  /** A position change on an id no block carries changes nothing. */
  lemma UpdatePositionAbsent(bs: seq<Block>, id: int, x: int, y: int)
    requires id !in Ids(bs)
    ensures UpdatePosition(bs, id, x, y) == bs
  {
    assert forall j :: 0 <= j < |bs| ==> bs[j].id == Ids(bs)[j];
  }

  /** A size change on an id no block carries changes nothing. */
  lemma UpdateSizeAbsent(bs: seq<Block>, id: int, width: int, height: int)
    requires id !in Ids(bs)
    ensures UpdateSize(bs, id, width, height) == bs
  {
    assert forall j :: 0 <= j < |bs| ==> bs[j].id == Ids(bs)[j];
  }

  /** Raising an id no block carries changes nothing. */
  lemma BringToFrontAbsent(bs: seq<Block>, id: int)
    requires id !in Ids(bs)
    ensures BringToFront(bs, id) == bs
  {
    assert forall j :: 0 <= j < |bs| ==> bs[j].id == Ids(bs)[j];
  }

  /**
    With unique ids, raising a present id leaves exactly one block on top: its zIndex
    is above every other block's, and above every zIndex there was before.
   */
  lemma BringToFrontStrictMax(bs: seq<Block>, id: int, k: nat)
    requires UniqueIds(bs) && k < |bs| && bs[k].id == id
    ensures BringToFront(bs, id)[k].zIndex > bs[k].zIndex
    ensures forall j :: 0 <= j < |bs| && j != k ==>
              BringToFront(bs, id)[j].zIndex < BringToFront(bs, id)[k].zIndex
  {
  }

  /** Deleting keeps the survivors in their order: the filter works piecewise. */
  lemma {:induction false} DeleteAppend(a: seq<Block>, b: seq<Block>, id: int)
    ensures DeleteBlock(a + b, id) == DeleteBlock(a, id) + DeleteBlock(b, id)
  {
    if a == [] {
      assert a + b == b;
    } else {
      assert (a + b)[1..] == a[1..] + b;
      DeleteAppend(a[1..], b, id);
    }
  }

  /** Deleting an id no block carries changes nothing. */
  lemma {:induction false} DeleteAbsent(bs: seq<Block>, id: int)
    requires id !in Ids(bs)
    ensures DeleteBlock(bs, id) == bs
  {
    if bs != [] {
      assert Ids(bs)[0] == bs[0].id;
      assert Ids(bs[1..]) == Ids(bs)[1..];
      DeleteAbsent(bs[1..], id);
    }
  }

  /** Deleting removes every block with the id. */
  lemma DeleteRemovesId(bs: seq<Block>, id: int)
    ensures id !in Ids(DeleteBlock(bs, id))
  {
  }

  /** Deleting twice is deleting once. */
  lemma DeleteIdempotent(bs: seq<Block>, id: int)
    ensures DeleteBlock(DeleteBlock(bs, id), id) == DeleteBlock(bs, id)
  {
    DeleteRemovesId(bs, id);
    DeleteAbsent(DeleteBlock(bs, id), id);
  }

  /** Deleting cannot create a duplicate id. */
  lemma {:induction false} DeletePreservesUniqueIds(bs: seq<Block>, id: int)
    requires UniqueIds(bs)
    ensures UniqueIds(DeleteBlock(bs, id))
  {
    if bs != [] {
      var rest := DeleteBlock(bs[1..], id);
      DeletePreservesUniqueIds(bs[1..], id);
      forall j | 0 <= j < |rest| ensures rest[j].id != bs[0].id {
        assert rest[j] in bs[1..];
      }
    }
  }

  /** None of the workspace's operations introduces a duplicate id. */
  lemma OperationsPreserveUniqueIds(bs: seq<Block>, id: int, a: int, b: int)
    requires UniqueIds(bs)
    ensures UniqueIds(BringToFront(bs, id))
    ensures UniqueIds(UpdatePosition(bs, id, a, b))
    ensures UniqueIds(UpdateSize(bs, id, a, b))
    ensures UniqueIds(DeleteBlock(bs, id))
  {
    var r1, r2, r3 := BringToFront(bs, id), UpdatePosition(bs, id, a, b), UpdateSize(bs, id, a, b);
    assert forall j :: 0 <= j < |bs| ==>
             r1[j].id == Ids(r1)[j] && r2[j].id == Ids(r2)[j] && r3[j].id == Ids(r3)[j]
             && bs[j].id == Ids(bs)[j];
    DeletePreservesUniqueIds(bs, id);
  }
}
