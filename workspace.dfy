/**
  The workspace page's state: the current blocks and the browser's key-value storage,
  kept identical under the key "blocks" after every change (write-through).
 */
module Workspace {
  import Layout

  /** The storage slot the layout is written to and read from. */
  const StorageKey := "blocks"

  /** Durable key-value storage holding whole block sequences (serialisation not modelled). */
  type Storage = map<string, seq<Layout.Block>>

  /** Writing the whole sequence to the slot. */
  function Save(storage: Storage, bs: seq<Layout.Block>): (s: Storage)
    ensures StorageKey in s && s[StorageKey] == bs
    ensures forall k :: k in storage && k != StorageKey ==> k in s && s[k] == storage[k]
    ensures s.Keys == storage.Keys + {StorageKey}
  {
    storage[StorageKey := bs]
  }

  /** The load-on-mount rule: the stored sequence if there is one, else the defaults. */
  function Load(storage: Storage): (bs: seq<Layout.Block>)
    ensures StorageKey in storage ==> bs == storage[StorageKey]
    ensures StorageKey !in storage ==> bs == Layout.DefaultBlocks()
  {
    if StorageKey in storage then storage[StorageKey] else Layout.DefaultBlocks()
  }

  /** Saving and then loading gives back exactly what was saved. */
  lemma SaveThenLoad(storage: Storage, bs: seq<Layout.Block>)
    ensures Load(Save(storage, bs)) == bs
  {
  }

  /** Mounting on empty storage shows the five default blocks with unique ids. */
  lemma LoadEmpty(storage: Storage)
    requires StorageKey !in storage
    ensures |Load(storage)| == 5 && Layout.UniqueIds(Load(storage))
  {
  }

  class LayoutStore {
    var blocks: seq<Layout.Block>
    var storage: Storage

    /** Write-through: the slot always holds the current blocks. */
    ghost predicate Valid()
      reads this
    {
      StorageKey in storage && storage[StorageKey] == blocks
    }

    /** Mounting: load the stored layout if present, then write the state back. */
    constructor Mount(initial: Storage)
      ensures Valid()
      ensures blocks == Load(initial)
      ensures storage == Save(initial, blocks)
    {
      blocks := Load(initial);
      storage := Save(initial, Load(initial));
    }

    method BringToFront(id: int)
      requires Valid()
      modifies this
      ensures Valid()
      ensures blocks == Layout.BringToFront(old(blocks), id)
      ensures storage == Save(old(storage), blocks)
      ensures Layout.UniqueIds(old(blocks)) ==> Layout.UniqueIds(blocks)
    {
      if Layout.UniqueIds(blocks) {
        Layout.OperationsPreserveUniqueIds(blocks, id, 0, 0);
      }
      blocks := Layout.BringToFront(blocks, id);
      storage := Save(storage, blocks);
    }

    method UpdatePosition(id: int, x: int, y: int)
      requires Valid()
      modifies this
      ensures Valid()
      ensures blocks == Layout.UpdatePosition(old(blocks), id, x, y)
      ensures storage == Save(old(storage), blocks)
      ensures Layout.UniqueIds(old(blocks)) ==> Layout.UniqueIds(blocks)
    {
      if Layout.UniqueIds(blocks) {
        Layout.OperationsPreserveUniqueIds(blocks, id, x, y);
      }
      blocks := Layout.UpdatePosition(blocks, id, x, y);
      storage := Save(storage, blocks);
    }

    method UpdateSize(id: int, width: int, height: int)
      requires Valid()
      modifies this
      ensures Valid()
      ensures blocks == Layout.UpdateSize(old(blocks), id, width, height)
      ensures storage == Save(old(storage), blocks)
      ensures Layout.UniqueIds(old(blocks)) ==> Layout.UniqueIds(blocks)
    {
      if Layout.UniqueIds(blocks) {
        Layout.OperationsPreserveUniqueIds(blocks, id, width, height);
      }
      blocks := Layout.UpdateSize(blocks, id, width, height);
      storage := Save(storage, blocks);
    }

    method DeleteBlock(id: int)
      requires Valid()
      modifies this
      ensures Valid()
      ensures blocks == Layout.DeleteBlock(old(blocks), id)
      ensures storage == Save(old(storage), blocks)
      ensures Layout.UniqueIds(old(blocks)) ==> Layout.UniqueIds(blocks)
    {
      if Layout.UniqueIds(blocks) {
        Layout.OperationsPreserveUniqueIds(blocks, id, 0, 0);
      }
      blocks := Layout.DeleteBlock(blocks, id);
      storage := Save(storage, blocks);
    }

    /** `resetBlocks`: back to the defaults, written to storage at once. */
    method ResetBlocks()
      requires Valid()
      modifies this
      ensures Valid()
      ensures blocks == Layout.DefaultBlocks()
      ensures storage == Save(old(storage), Layout.DefaultBlocks())
    {
      blocks := Layout.DefaultBlocks();
      storage := Save(storage, blocks);
    }
  }
}
