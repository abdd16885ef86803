# Interactive workspace: transaction ledger and layout store

A Dafny model of the two state-update cores of the interactive-workspace browser app:

- **The transaction feed** (`transactions.dfy`, module `Transactions`). Each parsed
  stream message has an `op`, and it may carry an `x` payload with `inputs` (each with
  an optional `prev_out.addr`) and `out` (each with an optional `addr` and an integer
  `value`). A `"utx"` message becomes a record `{from, to, total}`:
  - `from` is the first input's address, or `"Unknown"` when that address is missing or empty.
  - `to` is the first output's address, with the same `"Unknown"` fallback.
  - `total` is the sum of the output values in satoshis.

  The record is prepended to the history, which is then cut to 20 entries. The
  displayed total is a reduce over the history. The class `Ledger` holds the
  `transactions` state. Its `OnMessage` method is the message handler. `Reset` clears
  the history. `TotalSum` is the displayed total.
- **The layout store** (`layout.dfy`, module `Layout`; `workspace.dfy`, module
  `Workspace`). A workspace is a sequence of `Block {id, x, y, width, height, zIndex}`
  that starts as five default blocks. `Layout` holds the page's pure transforms:
  `bringToFront`, `updatePosition`, `updateSize` and `deleteBlock`. The class
  `Workspace.LayoutStore` holds `blocks` and an abstract `storage` map. Each method
  applies one transform and writes the whole sequence under the key `"blocks"`, so
  `Valid()` (storage holds the current blocks) is kept by every method. The constructor
  `Mount` loads the stored sequence if there is one and keeps the defaults otherwise.

Amounts are integer satoshis. The page itself divides by 1e8 and shows floats; that
display step is not modelled.

## Model

| member | source | states |
|---|---|---|
| `Transactions.OrUnknown` | src/app/transactions/page.tsx:38-39 | JavaScript's logical-or fallback to `"Unknown"`: the address itself when it is present and non-empty. Otherwise the result is `"Unknown"`, never empty. |
| `Transactions.Sender` | src/app/transactions/page.tsx:38 | `from` is the first input's `prev_out.addr` when that is present and non-empty. It is `"Unknown"` when there are no inputs. Any other result is `"Unknown"`, never empty. |
| `Transactions.Recipient` | src/app/transactions/page.tsx:39 | `to` is the first output's `addr` when present and non-empty. It is `"Unknown"` when there are no outputs. Any other result is `"Unknown"`, never empty. |
| `Transactions.Reduce` | src/app/transactions/page.tsx:40-41 | The left-to-right `reduce` with `+` from seed `acc` equals `acc` plus the structural sum. The same fold gives `totalSum` at line 89. |
| `Transactions.Derive` | src/app/transactions/page.tsx:35-44 | The record has the sender, the recipient, and a total equal to the sum of all output values (0 when there are none), even though it is computed by the reduce. |
| `Transactions.ExampleRecord` | src/app/transactions/page.tsx:35-44 | One input "A" and one output of 150000000 to "B series" give `{A, B series, 150000000}`. |
| `Transactions.NoInputsIsUnknown` | src/app/transactions/page.tsx:38 | A message with no inputs is credited to `"Unknown"`. |
| `Transactions.Accept` | src/app/transactions/page.tsx:34-36 | A message makes a record exactly when its `op` is `"utx"` and it carries `x`. That record is the one derived from `x`. |
| `Transactions.Push` | src/app/transactions/page.tsx:43-46 | The new record is at index 0. Index i ≥ 1 holds the old entry i-1. The length is `min(|h|+1, 20)`. |
| `Transactions.Step` | src/app/transactions/page.tsx:34-46 | With no accepted record, the history is unchanged. With one, it is at index 0, index i ≥ 1 holds the old entry i-1, and the length is `min(|h|+1, 20)`. |
| `Transactions.Replay` | src/app/transactions/page.tsx:31-47 | Messages applied in arrival order, starting from a history of at most 20, end in a history of at most 20. |
| `Transactions.StepIgnores` | src/app/transactions/page.tsx:34 | A message that is not an accepted `"utx"` leaves the history unchanged. |
| `Transactions.ReplayWindow` | src/app/transactions/page.tsx:31-47 | After any message sequence, starting from a history of at most 20, the history is the reversed accepted records followed by the old history, cut to 20. |
| `Transactions.FromEmpty` | src/app/transactions/page.tsx:43-46 | Starting from empty, the length is `min(accepted, 20)`, and index i holds the i-th newest accepted record. |
| `Transactions.AllAccepted` | src/app/transactions/page.tsx:34 | When every message is a `"utx"` with `x`, there is one accepted record per message, in order. |
| `Transactions.LastTwenty` | src/app/transactions/page.tsx:43-46 | After N ≥ 20 `"utx"` messages from empty, the history holds exactly the last 20 messages' records, newest first. |
| `Transactions.PushTotal` | src/app/transactions/page.tsx:89 | After a push, the total over the history is the old total plus the new record's total, minus the total of the entry evicted at index 19 when the history was full. |
| `Transactions.Ledger.constructor` | src/app/transactions/page.tsx:13 | The history starts empty. |
| `Transactions.Ledger.OnMessage` | src/app/transactions/page.tsx:31-47 | The new history is `Step` of the old one. The length bound holds. The displayed total changes by the new total minus the evicted one. |
| `Transactions.Ledger.Reset` | src/app/transactions/page.tsx:71-74 | The history is empty and the displayed total is 0. |
| `Transactions.Ledger.TotalSum` | src/app/transactions/page.tsx:89 | The reduce over the history equals the sum of the records' totals. |
| `Layout.DefaultBlocks` | src/app/workspace/page.tsx:18-25 | There are 5 blocks. Block i has id i+1, x = y = 10+40i, size 300×100 and zIndex i+1. Ids are `[1..5]` and unique, and z-order strictly ascends. |
| `Layout.MaxZ` | src/app/workspace/page.tsx:42 | The result is at least every block's zIndex and is attained by some block. |
| `Layout.BringToFront` | src/app/workspace/page.tsx:41-46 | Length and ids are kept. Only zIndex can change, and only on blocks with the id. Those get old max + 1, strictly above every block with another id. |
| `Layout.BringToFrontStrictMax` | src/app/workspace/page.tsx:41-46 | With unique ids, the raised block's zIndex grows and is strictly above every other block's. |
| `Layout.BringToFrontAbsent` | src/app/workspace/page.tsx:44 | Raising an absent id changes nothing. |
| `Layout.UpdatePosition` | src/app/workspace/page.tsx:48-50 | Length and ids are kept. Only x and y can change, and only on blocks with the id, which get the new position. Other blocks are unchanged. |
| `Layout.UpdatePositionAbsent` | src/app/workspace/page.tsx:49 | Moving an absent id changes nothing. |
| `Layout.UpdateSize` | src/app/workspace/page.tsx:52-56 | Length and ids are kept. Only width and height can change, and only on blocks with the id, which get the new size. Other blocks are unchanged. |
| `Layout.UpdateSizeAbsent` | src/app/workspace/page.tsx:54 | Resizing an absent id changes nothing. |
| `Layout.DeleteBlock` | src/app/workspace/page.tsx:58-60 | A block is in the result exactly when it was in the input and has another id. The result is no longer than the input. |
| `Layout.DeleteAppend` | src/app/workspace/page.tsx:59 | Deleting distributes over concatenation, so survivors keep their relative order. |
| `Layout.DeleteAbsent` | src/app/workspace/page.tsx:59 | Deleting an absent id changes nothing. |
| `Layout.DeleteRemovesId` | src/app/workspace/page.tsx:59 | No block with the id remains. |
| `Layout.DeleteIdempotent` | src/app/workspace/page.tsx:58-60 | Deleting twice is the same as deleting once. |
| `Layout.DeletePreservesUniqueIds` | src/app/workspace/page.tsx:59 | Deleting keeps ids unique. |
| `Layout.OperationsPreserveUniqueIds` | src/app/workspace/page.tsx:41-60 | Raise, move, resize and delete all keep ids unique. |
| `Workspace.Save` | src/app/workspace/page.tsx:37-39 | The slot `"blocks"` holds the sequence, and every other key is unchanged. |
| `Workspace.Load` | src/app/workspace/page.tsx:30-35 | The result is the stored sequence when the slot is present, and the default blocks otherwise. |
| `Workspace.SaveThenLoad` | src/app/workspace/page.tsx:30-39 | Saving and then loading is the identity. |
| `Workspace.LoadEmpty` | src/app/workspace/page.tsx:28-35 | With nothing stored, the workspace shows 5 blocks with unique ids. |
| `Workspace.LayoutStore.Mount` | src/app/workspace/page.tsx:28-39 | The blocks are what `Load` gives. Storage is the initial storage with that sequence written back. Write-through holds. |
| `Workspace.LayoutStore.BringToFront` | src/app/workspace/page.tsx:41-46 | The blocks are `Layout.BringToFront` of the old blocks. Storage gets them written through. Unique ids stay unique. |
| `Workspace.LayoutStore.UpdatePosition` | src/app/workspace/page.tsx:48-50 | The blocks are `Layout.UpdatePosition` of the old blocks, written through. Unique ids stay unique. |
| `Workspace.LayoutStore.UpdateSize` | src/app/workspace/page.tsx:52-56 | The blocks are `Layout.UpdateSize` of the old blocks, written through. Unique ids stay unique. |
| `Workspace.LayoutStore.DeleteBlock` | src/app/workspace/page.tsx:58-60 | The blocks are `Layout.DeleteBlock` of the old blocks, written through. Unique ids stay unique. |
| `Workspace.LayoutStore.ResetBlocks` | src/app/workspace/page.tsx:62-65 | The blocks are the defaults, and the slot `"blocks"` holds the defaults. |

## Left out

- WebSocket lifecycle (`connect`, `disconnect`, the `onopen`/`onerror`/`onclose` callbacks, the subscribe message, the mount/unmount effect): network plumbing. Messages are modelled as arriving one at a time, in order, already parsed. `Reset` models only the history-clearing half of `reset`. The `isConnected` flag is not modelled.
- `JSON.parse` of the raw message: a malformed payload makes the handler throw before the history is touched, so it is a no-op like an ignored message. A `"utx"` message without `x` is modelled the same way (`x` is an `Option`). `inputs`/`out` are assumed present, and every `value` is assumed to be an integer.
- Floating-point amounts: the `/1e8` scaling, float addition in `reduce` and `toFixed(6)` display. Totals are exact integer satoshis.
- `JSON.stringify`/`JSON.parse` and `localStorage`: storage is a `map<string, seq<Block>>`. Block coordinates and sizes are integers.
- React specifics: `bringToFront` takes `maxZ` from the rendered `blocks` while mapping over the updater's `prev`. The model uses one sequence for both. On mount, the write effect first writes the defaults and then, after the stored value is applied, writes that value. Only the settled state is modelled.
- react-rnd drag/resize mechanics, `bounds="parent"` and the 100×100 minimums: the library enforces them, not the store, which accepts any size.
- `Math.max` of an empty list is `-Infinity`. `Layout.BringToFront` on an empty workspace returns it unchanged, which is also what the source's map over an empty array does.
- `src/app/page.tsx`: static navigation markup with no logic.
