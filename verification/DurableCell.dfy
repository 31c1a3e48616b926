/**
 The abstract behaviour of one privately owned file that is only ever replaced as a whole.

 `visible` is what a reader sees while the machine keeps running. `outcomes` are the contents a power loss may
 leave behind: after a rename whose directory entry has not reached the disk, both the old and the new content
 are possible.
 */
module DurableCell {
  datatype Cell<T> = Cell(visible: T, outcomes: set<T>)
  {
    ghost predicate Valid() { visible in outcomes }

    // Nothing but the visible content can survive a power loss.
    ghost predicate Settled() { outcomes == {visible} }
  }

  // How one attempt to replace the file ends: reported success, failure before the rename, or failure after it.
  datatype SaveResult = Saved | NotReplaced | ReplacedNotSynced

  function AfterSave<T>(cell: Cell<T>, content: T, result: SaveResult): Cell<T> {
    match result
    case Saved => Cell(content, {content})
    case NotReplaced => cell
    case ReplacedNotSynced => Cell(content, cell.outcomes + {content})
  }

  // The kernel writing the directory entry back on its own.
  function AfterWriteback<T>(cell: Cell<T>): Cell<T> {
    Cell(cell.visible, {cell.visible})
  }

  function AfterPowerLoss<T>(survivor: T): Cell<T> {
    Cell(survivor, {survivor})
  }

  // The same cell seen through a decoder of its contents.
  ghost function Decoded<S, T>(cell: Cell<S>, decode: S -> T): Cell<T> {
    Cell(decode(cell.visible), set content | content in cell.outcomes :: decode(content))
  }

  // Replacing the raw content of a file replaces the decoded content in the same way, so a byte-level save
  // implements the state-level save of the identity protocol.
  lemma DecodingCommutesWithSave<S, T>(cell: Cell<S>, content: S, result: SaveResult, decode: S -> T)
    requires cell.Valid()
    ensures Decoded(AfterSave(cell, content, result), decode) ==
            AfterSave(Decoded(cell, decode), decode(content), result)
    ensures Decoded(cell, decode).Valid()
  {
    assert decode(content) in Decoded(AfterSave(cell, content, Saved), decode).outcomes;
  }
}
