/**
 * Jupyter notebooks as `nbformat` reads them. A cell is a dictionary whose `metadata` and `outputs`
 * entries may be missing; a notebook object holds its cells, whose `source` may be rewritten in place.
 */
module Notebook {
  import opened PyModel

  datatype Cell = Cell(
    cellType: string,
    /** `cell["metadata"]`, `None` when the key is missing. */
    metadata: Option<map<string, Value>>,
    source: string,
    /** `cell["outputs"]`, each output a dictionary; `None` when the key is missing. */
    outputs: Option<seq<Value>>)

  class NotebookDoc {
    var cells: seq<Cell>

    constructor (cells: seq<Cell>)
      ensures this.cells == cells
    {
      this.cells := cells;
    }
  }
}
