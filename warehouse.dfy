/** The analytical warehouse as seen by the agents: a log of row inserts. */
module Warehouse {
  import opened Models

  /** The dataset behind `BigQueryService.insert_rows`: every call appends
      one entry to `inserts`; nothing is ever updated or removed. */
  class Dataset {
    var inserts: seq<InsertCall>

    constructor ()
      ensures inserts == []
    {
      inserts := [];
    }

    /** `insert_rows(table_name, rows)`. */
    method InsertRows(table: string, rows: seq<Row>)
      modifies this
      ensures inserts == old(inserts) + [InsertCall(table, rows)]
    {
      inserts := inserts + [InsertCall(table, rows)];
    }
  }
}
