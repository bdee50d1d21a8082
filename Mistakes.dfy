/**
 * The mistakes table, seen as an append-only sequence of five-field records.
 * The SQL statements and the connection handling are reduced to what they do to
 * that sequence; a storage fault is an input chosen by the environment.
 */
module Mistakes {
  import opened Types

  /** What goes wrong, if anything, while storing one mistake. */
  datatype StorageFault =
    | NoFault
    | ConnectFault  // opening the database fails
    | InsertFault   // the INSERT or the commit fails on an open connection

  class MistakeTable {
    var rows: seq<MistakeRecord>

    /** The table as it stands when the application starts; earlier rows persist. */
    constructor (existing: seq<MistakeRecord>)
      ensures rows == existing
    {
      rows := existing;
    }

    /**
     * Stores one mistake, its five fields taken from the arguments in order.
     * Any fault is swallowed: the row is then simply not added.
     */
    method StoreMistake(nativeLang: string, targetLang: string, errorSentence: string,
                        correctedSentence: string, errorType: string, fault: StorageFault)
      modifies this
      ensures fault == NoFault ==>
        rows == old(rows) + [MistakeRecord(nativeLang, targetLang, errorSentence, correctedSentence, errorType)]
      ensures fault != NoFault ==> rows == old(rows)
    {
      if fault == NoFault {
        rows := rows + [MistakeRecord(nativeLang, targetLang, errorSentence, correctedSentence, errorType)];
      }
    }

    /**
     * The same operation with the connection handling as written: when opening the
     * database fails, the cleanup step closes a connection that was never bound and
     * raises, so the fault reaches the caller after all.
     */
    method StoreMistakeAsWritten(nativeLang: string, targetLang: string, errorSentence: string,
                                 correctedSentence: string, errorType: string, fault: StorageFault)
      returns (raised: bool)
      modifies this
      ensures raised <==> fault == ConnectFault
      ensures fault == NoFault ==>
        rows == old(rows) + [MistakeRecord(nativeLang, targetLang, errorSentence, correctedSentence, errorType)]
      ensures fault != NoFault ==> rows == old(rows)
    {
      raised := false;
      if fault == NoFault {
        rows := rows + [MistakeRecord(nativeLang, targetLang, errorSentence, correctedSentence, errorType)];
      }
      // the `finally` clause runs `conn.close()` whether or not `conn` was bound
      var connBound := fault != ConnectFault;
      if !connBound {
        raised := true;
      }
    }
  }

  /**
   * A concrete run of the as-written operation: a database that cannot be opened
   * makes the call raise, where the tutor's turn expects it to return quietly.
   */
  method ConnectFaultEscapes() returns (raised: bool, rowAdded: bool)
    ensures raised && !rowAdded
  {
    var table := new MistakeTable([]);
    raised := table.StoreMistakeAsWritten("English", "Spanish", "dos cafe", "dos cafés", "grammar", ConnectFault);
    rowAdded := table.rows != [];
  }
}
