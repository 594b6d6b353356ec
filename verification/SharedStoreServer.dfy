/**
 `writeGroup` and `readGroup` as the two programs run them on one database connection: statements that
 change a table, in the order of the code, with a try/catch around all but the first.
 */
module SharedStoreServer {
  import opened Common
  import opened GroupNames
  import opened SharedStore

  datatype Reply =
    | Written(group: Text, currentRevision: nat)
    | RevisionConflict(currentRevision: nat)
    | Rejected(reason: Rejection)
    | SqlError

  datatype ReadReply =
    | Found(group: Text, content: Option<Text>, currentRevision: nat)
    | NotRead(reason: Rejection)
    | ReadFailed

  /** Which statements of one call succeed. */
  datatype Faults = Faults(begin: bool, select: bool, write: bool, commit: bool, rollback: bool)

  class Database {
    var table: Table
    var working: Option<Table>   // the open transaction of this connection

    /** A connection to a database file: what is in it is what is committed. */
    constructor (committed: Table)
      ensures table == committed && working == None
    {
      table := committed;
      working := None;
    }

    /** `readGroup`; its one statement may fail. */
    method ReadGroup(nfc: Text -> Text, groupValue: Argument, selectOk: bool) returns (r: ReadReply)
      ensures r.NotRead? <==> NormalizeGroup(nfc, groupValue).Err?
      ensures r.NotRead? ==> r.reason == NormalizeGroup(nfc, groupValue).error
      ensures r.ReadFailed? <==> NormalizeGroup(nfc, groupValue).Ok? && !selectOk
      ensures r.Found? ==>
                && NormalizeGroup(nfc, groupValue) == Ok(r.group)
                && r.content == StoreContent(Abs(table), r.group)
                && r.currentRevision == StoreRevision(Abs(table), r.group)
    {
      var normalized := NormalizeGroup(nfc, groupValue);
      if normalized.Err? {
        return NotRead(normalized.error);
      }
      if !selectOk {
        return ReadFailed;
      }
      var row := RowOf(table, normalized.value);
      return Found(normalized.value, ContentOf(row), RevisionOf(row));
    }

    /**
     `writeGroup`. The whole table afterwards is the atomic map after one set, or it is unchanged; no
     transaction is left open, whichever statement fails.
     */
    method WriteGroup(program: Program, nfc: Text -> Text, input: SetInput, faults: Faults, nowMs: int) returns (r: Reply)
      requires working == None
      modifies this
      ensures working == None
      ensures r.Rejected? <==> ValidateSet(program, nfc, input).Err?
      ensures r.Rejected? ==> r.reason == ValidateSet(program, nfc, input).error
      ensures r.Rejected? || r.SqlError? || r.RevisionConflict? ==> table == old(table)
      ensures r.Written? ==>
                var request := ValidateSet(program, nfc, input).value;
                && r.group == request.key
                && Legal(Abs(old(table)), Set(request, None, Stored(r.currentRevision)))
                && Abs(table) == Effect(Abs(old(table)), Set(request, None, Stored(r.currentRevision)))
                && table == old(table)[request.key := Row(request.content, r.currentRevision, nowMs)]
      ensures r.RevisionConflict? ==>
                Legal(Abs(old(table)), Set(ValidateSet(program, nfc, input).value, None, Conflict(r.currentRevision)))
      ensures r.Written? ==> faults.begin && faults.select && faults.write && faults.commit
      ensures r.RevisionConflict? ==> faults.begin && faults.select && faults.rollback
      ensures r.SqlError? <==>
                && ValidateSet(program, nfc, input).Ok?
                && (|| !faults.begin || !faults.select
                    || (if StoreRevision(Abs(old(table)), ValidateSet(program, nfc, input).value.key)
                           == ValidateSet(program, nfc, input).value.expected
                        then !faults.write || !faults.commit else !faults.rollback))
    {
      var validated := ValidateSet(program, nfc, input);
      if validated.Err? {
        return Rejected(validated.error);
      }
      var request := validated.value;
      if !faults.begin {
        return SqlError;
      }
      working := Some(table);
      var failed := !faults.select;
      if !failed {
        var current := RowOf(working.value, request.key);
        var currentRevision := RevisionOf(current);
        if currentRevision != request.expected {
          if faults.rollback {
            working := None;
            return RevisionConflict(currentRevision);
          }
          failed := true;
        } else {
          var nextRevision := currentRevision + 1;
          if faults.write {
            working := Some(working.value[request.key := Row(request.content, nextRevision, nowMs)]);
          } else {
            failed := true;
          }
          if !failed && faults.commit {
            table := working.value;
            working := None;
            return Reply.Written(request.key, nextRevision);
          }
        }
      }
      // catch: roll back, ignoring a rollback that fails because SQLite has already ended the transaction
      working := None;
      return SqlError;
    }
  }
}
