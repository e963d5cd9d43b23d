/** The INSERT statement assembler: a column list and the value tuples of the accepted records. */
module Insert {
  import opened Errors
  import opened Strings

  /** One record written as a tuple: `format!("({})", record.join(", "))`. */
  function Tuple(record: seq<string>): string
  {
    "(" + Join(record, ", ") + ")"
  }

  function Tuples(records: seq<seq<string>>): (r: seq<string>)
    ensures |r| == |records|
    ensures forall k :: 0 <= k < |records| ==> r[k] == Tuple(records[k])
  {
    if |records| == 0 then [] else Tuples(records[..|records| - 1]) + [Tuple(records[|records| - 1])]
  }

  /** `InsertQuery::build`: the column check comes before the values check. */
  function BuildInsert(table: string, columns: seq<string>, values: seq<string>): Result<string>
  {
    if |columns| == 0 then Err(NoInsertFields)
    else if |values| == 0 then Err(NoInsertValues)
    else Ok("INSERT INTO " + table + " (" + Join(columns, ", ") + ") VALUES " + Join(values, ", "))
  }

  /** The statement succeeds exactly when there are columns and values; with no columns it is
      `NoInsertFields` whatever the values, and with columns but no values `NoInsertValues`. */
  lemma BuildInsertOutcome(table: string, columns: seq<string>, values: seq<string>)
    ensures BuildInsert(table, columns, values).Ok? <==> |columns| > 0 && |values| > 0
    ensures |columns| == 0 ==> BuildInsert(table, columns, values) == Err(NoInsertFields)
    ensures |columns| > 0 && |values| == 0 ==> BuildInsert(table, columns, values) == Err(NoInsertValues)
  {
  }

  /** Accepting one more record adds its tuple after the earlier ones in the VALUES list, and a
      statement that could be built stays buildable. */
  lemma {:induction false} BuildInsertAfterRecord(table: string, columns: seq<string>, values: seq<string>, record: seq<string>)
    requires |columns| > 0
    ensures BuildInsert(table, columns, values + [Tuple(record)]).Ok?
    ensures |values| > 0 ==>
      BuildInsert(table, columns, values + [Tuple(record)]).value
        == BuildInsert(table, columns, values).value + ", " + Tuple(record)
  {
    if |values| > 0 {
      JoinSnoc(values, Tuple(record), ", ");
    }
  }

  /** `InsertQuery`: the column list and the rendered tuples grow in place. The ghost `records`
      lists the accepted records in order; `values` is always their tuples. */
  class InsertQuery {
    var table: string
    var columns: seq<string>
    var values: seq<string>
    ghost var records: seq<seq<string>>

    ghost predicate Valid()
      reads this
    {
      values == Tuples(records)
    }

    /** `InsertQuery::new`. */
    constructor (table: string)
      ensures Valid()
      ensures this.table == table && columns == [] && values == [] && records == []
    {
      this.table := table;
      columns := [];
      values := [];
      records := [];
    }

    function Build(): Result<string>
      reads this
    {
      BuildInsert(table, columns, values)
    }

    method AddColumn(column: string)
      modifies this`columns
      ensures columns == old(columns) + [column]
    {
      columns := columns + [column];
    }

    method AddColumns(newColumns: seq<string>)
      modifies this`columns
      ensures columns == old(columns) + newColumns
    {
      columns := columns + newColumns;
    }

    /** Appends one tuple; refuses a record when there are no columns or when its length is not
      the number of columns, and then changes nothing. */
    method AddRecordRaw(record: seq<string>) returns (r: Result<()>)
      requires Valid()
      modifies this`values, this`records
      ensures Valid()
      ensures |columns| == 0 ==> r == Err(NoInsertFields)
      ensures |columns| > 0 && |columns| != |record| ==> r == Err(FieldValueNotMatch(|columns|, |record|))
      ensures |columns| > 0 && |columns| == |record| ==> r == Ok(())
      ensures r.Ok? ==> records == old(records) + [record] && values == old(values) + [Tuple(record)]
      ensures r.Err? ==> records == old(records) && values == old(values)
    {
      if |columns| == 0 {
        return Err(NoInsertFields);
      }
      if |columns| > 0 && |columns| != |record| {
        return Err(FieldValueNotMatch(|columns|, |record|));
      }
      values := values + [Tuple(record)];
      records := records + [record];
      assert records[..|records| - 1] == old(records);
      r := Ok(());
    }

    /** Appends the tuple of a record given as a value and its `as_insert_record` conversion.
      The length check applies only when columns exist: with none, any record is accepted. */
    method AddRecordFrom<T>(record: T, asInsertRecord: T -> seq<string>) returns (r: Result<()>)
      requires Valid()
      modifies this`values, this`records
      ensures Valid()
      ensures |columns| > 0 && |columns| != |asInsertRecord(record)| ==>
        r == Err(FieldValueNotMatch(|columns|, |asInsertRecord(record)|))
      ensures |columns| == 0 || |columns| == |asInsertRecord(record)| ==> r == Ok(())
      ensures r.Ok? ==> records == old(records) + [asInsertRecord(record)] && values == old(values) + [Tuple(asInsertRecord(record))]
      ensures r.Err? ==> records == old(records) && values == old(values)
    {
      var fields := asInsertRecord(record);
      if |columns| > 0 && |columns| != |fields| {
        return Err(FieldValueNotMatch(|columns|, |fields|));
      }
      values := values + [Tuple(asInsertRecord(record))];
      records := records + [fields];
      assert records[..|records| - 1] == old(records);
      r := Ok(());
    }
  }
}
