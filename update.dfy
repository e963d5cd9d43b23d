/** The UPDATE statement assembler: assignments in the order they were set, and one where-clause. */
module Update {
  import opened Errors
  import opened Strings
  import Repr
  import Where

  /** Each `(field, value)` pair as `field = value`. */
  function Assignments(fields: seq<(string, string)>): (r: seq<string>)
    ensures |r| == |fields|
  {
    if |fields| == 0 then []
    else Assignments(fields[..|fields| - 1]) + [fields[|fields| - 1].0 + " = " + fields[|fields| - 1].1]
  }

  /** The SET list: the assignments joined by `, `. */
  function SetList(fields: seq<(string, string)>): string
  {
    Join(Assignments(fields), ", ")
  }

  /** `UpdateQuery::build`: no fields is refused first, then a missing where-clause; an error from
      rendering the where-clause is passed on unchanged. */
  function BuildUpdate(table: string, fields: seq<(string, string)>, whereClause: Option<Where.Predicate>): Result<string>
  {
    if |fields| == 0 then Err(NoUpdateFields)
    else
      match whereClause
      case None => Err(NoUpdateConditions)
      case Some(p) =>
        match p.Build()
        case Err(e) => Err(e)
        case Ok(w) => Ok("UPDATE " + table + " SET " + SetList(fields) + " WHERE " + w)
  }

  /** The statement is built exactly when there are fields and a where-clause that renders; each
      way to fail gives its own error, in that order of precedence. */
  lemma BuildUpdateOutcome(table: string, fields: seq<(string, string)>, whereClause: Option<Where.Predicate>)
    ensures BuildUpdate(table, fields, whereClause).Ok?
      <==> |fields| > 0 && whereClause.Some? && whereClause.value.Build().Ok?
    ensures |fields| == 0 ==> BuildUpdate(table, fields, whereClause) == Err(NoUpdateFields)
    ensures |fields| > 0 && whereClause.None? ==> BuildUpdate(table, fields, whereClause) == Err(NoUpdateConditions)
    ensures |fields| > 0 && whereClause.Some? && whereClause.value.Build().Err? ==>
      BuildUpdate(table, fields, whereClause) == Err(whereClause.value.Build().error)
  {
  }

  /** Setting one more field adds `, field = value` at the end of a non-empty SET list; the earlier
      assignments keep their text and order. */
  lemma {:induction false} SetListSnoc(fields: seq<(string, string)>, field: string, value: string)
    requires |fields| > 0
    ensures SetList(fields + [(field, value)]) == SetList(fields) + ", " + field + " = " + value
  {
    var more := fields + [(field, value)];
    assert more[..|more| - 1] == fields;
    JoinSnoc(Assignments(fields), field + " = " + value, ", ");
  }

  /** The k-th assignment is the k-th field, ` = `, and its value. */
  lemma {:induction false} AssignmentsAt(fields: seq<(string, string)>, k: nat)
    requires k < |fields|
    ensures Assignments(fields)[k] == fields[k].0 + " = " + fields[k].1
  {
    if k < |fields| - 1 {
      AssignmentsAt(fields[..|fields| - 1], k);
    }
  }

  /** `UpdateQuery`: fields are appended in place and the where-clause is overwritten. */
  class UpdateQuery {
    var table: string
    var fields: seq<(string, string)>
    var whereClause: Option<Where.Predicate>

    /** `UpdateQuery::new`. */
    constructor (table: string)
      ensures this.table == table && fields == [] && whereClause == None
    {
      this.table := table;
      fields := [];
      whereClause := None;
    }

    function Build(): Result<string>
      reads this
    {
      BuildUpdate(table, fields, whereClause)
    }

    /** Records the field with the literal text of its value, after the earlier ones. */
    method SetField(field: string, value: Repr.Value)
      modifies this`fields
      ensures fields == old(fields) + [(field, Repr.ToSqlRepr(value))]
      ensures old(fields) != [] ==> SetList(fields) == old(SetList(fields)) + ", " + field + " = " + Repr.ToSqlRepr(value)
    {
      fields := fields + [(field, Repr.ToSqlRepr(value))];
      if old(fields) != [] {
        SetListSnoc(old(fields), field, Repr.ToSqlRepr(value));
      }
    }

    /** Replaces any earlier where-clause: the last one set wins. */
    method AddWhereClause(whereClause: Where.Predicate)
      modifies this`whereClause
      ensures this.whereClause == Some(whereClause)
    {
      this.whereClause := Some(whereClause);
    }
  }
}
