/** The DELETE statement assembler, a value that is rebuilt rather than changed. */
module Delete {
  import opened Errors
  import Strings
  import Where

  datatype DeleteQuery = DeleteQuery(table: string, whereClause: Option<Where.Predicate>)
  {
    /** `DeleteQuery::new`: no where-clause yet. */
    static function New(table: string): (q: DeleteQuery)
      ensures q.table == table && q.whereClause.None?
    {
      DeleteQuery(table, None)
    }

    /** `where_clause` takes the query by value and returns it with the where-clause replaced. */
    function WhereClause(whereClause: Where.Predicate): (q: DeleteQuery)
      ensures q.table == table && q.whereClause == Some(whereClause)
    {
      this.(whereClause := Some(whereClause))
    }

    /** `DeleteQuery::build`: refuses a query without a where-clause (deleting every row), and passes
        on an error from rendering the where-clause. */
    function Build(): Result<string>
    {
      match whereClause
      case None => Err(NoDeleteConditions)
      case Some(p) =>
        match p.Build()
        case Err(e) => Err(e)
        case Ok(w) => Ok("DELETE FROM " + table + " WHERE " + w)
    }
  }

  /** Built exactly when a where-clause is set and renders; the statement then embeds that
      rendering; otherwise the error says which of the two failed. */
  lemma BuildDeleteOutcome(q: DeleteQuery)
    ensures q.Build().Ok? <==> q.whereClause.Some? && q.whereClause.value.Build().Ok?
    ensures q.whereClause.None? ==> q.Build() == Err(NoDeleteConditions)
    ensures q.whereClause.Some? && q.whereClause.value.Build().Err? ==> q.Build() == Err(q.whereClause.value.Build().error)
    ensures q.Build().Ok? ==> q.Build().value == "DELETE FROM " + q.table + " WHERE " + q.whereClause.value.Build().value
  {
  }

  /** A fresh query is refused; setting a where-clause twice keeps only the second. */
  lemma WhereClauseLastWins(table: string, first: Where.Predicate, second: Where.Predicate)
    ensures DeleteQuery.New(table).Build() == Err(NoDeleteConditions)
    ensures DeleteQuery.New(table).WhereClause(first).WhereClause(second) == DeleteQuery.New(table).WhereClause(second)
  {
  }

  /** With a where-clause made from an accumulator, the statement is built, embeds the
      accumulator's rendering, and (with no `?` in the table or any column name) holds exactly as
      many placeholders as the accumulator's conditions bind values. */
  lemma DeleteFromClauses(table: string, cs: seq<Where.WhereClause>)
    ensures DeleteQuery.New(table).WhereClause(Where.Predicate.FromClauses(cs)).Build()
      == Ok("DELETE FROM " + table + " WHERE " + Where.Render(cs))
    ensures Strings.Occurrences('?', table) == 0 && Where.ColumnsFree(cs) ==>
      Strings.Occurrences('?', DeleteQuery.New(table).WhereClause(Where.Predicate.FromClauses(cs)).Build().value)
        == Where.Arities(cs)
  {
    if Strings.Occurrences('?', table) == 0 && Where.ColumnsFree(cs) {
      Where.RenderPlaceholders(cs);
      DeleteMarks();
    }
  }

  lemma DeleteMarks()
    ensures Strings.Occurrences('?', "DELETE FROM ") == 0 && Strings.Occurrences('?', " WHERE ") == 0
  {
  }
}
