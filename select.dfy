/** The SELECT statement assembler: columns, an optional where-clause, ORDER BY entries, and
    LIMIT/OFFSET. */
module Select {
  import opened Errors
  import opened Strings
  import Repr
  import Where

  /** LIMIT and OFFSET are `u64` values. */
  type U64 = n: nat | n < 0x1_0000_0000_0000_0000

  datatype Order = Asc | Desc

  /** One ORDER BY entry: one or more columns and a direction. */
  datatype OrderBy = OrderBy(columns: seq<string>, order: Order)
  {
    /** `OrderBy::new`: a single column, ascending. */
    static function New(column: string): (o: OrderBy)
      ensures o.columns == [column] && o.order == Order.Asc
    {
      OrderBy([column], Order.Asc)
    }

    /** `OrderBy::from_columns`: the given columns, ascending. */
    static function FromColumns(columns: seq<string>): (o: OrderBy)
      ensures o.columns == columns && o.order == Order.Asc
    {
      OrderBy(columns, Order.Asc)
    }

    /** `OrderBy::asc` and `OrderBy::desc` change the direction only. */
    function SetAsc(): (o: OrderBy)
      ensures o.columns == columns && o.order == Order.Asc
    {
      this.(order := Order.Asc)
    }

    function SetDesc(): (o: OrderBy)
      ensures o.columns == columns && o.order == Order.Desc
    {
      this.(order := Order.Desc)
    }

    /** `OrderBy::build`: the columns joined by `, `, a space, and `ASC` or `DESC`. The source
        returns this inside `Ok`, and never an error. */
    function Build(): string
    {
      Join(columns, ", ") + " " + (match order case Asc => "ASC" case Desc => "DESC")
    }
  }

  predicate EndsWith(s: string, suffix: string)
  {
    |suffix| <= |s| && s[|s| - |suffix|..] == suffix
  }

  /** The direction can be read back from a rendered entry: it ends in ` DESC` exactly when it is
      descending (and otherwise in ` ASC`), whatever its columns. */
  lemma OrderDirectionReadBack(o: OrderBy)
    ensures EndsWith(o.Build(), " DESC") <==> o.order == Order.Desc
    ensures EndsWith(o.Build(), " ASC") <==> o.order == Order.Asc
  {
    var cols := Join(o.columns, ", ");
    var s := o.Build();
    if o.order == Order.Asc {
      assert s == cols + " ASC";
      assert s[|s| - 4..] == " ASC";
      if |s| >= 5 {
        assert s[|s| - 5..][1] == s[|s| - 4] == ' ';
      }
    } else {
      assert s == cols + " DESC";
      assert s[|s| - 5..] == " DESC";
    }
  }

  /** Each entry rendered, in order. */
  function OrderTexts(entries: seq<OrderBy>): (r: seq<string>)
    ensures |r| == |entries|
    ensures forall k :: 0 <= k < |entries| ==> r[k] == entries[k].Build()
  {
    if |entries| == 0 then [] else [entries[0].Build()] + OrderTexts(entries[1..])
  }

  /** The column list: `*` when no column was chosen. */
  function ColumnList(columns: seq<string>): string
  {
    if |columns| == 0 then "*" else Join(columns, ", ")
  }

  /** The clause's lead-in followed by its text when the clause is present, and nothing otherwise. */
  function OptionalClause(leadIn: string, present: bool, text: string): string
  {
    if present then leadIn + text else ""
  }

  /** Regrouping appended text (a proof step for `WriteTail`). */
  lemma AppendAssoc(a: string, b: string, c: string)
    ensures a + (b + c) == a + b + c
  {
  }

  /** Two `push_str` calls: the clause's lead-in, then its text. */
  method PushClause(sql: string, leadIn: string, text: string) returns (r: string)
    ensures r == sql + OptionalClause(leadIn, true, text)
  {
    r := sql + leadIn;
    r := r + text;
  }

  /** The clauses every statement has: `SELECT <columns> FROM <table>`. */
  function Head(table: string, columns: seq<string>): string
  {
    "SELECT " + ColumnList(columns) + " FROM " + table
  }

  /** The optional clauses after the WHERE clause, in the order the source writes them. */
  function Tail(orderBy: seq<OrderBy>, limit: Option<U64>, offset: Option<U64>): string
  {
    OrderClause(orderBy) + PagingClause(" LIMIT ", limit) + PagingClause(" OFFSET ", offset)
  }

  /** ` ORDER BY ` and the rendered entries joined by `, `, when there is an entry. */
  function OrderClause(orderBy: seq<OrderBy>): string
  {
    OptionalClause(" ORDER BY ", |orderBy| > 0, Join(OrderTexts(orderBy), ", "))
  }

  /** ` LIMIT n` or ` OFFSET n` with the number in decimal, when it is set. */
  function PagingClause(leadIn: string, n: Option<U64>): string
  {
    OptionalClause(leadIn, n.Some?, if n.Some? then Repr.NatToDecimal(n.value) else "")
  }

  /** The SELECT statement as a value: the head, then WHERE, ORDER BY, LIMIT and OFFSET, each
      present exactly when its field is set (ORDER BY when there is an entry); an error from
      rendering the where-clause is the statement's error. */
  function SelectSpec(table: string, columns: seq<string>, whereClause: Option<Where.Predicate>,
                      orderBy: seq<OrderBy>, limit: Option<U64>, offset: Option<U64>): Result<string>
  {
    match whereClause
    case None => Ok(Head(table, columns) + Tail(orderBy, limit, offset))
    case Some(p) =>
      match p.Build()
      case Err(e) => Err(e)
      case Ok(w) => Ok(Head(table, columns) + " WHERE " + w + Tail(orderBy, limit, offset))
  }

  /** With nothing but columns, the statement is `SELECT <columns> FROM <table>`, and `SELECT * FROM
      <table>` when no column was chosen. */
  lemma SelectHeadOnly(table: string, columns: seq<string>)
    ensures SelectSpec(table, columns, None, [], None, None) == Ok("SELECT " + ColumnList(columns) + " FROM " + table)
    ensures SelectSpec(table, [], None, [], None, None) == Ok("SELECT * FROM " + table)
  {
    assert Tail([], None, None) == "";
    assert Head(table, columns) + "" == Head(table, columns);
    assert Head(table, []) + "" == "SELECT * FROM " + table;
  }

  /** Only the where-clause can make the statement fail, and then with its own error. */
  lemma SelectOutcome(table: string, columns: seq<string>, whereClause: Option<Where.Predicate>,
                      orderBy: seq<OrderBy>, limit: Option<U64>, offset: Option<U64>)
    ensures SelectSpec(table, columns, whereClause, orderBy, limit, offset).Ok?
      <==> whereClause.None? || whereClause.value.Build().Ok?
    ensures SelectSpec(table, columns, whereClause, orderBy, limit, offset).Err? ==>
      SelectSpec(table, columns, whereClause, orderBy, limit, offset).error == whereClause.value.Build().error
  {
  }

  /** A set LIMIT or OFFSET is written as its lead-in and then decimal digits that read back as
      the number; an unset one is not written at all. */
  lemma PagingReadBack(leadIn: string, n: U64)
    ensures PagingClause(leadIn, None) == ""
    ensures |PagingClause(leadIn, Some(n))| > |leadIn|
    ensures PagingClause(leadIn, Some(n))[..|leadIn|] == leadIn
    ensures var digits := PagingClause(leadIn, Some(n))[|leadIn|..];
      Repr.AllDigits(digits) && Repr.ParseNat(digits) == n
  {
    Repr.NatToDecimalRoundTrip(n);
    var text := PagingClause(leadIn, Some(n));
    assert text == leadIn + Repr.NatToDecimal(n);
    assert text[|leadIn|..] == Repr.NatToDecimal(n);
  }

  /** `SelectQuery`: every setter changes its own field in place. */
  class SelectQuery {
    var table: string
    var columns: seq<string>
    var whereClause: Option<Where.Predicate>
    var limit: Option<U64>
    var offset: Option<U64>
    var orderBy: seq<OrderBy>

    /** `SelectQuery::new`. */
    constructor (table: string)
      ensures this.table == table && columns == [] && whereClause == None
      ensures limit == None && offset == None && orderBy == []
    {
      this.table := table;
      columns := [];
      whereClause := None;
      limit := None;
      offset := None;
      orderBy := [];
    }

    method AddColumn(column: string)
      modifies this`columns
      ensures columns == old(columns) + [column]
    {
      columns := columns + [column];
    }

    method AddColumns(newColumns: seq<string>)
      modifies this`columns
      ensures columns == old(columns) + newColumns
    {
      columns := columns + newColumns;
    }

    method WhereClause(whereClause: Where.Predicate)
      modifies this`whereClause
      ensures this.whereClause == Some(whereClause)
    {
      this.whereClause := Some(whereClause);
    }

    method Limit(limit: U64)
      modifies this`limit
      ensures this.limit == Some(limit)
    {
      this.limit := Some(limit);
    }

    method Offset(offset: U64)
      modifies this`offset
      ensures this.offset == Some(offset)
    {
      this.offset := Some(offset);
    }

    /** Appends an ascending entry for one column. */
    method OrderByColumn(column: string)
      modifies this`orderBy
      ensures orderBy == old(orderBy) + [OrderBy.New(column)]
    {
      orderBy := orderBy + [OrderBy.New(column)];
    }

    /** Appends one ascending entry for several columns. */
    method OrderByColumns(columns: seq<string>)
      modifies this`orderBy
      ensures orderBy == old(orderBy) + [OrderBy.FromColumns(columns)]
    {
      orderBy := orderBy + [OrderBy.FromColumns(columns)];
    }

    /** Makes the last entry descending; with no entry, refuses and changes nothing. */
    method Desc() returns (r: Result<()>)
      modifies this`orderBy
      ensures old(orderBy) == [] ==> r == Err(NoOrderByClause) && orderBy == old(orderBy)
      ensures old(orderBy) != [] ==>
        r == Ok(()) && orderBy == old(orderBy)[..|old(orderBy)| - 1] + [old(orderBy)[|old(orderBy)| - 1].SetDesc()]
      ensures old(orderBy) != [] ==> EndsWith(orderBy[|orderBy| - 1].Build(), " DESC")
    {
      if |orderBy| == 0 {
        return Err(NoOrderByClause);
      }
      orderBy := orderBy[..|orderBy| - 1] + [orderBy[|orderBy| - 1].SetDesc()];
      OrderDirectionReadBack(orderBy[|orderBy| - 1]);
      r := Ok(());
    }

    /** Makes the last entry ascending; with no entry, refuses and changes nothing. */
    method Asc() returns (r: Result<()>)
      modifies this`orderBy
      ensures old(orderBy) == [] ==> r == Err(NoOrderByClause) && orderBy == old(orderBy)
      ensures old(orderBy) != [] ==>
        r == Ok(()) && orderBy == old(orderBy)[..|old(orderBy)| - 1] + [old(orderBy)[|old(orderBy)| - 1].SetAsc()]
      ensures old(orderBy) != [] ==> EndsWith(orderBy[|orderBy| - 1].Build(), " ASC")
    {
      if |orderBy| == 0 {
        return Err(NoOrderByClause);
      }
      orderBy := orderBy[..|orderBy| - 1] + [orderBy[|orderBy| - 1].SetAsc()];
      OrderDirectionReadBack(orderBy[|orderBy| - 1]);
      r := Ok(());
    }

    /** Replaces the column list with the single column `COUNT(*)`. */
    method Count()
      modifies this`columns
      ensures columns == ["COUNT(*)"]
    {
      columns := [];
      columns := columns + ["COUNT(*)"];
    }

    /** The clauses after WHERE, appended in order to the text written so far. */
    method WriteTail(prefix: string) returns (sql: string)
      ensures sql == prefix + Tail(orderBy, limit, offset)
    {
      sql := prefix;
      if |orderBy| > 0 {
        sql := PushClause(sql, " ORDER BY ", Join(OrderTexts(orderBy), ", "));
      }
      assert sql == prefix + OrderClause(orderBy);
      if limit.Some? {
        sql := PushClause(sql, " LIMIT ", Repr.NatToDecimal(limit.value));
      }
      assert sql == prefix + OrderClause(orderBy) + PagingClause(" LIMIT ", limit);
      AppendAssoc(prefix, OrderClause(orderBy), PagingClause(" LIMIT ", limit));
      if offset.Some? {
        sql := PushClause(sql, " OFFSET ", Repr.NatToDecimal(offset.value));
      }
      assert sql == prefix + (OrderClause(orderBy) + PagingClause(" LIMIT ", limit)) + PagingClause(" OFFSET ", offset);
      AppendAssoc(prefix, OrderClause(orderBy) + PagingClause(" LIMIT ", limit), PagingClause(" OFFSET ", offset));
    }

    /** `SelectQuery::build`: the statement text grows clause by clause. */
    method Build() returns (r: Result<string>)
      ensures r == SelectSpec(table, columns, whereClause, orderBy, limit, offset)
    {
      var sql := "SELECT ";
      if |columns| == 0 {
        sql := sql + "*";
      } else {
        sql := sql + Join(columns, ", ");
      }
      sql := sql + " FROM ";
      sql := sql + table;
      assert sql == Head(table, columns);
      if whereClause.Some? {
        var w := whereClause.value.Build();
        if w.Err? {
          return Err(w.error);
        }
        sql := sql + " WHERE ";
        sql := sql + w.value;
      }
      sql := WriteTail(sql);
      r := Ok(sql);
    }
  }
}
