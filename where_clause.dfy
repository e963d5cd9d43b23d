/** The flat WHERE accumulator: an ordered list of AND/OR leaf conditions and nested groups,
    rendered with `?` placeholders. */
module Where {
  import opened Errors
  import opened Strings

  /** The comparison of one leaf condition; `In(cnt)` stands for a list of `cnt` values. */
  datatype Operator =
    | Equal
    | NotEqual
    | GreaterThan
    | GreaterThanOrEqual
    | LessThan
    | LessThanOrEqual
    | Between
    | In(cnt: nat)
    | Like
    | IsNull
    | IsNotNull

  datatype Condition = Condition(column: string, operator: Operator)

  /** One element of the accumulator. A group holds the elements of the accumulator it was made
      from; that accumulator was moved into the group, so the group is a value of its own. */
  datatype WhereClause =
    | And(cond: Condition)
    | Or(cond: Condition)
    | AndGroup(group: seq<WhereClause>)
    | OrGroup(group: seq<WhereClause>)

  /** `vec!["?"; cnt]`. */
  function QuestionMarks(cnt: nat): seq<string>
  {
    if cnt == 0 then [] else ["?"] + QuestionMarks(cnt - 1)
  }

  /** `vec!["?"; cnt].join(", ")`. */
  function PlaceholderList(cnt: nat): string
  {
    Join(QuestionMarks(cnt), ", ")
  }

  /** What `BuildCondition` writes after the column name. */
  function OperatorText(op: Operator): (r: string)
    ensures |r| > 0 && r[0] == ' '
  {
    match op
    case Equal => " = ?"
    case NotEqual => " != ?"
    case GreaterThan => " > ?"
    case GreaterThanOrEqual => " >= ?"
    case LessThan => " < ?"
    case LessThanOrEqual => " <= ?"
    case Between => " BETWEEN ? AND ?"
    case In(cnt) => " IN (" + PlaceholderList(cnt) + ")"
    case Like => " LIKE ?"
    case IsNull => " IS NULL"
    case IsNotNull => " IS NOT NULL"
  }

  /** `Condition::build`: the column, then the operator and its `?` placeholders after a space. */
  function BuildCondition(c: Condition): (r: string)
    ensures |r| > |c.column| && r[..|c.column|] == c.column && r[|c.column|] == ' '
  {
    c.column + OperatorText(c.operator)
  }

  /** `WhereClauses::build`: the rendering of each element, by position, joined by single spaces. */
  function Render(cs: seq<WhereClause>): string
    decreases cs, 1
  {
    Join(Pieces(cs, 0), " ")
  }

  /** The rendering of each element of `cs`, the first of them standing at position `idx`. */
  function Pieces(cs: seq<WhereClause>, idx: nat): (r: seq<string>)
    ensures |r| == |cs|
    decreases cs, 0
  {
    if |cs| == 0 then [] else [Piece(cs[0], idx)] + Pieces(cs[1..], idx + 1)
  }

  /** The element at position `idx`: the one at position 0 carries no keyword and no parentheses. */
  function Piece(c: WhereClause, idx: nat): string
    decreases c
  {
    if idx == 0 then
      match c
      case And(x) => BuildCondition(x)
      case Or(x) => BuildCondition(x)
      case AndGroup(g) => Render(g)
      case OrGroup(g) => Render(g)
    else
      match c
      case And(x) => "AND " + BuildCondition(x)
      case Or(x) => "OR " + BuildCondition(x)
      case AndGroup(g) => "AND (" + Render(g) + ")"
      case OrGroup(g) => "OR (" + Render(g) + ")"
  }

  // ---------------------------------------------------------------------------------------
  // A reference rendering, element by element from the left: the first element bare, and each
  // later one appended as a space, its connective, a space and its (parenthesised) operand.

  function Connective(c: WhereClause): string
  {
    if c.And? || c.AndGroup? then "AND" else "OR"
  }

  function Bare(c: WhereClause): string
  {
    if c.And? || c.Or? then BuildCondition(c.cond) else Render(c.group)
  }

  function Operand(c: WhereClause): string
  {
    if c.And? || c.Or? then BuildCondition(c.cond) else "(" + Render(c.group) + ")"
  }

  function ReferenceRender(cs: seq<WhereClause>): string
  {
    if |cs| == 0 then ""
    else if |cs| == 1 then Bare(cs[0])
    else ReferenceRender(cs[..|cs| - 1]) + " " + Connective(cs[|cs| - 1]) + " " + Operand(cs[|cs| - 1])
  }

  lemma {:induction false} PiecesSnoc(cs: seq<WhereClause>, c: WhereClause, idx: nat)
    ensures Pieces(cs + [c], idx) == Pieces(cs, idx) + [Piece(c, idx + |cs|)]
  {
    if |cs| == 0 {
      assert cs + [c] == [c];
    } else {
      assert (cs + [c])[1..] == cs[1..] + [c];
      PiecesSnoc(cs[1..], c, idx + 1);
    }
  }

  /** An empty accumulator renders as "", and a single element renders bare: no keyword, and no
      parentheses around a group. */
  lemma RenderFirst(c: WhereClause)
    ensures Render([]) == ""
    ensures Render([c]) == Bare(c)
    ensures c.AndGroup? || c.OrGroup? ==> Render([c]) == Render(c.group)
  {
    assert Pieces([c], 0) == [Piece(c, 0)];
  }

  /** The element at position 0 renders bare. */
  lemma FirstPiece(c: WhereClause)
    ensures Piece(c, 0) == Bare(c)
  {
  }

  /** Every element after the first renders as its keyword, a space and its operand. */
  lemma LaterPiece(c: WhereClause, idx: nat)
    requires idx > 0
    ensures Piece(c, idx) == Connective(c) + " " + Operand(c)
  {
    match c
    case And(x) =>
      KeywordSplit("AND ", "AND", BuildCondition(x));
    case Or(x) =>
      KeywordSplit("OR ", "OR", BuildCondition(x));
    case AndGroup(g) =>
      GroupSplit("AND (", "AND", Render(g));
    case OrGroup(g) =>
      GroupSplit("OR (", "OR", Render(g));
  }

  lemma KeywordSplit(lead: string, keyword: string, operand: string)
    requires lead == keyword + " "
    ensures lead + operand == keyword + " " + operand
  {
  }

  lemma GroupSplit(lead: string, keyword: string, inner: string)
    requires lead == keyword + " ("
    ensures lead + inner + ")" == keyword + " " + ("(" + inner + ")")
  {
    assert keyword + " (" == keyword + " " + "(";
  }

  lemma AppendLaterPiece(x: string, prefix: string, c: WhereClause, idx: nat)
    requires idx > 0 && x == prefix + " " + Piece(c, idx)
    ensures x == prefix + " " + Connective(c) + " " + Operand(c)
  {
    LaterPiece(c, idx);
  }

  lemma RenderSnocPiece(cs: seq<WhereClause>, c: WhereClause)
    requires |cs| > 0
    ensures Render(cs + [c]) == Render(cs) + " " + Piece(c, |cs|)
  {
    PiecesSnoc(cs, c, 0);
    JoinSnoc(Pieces(cs, 0), Piece(c, |cs|), " ");
  }

  /** Appending an element to a non-empty accumulator appends a space, its keyword, a space and
      its operand (a group in parentheses) to the rendering; the earlier text is unchanged. */
  lemma RenderSnoc(cs: seq<WhereClause>, c: WhereClause)
    requires |cs| > 0
    ensures Render(cs + [c]) == Render(cs) + " " + Connective(c) + " " + Operand(c)
  {
    RenderSnocPiece(cs, c);
    AppendLaterPiece(Render(cs + [c]), Render(cs), c, |cs|);
  }

  /** The rendering agrees with the reference rendering on every accumulator. */
  lemma {:induction false} RenderIsReference(cs: seq<WhereClause>)
    ensures Render(cs) == ReferenceRender(cs)
  {
    if |cs| == 1 {
      RenderFirst(cs[0]);
      assert cs == [cs[0]];
    } else if |cs| > 1 {
      var init := cs[..|cs| - 1];
      assert cs == init + [cs[|cs| - 1]];
      RenderIsReference(init);
      RenderSnoc(init, cs[|cs| - 1]);
    }
  }

  /** A non-empty accumulator's rendering starts with its first element, bare. */
  lemma RenderStartsWithFirst(cs: seq<WhereClause>)
    requires |cs| > 0
    ensures |Bare(cs[0])| <= |Render(cs)| && Render(cs)[..|Bare(cs[0])|] == Bare(cs[0])
  {
    JoinStartsWithFirst(Pieces(cs, 0), " ");
    assert Pieces(cs, 0)[0] == Piece(cs[0], 0);
    FirstPiece(cs[0]);
  }

  // ---------------------------------------------------------------------------------------
  // Placeholder counts.

  /** How many values an operator binds. */
  function Arity(op: Operator): nat
  {
    match op
    case IsNull => 0
    case IsNotNull => 0
    case Between => 2
    case In(cnt) => cnt
    case _ => 1
  }

  /** The number of values the whole accumulator binds: the sum over its leaves. */
  function Arities(cs: seq<WhereClause>): nat
    decreases cs
  {
    if |cs| == 0 then 0 else ClauseArity(cs[0]) + Arities(cs[1..])
  }

  function ClauseArity(c: WhereClause): nat
    decreases c
  {
    match c
    case And(x) => Arity(x.operator)
    case Or(x) => Arity(x.operator)
    case AndGroup(g) => Arities(g)
    case OrGroup(g) => Arities(g)
  }

  /** No column name of any leaf, at any depth, contains a `?`. */
  predicate ColumnsFree(cs: seq<WhereClause>)
    decreases cs
  {
    forall k :: 0 <= k < |cs| ==> ClauseColumnsFree(cs[k])
  }

  predicate ClauseColumnsFree(c: WhereClause)
    decreases c
  {
    match c
    case And(x) => Occurrences('?', x.column) == 0
    case Or(x) => Occurrences('?', x.column) == 0
    case AndGroup(g) => ColumnsFree(g)
    case OrGroup(g) => ColumnsFree(g)
  }

  /** `In(cnt)` lists exactly `cnt` placeholders. */
  lemma {:induction false} PlaceholderListCount(cnt: nat)
    ensures Occurrences('?', PlaceholderList(cnt)) == cnt
  {
    JoinOccurrences('?', QuestionMarks(cnt), ", ");
    QuestionMarksTotal(cnt);
  }

  lemma {:induction false} QuestionMarksSnoc(cnt: nat)
    ensures QuestionMarks(cnt + 1) == QuestionMarks(cnt) + ["?"]
  {
    if cnt > 0 {
      QuestionMarksSnoc(cnt - 1);
    }
  }

  /** The list for `In(cnt)`: empty for 0 (so `In(0)` renders `col IN ()`), a lone `?` for 1, and
      each further value adds `, ?`. */
  lemma PlaceholderListShape(cnt: nat)
    ensures PlaceholderList(0) == "" && PlaceholderList(1) == "?"
    ensures cnt > 0 ==> PlaceholderList(cnt + 1) == PlaceholderList(cnt) + ", ?"
  {
    assert QuestionMarks(1) == ["?"];
    if cnt > 0 {
      QuestionMarksSnoc(cnt);
      JoinSnoc(QuestionMarks(cnt), "?", ", ");
    }
  }

  lemma {:induction false} QuestionMarksTotal(cnt: nat)
    ensures TotalOccurrences('?', QuestionMarks(cnt)) == cnt
  {
    if cnt > 0 {
      assert QuestionMarks(cnt)[1..] == QuestionMarks(cnt - 1);
      QuestionMarksTotal(cnt - 1);
    }
  }

  lemma InTextPlaceholders(cnt: nat)
    ensures Occurrences('?', OperatorText(In(cnt))) == cnt
  {
    PlaceholderListCount(cnt);
  }

  // The fixed operator texts and their placeholder counts.

  lemma ComparisonMarks()
    ensures Occurrences('?', " = ?") == 1
    ensures Occurrences('?', " != ?") == 1
    ensures Occurrences('?', " > ?") == 1
    ensures Occurrences('?', " >= ?") == 1
    ensures Occurrences('?', " < ?") == 1
    ensures Occurrences('?', " <= ?") == 1
  {
  }

  lemma BetweenMarks()
    ensures Occurrences('?', " BETWEEN ? AND ?") == 2
  {
  }

  lemma LikeMarks()
    ensures Occurrences('?', " LIKE ?") == 1
  {
  }

  lemma NullTestMarks()
    ensures Occurrences('?', " IS NULL") == 0
    ensures Occurrences('?', " IS NOT NULL") == 0
  {
  }

  lemma OperatorTextPlaceholders(op: Operator)
    ensures Occurrences('?', OperatorText(op)) == Arity(op)
  {
    if op.In? {
      InTextPlaceholders(op.cnt);
    } else {
      ComparisonMarks();
      BetweenMarks();
      LikeMarks();
      NullTestMarks();
    }
  }

  /** The placeholders of a concatenation are those of its halves. */
  lemma ConcatCount(x: string, a: string, b: string)
    requires x == a + b
    ensures Occurrences('?', x) == Occurrences('?', a) + Occurrences('?', b)
  {
  }

  /** A rendered condition is its column name followed by text holding as many placeholders as
      its operator binds values; so, with no `?` in the column, it holds exactly that many. */
  lemma ConditionPlaceholders(c: Condition)
    ensures BuildCondition(c) == c.column + OperatorText(c.operator)
    ensures Occurrences('?', c.column) == 0 ==> Occurrences('?', BuildCondition(c)) == Arity(c.operator)
  {
    ConcatCount(BuildCondition(c), c.column, OperatorText(c.operator));
    OperatorTextPlaceholders(c.operator);
  }

  /** With no `?` in any column, the rendering holds exactly as many placeholders as the leaves bind. */
  lemma {:induction false} RenderPlaceholders(cs: seq<WhereClause>)
    requires ColumnsFree(cs)
    ensures Occurrences('?', Render(cs)) == Arities(cs)
    decreases cs, 1
  {
    JoinOccurrences('?', Pieces(cs, 0), " ");
    PiecesPlaceholders(cs, 0);
  }

  lemma {:induction false} PiecesPlaceholders(cs: seq<WhereClause>, idx: nat)
    requires ColumnsFree(cs)
    ensures TotalOccurrences('?', Pieces(cs, idx)) == Arities(cs)
    decreases cs, 0
  {
    if |cs| > 0 {
      assert ClauseColumnsFree(cs[0]);
      PiecePlaceholders(cs[0], idx);
      assert Pieces(cs, idx)[1..] == Pieces(cs[1..], idx + 1);
      assert ColumnsFree(cs[1..]) by {
        forall k | 0 <= k < |cs[1..]| ensures ClauseColumnsFree(cs[1..][k]) {
          assert cs[1..][k] == cs[k + 1];
        }
      }
      PiecesPlaceholders(cs[1..], idx + 1);
    }
  }

  lemma {:induction false} PiecePlaceholders(c: WhereClause, idx: nat)
    requires ClauseColumnsFree(c)
    ensures Occurrences('?', Piece(c, idx)) == ClauseArity(c)
    decreases c
  {
    var n := ClauseArity(c);
    assert Occurrences('?', Bare(c)) == n && Occurrences('?', Operand(c)) == n by {
      if c.And? || c.Or? {
        ConditionPlaceholders(c.cond);
      } else {
        RenderPlaceholders(c.group);
        ParenthesisedCount(Operand(c), Render(c.group));
      }
    }
    if idx == 0 {
      FirstPiece(c);
    } else {
      LaterPiece(c, idx);
      ConnectedCount(Piece(c, idx), Connective(c), Operand(c));
    }
  }

  lemma ParenthesisedCount(x: string, inner: string)
    requires x == "(" + inner + ")"
    ensures Occurrences('?', x) == Occurrences('?', inner)
  {
    KeywordMarks();
  }

  lemma ConnectedCount(x: string, keyword: string, operand: string)
    requires keyword == "AND" || keyword == "OR"
    requires x == keyword + " " + operand
    ensures Occurrences('?', x) == Occurrences('?', operand)
  {
    KeywordMarks();
  }

  lemma KeywordMarks()
    ensures Occurrences('?', "AND") == 0 && Occurrences('?', "OR") == 0 && Occurrences('?', " ") == 0
    ensures Occurrences('?', "(") == 0 && Occurrences('?', ")") == 0
  {
  }

  // ---------------------------------------------------------------------------------------
  // The accumulator object.

  /** `WhereClauses`: the elements are pushed in place. */
  class WhereClauses {
    var conditions: seq<WhereClause>

    /** `WhereClauses::new`. */
    constructor ()
      ensures conditions == [] && IsEmpty()
    {
      conditions := [];
    }

    predicate IsEmpty()
      reads this
    {
      conditions == []
    }

    /** `build` only reads the accumulator. */
    function Build(): string
      reads this
    {
      Render(conditions)
    }

    method And(cond: Condition)
      modifies this
      ensures conditions == old(conditions) + [WhereClause.And(cond)]
      ensures !IsEmpty()
      ensures old(conditions) != [] ==> Build() == old(Build()) + " AND " + BuildCondition(cond)
    {
      conditions := conditions + [WhereClause.And(cond)];
      if old(conditions) != [] {
        RenderSnoc(old(conditions), WhereClause.And(cond));
      }
    }

    method Or(cond: Condition)
      modifies this
      ensures conditions == old(conditions) + [WhereClause.Or(cond)]
      ensures !IsEmpty()
      ensures old(conditions) != [] ==> Build() == old(Build()) + " OR " + BuildCondition(cond)
    {
      conditions := conditions + [WhereClause.Or(cond)];
      if old(conditions) != [] {
        RenderSnoc(old(conditions), WhereClause.Or(cond));
      }
    }

    /** `and_where`: the group is moved in, so it is never this accumulator itself. */
    method AndWhere(cond: WhereClauses)
      requires cond != this
      modifies this
      ensures conditions == old(conditions) + [AndGroup(cond.conditions)]
      ensures !IsEmpty()
      ensures old(conditions) != [] ==> Build() == old(Build()) + " AND (" + cond.Build() + ")"
    {
      conditions := conditions + [AndGroup(cond.conditions)];
      if old(conditions) != [] {
        RenderSnoc(old(conditions), AndGroup(cond.conditions));
      }
    }

    method OrWhere(cond: WhereClauses)
      requires cond != this
      modifies this
      ensures conditions == old(conditions) + [OrGroup(cond.conditions)]
      ensures !IsEmpty()
      ensures old(conditions) != [] ==> Build() == old(Build()) + " OR (" + cond.Build() + ")"
    {
      conditions := conditions + [OrGroup(cond.conditions)];
      if old(conditions) != [] {
        RenderSnoc(old(conditions), OrGroup(cond.conditions));
      }
    }

    method AndEq(column: string)
      modifies this
      ensures conditions == old(conditions) + [WhereClause.And(Condition(column, Operator.Equal))]
    {
      And(Condition(column, Operator.Equal));
    }

    method AndNotEq(column: string)
      modifies this
      ensures conditions == old(conditions) + [WhereClause.And(Condition(column, Operator.NotEqual))]
    {
      And(Condition(column, Operator.NotEqual));
    }

    method AndGt(column: string)
      modifies this
      ensures conditions == old(conditions) + [WhereClause.And(Condition(column, Operator.GreaterThan))]
    {
      And(Condition(column, Operator.GreaterThan));
    }

    method AndGte(column: string)
      modifies this
      ensures conditions == old(conditions) + [WhereClause.And(Condition(column, Operator.GreaterThanOrEqual))]
    {
      And(Condition(column, Operator.GreaterThanOrEqual));
    }

    method AndLt(column: string)
      modifies this
      ensures conditions == old(conditions) + [WhereClause.And(Condition(column, Operator.LessThan))]
    {
      And(Condition(column, Operator.LessThan));
    }

    method AndLte(column: string)
      modifies this
      ensures conditions == old(conditions) + [WhereClause.And(Condition(column, Operator.LessThanOrEqual))]
    {
      And(Condition(column, Operator.LessThanOrEqual));
    }

    method AndBetween(column: string)
      modifies this
      ensures conditions == old(conditions) + [WhereClause.And(Condition(column, Operator.Between))]
    {
      And(Condition(column, Operator.Between));
    }

    method AndIn(column: string, cnt: nat)
      modifies this
      ensures conditions == old(conditions) + [WhereClause.And(Condition(column, Operator.In(cnt)))]
    {
      And(Condition(column, Operator.In(cnt)));
    }

    method AndLike(column: string)
      modifies this
      ensures conditions == old(conditions) + [WhereClause.And(Condition(column, Operator.Like))]
    {
      And(Condition(column, Operator.Like));
    }

    method AndIsNull(column: string)
      modifies this
      ensures conditions == old(conditions) + [WhereClause.And(Condition(column, Operator.IsNull))]
    {
      And(Condition(column, Operator.IsNull));
    }

    method AndIsNotNull(column: string)
      modifies this
      ensures conditions == old(conditions) + [WhereClause.And(Condition(column, Operator.IsNotNull))]
    {
      And(Condition(column, Operator.IsNotNull));
    }

    method OrEq(column: string)
      modifies this
      ensures conditions == old(conditions) + [WhereClause.Or(Condition(column, Operator.Equal))]
    {
      Or(Condition(column, Operator.Equal));
    }

    method OrNotEq(column: string)
      modifies this
      ensures conditions == old(conditions) + [WhereClause.Or(Condition(column, Operator.NotEqual))]
    {
      Or(Condition(column, Operator.NotEqual));
    }

    method OrGt(column: string)
      modifies this
      ensures conditions == old(conditions) + [WhereClause.Or(Condition(column, Operator.GreaterThan))]
    {
      Or(Condition(column, Operator.GreaterThan));
    }

    method OrGte(column: string)
      modifies this
      ensures conditions == old(conditions) + [WhereClause.Or(Condition(column, Operator.GreaterThanOrEqual))]
    {
      Or(Condition(column, Operator.GreaterThanOrEqual));
    }

    method OrLt(column: string)
      modifies this
      ensures conditions == old(conditions) + [WhereClause.Or(Condition(column, Operator.LessThan))]
    {
      Or(Condition(column, Operator.LessThan));
    }

    method OrLte(column: string)
      modifies this
      ensures conditions == old(conditions) + [WhereClause.Or(Condition(column, Operator.LessThanOrEqual))]
    {
      Or(Condition(column, Operator.LessThanOrEqual));
    }

    method OrBetween(column: string)
      modifies this
      ensures conditions == old(conditions) + [WhereClause.Or(Condition(column, Operator.Between))]
    {
      Or(Condition(column, Operator.Between));
    }

    method OrIn(column: string, cnt: nat)
      modifies this
      ensures conditions == old(conditions) + [WhereClause.Or(Condition(column, Operator.In(cnt)))]
    {
      Or(Condition(column, Operator.In(cnt)));
    }

    method OrLike(column: string)
      modifies this
      ensures conditions == old(conditions) + [WhereClause.Or(Condition(column, Operator.Like))]
    {
      Or(Condition(column, Operator.Like));
    }

    method OrIsNull(column: string)
      modifies this
      ensures conditions == old(conditions) + [WhereClause.Or(Condition(column, Operator.IsNull))]
    {
      Or(Condition(column, Operator.IsNull));
    }

    method OrIsNotNull(column: string)
      modifies this
      ensures conditions == old(conditions) + [WhereClause.Or(Condition(column, Operator.IsNotNull))]
    {
      Or(Condition(column, Operator.IsNotNull));
    }
  }

  /** The where-clause an UPDATE, DELETE or SELECT statement holds, known only by what rendering
      it gives: its text, or the error that rendering reports. */
  datatype Predicate = Predicate(rendering: Result<string>)
  {
    function Build(): Result<string>
    {
      rendering
    }

    /** A predicate made from an accumulator renders as the accumulator does. */
    static function FromClauses(cs: seq<WhereClause>): Predicate
    {
      Predicate(Ok(Render(cs)))
    }
  }
}
