# sql-builder, modelled in Dafny

A model of the `sql-builder` Rust crate: builders that assemble the text of SQL `SELECT`,
`INSERT`, `UPDATE` and `DELETE` statements from method calls. Where-clause conditions are written
with `?` placeholders, and values set on an UPDATE are rendered as SQL literals.

One module per source file:

- `Errors` (`error.dfy`): the error kinds, plus `Result` and `Option`.
- `Repr` (`repr.dfy`): `ToSqlRepr`, the literal text of integers, booleans, strings and options.
  It comes with a decimal reader so that integer rendering can be stated as a round trip.
- `Where` (`where_clause.dfy`):
  - the operators and `Condition::build`;
  - the `WhereClauses` accumulator, a class whose push methods append in place;
  - its renderer, proved equal to a left-to-right reference rendering;
  - placeholder counting.
- `Insert`, `Update` (`insert.dfy`, `update.dfy`): classes whose mutators are proved against the
  pure `build` functions.
- `Delete` (`delete.dfy`): a value, because the source's `where_clause` takes the query by value
  and returns it.
- `Select` (`select.dfy`): a class with setters and an imperative `Build`. `Build` appends clause
  by clause and is proved equal to a declarative statement `SelectSpec`.
- `Strings` (`strings.dfy`): `join` and character counting.

The statement assemblers hold their where-clause as `Where.Predicate`, an opaque value whose
rendering is a `Result<string>`. The source is inconsistent here:

- `update.rs`, `delete.rs` and `select.rs` call `build()?` on a `WhereClause`, an enum that
  defines no `build`;
- `WhereClauses::build` and `Condition::build` return a plain `String`, while the `SqlBuilder`
  trait's `build` returns `Result<String>`.

The model follows what the assemblers do with the value: a rendering that may fail, whose error
is passed on unchanged. `Where.Predicate.FromClauses` connects an accumulator to it with a
rendering that never fails.

## Model

| member | source | states |
|---|---|---|
| Repr.IntToDecimal | src/repr.rs:9-11 | `format!("{}", i)` for an integer: a minus sign for a negative, then the decimal digits; its round trip is `Repr.IntToDecimalRoundTrip` |
| Repr.NatToDecimalRoundTrip | src/repr.rs:5-17 | the decimal text of a non-negative integer is non-empty, all digits, has no leading zero unless the number is 0, and reads back as the number |
| Repr.IntToDecimalRoundTrip | src/repr.rs:5-17 | `format!("{}", i)` for an integer is `-digits` or `digits` and reads back as the same integer |
| Repr.ToSqlRepr | src/repr.rs:5-51 | integers become decimal text that reads back as the value; `true`/`false` become `TRUE`/`FALSE`; text is wrapped in single quotes with its content kept exactly; `None` becomes `NULL`; `Some(v)` renders as `v`; the result is never empty |
| Repr.WrapSomeTransparent | src/repr.rs:41-51 | a value wrapped in any number of `Some` layers renders exactly as the bare value |
| Where.BuildCondition | src/where_clause.rs:230-244 | `Condition::build`: the column, a space, and the operator with its `?` placeholders; the text starts with the column, followed by a space |
| Where.Render | src/where_clause.rs:27-48 | `WhereClauses::build` on the element sequence: each element rendered by position (bare at 0, keyword and parenthesised group after), joined by single spaces; its properties are the lemmas below |
| Where.RenderFirst | src/where_clause.rs:27-48 | an empty accumulator renders as the empty text; a single element renders bare, with no keyword, and a lone group renders as its inner accumulator without parentheses |
| Where.RenderStartsWithFirst | src/where_clause.rs:27-48 | a non-empty accumulator's rendering starts with its first element, bare: a condition as itself, a group as its inner rendering without parentheses |
| Where.RenderSnoc | src/where_clause.rs:27-48 | pushing an element onto a non-empty accumulator leaves the earlier text unchanged and appends a space, the connective, a space and the operand |
| Where.RenderIsReference | src/where_clause.rs:27-48 | the rendering equals a left-to-right reference rendering on every accumulator, groups nested to any depth |
| Where.PlaceholderListCount | src/where_clause.rs:239 | `In(cnt)` writes exactly `cnt` question marks |
| Where.PlaceholderListShape | src/where_clause.rs:239 | the `In` list is empty for 0 (so `IN ()`), a lone `?` for 1, and each further value appends `, ?` |
| Where.OperatorTextPlaceholders | src/where_clause.rs:230-244 | the text after the column holds as many `?` as the operator binds: 0 for the null tests, 2 for BETWEEN, `cnt` for IN, 1 otherwise |
| Where.ConditionPlaceholders | src/where_clause.rs:230-244 | a condition renders as its column followed by the operator text, and with no `?` in the column it holds exactly the operator's number of placeholders |
| Where.RenderPlaceholders | src/where_clause.rs:27-48 | with no `?` in any column, the whole rendering holds exactly as many placeholders as its leaves bind, groups included |
| Where.WhereClauses.IsEmpty | src/where_clause.rs:21-23 | `is_empty`: no element has been pushed |
| Where.WhereClauses.Build | src/where_clause.rs:27-48 | `build` reads the accumulator and renders its elements with `Where.Render` |
| Where.WhereClauses.constructor | src/where_clause.rs:17-19 | a new accumulator holds no element and is empty |
| Where.WhereClauses.And | src/where_clause.rs:52-54 | appends an AND element, the accumulator is no longer empty, and on a non-empty accumulator the rendering gains ` AND ` and the condition |
| Where.WhereClauses.Or | src/where_clause.rs:56-58 | appends an OR element; on a non-empty accumulator the rendering gains ` OR ` and the condition |
| Where.WhereClauses.AndWhere | src/where_clause.rs:60-62 | appends the moved-in accumulator as an AND group; on a non-empty accumulator the rendering gains ` AND (`, the group's rendering and `)` |
| Where.WhereClauses.OrWhere | src/where_clause.rs:64-66 | appends the moved-in accumulator as an OR group; on a non-empty accumulator the rendering gains ` OR (`, the group's rendering and `)` |
| Where.WhereClauses.AndEq | src/where_clause.rs:68-73 | appends one AND element whose condition is the column with operator `Equal` |
| Where.WhereClauses.AndNotEq | src/where_clause.rs:75-80 | appends one AND element whose condition is the column with operator `NotEqual` |
| Where.WhereClauses.AndGt | src/where_clause.rs:82-87 | appends one AND element whose condition is the column with operator `GreaterThan` |
| Where.WhereClauses.AndGte | src/where_clause.rs:89-94 | appends one AND element whose condition is the column with operator `GreaterThanOrEqual` |
| Where.WhereClauses.AndLt | src/where_clause.rs:96-101 | appends one AND element whose condition is the column with operator `LessThan` |
| Where.WhereClauses.AndLte | src/where_clause.rs:103-108 | appends one AND element whose condition is the column with operator `LessThanOrEqual` |
| Where.WhereClauses.AndBetween | src/where_clause.rs:110-115 | appends one AND element whose condition is the column with operator `Between` |
| Where.WhereClauses.AndIn | src/where_clause.rs:117-122 | appends one AND element whose condition is the column with operator `In(cnt)` |
| Where.WhereClauses.AndLike | src/where_clause.rs:124-129 | appends one AND element whose condition is the column with operator `Like` |
| Where.WhereClauses.AndIsNull | src/where_clause.rs:131-136 | appends one AND element whose condition is the column with operator `IsNull` |
| Where.WhereClauses.AndIsNotNull | src/where_clause.rs:138-143 | appends one AND element whose condition is the column with operator `IsNotNull` |
| Where.WhereClauses.OrEq | src/where_clause.rs:145-150 | appends one OR element whose condition is the column with operator `Equal` |
| Where.WhereClauses.OrNotEq | src/where_clause.rs:152-157 | appends one OR element whose condition is the column with operator `NotEqual` |
| Where.WhereClauses.OrGt | src/where_clause.rs:159-164 | appends one OR element whose condition is the column with operator `GreaterThan` |
| Where.WhereClauses.OrGte | src/where_clause.rs:166-171 | appends one OR element whose condition is the column with operator `GreaterThanOrEqual` |
| Where.WhereClauses.OrLt | src/where_clause.rs:173-178 | appends one OR element whose condition is the column with operator `LessThan` |
| Where.WhereClauses.OrLte | src/where_clause.rs:180-185 | appends one OR element whose condition is the column with operator `LessThanOrEqual` |
| Where.WhereClauses.OrBetween | src/where_clause.rs:187-192 | appends one OR element whose condition is the column with operator `Between` |
| Where.WhereClauses.OrIn | src/where_clause.rs:194-199 | appends one OR element whose condition is the column with operator `In(cnt)` |
| Where.WhereClauses.OrLike | src/where_clause.rs:201-206 | appends one OR element whose condition is the column with operator `Like` |
| Where.WhereClauses.OrIsNull | src/where_clause.rs:208-213 | appends one OR element whose condition is the column with operator `IsNull` |
| Where.WhereClauses.OrIsNotNull | src/where_clause.rs:215-220 | appends one OR element whose condition is the column with operator `IsNotNull` |
| Insert.Tuple | src/insert.rs:43-44 | one record as `(v1, v2, ...)`: the values joined by `, ` inside parentheses |
| Insert.BuildInsert | src/insert.rs:62-77 | `InsertQuery::build`: `NoInsertFields`, then `NoInsertValues`, else `INSERT INTO t (columns) VALUES tuples`; its outcome is `Insert.BuildInsertOutcome` |
| Insert.InsertQuery.Build | src/insert.rs:62-77 | the query object's `build`, reading its fields into `Insert.BuildInsert` |
| Insert.BuildInsertOutcome | src/insert.rs:63-77 | the statement is built exactly when there are columns and values; no columns gives `NoInsertFields` whatever the values, columns without values give `NoInsertValues` |
| Insert.BuildInsertAfterRecord | src/insert.rs:63-77 | with columns, accepting one more tuple makes the statement buildable, and appends `, ` and that tuple to the VALUES list of a statement that already had values |
| Insert.InsertQuery.constructor | src/insert.rs:12-18 | a new query has the table, no columns and no values |
| Insert.InsertQuery.AddColumn | src/insert.rs:20-23 | appends the column and changes nothing else |
| Insert.InsertQuery.AddColumns | src/insert.rs:25-31 | appends the columns in order and changes nothing else |
| Insert.InsertQuery.AddRecordRaw | src/insert.rs:33-46 | no columns gives `NoInsertFields`; a record of the wrong length gives `FieldValueNotMatch(columns, record)`; on success the tuple `(v1, v2, ...)` is appended; on error nothing changes; the values stay the tuples of the accepted records |
| Insert.InsertQuery.AddRecordFrom | src/insert.rs:48-59 | the length check applies only when there are columns, so with none any record is accepted; otherwise as `AddRecordRaw` |
| Update.SetList | src/update.rs:37-42 | the assignments `field = value`, in the order set, joined by `, ` |
| Update.BuildUpdate | src/update.rs:32-53 | `UpdateQuery::build`: `NoUpdateFields`, then `NoUpdateConditions`, then a where-clause rendering error, else `UPDATE t SET list WHERE w`; its outcome is `Update.BuildUpdateOutcome` |
| Update.BuildUpdateOutcome | src/update.rs:32-53 | built exactly when there are fields and a where-clause that renders; no fields gives `NoUpdateFields` before a missing where-clause gives `NoUpdateConditions`; a rendering error is passed on unchanged |
| Update.SetListSnoc | src/update.rs:37-42 | one more field adds `, field = value` after the earlier assignments, which keep their text and order |
| Update.AssignmentsAt | src/update.rs:37-42 | the k-th assignment is the k-th field name, ` = ` and its value text |
| Update.UpdateQuery.Build | src/update.rs:32-53 | the query object's `build`, reading its fields into `Update.BuildUpdate` |
| Update.UpdateQuery.constructor | src/update.rs:12-18 | a new query has the table, no fields and no where-clause |
| Update.UpdateQuery.SetField | src/update.rs:20-23 | appends the field with the literal text of the value, and the SET list gains `, field = literal` |
| Update.UpdateQuery.AddWhereClause | src/update.rs:25-28 | the where-clause is replaced: the last one set wins |
| Delete.DeleteQuery.New | src/delete.rs:13-18 | a new query has the table and no where-clause |
| Delete.DeleteQuery.WhereClause | src/delete.rs:20-23 | returns the query with the same table and the given where-clause |
| Delete.DeleteQuery.Build | src/delete.rs:27-36 | `DeleteQuery::build`: `NoDeleteConditions` without a where-clause, its rendering error, else `DELETE FROM t WHERE w`; its outcome is `Delete.BuildDeleteOutcome` |
| Delete.BuildDeleteOutcome | src/delete.rs:27-36 | built exactly when a where-clause is set and renders, and then the statement is `DELETE FROM` the table `WHERE` that rendering; no where-clause gives `NoDeleteConditions`; a rendering error is passed on |
| Delete.WhereClauseLastWins | src/delete.rs:20-23 | a fresh query is refused, and setting a where-clause twice keeps only the second |
| Delete.DeleteFromClauses | src/delete.rs:27-36 | with a where-clause made from an accumulator, the statement is built and embeds the accumulator's rendering; with no `?` in the table or any column it holds exactly as many placeholders as the conditions bind values |
| Select.OrderBy.New | src/select.rs:136-141 | one column, ascending |
| Select.OrderBy.FromColumns | src/select.rs:142-147 | the given columns, ascending |
| Select.OrderBy.SetAsc | src/select.rs:149-152 | same columns, ascending |
| Select.OrderBy.SetDesc | src/select.rs:154-157 | same columns, descending |
| Select.OrderBy.Build | src/select.rs:160-171 | `OrderBy::build`: the columns joined by `, `, a space, then `ASC` or `DESC` |
| Select.OrderDirectionReadBack | src/select.rs:161-170 | a rendered entry ends in ` DESC` exactly when it is descending and in ` ASC` exactly when it is ascending |
| Select.OrderTexts | src/select.rs:100-110 | the ORDER BY list holds each entry's rendering, in order |
| Select.SelectSpec | src/select.rs:86-119 | the SELECT statement as a value: `SELECT` columns (or `*`) `FROM` table, then WHERE, ORDER BY, LIMIT and OFFSET each when set, or the where-clause's rendering error |
| Select.SelectHeadOnly | src/select.rs:86-95 | with no optional clause the statement is `SELECT` the columns `FROM` the table, and `SELECT * FROM` the table when no column was chosen |
| Select.SelectOutcome | src/select.rs:86-119 | only the where-clause can make the statement fail, and then with its own error |
| Select.PagingReadBack | src/select.rs:111-118 | an unset LIMIT or OFFSET writes nothing; a set one writes its lead-in followed by decimal digits that read back as the number |
| Select.SelectQuery.constructor | src/select.rs:16-25 | a new query has the table and no columns, where-clause, limit, offset or ORDER BY entry |
| Select.SelectQuery.AddColumn | src/select.rs:27-30 | appends the column |
| Select.SelectQuery.AddColumns | src/select.rs:32-35 | appends the columns in order |
| Select.SelectQuery.WhereClause | src/select.rs:37-40 | the where-clause is replaced |
| Select.SelectQuery.Limit | src/select.rs:42-45 | the limit is replaced |
| Select.SelectQuery.Offset | src/select.rs:47-50 | the offset is replaced |
| Select.SelectQuery.OrderByColumn | src/select.rs:52-55 | appends an ascending entry for the column |
| Select.SelectQuery.OrderByColumns | src/select.rs:57-60 | appends one ascending entry for all the columns |
| Select.SelectQuery.Desc | src/select.rs:62-68 | with no entry gives `NoOrderByClause` and changes nothing; otherwise only the last entry becomes descending, and its rendering ends in ` DESC` |
| Select.SelectQuery.Asc | src/select.rs:70-76 | with no entry gives `NoOrderByClause` and changes nothing; otherwise only the last entry becomes ascending, and its rendering ends in ` ASC` |
| Select.SelectQuery.Count | src/select.rs:78-82 | the column list becomes exactly `COUNT(*)` |
| Select.SelectQuery.WriteTail | src/select.rs:100-118 | appends the ORDER BY, LIMIT and OFFSET clauses, each exactly when set, in that order |
| Select.SelectQuery.Build | src/select.rs:86-119 | the text built push by push equals the declarative statement: head, then WHERE, ORDER BY, LIMIT, OFFSET each when set, or the where-clause's rendering error |

## Left out

- Floating-point values (`f32`, `f64` in `ToSqlRepr`): Dafny has no model of Rust's float formatting.
- Repr.ToSqlRepr: the integer widths `i8` to `u64` are all one unbounded `int`; rendering does not depend on the width.
- Repr.ToSqlRepr: text is quoted without escaping an embedded `'`, exactly as in the source. The contract states the quoted shape, not that SQL reads the literal back as the same text.
- The `thiserror` messages and the `anyhow` wrapper: only the error variants and their fields are modelled.
- The `SqlBuilder` trait: each builder's `build` is a member of its own type, because traits are not used.
- `AsInsertRecord`: the conversion is a function parameter of `Insert.InsertQuery.AddRecordFrom`. Being pure, calling it twice (as the source does) gives the same record.
- Select.OrderBy.Build: the source wraps it in `Ok` and it never fails, so it is a plain string function and the `collect::<Result<..>>()?` over it cannot fail.
- Select.SelectQuery.Desc: the source mutates the last entry through `last_mut`; the model replaces the last entry of the sequence with its updated copy.
- Where.WhereClauses.AndWhere: a group is moved in by value, so the model stores a snapshot of its elements. No aliasing between accumulators arises.
- Integer widths of `In(usize)` and `FieldValueNotMatch(usize, usize)`: modelled as `nat`.
- The unit tests' concrete expected strings are not restated; the general lemmas above cover the behaviour they exercise.
