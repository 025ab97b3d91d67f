/** `QueryBuilder` of java/sample3.java. Its three string fields may be
    `null`, modelled as `None`; Java string concatenation writes a `null`
    table as the text "null". */
module JavaQuery {
  import opened Ints
  import opened Variants
  import opened DecimalText

  const Select: string := "SELECT * FROM "
  const WhereKeyword: string := " WHERE "
  const OrderKeyword: string := " ORDER BY "
  const LimitKeyword: string := " LIMIT "

  /** How Java's `+` writes a possibly-null string. */
  function JavaText(s: Option<string>): string
  {
    match s
    case Some(t) => t
    case None => "null"
  }

  /** An optional clause: the keyword and its text when present. */
  function Clause(keyword: string, text: Option<string>): string
  {
    match text
    case Some(t) => keyword + t
    case None => ""
  }

  /** The LIMIT clause: present only for a positive limit. */
  function LimitText(limit: i32): string
  {
    if limit > 0 then LimitKeyword + Render(limit) else ""
  }

  /** The query text: the table, then WHERE, ORDER BY and LIMIT in that
      order, each only when set (LIMIT only when positive). */
  function Query(table: Option<string>, whereClause: Option<string>, orderBy: Option<string>, limit: i32): string
  {
    Select + JavaText(table)
    + Clause(WhereKeyword, whereClause)
    + Clause(OrderKeyword, orderBy)
    + LimitText(limit)
  }

  predicate StartsWith(s: string, prefix: string)
  {
    |prefix| <= |s| && s[..|prefix|] == prefix
  }

  /** Splitting `a + b` after `a` gives back both parts. */
  lemma Split(a: string, b: string)
    ensures (a + b)[..|a|] == a && (a + b)[|a|..] == b
  {
  }

  /** A text that differs from `prefix` at some position does not start with it. */
  lemma DiffersAt(s: string, prefix: string, i: nat)
    requires i < |prefix| && i < |s| && s[i] != prefix[i]
    ensures !StartsWith(s, prefix)
  {
  }

  /** What follows the table starts with " WHERE " exactly when a
      condition is set: neither " ORDER BY " nor " LIMIT " does. */
  lemma WhereComesFirst(whereClause: Option<string>, orderBy: Option<string>, limit: i32)
    ensures var rest := Clause(WhereKeyword, whereClause) + Clause(OrderKeyword, orderBy) + LimitText(limit);
      StartsWith(rest, WhereKeyword) <==> whereClause.IsSome()
  {
    var o := Clause(OrderKeyword, orderBy);
    var l := LimitText(limit);
    if whereClause.IsSome() {
      Split(WhereKeyword, whereClause.Unwrap() + o + l);
      assert Clause(WhereKeyword, whereClause) + o + l == WhereKeyword + (whereClause.Unwrap() + o + l);
    } else if orderBy.IsSome() {
      assert o + l == OrderKeyword + (orderBy.Unwrap() + l);
      DiffersAt(o + l, WhereKeyword, 1);
    } else if limit > 0 {
      assert o + l == LimitKeyword + Render(limit);
      DiffersAt(o + l, WhereKeyword, 1);
    } else {
      assert o + l == [];
    }
  }

  /** What follows the condition starts with " ORDER BY " exactly when an
      order field is set: " LIMIT " does not. */
  lemma OrderComesSecond(orderBy: Option<string>, limit: i32)
    ensures var rest := Clause(OrderKeyword, orderBy) + LimitText(limit);
      StartsWith(rest, OrderKeyword) <==> orderBy.IsSome()
  {
    var l := LimitText(limit);
    if orderBy.IsSome() {
      Split(OrderKeyword, orderBy.Unwrap() + l);
      assert Clause(OrderKeyword, orderBy) + l == OrderKeyword + (orderBy.Unwrap() + l);
    } else if limit > 0 {
      assert Clause(OrderKeyword, orderBy) + l == LimitKeyword + Render(limit);
      DiffersAt(Clause(OrderKeyword, orderBy) + l, OrderKeyword, 1);
    } else {
      assert Clause(OrderKeyword, orderBy) + l == [];
    }
  }

  /** The query splits after the table into the head and the clauses. */
  lemma QueryHead(table: Option<string>, whereClause: Option<string>, orderBy: Option<string>, limit: i32)
    ensures var q := Query(table, whereClause, orderBy, limit);
      var head := Select + JavaText(table);
      StartsWith(q, head) &&
      q[|head|..] == Clause(WhereKeyword, whereClause) + Clause(OrderKeyword, orderBy) + LimitText(limit)
  {
    var head := Select + JavaText(table);
    var w := Clause(WhereKeyword, whereClause);
    var o := Clause(OrderKeyword, orderBy);
    var l := LimitText(limit);
    assert Query(table, whereClause, orderBy, limit) == ((head + w) + o) + l;
    assert (head + w) + o == head + (w + o);
    assert (head + (w + o)) + l == head + ((w + o) + l);
    Split(head, (w + o) + l);
  }

  /** Where each clause of `Query` sits. The text starts with the SELECT
      head and the table; right after the table comes " WHERE " exactly
      when a condition is set; right after the condition (if any) comes
      " ORDER BY " exactly when an order field is set; and what follows
      the order field (if any) is " LIMIT n" when the limit is positive
      and nothing otherwise. */
  lemma QueryLayout(table: Option<string>, whereClause: Option<string>, orderBy: Option<string>, limit: i32)
    ensures var q := Query(table, whereClause, orderBy, limit);
      var h := |Select| + |JavaText(table)|;
      var h2 := h + (if whereClause.IsSome() then |WhereKeyword| + |whereClause.Unwrap()| else 0);
      var h3 := h2 + (if orderBy.IsSome() then |OrderKeyword| + |orderBy.Unwrap()| else 0);
      h3 <= |q| &&
      StartsWith(q, Select + JavaText(table)) &&
      (StartsWith(q[h..], WhereKeyword) <==> whereClause.IsSome()) &&
      (whereClause.IsSome() ==> q[h..h2] == WhereKeyword + whereClause.Unwrap()) &&
      (StartsWith(q[h2..], OrderKeyword) <==> orderBy.IsSome()) &&
      (orderBy.IsSome() ==> q[h2..h3] == OrderKeyword + orderBy.Unwrap()) &&
      q[h3..] == LimitText(limit)
  {
    var q := Query(table, whereClause, orderBy, limit);
    var h := |Select + JavaText(table)|;
    var w := Clause(WhereKeyword, whereClause);
    var o := Clause(OrderKeyword, orderBy);
    var l := LimitText(limit);
    QueryHead(table, whereClause, orderBy, limit);
    WhereComesFirst(whereClause, orderBy, limit);
    OrderComesSecond(orderBy, limit);
    var rest := q[h..];
    assert rest == w + (o + l);
    Split(w, o + l);
    Split(o, l);
    assert q[h + |w|..] == rest[|w|..];
    assert q[h + |w| + |o|..] == (o + l)[|o|..];
    assert q[h..h + |w|] == rest[..|w|];
    assert q[h + |w|..h + |w| + |o|] == (o + l)[..|o|];
  }

  class QueryBuilder {
    var table: Option<string>
    var whereClause: Option<string>
    var orderBy: Option<string>
    var limit: i32

    /** The private constructor: Java's defaults, null fields and limit 0. */
    constructor ()
      ensures table.IsNone() && whereClause.IsNone() && orderBy.IsNone() && limit == 0
    {
      table, whereClause, orderBy, limit := None, None, None, 0;
    }

    /** `create` */
    static method Create() returns (b: QueryBuilder)
      ensures fresh(b)
      ensures b.table.IsNone() && b.whereClause.IsNone() && b.orderBy.IsNone() && b.limit == 0
    {
      b := new QueryBuilder();
    }

    /** `from`: sets the table and nothing else; returns the same builder. */
    method From(table: Option<string>) returns (self: QueryBuilder)
      modifies this
      ensures self == this && this.table == table
      ensures whereClause == old(whereClause) && orderBy == old(orderBy) && limit == old(limit)
    {
      this.table := table;
      self := this;
    }

    /** `where`: sets the condition and nothing else. */
    method Where(condition: Option<string>) returns (self: QueryBuilder)
      modifies this
      ensures self == this && whereClause == condition
      ensures table == old(table) && orderBy == old(orderBy) && limit == old(limit)
    {
      whereClause := condition;
      self := this;
    }

    /** `orderBy`: sets the order field and nothing else. */
    method OrderBy(field: Option<string>) returns (self: QueryBuilder)
      modifies this
      ensures self == this && orderBy == field
      ensures table == old(table) && whereClause == old(whereClause) && limit == old(limit)
    {
      orderBy := field;
      self := this;
    }

    /** `limit`: sets the limit and nothing else. */
    method Limit(limit: i32) returns (self: QueryBuilder)
      modifies this
      ensures self == this && this.limit == limit
      ensures table == old(table) && whereClause == old(whereClause) && orderBy == old(orderBy)
    {
      this.limit := limit;
      self := this;
    }

    /** `build`: appends the pieces one by one, as the `StringBuilder` does. */
    method Build() returns (sql: string)
      ensures sql == Query(table, whereClause, orderBy, limit)
    {
      sql := Select + JavaText(table);
      if whereClause.IsSome() {
        sql := sql + (WhereKeyword + whereClause.Unwrap());
      }
      assert sql == Select + JavaText(table) + Clause(WhereKeyword, whereClause);
      ghost var withWhere := sql;
      if orderBy.IsSome() {
        sql := sql + (OrderKeyword + orderBy.Unwrap());
      }
      assert sql == withWhere + Clause(OrderKeyword, orderBy);
      ghost var withOrder := sql;
      if limit > 0 {
        sql := sql + (LimitKeyword + Render(limit));
      }
      assert sql == withOrder + LimitText(limit);
    }
  }

  /** A chain of setters: the last call of a setter wins. */
  method ChainExample()
  {
    var b := QueryBuilder.Create();
    b := b.From(Some("users"));
    b := b.Limit(5);
    b := b.Where(Some("age > 18"));
    b := b.Where(Some("age > 21"));
    b := b.OrderBy(Some("name"));
    var q := b.Build();
    assert q == Query(Some("users"), Some("age > 21"), Some("name"), 5);
  }
}
