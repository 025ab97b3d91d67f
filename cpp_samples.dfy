/** `Stack<T>` of cpp/sample3.cpp: a LIFO over a `std::vector` that
    `push` and `pop` change in place. The vector is the field `items`;
    `Pushed`, `Popped` and `Top` say what the two operations do to it. */
module Stacks {

  /** The items after pushing `x`: `x` goes on the end, the rest stay. */
  function Pushed<T>(s: seq<T>, x: T): (r: seq<T>)
    ensures |r| == |s| + 1 && r[..|s|] == s && r[|s|] == x
  {
    s + [x]
  }

  /** The element `pop` returns: `back()`, the last one. */
  function Top<T>(s: seq<T>): T
    requires s != []
  {
    s[|s| - 1]
  }

  /** The items after `pop_back`: all but the last, so that putting the
      popped element back restores them. */
  function Popped<T>(s: seq<T>): (r: seq<T>)
    requires s != []
    ensures |r| == |s| - 1 && r + [Top(s)] == s
  {
    s[..|s| - 1]
  }

  /** `pop` after `push(x)` returns `x` and leaves the items as before. */
  lemma PopUndoesPush<T>(s: seq<T>, x: T)
    ensures Top(Pushed(s, x)) == x && Popped(Pushed(s, x)) == s
  {
  }

  class Stack<T> {
    var items: seq<T>

    /** A default-constructed stack holds nothing. */
    constructor ()
      ensures items == []
    {
      items := [];
    }

    /** `empty`: true exactly when no items are held. */
    function Empty(): (b: bool)
      reads this
      ensures b <==> |items| == 0
    {
      items == []
    }

    /** `push`: appends `item`; the stack is then not empty. */
    method Push(item: T)
      modifies this
      ensures items == Pushed(old(items), item)
      ensures !Empty()
    {
      items := items + [item];
    }

    /** `pop`: removes and returns the last item. `back()` on an empty
        vector is undefined, so the stack must not be empty. */
    method Pop() returns (item: T)
      requires !Empty()
      modifies this
      ensures item == Top(old(items)) && items == Popped(old(items))
    {
      item := items[|items| - 1];
      items := items[..|items| - 1];
    }
  }

  /** Pushing then popping, on a stack that already holds something. */
  method PushPopExample(s: Stack<int>)
    modifies s
  {
    ghost var before := s.items;
    s.Push(7);
    var x := s.Pop();
    PopUndoesPush(before, 7);
    assert x == 7 && s.items == before;
  }
}

/** `QueryBuilder` of cpp/sample3.cpp. `select` and `where` record their
    arguments, but `build` uses only the table. */
module CppQuery {

  const SelectAll: string := "SELECT * FROM "

  class QueryBuilder {
    var table: string
    var columns: seq<string>
    var whereClause: string

    /** The implicit default constructor: empty strings, no columns. */
    constructor ()
      ensures table == "" && columns == [] && whereClause == ""
    {
      table, columns, whereClause := "", [], "";
    }

    /** `build`: the head followed by the table, which can be read back
        from the text; columns and condition play no part. */
    function Build(): (q: string)
      reads this
      ensures |q| == |SelectAll| + |table|
      ensures q[..|SelectAll|] == SelectAll && q[|SelectAll|..] == table
    {
      SelectAll + table
    }

    /** `from`: sets the table and nothing else. */
    method From(t: string) returns (self: QueryBuilder)
      modifies this
      ensures self == this && table == t
      ensures columns == old(columns) && whereClause == old(whereClause)
    {
      table := t;
      self := this;
    }

    /** `select`: appends a column after the earlier ones; `build` is unaffected. */
    method Select(col: string) returns (self: QueryBuilder)
      modifies this
      ensures self == this && columns == old(columns) + [col]
      ensures table == old(table) && whereClause == old(whereClause)
      ensures Build() == old(Build())
    {
      columns := columns + [col];
      self := this;
    }

    /** `where`: sets the condition and nothing else; `build` is unaffected. */
    method Where(condition: string) returns (self: QueryBuilder)
      modifies this
      ensures self == this && whereClause == condition
      ensures table == old(table) && columns == old(columns)
      ensures Build() == old(Build())
    {
      whereClause := condition;
      self := this;
    }
  }
}

/** `User` of cpp/sample3.cpp. */
module Users {
  import opened Ints

  datatype User = User(name: string, email: string, age: i32) {

    /** `isAdult`: at least 18 years old. */
    predicate IsAdult()
      ensures IsAdult() <==> age >= 18
    {
      age >= 18
    }
  }
}
