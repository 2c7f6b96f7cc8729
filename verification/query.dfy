/** The `/postgres/{schema}/v1/{table}` endpoint (`get_data`): it assembles a
    SQL-like query string from its path and query parameters. Each optional
    clause is added when the parameter is truthy in Python's sense, so `None`,
    the empty string and `0` all leave the clause out. */
module Query {
  import opened Values
  import opened Decimal

  /** Python truthiness of an `Optional[str]`. */
  predicate StrTruthy(o: Option<string>)
  {
    o.Some? && o.value != ""
  }

  /** Python truthiness of an `Optional[int]`. */
  predicate IntTruthy(o: Option<int>)
  {
    o.Some? && o.value != 0
  }

  /** The value a clause carries when it is written, `None` when it is dropped. */
  function Kept(o: Option<int>): Option<int>
  {
    if IntTruthy(o) then o else None
  }

  /** The mandatory head of every query; `select` defaults to `*`. */
  function Head(schema: string, table: string, select: Option<string>): string
  {
    "select " + select.GetOr("*") + " from " + schema + "." + table
  }

  const WhereKeyword: string := " where "
  const LimitKeyword: string := " limit "
  const OffsetKeyword: string := " offset "

  /** The where clause as `get_data` writes it, empty when `where` is falsy. */
  function WhereClause(where: Option<string>): string
  {
    if StrTruthy(where) then WhereKeyword + where.value else ""
  }

  /** `get_data`: the query text the endpoint returns under the key `query`.
      The head comes first; after it, a where clause appears iff `where` is
      truthy and then carries `where` verbatim; the rest reads back as exactly
      the truthy limit and offset; with every optional falsy, the head is all. */
  function GetData(schema: string, table: string, select: Option<string>,
                   where: Option<string>, limit: Option<int>, offset: Option<int>): (q: string)
    ensures "select " + select.GetOr("*") + " from " + schema + "." + table <= q
    ensures StrTruthy(where) <==> WhereKeyword <= q[|Head(schema, table, select)|..]
    ensures StrTruthy(where) ==>
              && WhereKeyword + where.value <= q[|Head(schema, table, select)|..]
              && ParseTail(q[|Head(schema, table, select)| + |WhereKeyword + where.value|..])
                 == Some((Kept(limit), Kept(offset)))
    ensures !StrTruthy(where) ==>
              ParseTail(q[|Head(schema, table, select)|..]) == Some((Kept(limit), Kept(offset)))
    ensures !StrTruthy(where) && !IntTruthy(limit) && !IntTruthy(offset) ==>
              q == Head(schema, table, select)
  {
    var head := Head(schema, table, select);
    var query := AddOffset(AddLimit(AddWhere(head, where), limit), offset);
    Associate(head, WhereClause(where), LimitClause(limit), OffsetClause(offset));
    QueryAfterHead(head, where, limit, offset);
    query
  }

  /** What follows any head in the assembled query. */
  lemma QueryAfterHead(head: string, where: Option<string>, limit: Option<int>, offset: Option<int>)
    ensures var q := head + WhereClause(where) + Tail(limit, offset);
      && head <= q
      && (StrTruthy(where) <==> WhereKeyword <= q[|head|..])
      && (StrTruthy(where) ==>
            && WhereKeyword + where.value <= q[|head|..]
            && ParseTail(q[|head| + |WhereKeyword + where.value|..]) == Some((Kept(limit), Kept(offset))))
      && (!StrTruthy(where) ==> ParseTail(q[|head|..]) == Some((Kept(limit), Kept(offset))))
      && (!StrTruthy(where) && !IntTruthy(limit) && !IntTruthy(offset) ==> q == head)
  {
    TailRoundTrip(limit, offset);
    TailIsNotWhere(limit, offset);
    SliceAfter(head, WhereClause(where), Tail(limit, offset));
  }

  /** Appends the where clause when `where` is truthy. */
  function AddWhere(query: string, where: Option<string>): string
  {
    query + WhereClause(where)
  }

  /** Appends the limit clause when `limit` is truthy. */
  function AddLimit(query: string, limit: Option<int>): string
  {
    query + LimitClause(limit)
  }

  /** Appends the offset clause when `offset` is truthy. */
  function AddOffset(query: string, offset: Option<int>): string
  {
    query + OffsetClause(offset)
  }

  lemma Associate(a: string, b: string, c: string, d: string)
    ensures a + b + c + d == a + b + (c + d)
  {
  }

  lemma SliceAfter(a: string, b: string, c: string)
    ensures a <= a + b + c
    ensures (a + b + c)[|a|..] == b + c
    ensures (a + b + c)[|a| + |b|..] == c
    ensures b <= b + c
  {
    assert (a + b + c)[..|a|] == a;
    assert (b + c)[..|b|] == b;
  }

  /** The part of the query after the optional where clause. */
  function Tail(limit: Option<int>, offset: Option<int>): string
  {
    LimitClause(limit) + OffsetClause(offset)
  }

  function LimitClause(limit: Option<int>): string
  {
    if IntTruthy(limit) then LimitKeyword + IntToString(limit.value) else ""
  }

  function OffsetClause(offset: Option<int>): string
  {
    if IntTruthy(offset) then OffsetKeyword + IntToString(offset.value) else ""
  }

  /** Splits `s` before its first space (or at its end). */
  function SplitAtSpace(s: string): (string, string)
  {
    if s == [] || s[0] == ' ' then ([], s)
    else
      var (word, rest) := SplitAtSpace(s[1..]);
      ([s[0]] + word, rest)
  }

  /** Reference reader for an optional ` offset <n>` clause that ends the text. */
  function ParseOffset(s: string): Option<Option<int>>
  {
    if s == [] then Some(None)
    else if OffsetKeyword <= s then
      match ParseInt(s[|OffsetKeyword|..])
      case Some(n) => Some(Some(n))
      case None => None
    else None
  }

  /** Reference reader for the text after the where clause: an optional
      ` limit <n>` followed by an optional ` offset <m>`, each at most once and
      in that order. It yields the limit and offset it finds. */
  function ParseTail(s: string): Option<(Option<int>, Option<int>)>
  {
    if LimitKeyword <= s then
      var (number, rest) := SplitAtSpace(s[|LimitKeyword|..]);
      match (ParseInt(number), ParseOffset(rest))
      case (Some(n), Some(o)) => Some((Some(n), o))
      case _ => None
    else
      match ParseOffset(s)
      case Some(o) => Some((None, o))
      case None => None
  }

  lemma {:induction false} SplitAtSpaceWord(word: string, rest: string)
    requires forall k :: 0 <= k < |word| ==> word[k] != ' '
    requires rest == [] || rest[0] == ' '
    ensures SplitAtSpace(word + rest) == (word, rest)
    decreases |word|
  {
    if word != [] {
      assert (word + rest)[0] == word[0];
      assert (word + rest)[1..] == word[1..] + rest;
      assert [word[0]] + word[1..] == word;
      SplitAtSpaceWord(word[1..], rest);
    } else {
      assert word + rest == rest;
    }
  }

  lemma OffsetRoundTrip(offset: Option<int>)
    ensures ParseOffset(OffsetClause(offset)) == Some(Kept(offset))
  {
    if IntTruthy(offset) {
      var s := OffsetKeyword + IntToString(offset.value);
      assert s[|OffsetKeyword|..] == IntToString(offset.value);
      IntRoundTrip(offset.value);
    }
  }

  /** The limit and offset clauses written by `get_data` read back as exactly
      the truthy parameters: a clause is present iff its parameter is present
      and non-zero, it carries that value, limit precedes offset and neither
      repeats. */
  lemma TailRoundTrip(limit: Option<int>, offset: Option<int>)
    ensures ParseTail(Tail(limit, offset)) == Some((Kept(limit), Kept(offset)))
  {
    OffsetRoundTrip(offset);
    if IntTruthy(limit) {
      assert Tail(limit, offset) == LimitKeyword + IntToString(limit.value) + OffsetClause(offset);
      LimitRoundTrip(limit.value, offset);
    } else {
      assert Tail(limit, offset) == OffsetClause(offset);
      NoLimitRoundTrip(offset);
    }
  }

  lemma NoLimitRoundTrip(offset: Option<int>)
    requires ParseOffset(OffsetClause(offset)) == Some(Kept(offset))
    ensures ParseTail(OffsetClause(offset)) == Some((None, Kept(offset)))
  {
    var o := OffsetClause(offset);
    assert !(LimitKeyword <= o) by {
      if o != [] { assert o[1] == 'o'; }
    }
  }

  lemma LimitRoundTrip(n: int, offset: Option<int>)
    requires ParseOffset(OffsetClause(offset)) == Some(Kept(offset))
    ensures ParseTail(LimitKeyword + IntToString(n) + OffsetClause(offset)) == Some((Some(n), Kept(offset)))
  {
    var number := IntToString(n);
    var o := OffsetClause(offset);
    assert forall k :: 0 <= k < |number| ==> number[k] != ' ';
    assert o == [] || o[0] == ' ';
    LimitClauseSplits(number, o);
    IntRoundTrip(n);
  }

  /** A limit keyword, then a word, then text starting at a space: the reader
      sees the keyword and takes exactly the word as the number. */
  lemma LimitClauseSplits(word: string, rest: string)
    requires forall k :: 0 <= k < |word| ==> word[k] != ' '
    requires rest == [] || rest[0] == ' '
    ensures LimitKeyword <= LimitKeyword + word + rest
    ensures SplitAtSpace((LimitKeyword + word + rest)[|LimitKeyword|..]) == (word, rest)
  {
    var s := LimitKeyword + word + rest;
    assert s[..|LimitKeyword|] == LimitKeyword;
    assert s[|LimitKeyword|..] == word + rest;
    SplitAtSpaceWord(word, rest);
  }

  /** Without a where clause, the text after the head never reads as one. */
  lemma TailIsNotWhere(limit: Option<int>, offset: Option<int>)
    ensures !(WhereKeyword <= Tail(limit, offset))
  {
    var t := Tail(limit, offset);
    if |t| >= |WhereKeyword| {
      assert t[1] == 'l' || t[1] == 'o';
    }
  }
}
