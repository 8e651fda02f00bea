/**
  The token pieces a query is built from, and the brace shapes and counts
  they are expected to have: the header line (`Head`), the WHERE clause up to
  its last join fragment (`Body`), the closing braces (`Tail`) and the LIMIT
  line. `QueryFacts` proves that each piece has its expected shape and counts.
 */
module QueryParts {
  import opened Braces
  import opened Lexicon
  import opened Scan
  import opened Query

  /** Tokens of the header line: the PREFIX lines, the SELECT clause and its line break. */
  function Head(joins: int): seq<Token>
  {
    Concat(HeadParts(joins))
  }

  /** Tokens of the WHERE clause from its opening through the first `n` extra fragments. */
  function Body(v: Variant, n: nat): seq<Token>
    requires n <= |ExtraQueries(v)|
  {
    WhereStart(v) + Concat(ExtraQueries(v)[..n])
  }

  /** Tokens of the closing braces. */
  function Tail(v: Variant, joins: int): seq<Token>
  {
    Concat(Closing(v, joins))
  }

  /** Tokens of the whole query. */
  function QueryTokens(v: Variant, limit: int, joins: int): seq<Token>
    requires FragmentCount(joins) <= |ExtraQueries(v)|
  {
    Head(joins) + Body(v, FragmentCount(joins)) + Tail(v, joins) + LimitLine(limit)
  }

  /** Tokens with no brace and no keyword. */
  predicate Plain(ts: seq<Token>)
  {
    OpenBrace !in ts && CloseBrace !in ts && Dot !in ts && OptionalKw !in ts
  }

  /** The shape of one extra fragment. */
  function FragmentProfile(v: Variant): Profile
  {
    match v
    case Inner => Flat
    case SequentialLeft => Profile(0, 1, 0)
    case NestedLeft => Profile(1, 1, 0)
  }

  /**
    Whether a join fragment of builder `v` holds the counted token `k`: the
    inner join's ` .`, and the left joins' `OPTIONAL {`, closed again by the
    sequential builder only. No fragment holds a counted token twice.
   */
  predicate Holds(v: Variant, k: Token)
  {
    match v
    case Inner => k == Dot
    case SequentialLeft => k == OpenBrace || k == CloseBrace || k == OptionalKw
    case NestedLeft => k == OpenBrace || k == OptionalKw
  }

  /** The shape of the first `n` extra fragments. */
  function FragmentsProfile(v: Variant, n: nat): Profile
  {
    match v
    case Inner => Flat
    case SequentialLeft => if n == 0 then Flat else Profile(0, 1, 0)
    case NestedLeft => Profile(n, n, 0)
  }

  /** The shape of the WHERE clause through the first `n` fragments. */
  function BodyProfile(v: Variant, n: nat): Profile
  {
    match v
    case Inner => Profile(1, 1, 0)
    case SequentialLeft => Profile(1, 2, 0)
    case NestedLeft => Profile(2 + n, 2 + n, 0)
  }

  /** The number of `}` the builder appends after the fragments. */
  function ClosingBraces(v: Variant, joins: int): nat
  {
    if v == NestedLeft then 1 + ClosingCount(joins) else 1
  }

  /** The shape of `m` closing braces in a row. */
  function Closed(m: nat): Profile
  {
    Profile(-(m as int), 0, -(m as int))
  }

  /** The brace shape of a whole query. */
  function QueryProfile(v: Variant, joins: int): Profile
  {
    match v
    case Inner => Profile(0, 1, 0)
    case SequentialLeft => Profile(0, 2, 0)
    case NestedLeft => if joins >= 1 then Profile(0, joins + 1, 0) else Profile(1, 2, 0)
  }
}
