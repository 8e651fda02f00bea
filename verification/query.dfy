/**
  The three SPARQL query builders of the benchmark (`prepare_inner_join_query`,
  `prepare_sequential_left_join_query`, `prepare_nested_left_join_query`).

  Each builder appends strings to a list `string_parts` and joins the list:
  a header with two PREFIX lines and `SELECT ?name`, one `, ?var` string per
  extra output variable chosen by `joins`, a line break, the opening of the
  WHERE clause with its mandatory first pattern, the first `joins - 1` of four
  extra fragments, closing braces and a `LIMIT` line. The three builders differ
  only in the WHERE opening, the fragments and the closing braces, so they are
  one function `Build` over a `Variant`.

  Every appended string is given as the token sequence that spells it
  (`Lexicon.Spell`); `Parts` is the list of their texts, in the order the
  builder appends them.
 */
module Query {
  import opened Text
  import opened Results
  import opened Lexicon
  import opened Scan

  /** Which of the three builders. */
  datatype Variant =
    | Inner           // patterns joined by ` .`
    | SequentialLeft  // every further pattern in its own `OPTIONAL { ... }`
    | NestedLeft      // every further pattern opens an `OPTIONAL {` inside the previous one

  /** Python's IndexError from `extra_queries[index]`. */
  datatype BuildError = IndexOutOfRange(index: int)

  /** The first string every builder appends: two PREFIX lines and `SELECT ?name`. */
  const Header: seq<Token> :=
    [HeaderBreak, PrefixDbo, DboIri,
     HeaderBreak, PrefixFoaf, FoafIri,
     HeaderBreak, Select, Output(Name)]

  /** `?person a dbo:Person`, the pattern every query starts with. */
  const PersonIsPerson := Triple(Variable(Person), IsA, DboPerson)
  /** `?person foaf:name ?name`, the first join. */
  const PersonName := Triple(Variable(Person), FoafName, Variable(Name))
  /** The patterns of the second to fifth join, in order. */
  const ExtraTriples := [
    Triple(Variable(Person), FoafGender, Variable(Sex)),
    Triple(Variable(Person), DboPartner, Variable(Partner)),
    Triple(Variable(Partner), FoafName, Variable(PartnerName)),
    Triple(Variable(Partner), FoafGender, Variable(PartnerSex))
  ]

  /** `OPTIONAL { t` on a line of its own, left open. */
  function OpenOptional(t: Triple): seq<Token>
  {
    [PatternBreak, OptionalKw, Space, OpenBrace, Space, Pattern(t)]
  }

  /** `OPTIONAL { t }` on a line of its own. */
  function Optional(t: Triple): seq<Token>
  {
    OpenOptional(t) + [Space, CloseBrace]
  }

  /** The string a builder appends for one extra triple pattern. */
  function Fragment(v: Variant, t: Triple): seq<Token>
  {
    match v
    case Inner => [Dot, Pattern(t)]
    case SequentialLeft => Optional(t)
    case NestedLeft => OpenOptional(t)
  }

  /** The builder's `extra_queries` list. */
  function ExtraQueries(v: Variant): (r: seq<seq<Token>>)
    ensures |r| == |ExtraTriples|
  {
    seq(|ExtraTriples|, i requires 0 <= i < |ExtraTriples| => Fragment(v, ExtraTriples[i]))
  }

  /** The tokens up to and including the first pattern, common to all builders. */
  const WhereOpening := [Where, OpenBrace, PatternBreak, Pattern(PersonIsPerson)]

  /** The rest of the WHERE opening: the first join, whose pattern is `t`. */
  function FirstJoin(v: Variant, t: Triple): seq<Token>
  {
    match v
    case Inner => [Dot, Indent, Pattern(t)]
    case SequentialLeft => Optional(t)
    case NestedLeft => OpenOptional(t)
  }

  /** The opening of the WHERE clause with its first two patterns. */
  function WhereStart(v: Variant): seq<Token>
  {
    WhereOpening + FirstJoin(v, PersonName)
  }

  /** Output variables added after `?name`, in order. */
  function ExtraVariables(joins: int): seq<Var>
  {
    (if joins >= 2 then [Sex] else [])
    + (if joins >= 4 then [PartnerName] else [])
    + (if joins == 5 then [PartnerSex] else [])
  }

  /** All output variables of the SELECT clause, in order. */
  function SelectedVariables(joins: int): seq<Var>
  {
    [Name] + ExtraVariables(joins)
  }

  /** The strings appended for the extra output variables: `, ?sex` and so on. */
  function SelectParts(joins: int): seq<seq<Token>>
  {
    var extra := ExtraVariables(joins);
    seq(|extra|, k requires 0 <= k < |extra| => [Comma, Output(extra[k])])
  }

  /** Number of iterations of `for i in range(0, joins - 1)`. */
  function FragmentCount(joins: int): nat
  {
    if joins - 1 < 0 then 0 else joins - 1
  }

  /** Number of iterations of `for i in range(joins)`. */
  function ClosingCount(joins: int): nat
  {
    if joins < 0 then 0 else joins
  }

  /** `m` closing braces appended one at a time. */
  function Closers(m: nat): seq<seq<Token>>
  {
    seq(m, _ => [CloseBrace])
  }

  /** The strings appended after the fragments, up to the LIMIT line. */
  function Closing(v: Variant, joins: int): seq<seq<Token>>
  {
    [[Newline, CloseBrace]]
    + if v == NestedLeft then [[PatternBreak]] + Closers(ClosingCount(joins)) else []
  }

  /** `"\nLIMIT {}".format(limit)`. */
  function LimitLine(limit: int): seq<Token>
  {
    [LimitKw, Number(limit)]
  }

  /** The strings appended before the WHERE clause. */
  function HeadParts(joins: int): seq<seq<Token>>
  {
    [Header] + SelectParts(joins) + [[Newline]]
  }

  /** The strings of the WHERE clause up to its closing braces, when `joins` stays within `extra_queries`. */
  function BodyParts(v: Variant, joins: int): seq<seq<Token>>
    requires FragmentCount(joins) <= |ExtraQueries(v)|
  {
    [WhereStart(v)] + ExtraQueries(v)[..FragmentCount(joins)]
  }

  /** The builder's `string_parts` list, as token sequences, when `joins` stays within `extra_queries`. */
  function PartTokens(v: Variant, limit: int, joins: int): seq<seq<Token>>
    requires FragmentCount(joins) <= |ExtraQueries(v)|
  {
    HeadParts(joins) + BodyParts(v, joins) + Closing(v, joins) + [LimitLine(limit)]
  }

  /** The builder's `string_parts` list. */
  function Parts(v: Variant, limit: int, joins: int): seq<string>
    requires FragmentCount(joins) <= |ExtraQueries(v)|
  {
    Texts(PartTokens(v, limit, joins))
  }

  /**
    The query text built for `limit` and `joins`; a `joins` above 5 makes the
    builder index past the four-element fragment list.
   */
  function Build(v: Variant, limit: int, joins: int): (r: Result<string, BuildError>)
    ensures r.Failure? <==> joins > 5
    ensures r.Failure? ==> r.error == IndexOutOfRange(4)
  {
    if FragmentCount(joins) > |ExtraQueries(v)| then Failure(IndexOutOfRange(|ExtraQueries(v)|))
    else Success(Join(Parts(v, limit, joins)))
  }
}
