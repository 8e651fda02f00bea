/**
  The vocabulary the query builders spell their text from: keywords, the two
  PREFIX declarations, variables, triple patterns, punctuation, line breaks
  with their indentation, and the LIMIT number. Every literal a builder
  appends is the concatenation of the spellings of a few of these tokens.

  Besides the spellings, this module records which characters each spelling
  avoids; the rest of the model derives every fact about brace nesting and
  keyword occurrences from these character facts.
 */
module Lexicon {
  import opened Text
  import Decimal

  /** SPARQL variables of the queries. */
  datatype Var = Person | Partner | Name | Sex | PartnerName | PartnerSex

  /** Terms of a triple pattern: a variable, `a`, or a prefixed name. */
  datatype Term = Variable(v: Var) | IsA | DboPerson | FoafName | FoafGender | DboPartner

  /** A triple pattern `subject property value`. */
  datatype Triple = Triple(subject: Term, property: Term, value: Term)

  datatype Token =
    | HeaderBreak      // line break and the indentation of the header lines
    | PrefixDbo        // `PREFIX dbo:`
    | DboIri           // `<http://dbpedia.org/ontology/>`
    | PrefixFoaf       // `PREFIX foaf: `
    | FoafIri          // `<http://xmlns.com/foaf/0.1/>`
    | Select           // `SELECT `
    | Comma            // `, ` between output variables
    | Output(v: Var)   // an output variable of the SELECT clause
    | Newline
    | Where            // `WHERE `
    | OpenBrace
    | CloseBrace
    | PatternBreak     // line break and the indentation of the WHERE lines
    | Indent           // the indentation of a WHERE line without its line break
    | Pattern(t: Triple)
    | Dot              // ` .` and line break: the inner join's separator
    | OptionalKw       // `OPTIONAL`
    | Space
    | LimitKw          // line break and `LIMIT `
    | Number(n: int)   // an integer as Python's `str` renders it

  function VarText(v: Var): string
  {
    match v
    case Person => "?person"
    case Partner => "?partner"
    case Name => "?name"
    case Sex => "?sex"
    case PartnerName => "?partnername"
    case PartnerSex => "?partnersex"
  }

  function TermText(t: Term): string
  {
    match t
    case Variable(v) => VarText(v)
    case IsA => "a"
    case DboPerson => "dbo:Person"
    case FoafName => "foaf:name"
    case FoafGender => "foaf:gender"
    case DboPartner => "dbo:partner"
  }

  function TripleText(t: Triple): string
  {
    TermText(t.subject) + " " + TermText(t.property) + " " + TermText(t.value)
  }

  function Spell(t: Token): (r: string)
    ensures |r| > 0
  {
    match t
    case HeaderBreak => "\n    "
    case PrefixDbo => "PREFIX dbo:"
    case DboIri => "<http://dbpedia.org/ontology/>"
    case PrefixFoaf => "PREFIX foaf: "
    case FoafIri => "<http://xmlns.com/foaf/0.1/>"
    case Select => "SELECT "
    case Comma => ", "
    case Output(v) => VarText(v)
    case Newline => "\n"
    case Where => "WHERE "
    case OpenBrace => "{"
    case CloseBrace => "}"
    case PatternBreak => "\n        "
    case Indent => "        "
    case Pattern(p) => TripleText(p)
    case Dot => " .\n"
    case OptionalKw => "OPTIONAL"
    case Space => " "
    case LimitKw => "\nLIMIT "
    case Number(n) => Decimal.Render(n)
  }

  /** Last character of the name of a variable. */
  function VarFinal(v: Var): char
  {
    match v
    case Person => 'n'
    case Partner => 'r'
    case Name => 'e'
    case Sex => 'x'
    case PartnerName => 'e'
    case PartnerSex => 'x'
  }

  function TermInitial(t: Term): char
  {
    match t
    case Variable(_) => '?'
    case IsA => 'a'
    case DboPerson => 'd'
    case FoafName => 'f'
    case FoafGender => 'f'
    case DboPartner => 'd'
  }

  function TermFinal(t: Term): char
  {
    match t
    case Variable(v) => VarFinal(v)
    case IsA => 'a'
    case DboPerson => 'n'
    case FoafName => 'e'
    case FoafGender => 'r'
    case DboPartner => 'r'
  }

  /** First character of the spelling of a token. */
  function Initial(t: Token): char
  {
    match t
    case HeaderBreak => '\n'
    case PrefixDbo => 'P'
    case DboIri => '<'
    case PrefixFoaf => 'P'
    case FoafIri => '<'
    case Select => 'S'
    case Comma => ','
    case Output(_) => '?'
    case Newline => '\n'
    case Where => 'W'
    case OpenBrace => '{'
    case CloseBrace => '}'
    case PatternBreak => '\n'
    case Indent => ' '
    case Pattern(p) => TermInitial(p.subject)
    case Dot => ' '
    case OptionalKw => 'O'
    case Space => ' '
    case LimitKw => '\n'
    case Number(n) => Decimal.Render(n)[0]
  }

  /** Last character of the spelling of a token. */
  function Final(t: Token): char
  {
    match t
    case HeaderBreak => ' '
    case PrefixDbo => ':'
    case DboIri => '>'
    case PrefixFoaf => ' '
    case FoafIri => '>'
    case Select => ' '
    case Comma => ' '
    case Output(v) => VarFinal(v)
    case Newline => '\n'
    case Where => ' '
    case OpenBrace => '{'
    case CloseBrace => '}'
    case PatternBreak => ' '
    case Indent => ' '
    case Pattern(p) => TermFinal(p.value)
    case Dot => '\n'
    case OptionalKw => 'L'
    case Space => ' '
    case LimitKw => ' '
    case Number(n) => var r := Decimal.Render(n); r[|r| - 1]
  }

  lemma TermEnds(t: Term)
    ensures TermText(t)[0] == TermInitial(t) && TermText(t)[|TermText(t)| - 1] == TermFinal(t)
  {
  }

  /** `Initial` and `Final` are the characters at the two ends of the spelling. */
  lemma Ends(t: Token)
    ensures Spell(t)[0] == Initial(t) && Spell(t)[|Spell(t)| - 1] == Final(t)
  {
    match t
    case Pattern(p) => PatternEnds(p);
    case Output(_) =>
    case Number(_) =>
    case HeaderBreak | PrefixDbo | DboIri | PrefixFoaf | FoafIri | Select => HeaderEnds(t);
    case _ => PunctuationEnds(t);
  }

  lemma PatternEnds(p: Triple)
    ensures var s := Spell(Pattern(p)); s[0] == TermInitial(p.subject) && s[|s| - 1] == TermFinal(p.value)
  {
    TermEnds(p.subject);
    TermEnds(p.value);
    TermCharacters(p.subject);
    TermCharacters(p.value);
    var a := TermText(p.subject) + " " + TermText(p.property) + " ";
    assert Spell(Pattern(p)) == a + TermText(p.value);
    assert Spell(Pattern(p))[0] == TermText(p.subject)[0];
  }

  lemma HeaderEnds(t: Token)
    requires t in {HeaderBreak, PrefixDbo, DboIri, PrefixFoaf, FoafIri, Select}
    ensures Spell(t)[0] == Initial(t) && Spell(t)[|Spell(t)| - 1] == Final(t)
  {
  }

  lemma PunctuationEnds(t: Token)
    requires !t.Pattern? && !t.Output? && !t.Number?
    requires t !in {HeaderBreak, PrefixDbo, DboIri, PrefixFoaf, FoafIri, Select}
    ensures Spell(t)[0] == Initial(t) && Spell(t)[|Spell(t)| - 1] == Final(t)
  {
  }

  /** Only `OPTIONAL` ends in a capital letter. */
  lemma FinalNotCapital(t: Token)
    requires t != OptionalKw
    ensures !('A' <= Final(t) <= 'Z')
  {
    match t
    case Output(v) =>
    case Pattern(p) =>
    case Number(n) => Decimal.RenderEnds(n);
    case _ =>
  }

  /** No spelling begins or ends with a `.`. */
  lemma DotFree(t: Token)
    ensures Initial(t) != '.' && Final(t) != '.'
  {
    match t
    case Output(v) =>
    case Pattern(p) =>
    case Number(n) => Decimal.RenderEnds(n);
    case _ =>
  }

  /** The tokens whose occurrences in a query are counted. */
  predicate Keyword(k: Token)
  {
    k == Dot || k == OptionalKw
  }

  /** Tokens that carry a line break; none of them contains a `.`. */
  predicate Breaking(t: Token)
  {
    t == HeaderBreak || t == Newline || t == PatternBreak || t == LimitKw
  }

  /** No brace, no capital `O` and no line break or no `.` among the characters of `s`. */
  predicate Ordinary(s: string, breaking: bool)
  {
    forall i :: 0 <= i < |s| ==>
      s[i] != '{' && s[i] != '}' && s[i] != 'O' && s[i] != (if breaking then '.' else '\n')
  }

  lemma OrdinaryAppend(a: string, b: string, breaking: bool)
    requires Ordinary(a, breaking) && Ordinary(b, breaking)
    ensures Ordinary(a + b, breaking)
  {
    forall i | 0 <= i < |a + b|
      ensures (a + b)[i] != (if breaking then '.' else '\n')
    {
      if i >= |a| {
        assert (a + b)[i] == b[i - |a|];
      }
    }
  }

  lemma VarCharacters(v: Var)
    ensures |VarText(v)| > 0 && VarText(v)[0] == '?' && Ordinary(VarText(v), false)
  {
  }

  lemma TermCharacters(t: Term)
    ensures |TermText(t)| > 0 && Ordinary(TermText(t), false)
  {
    if t.Variable? {
      VarCharacters(t.v);
    }
  }

  lemma TripleCharacters(t: Triple)
    ensures |TripleText(t)| > 0 && Ordinary(TripleText(t), false)
  {
    TermCharacters(t.subject);
    TermCharacters(t.property);
    TermCharacters(t.value);
    OrdinaryAppend(TermText(t.subject), " ", false);
    OrdinaryAppend(TermText(t.subject) + " ", TermText(t.property), false);
    OrdinaryAppend(TermText(t.subject) + " " + TermText(t.property), " ", false);
    OrdinaryAppend(TermText(t.subject) + " " + TermText(t.property) + " ", TermText(t.value), false);
  }

  lemma HeaderCharacters(t: Token)
    requires t in {HeaderBreak, PrefixDbo, PrefixFoaf, Select}
    ensures Ordinary(Spell(t), Breaking(t))
  {
  }

  lemma DboIriCharacters()
    ensures Ordinary(Spell(DboIri), false)
  {
  }

  lemma FoafIriCharacters()
    ensures Ordinary(Spell(FoafIri), false)
  {
  }

  lemma NumberCharacters(n: int)
    ensures Ordinary(Decimal.Render(n), false)
  {
    var s := Decimal.Render(n);
    forall i | 0 <= i < |s|
      ensures s[i] != '{' && s[i] != '}' && s[i] != 'O' && s[i] != '\n'
    {
      Decimal.RenderCharacters(n, '{');
      Decimal.RenderCharacters(n, '}');
      Decimal.RenderCharacters(n, 'O');
      Decimal.RenderCharacters(n, '\n');
    }
  }

  /** Every spelling is non-empty, and every token but a brace or a keyword is ordinary. */
  lemma Characters(t: Token)
    ensures |Spell(t)| > 0
    ensures !(t == OpenBrace || t == CloseBrace || Keyword(t)) ==> Ordinary(Spell(t), Breaking(t))
  {
    match t
    case HeaderBreak | PrefixDbo | PrefixFoaf | Select => HeaderCharacters(t);
    case DboIri => DboIriCharacters();
    case FoafIri => FoafIriCharacters();
    case Output(v) => VarCharacters(v);
    case Pattern(p) => TripleCharacters(p);
    case Number(n) => NumberCharacters(n);
    case OpenBrace | CloseBrace | Dot | OptionalKw =>
    case _ => PunctuationCharacters(t);
  }

  lemma PunctuationCharacters(t: Token)
    requires t in {Comma, Newline, Where, PatternBreak, Indent, Space, LimitKw}
    ensures Ordinary(Spell(t), Breaking(t))
  {
  }
}
