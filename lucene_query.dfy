/**
 * The index queries a WHERE clause is translated to, the tree renderer the
 * query-visitor tests print them with, and the translation itself as far as
 * those tests pin it down: equality becomes a term query, an ordering
 * comparison a numeric range with one open end, AND and OR binary boolean
 * queries that are never flattened, and `!=` a match-all anchor with the
 * equality excluded. A comparison with the literal first is read with the
 * operator mirrored.
 */
module LuceneQueryVisitor {
  import opened Wrappers

  datatype Occur = MUST | SHOULD | MUST_NOT

  datatype Term = Term(field: string, text: string)

  /**
   * The query kinds the renderer distinguishes. Range bounds are kept as
   * the text they print as; an absent bound prints as "null".
   */
  datatype Query =
    | TermQuery(term: Term)
    | NumericRangeQuery(field: string, min: Option<string>, max: Option<string>, includesMin: bool, includesMax: bool)
    | BooleanQuery(clauses: seq<BooleanClause>, minimumNumberShouldMatch: int)
    | MatchAllDocsQuery
      /** Any other query, with its `toString()`. */
    | OtherQuery(description: string)

  datatype BooleanClause = BooleanClause(occur: Occur, query: Query)

  // ----- The renderer -----

  /** `i(num)`: `num` spaces, none when `num` is not positive. */
  function Indent(num: int): string
    decreases if num <= 0 then 0 else num
  {
    if num <= 0 then "" else Indent(num - 1) + " "
  }

  /** `o(occur)`: the name of a clause's occurrence. */
  function OccurName(occur: Occur): string
  {
    match occur
    case MUST => "MUST"
    case SHOULD => "SHOULD"
    case MUST_NOT => "MUST_NOT"
  }

  function DigitChar(d: nat): char
    requires d < 10
  {
    "0123456789"[d]
  }

  /** Decimal digits of a natural number, most significant first. */
  function NatToString(n: nat): string
  {
    if n < 10 then [DigitChar(n)] else NatToString(n / 10) + [DigitChar(n % 10)]
  }

  /** How `StringBuilder.append(int)` prints an integer. */
  function IntToString(n: int): string
  {
    if n < 0 then "-" + NatToString(-n) else NatToString(n)
  }

  /** `Term.toString()`: the field, a colon, the text. */
  function TermString(term: Term): string
  {
    term.field + ":" + term.text
  }

  /** How a bound is appended: its text, or "null" when there is none. */
  function Bound(bound: Option<string>): string
  {
    match bound
    case None => "null"
    case Some(text) => text
  }

  function InclusiveMarker(inclusive: bool): string
  {
    if inclusive then "(incl) " else ""
  }

  /** The line a boolean query starts with. */
  function HeaderLine(indent: int, minimumNumberShouldMatch: int): string
  {
    Indent(indent) + "BooleanQuery/" + IntToString(minimumNumberShouldMatch) + ":\n"
  }

  /** The line naming a clause's occurrence. */
  function OccurLine(indent: int, occur: Occur): string
  {
    Indent(indent) + OccurName(occur) + "\n"
  }

  /** `createTree(query, indent)`: the text the renderer builds for `q`. */
  function Tree(q: Query, indent: int): string
    decreases q, 1, 0
  {
    match q
    case TermQuery(term) => Indent(indent) + "TermQuery: " + TermString(term) + "\n"
    case NumericRangeQuery(_, min, max, includesMin, includesMax) =>
      Indent(indent) + "NumericRangeQuery: " + InclusiveMarker(includesMin) + Bound(min)
      + " to " + InclusiveMarker(includesMax) + Bound(max) + "\n"
    case BooleanQuery(clauses, minimumNumberShouldMatch) =>
      ClausesTree(HeaderLine(indent, minimumNumberShouldMatch), q, |clauses|, indent)
    case MatchAllDocsQuery => Indent(indent) + "*:*"
    case OtherQuery(description) => Indent(indent) + description
  }

  /**
   * `head` followed by the first `k` clauses of a boolean query: each its
   * occurrence on its own line, then its query, two deeper.
   */
  function ClausesTree(head: string, q: Query, k: nat, indent: int): string
    requires q.BooleanQuery? && k <= |q.clauses|
    decreases q, 0, k
  {
    if k == 0 then head
    else
      ClausesTree(head, q, k - 1, indent)
      + OccurLine(indent + 2, q.clauses[k - 1].occur)
      + Tree(q.clauses[k - 1].query, indent + 2)
  }

  /** `i(num)`, appending one space at a time. */
  method I(num: int) returns (s: string)
    ensures s == Indent(num)
  {
    s := "";
    var i := 0;
    while i < num
      invariant 0 <= i <= if num < 0 then 0 else num
      invariant s == Indent(i)
    {
      s := s + " ";
      i := i + 1;
    }
  }

  /** `createTree(query, indent)`, appending to a builder and recursing into the clauses. */
  method CreateTree(q: Query, indent: int) returns (s: string)
    ensures s == Tree(q, indent)
    decreases q
  {
    var sb := I(indent);
    match q {
    case TermQuery(term) =>
      sb := sb + "TermQuery: ";
      sb := sb + TermString(term);
      sb := sb + "\n";
    case NumericRangeQuery(_, min, max, includesMin, includesMax) =>
      sb := sb + "NumericRangeQuery: ";
      if includesMin {
        sb := sb + "(incl) ";
      } else {
        assert sb + InclusiveMarker(includesMin) == sb;
      }
      sb := sb + Bound(min);
      sb := sb + " to ";
      if includesMax {
        sb := sb + "(incl) ";
      } else {
        assert sb + InclusiveMarker(includesMax) == sb;
      }
      sb := sb + Bound(max);
      sb := sb + "\n";
    case BooleanQuery(clauses, minimumNumberShouldMatch) =>
      sb := sb + "BooleanQuery/";
      sb := sb + IntToString(minimumNumberShouldMatch);
      sb := sb + ":\n";
      ghost var head := sb;
      for k := 0 to |clauses|
        invariant sb == ClausesTree(head, q, k, indent)
      {
        var pad := I(indent + 2);
        var child := CreateTree(clauses[k].query, indent + 2);
        sb := sb + pad;
        sb := sb + OccurName(clauses[k].occur);
        sb := sb + "\n";
        assert sb == ClausesTree(head, q, k, indent) + OccurLine(indent + 2, clauses[k].occur);
        sb := sb + child;
      }
    case MatchAllDocsQuery =>
      sb := sb + "*:*";
    case OtherQuery(description) =>
      sb := sb + description;
    }
    s := sb;
  }


  /** An indentation is exactly that many spaces. */
  lemma {:induction false} IndentIsSpaces(num: int)
    ensures |Indent(num)| == if num <= 0 then 0 else num
    ensures forall k :: 0 <= k < |Indent(num)| ==> Indent(num)[k] == ' '
    decreases if num <= 0 then 0 else num
  {
    if num > 0 {
      IndentIsSpaces(num - 1);
    }
  }

  /** The three occurrence names are distinct, so a rendering tells the occurrences apart. */
  lemma OccurNamesAreDistinct(a: Occur, b: Occur)
    ensures OccurName(a) == OccurName(b) <==> a == b
  {
  }

  /** Every rendering starts with its indentation. */
  lemma {:induction false} TreeStartsIndented(q: Query, indent: int)
    ensures Indent(indent) <= Tree(q, indent)
  {
    if q.BooleanQuery? {
      HeadStartsClausesTree(HeaderLine(indent, q.minimumNumberShouldMatch), q, |q.clauses|, indent);
    }
  }

  /** The clauses are appended after the head, never in front of it. */
  lemma {:induction false} HeadStartsClausesTree(head: string, q: Query, k: nat, indent: int)
    requires q.BooleanQuery? && k <= |q.clauses|
    ensures head <= ClausesTree(head, q, k, indent)
    decreases k
  {
    if k > 0 {
      HeadStartsClausesTree(head, q, k - 1, indent);
    }
  }

  /** `s` ends with `t`. */
  predicate EndsWith(s: string, t: string)
  {
    |t| <= |s| && s[|s| - |t|..] == t
  }

  /** A range's rendering, split at the lower marker. */
  lemma RangeTreeAtLowerMarker(field: string, min: Option<string>, max: Option<string>,
                               includesMin: bool, includesMax: bool, indent: int)
    ensures Tree(NumericRangeQuery(field, min, max, includesMin, includesMax), indent)
         == Indent(indent) + "NumericRangeQuery: " + InclusiveMarker(includesMin)
            + (Bound(min) + " to " + InclusiveMarker(includesMax) + Bound(max) + "\n")
  {
    RegroupTail(Indent(indent), "NumericRangeQuery: ", InclusiveMarker(includesMin),
      Bound(min), " to ", InclusiveMarker(includesMax), Bound(max), "\n");
  }

  lemma RegroupTail(a: string, b: string, c: string, d: string, e: string, f: string, g: string, h: string)
    ensures a + b + c + d + e + f + g + h == a + b + c + (d + e + f + g + h)
  {
  }

  /** A range's rendering, split at the upper marker. */
  lemma RangeTreeAtUpperMarker(field: string, min: Option<string>, max: Option<string>,
                               includesMin: bool, includesMax: bool, indent: int)
    ensures Tree(NumericRangeQuery(field, min, max, includesMin, includesMax), indent)
         == (Indent(indent) + "NumericRangeQuery: " + InclusiveMarker(includesMin) + Bound(min) + " to ")
            + InclusiveMarker(includesMax) + (Bound(max) + "\n")
  {
    RegroupLast(Indent(indent) + "NumericRangeQuery: " + InclusiveMarker(includesMin) + Bound(min) + " to ",
      InclusiveMarker(includesMax), Bound(max), "\n");
  }

  lemma RegroupLast(a: string, b: string, c: string, d: string)
    ensures a + b + c + d == a + b + (c + d)
  {
  }

  /** A marker in front of a text not starting with a parenthesis can be told from its absence. */
  lemma MarkerAsPrefix(p: string, inclusive: bool, rest: string)
    requires |rest| == 0 || rest[0] != '('
    ensures inclusive <==> p + "(incl) " <= p + InclusiveMarker(inclusive) + rest
  {
    if !inclusive {
      assert p + InclusiveMarker(inclusive) + rest == p + rest;
      if |p + "(incl) "| <= |p + rest| {
        assert (p + rest)[|p|] == rest[0];
        assert (p + "(incl) ")[|p|] == '(';
      }
    }
  }

  /** A marker behind a text ending in " to " can be told from its absence. */
  lemma MarkerAsSuffix(a: string, inclusive: bool, tail: string)
    requires EndsWith(a, " to ")
    ensures inclusive <==> EndsWith(a + InclusiveMarker(inclusive) + tail, "(incl) " + tail)
  {
    var t := a + InclusiveMarker(inclusive) + tail;
    var u := "(incl) " + tail;
    if inclusive {
      assert t == a + u;
      assert t[|t| - |u|..] == u;
    } else {
      assert t == a + tail;
      if |u| <= |t| {
        assert a[|a| - 2] == " to "[2] == 'o';
        assert t[|t| - |tail| - 2] == a[|a| - 2];
        assert u[|u| - |tail| - 2] == ')';
      }
    }
  }

  /**
   * The lower bound of a range is printed with "(incl) " in front exactly
   * when it is inclusive (for bound texts that do not themselves start
   * with a parenthesis, as numbers do not).
   */
  lemma LowerBoundMarkedIffInclusive(field: string, min: Option<string>, max: Option<string>,
                                     includesMin: bool, includesMax: bool, indent: int)
    requires min.Some? ==> |min.value| == 0 || min.value[0] != '('
    ensures includesMin
        <==> Indent(indent) + "NumericRangeQuery: " + "(incl) "
             <= Tree(NumericRangeQuery(field, min, max, includesMin, includesMax), indent)
  {
    RangeTreeAtLowerMarker(field, min, max, includesMin, includesMax, indent);
    var rest := Bound(min) + " to " + InclusiveMarker(includesMax) + Bound(max) + "\n";
    assert rest[0] != '(' by {
      if min.None? {
        assert rest[0] == "null"[0];
      } else if |min.value| == 0 {
        assert rest[0] == " to "[0];
      } else {
        assert rest[0] == min.value[0];
      }
    }
    MarkerAsPrefix(Indent(indent) + "NumericRangeQuery: ", includesMin, rest);
  }

  /** The upper bound of a range is printed with "(incl) " in front exactly when it is inclusive. */
  lemma UpperBoundMarkedIffInclusive(field: string, min: Option<string>, max: Option<string>,
                                     includesMin: bool, includesMax: bool, indent: int)
    ensures includesMax
        <==> EndsWith(Tree(NumericRangeQuery(field, min, max, includesMin, includesMax), indent), "(incl) " + (Bound(max) + "\n"))
  {
    RangeTreeAtUpperMarker(field, min, max, includesMin, includesMax, indent);
    var a := Indent(indent) + "NumericRangeQuery: " + InclusiveMarker(includesMin) + Bound(min) + " to ";
    assert EndsWith(a, " to ");
    MarkerAsSuffix(a, includesMax, Bound(max) + "\n");
  }

  /** A boolean query with two clauses: its header line, then each clause's occurrence line and query, two deeper. */
  lemma TwoClauseTree(occur1: Occur, q1: Query, occur2: Occur, q2: Query, m: int, indent: int)
    ensures Tree(BooleanQuery([BooleanClause(occur1, q1), BooleanClause(occur2, q2)], m), indent)
         == HeaderLine(indent, m)
            + OccurLine(indent + 2, occur1) + Tree(q1, indent + 2)
            + OccurLine(indent + 2, occur2) + Tree(q2, indent + 2)
  {
    var q := BooleanQuery([BooleanClause(occur1, q1), BooleanClause(occur2, q2)], m);
    assert ClausesTree(HeaderLine(indent, m), q, 1, indent)
        == HeaderLine(indent, m) + OccurLine(indent + 2, occur1) + Tree(q1, indent + 2);
  }

  /** A boolean query with one clause. */
  lemma OneClauseTree(occur: Occur, q: Query, m: int, indent: int)
    ensures Tree(BooleanQuery([BooleanClause(occur, q)], m), indent)
         == HeaderLine(indent, m) + OccurLine(indent + 2, occur) + Tree(q, indent + 2)
  {
    var b := BooleanQuery([BooleanClause(occur, q)], m);
    assert ClausesTree(HeaderLine(indent, m), b, 0, indent) == HeaderLine(indent, m);
  }

  // ----- The translation the tests pin down -----

  datatype CompareOp = Eq | Neq | Lt | Lte | Gt | Gte

  /**
   * A WHERE clause. A comparison is between a column and a literal;
   * `literalFirst` marks `literal OP column`. The parser's precedence
   * (AND before OR, both to the left) is already in the tree.
   */
  datatype Predicate =
    | Comparison(op: CompareOp, column: string, value: string, literalFirst: bool)
    | And(left: Predicate, right: Predicate)
    | Or(left: Predicate, right: Predicate)

  /** The operator that keeps a comparison's meaning when its sides are swapped. */
  function Mirror(op: CompareOp): CompareOp
  {
    match op
    case Lt => Gt
    case Lte => Gte
    case Gt => Lt
    case Gte => Lte
    case Eq => Eq
    case Neq => Neq
  }

  /** `column OP value`. */
  function ComparisonQuery(op: CompareOp, column: string, value: string): Query
  {
    match op
    case Eq => TermQuery(Term(column, value))
    case Neq =>
      BooleanQuery([
        BooleanClause(MUST, MatchAllDocsQuery),
        BooleanClause(MUST, BooleanQuery([BooleanClause(MUST_NOT, TermQuery(Term(column, value)))], 0))], 0)
    case Lt => NumericRangeQuery(column, None, Some(value), false, false)
    case Lte => NumericRangeQuery(column, None, Some(value), false, true)
    case Gt => NumericRangeQuery(column, Some(value), None, false, false)
    case Gte => NumericRangeQuery(column, Some(value), None, true, false)
  }

  /** The query a WHERE clause becomes. */
  function PredicateQuery(p: Predicate): Query
  {
    match p
    case Comparison(op, column, value, literalFirst) =>
      ComparisonQuery(if literalFirst then Mirror(op) else op, column, value)
    case And(left, right) =>
      BooleanQuery([BooleanClause(MUST, PredicateQuery(left)), BooleanClause(MUST, PredicateQuery(right))], 1)
    case Or(left, right) =>
      BooleanQuery([BooleanClause(SHOULD, PredicateQuery(left)), BooleanClause(SHOULD, PredicateQuery(right))], 1)
  }

  /** The query of a statement: match-all without a WHERE clause. */
  function StatementQuery(where: Option<Predicate>): Query
  {
    match where
    case None => MatchAllDocsQuery
    case Some(p) => PredicateQuery(p)
  }

  /** `value OP column` is `column OP' value` with `OP'` the mirrored operator. */
  lemma LiteralFirstIsMirrored(op: CompareOp, column: string, value: string)
    ensures PredicateQuery(Comparison(op, column, value, true))
         == PredicateQuery(Comparison(Mirror(op), column, value, false))
  {
  }

  /** The comparisons of a WHERE clause. */
  function Comparisons(p: Predicate): nat
  {
    match p
    case Comparison(_, _, _, _) => 1
    case And(left, right) => Comparisons(left) + Comparisons(right)
    case Or(left, right) => Comparisons(left) + Comparisons(right)
  }

  /** The `!=` comparisons of a WHERE clause. */
  function NotEquals(p: Predicate): nat
  {
    match p
    case Comparison(op, _, _, _) => if op == Neq then 1 else 0
    case And(left, right) => NotEquals(left) + NotEquals(right)
    case Or(left, right) => NotEquals(left) + NotEquals(right)
  }

  /** The AND and OR connectives of a WHERE clause. */
  function Connectives(p: Predicate): nat
  {
    match p
    case Comparison(_, _, _, _) => 0
    case And(left, right) => 1 + Connectives(left) + Connectives(right)
    case Or(left, right) => 1 + Connectives(left) + Connectives(right)
  }

  /** The term and range queries inside a query. */
  function Leaves(q: Query): nat
    decreases q, 1, 0
  {
    match q
    case TermQuery(_) => 1
    case NumericRangeQuery(_, _, _, _, _) => 1
    case BooleanQuery(clauses, _) => ClauseLeaves(q, |clauses|)
    case MatchAllDocsQuery => 0
    case OtherQuery(_) => 0
  }

  function ClauseLeaves(q: Query, k: nat): nat
    requires q.BooleanQuery? && k <= |q.clauses|
    decreases q, 0, k
  {
    if k == 0 then 0 else ClauseLeaves(q, k - 1) + Leaves(q.clauses[k - 1].query)
  }

  /** The boolean queries inside a query, itself included. */
  function BooleanNodes(q: Query): nat
    decreases q, 1, 0
  {
    match q
    case BooleanQuery(clauses, _) => 1 + ClauseBooleanNodes(q, |clauses|)
    case _ => 0
  }

  function ClauseBooleanNodes(q: Query, k: nat): nat
    requires q.BooleanQuery? && k <= |q.clauses|
    decreases q, 0, k
  {
    if k == 0 then 0 else ClauseBooleanNodes(q, k - 1) + BooleanNodes(q.clauses[k - 1].query)
  }

  /** Counts over a two-clause boolean query are the sums over its two clauses. */
  lemma TwoClauseCounts(occur1: Occur, q1: Query, occur2: Occur, q2: Query, m: int)
    ensures Leaves(BooleanQuery([BooleanClause(occur1, q1), BooleanClause(occur2, q2)], m)) == Leaves(q1) + Leaves(q2)
    ensures BooleanNodes(BooleanQuery([BooleanClause(occur1, q1), BooleanClause(occur2, q2)], m))
         == 1 + BooleanNodes(q1) + BooleanNodes(q2)
  {
    var q := BooleanQuery([BooleanClause(occur1, q1), BooleanClause(occur2, q2)], m);
    assert ClauseLeaves(q, 1) == Leaves(q1);
    assert ClauseBooleanNodes(q, 1) == BooleanNodes(q1);
  }

  /**
   * Nothing is flattened or dropped: every comparison becomes exactly one
   * term or range query, every AND and OR exactly one boolean query, and
   * every `!=` two more (its anchor and its exclusion).
   */
  lemma {:induction false} TranslationKeepsStructure(p: Predicate)
    ensures Leaves(PredicateQuery(p)) == Comparisons(p)
    ensures BooleanNodes(PredicateQuery(p)) == Connectives(p) + 2 * NotEquals(p)
  {
    match p
    case Comparison(op, column, value, literalFirst) =>
      var q := PredicateQuery(p);
      if q.BooleanQuery? {
        var term := TermQuery(Term(column, value));
        var inner := BooleanQuery([BooleanClause(MUST_NOT, term)], 0);
        assert ClauseLeaves(inner, 1) == 1 && ClauseBooleanNodes(inner, 1) == 0;
        TwoClauseCounts(MUST, MatchAllDocsQuery, MUST, inner, 0);
      }
    case And(left, right) =>
      TranslationKeepsStructure(left);
      TranslationKeepsStructure(right);
      TwoClauseCounts(MUST, PredicateQuery(left), MUST, PredicateQuery(right), 1);
    case Or(left, right) =>
      TranslationKeepsStructure(left);
      TranslationKeepsStructure(right);
      TwoClauseCounts(SHOULD, PredicateQuery(left), SHOULD, PredicateQuery(right), 1);
  }

  // ----- Literal text of the lines the asserted cases print -----
  //
  // Proof steps only, not properties of the renderer: each lemma below fixes
  // the text of one line the tests print. The asserted cases further down
  // call them one at a time, which keeps the verifier from having to
  // evaluate several literal texts within one proof.

  lemma HeaderLine0Of0() ensures HeaderLine(0, 0) == "BooleanQuery/0:\n" { assert IntToString(0) == "0"; }
  lemma HeaderLine2Of0() ensures HeaderLine(2, 0) == "  BooleanQuery/0:\n" { assert IntToString(0) == "0"; }
  lemma HeaderLine0Of1() ensures HeaderLine(0, 1) == "BooleanQuery/1:\n" { assert IntToString(1) == "1"; }
  lemma HeaderLine2Of1() ensures HeaderLine(2, 1) == "  BooleanQuery/1:\n" { assert IntToString(1) == "1"; }
  lemma HeaderLine4Of1() ensures HeaderLine(4, 1) == "    BooleanQuery/1:\n" { assert IntToString(1) == "1"; }

  lemma OccurLines2() ensures OccurLine(2, MUST) == "  MUST\n" && OccurLine(2, SHOULD) == "  SHOULD\n" {}
  lemma OccurLines4() ensures OccurLine(4, SHOULD) == "    SHOULD\n" && OccurLine(4, MUST_NOT) == "    MUST_NOT\n" {}
  lemma OccurLines6() ensures OccurLine(6, MUST) == "      MUST\n" && OccurLine(6, SHOULD) == "      SHOULD\n" {}

  lemma TermPrefix2() ensures Indent(2) + "TermQuery: " == "  TermQuery: " {}
  lemma TermPrefix4() ensures Indent(4) + "TermQuery: " == "    TermQuery: " {}
  lemma TermPrefix6() ensures Indent(6) + "TermQuery: " == "      TermQuery: " {}

  lemma MatchAllLine2() ensures Tree(MatchAllDocsQuery, 2) == "  *:*" {}

  lemma TermLineX1At2() ensures "  TermQuery: " + "x" + ":" + "1" + "\n" == "  TermQuery: x:1\n" {}
  lemma TermLineX1At4() ensures "    TermQuery: " + "x" + ":" + "1" + "\n" == "    TermQuery: x:1\n" {}
  lemma TermLineX1At6() ensures "      TermQuery: " + "x" + ":" + "1" + "\n" == "      TermQuery: x:1\n" {}
  lemma TermLineY2At6() ensures "      TermQuery: " + "y" + ":" + "2" + "\n" == "      TermQuery: y:2\n" {}
  lemma TermLineY3At4() ensures "    TermQuery: " + "y" + ":" + "3" + "\n" == "    TermQuery: y:3\n" {}
  lemma TermLineY3At6() ensures "      TermQuery: " + "y" + ":" + "3" + "\n" == "      TermQuery: y:3\n" {}
  lemma TermLineY4At2() ensures "  TermQuery: " + "y" + ":" + "4" + "\n" == "  TermQuery: y:4\n" {}
  lemma TermLineY4At4() ensures "    TermQuery: " + "y" + ":" + "4" + "\n" == "    TermQuery: y:4\n" {}

  /** A term query's line, with its indentation and label given as one text. */
  lemma TermLine(indent: int, prefix: string, column: string, value: string)
    requires prefix == Indent(indent) + "TermQuery: "
    ensures Tree(TermQuery(Term(column, value)), indent) == prefix + column + ":" + value + "\n"
  {
  }

  /** An AND or OR renders as a two-clause boolean query whose clauses are the operands' renderings. */
  lemma BinaryPredicateTree(p: Predicate, indent: int, left: string, right: string)
    requires p.And? || p.Or?
    requires Tree(PredicateQuery(p.left), indent + 2) == left
    requires Tree(PredicateQuery(p.right), indent + 2) == right
    ensures var occur := if p.And? then MUST else SHOULD;
      Tree(PredicateQuery(p), indent)
      == HeaderLine(indent, 1) + OccurLine(indent + 2, occur) + left + OccurLine(indent + 2, occur) + right
  {
    var occur := if p.And? then MUST else SHOULD;
    TwoClauseTree(occur, PredicateQuery(p.left), occur, PredicateQuery(p.right), 1, indent);
  }

  /** Regrouping a rendering whose second clause nests twice. */
  lemma FlattenRightNested(h0: string, o2: string, a: string, h2: string, o4: string, h4: string, o6: string,
                           b: string, c: string, d: string, t0: string, t2: string, t4: string)
    requires t4 == h4 + o6 + b + o6 + c
    requires t2 == h2 + o4 + t4 + o4 + d
    requires t0 == h0 + o2 + a + o2 + t2
    ensures t0 == h0 + o2 + a + o2 + h2 + o4 + h4 + o6 + b + o6 + c + o4 + d
  {
  }

  /** Regrouping a rendering whose first clause nests twice. */
  lemma FlattenLeftNested(h0: string, o2: string, h2: string, o4: string, h4: string, o6: string,
                          a: string, b: string, c: string, d: string, t0: string, t2: string, t4: string)
    requires t4 == h4 + o6 + a + o6 + b
    requires t2 == h2 + o4 + t4 + o4 + c
    requires t0 == h0 + o2 + t2 + o2 + d
    ensures t0 == h0 + o2 + h2 + o4 + h4 + o6 + a + o6 + b + o4 + c + o2 + d
  {
  }

  /** Regrouping a rendering whose second clause nests once. */
  lemma FlattenOnceNested(h0: string, o2: string, a: string, h2: string, o4: string, b: string, t0: string, t2: string)
    requires t2 == h2 + o4 + b
    requires t0 == h0 + o2 + a + o2 + t2
    ensures t0 == h0 + o2 + a + o2 + h2 + o4 + b
  {
  }

  // ----- The translation of single comparisons -----

  /** `column < value`: open below, the value exclusive above. */
  lemma LessThanRange(column: string, value: string)
    ensures Tree(PredicateQuery(Comparison(Lt, column, value, false)), 0) == "NumericRangeQuery: null to " + value + "\n"
  {
    assert Indent(0) + "NumericRangeQuery: " + InclusiveMarker(false) + Bound(None) + " to " + InclusiveMarker(false)
        == "NumericRangeQuery: null to ";
  }

  /** `column <= value`: open below, the value inclusive above. */
  lemma LessOrEqualRange(column: string, value: string)
    ensures Tree(PredicateQuery(Comparison(Lte, column, value, false)), 0) == "NumericRangeQuery: null to (incl) " + value + "\n"
  {
    assert Indent(0) + "NumericRangeQuery: " + InclusiveMarker(false) + Bound(None) + " to " + InclusiveMarker(true)
        == "NumericRangeQuery: null to (incl) ";
  }

  /** `column > value`: the value exclusive below, open above. */
  lemma GreaterThanRange(column: string, value: string)
    ensures Tree(PredicateQuery(Comparison(Gt, column, value, false)), 0) == "NumericRangeQuery: " + value + " to null\n"
  {
    assert Indent(0) + "NumericRangeQuery: " + InclusiveMarker(false) == "NumericRangeQuery: ";
    assert " to " + InclusiveMarker(false) + Bound(None) + "\n" == " to null\n";
  }

  /** `column >= value`: the value inclusive below, open above. */
  lemma GreaterOrEqualRange(column: string, value: string)
    ensures Tree(PredicateQuery(Comparison(Gte, column, value, false)), 0) == "NumericRangeQuery: (incl) " + value + " to null\n"
  {
    assert Indent(0) + "NumericRangeQuery: " + InclusiveMarker(true) == "NumericRangeQuery: (incl) ";
    assert " to " + InclusiveMarker(false) + Bound(None) + "\n" == " to null\n";
  }

  /**
   * `column != value`: a match-all anchor and, nested one level deeper, the
   * equality excluded. The anchor's line has no line break, so the second
   * occurrence is printed on the same line.
   */
  lemma NotEqualShape(column: string, value: string)
    ensures Tree(PredicateQuery(Comparison(Neq, column, value, false)), 0)
         == "BooleanQuery/0:\n" +
            "  MUST\n" +
            "  *:*" +
            "  MUST\n" +
            "  BooleanQuery/0:\n" +
            "    MUST_NOT\n" +
            ("    TermQuery: " + column + ":" + value + "\n")
  {
    var term := TermQuery(Term(column, value));
    var inner := BooleanQuery([BooleanClause(MUST_NOT, term)], 0);
    TwoClauseTree(MUST, MatchAllDocsQuery, MUST, inner, 0, 0);
    OneClauseTree(MUST_NOT, term, 0, 2);
    HeaderLine0Of0();
    HeaderLine2Of0();
    OccurLines2();
    OccurLines4();
    MatchAllLine2();
    TermPrefix4();
    TermLine(4, "    TermQuery: ", column, value);
    FlattenOnceNested("BooleanQuery/0:\n", "  MUST\n", "  *:*", "  BooleanQuery/0:\n", "    MUST_NOT\n",
      "    TermQuery: " + column + ":" + value + "\n", Tree(PredicateQuery(Comparison(Neq, column, value, false)), 0), Tree(inner, 2));
  }

  // ----- The asserted cases -----

  function ColumnEq(column: string, value: string): Predicate
  {
    Comparison(Eq, column, value, false)
  }

  /** `select mycol from mytable`: match-all. */
  lemma MatchAllQueryGeneration()
    ensures StatementQuery(None).MatchAllDocsQuery?
  {
  }

  /** `where othercol = 1`: one term query on field "othercol" with text "1". */
  lemma SimpleTermQueryGeneration()
    ensures StatementQuery(Some(ColumnEq("othercol", "1"))).TermQuery?
    ensures StatementQuery(Some(ColumnEq("othercol", "1"))).term.field == "othercol"
    ensures StatementQuery(Some(ColumnEq("othercol", "1"))).term.text == "1"
  {
  }

  /**
   * `where x = 1 and (y = 2 or y = 3 or y = 4)`, for any column names and
   * values: the ORs stay nested to the left, under the AND.
   */
  lemma BoolQueryShape(x: string, y: string, v1: string, v2: string, v3: string, v4: string)
    ensures Tree(StatementQuery(Some(
      And(ColumnEq(x, v1), Or(Or(ColumnEq(y, v2), ColumnEq(y, v3)), ColumnEq(y, v4))))), 0)
      == "BooleanQuery/1:\n" +
         "  MUST\n" +
         ("  TermQuery: " + x + ":" + v1 + "\n") +
         "  MUST\n" +
         "  BooleanQuery/1:\n" +
         "    SHOULD\n" +
         "    BooleanQuery/1:\n" +
         "      SHOULD\n" +
         ("      TermQuery: " + y + ":" + v2 + "\n") +
         "      SHOULD\n" +
         ("      TermQuery: " + y + ":" + v3 + "\n") +
         "    SHOULD\n" +
         ("    TermQuery: " + y + ":" + v4 + "\n")
  {
    var p := And(ColumnEq(x, v1), Or(Or(ColumnEq(y, v2), ColumnEq(y, v3)), ColumnEq(y, v4)));
    var y23 := p.right.left;
    HeaderLine0Of1();
    HeaderLine2Of1();
    HeaderLine4Of1();
    OccurLines2();
    OccurLines4();
    OccurLines6();
    TermPrefix2();
    TermPrefix4();
    TermPrefix6();
    TermLine(2, "  TermQuery: ", x, v1);
    TermLine(6, "      TermQuery: ", y, v2);
    TermLine(6, "      TermQuery: ", y, v3);
    TermLine(4, "    TermQuery: ", y, v4);
    BinaryPredicateTree(y23, 4, Tree(PredicateQuery(y23.left), 6), Tree(PredicateQuery(y23.right), 6));
    BinaryPredicateTree(p.right, 2, Tree(PredicateQuery(y23), 4), Tree(PredicateQuery(p.right.right), 4));
    BinaryPredicateTree(p, 0, Tree(PredicateQuery(p.left), 2), Tree(PredicateQuery(p.right), 2));
    FlattenRightNested("BooleanQuery/1:\n", "  MUST\n", "  TermQuery: " + x + ":" + v1 + "\n", "  BooleanQuery/1:\n",
      "    SHOULD\n", "    BooleanQuery/1:\n", "      SHOULD\n", "      TermQuery: " + y + ":" + v2 + "\n",
      "      TermQuery: " + y + ":" + v3 + "\n", "    TermQuery: " + y + ":" + v4 + "\n",
      Tree(PredicateQuery(p), 0), Tree(PredicateQuery(p.right), 2), Tree(PredicateQuery(y23), 4));
  }

  /**
   * `where x = 1 and y = 2 or y = 3 or y = 4`, for any column names and
   * values: AND binds tighter, and the ORs chain to the left.
   */
  lemma BoolQueryShape2(x: string, y: string, v1: string, v2: string, v3: string, v4: string)
    ensures Tree(StatementQuery(Some(
      Or(Or(And(ColumnEq(x, v1), ColumnEq(y, v2)), ColumnEq(y, v3)), ColumnEq(y, v4)))), 0)
      == "BooleanQuery/1:\n" +
         "  SHOULD\n" +
         "  BooleanQuery/1:\n" +
         "    SHOULD\n" +
         "    BooleanQuery/1:\n" +
         "      MUST\n" +
         ("      TermQuery: " + x + ":" + v1 + "\n") +
         "      MUST\n" +
         ("      TermQuery: " + y + ":" + v2 + "\n") +
         "    SHOULD\n" +
         ("    TermQuery: " + y + ":" + v3 + "\n") +
         "  SHOULD\n" +
         ("  TermQuery: " + y + ":" + v4 + "\n")
  {
    var p := Or(Or(And(ColumnEq(x, v1), ColumnEq(y, v2)), ColumnEq(y, v3)), ColumnEq(y, v4));
    var xy := p.left.left;
    HeaderLine0Of1();
    HeaderLine2Of1();
    HeaderLine4Of1();
    OccurLines2();
    OccurLines4();
    OccurLines6();
    TermPrefix2();
    TermPrefix4();
    TermPrefix6();
    TermLine(6, "      TermQuery: ", x, v1);
    TermLine(6, "      TermQuery: ", y, v2);
    TermLine(4, "    TermQuery: ", y, v3);
    TermLine(2, "  TermQuery: ", y, v4);
    BinaryPredicateTree(xy, 4, Tree(PredicateQuery(xy.left), 6), Tree(PredicateQuery(xy.right), 6));
    BinaryPredicateTree(p.left, 2, Tree(PredicateQuery(xy), 4), Tree(PredicateQuery(p.left.right), 4));
    BinaryPredicateTree(p, 0, Tree(PredicateQuery(p.left), 2), Tree(PredicateQuery(p.right), 2));
    FlattenLeftNested("BooleanQuery/1:\n", "  SHOULD\n", "  BooleanQuery/1:\n", "    SHOULD\n", "    BooleanQuery/1:\n",
      "      MUST\n", "      TermQuery: " + x + ":" + v1 + "\n", "      TermQuery: " + y + ":" + v2 + "\n",
      "    TermQuery: " + y + ":" + v3 + "\n", "  TermQuery: " + y + ":" + v4 + "\n",
      Tree(PredicateQuery(p), 0), Tree(PredicateQuery(p.left), 2), Tree(PredicateQuery(xy), 4));
  }

  /** `where x = 1 and (y = 2 or y = 3 or y = 4)`. */
  lemma BoolQueryGeneration()
    ensures Tree(StatementQuery(Some(
      And(ColumnEq("x", "1"), Or(Or(ColumnEq("y", "2"), ColumnEq("y", "3")), ColumnEq("y", "4"))))), 0)
      == "BooleanQuery/1:\n" +
         "  MUST\n" +
         "  TermQuery: x:1\n" +
         "  MUST\n" +
         "  BooleanQuery/1:\n" +
         "    SHOULD\n" +
         "    BooleanQuery/1:\n" +
         "      SHOULD\n" +
         "      TermQuery: y:2\n" +
         "      SHOULD\n" +
         "      TermQuery: y:3\n" +
         "    SHOULD\n" +
         "    TermQuery: y:4\n"
  {
    BoolQueryShape("x", "y", "1", "2", "3", "4");
    TermLineX1At2();
    TermLineY2At6();
    TermLineY3At6();
    TermLineY4At4();
  }

  /** `where x = 1 and y = 2 or y = 3 or y = 4`. */
  lemma BoolQueryGeneration2()
    ensures Tree(StatementQuery(Some(
      Or(Or(And(ColumnEq("x", "1"), ColumnEq("y", "2")), ColumnEq("y", "3")), ColumnEq("y", "4")))), 0)
      == "BooleanQuery/1:\n" +
         "  SHOULD\n" +
         "  BooleanQuery/1:\n" +
         "    SHOULD\n" +
         "    BooleanQuery/1:\n" +
         "      MUST\n" +
         "      TermQuery: x:1\n" +
         "      MUST\n" +
         "      TermQuery: y:2\n" +
         "    SHOULD\n" +
         "    TermQuery: y:3\n" +
         "  SHOULD\n" +
         "  TermQuery: y:4\n"
  {
    BoolQueryShape2("x", "y", "1", "2", "3", "4");
    TermLineX1At6();
    TermLineY2At6();
    TermLineY3At4();
    TermLineY4At2();
  }

  /** `where long_field < 1` (and `int_field < 1`, `float_field < 1.2`, `1 > long_field`). */
  lemma RangeQueryGenerationLt()
    ensures Tree(StatementQuery(Some(Comparison(Lt, "long_field", "1", false))), 0) == "NumericRangeQuery: null to 1\n"
    ensures Tree(StatementQuery(Some(Comparison(Lt, "int_field", "1", false))), 0) == "NumericRangeQuery: null to 1\n"
    ensures Tree(StatementQuery(Some(Comparison(Lt, "float_field", "1.2", false))), 0) == "NumericRangeQuery: null to 1.2\n"
    ensures Tree(StatementQuery(Some(Comparison(Gt, "long_field", "1", true))), 0) == "NumericRangeQuery: null to 1\n"
  {
    LessThanRange("long_field", "1");
    LessThanRange("int_field", "1");
    LessThanRange("float_field", "1.2");
    LiteralFirstIsMirrored(Gt, "long_field", "1");
  }

  /** `where long_field <= 1` and `1 >= long_field`. */
  lemma RangeQueryGenerationLte()
    ensures Tree(StatementQuery(Some(Comparison(Lte, "long_field", "1", false))), 0) == "NumericRangeQuery: null to (incl) 1\n"
    ensures Tree(StatementQuery(Some(Comparison(Gte, "long_field", "1", true))), 0) == "NumericRangeQuery: null to (incl) 1\n"
  {
    LessOrEqualRange("long_field", "1");
    LiteralFirstIsMirrored(Gte, "long_field", "1");
  }

  /** `where long_field > 1` and `1 < long_field`. */
  lemma RangeQueryGenerationGt()
    ensures Tree(StatementQuery(Some(Comparison(Gt, "long_field", "1", false))), 0) == "NumericRangeQuery: 1 to null\n"
    ensures Tree(StatementQuery(Some(Comparison(Lt, "long_field", "1", true))), 0) == "NumericRangeQuery: 1 to null\n"
  {
    GreaterThanRange("long_field", "1");
    LiteralFirstIsMirrored(Lt, "long_field", "1");
  }

  /** `where long_field >= 1` and `1 <= long_field`. */
  lemma RangeQueryGenerationGte()
    ensures Tree(StatementQuery(Some(Comparison(Gte, "long_field", "1", false))), 0) == "NumericRangeQuery: (incl) 1 to null\n"
    ensures Tree(StatementQuery(Some(Comparison(Lte, "long_field", "1", true))), 0) == "NumericRangeQuery: (incl) 1 to null\n"
  {
    GreaterOrEqualRange("long_field", "1");
    LiteralFirstIsMirrored(Lte, "long_field", "1");
  }

  /** `where x != 1`. */
  lemma NotEqualQueryGeneration()
    ensures Tree(StatementQuery(Some(Comparison(Neq, "x", "1", false))), 0)
         == "BooleanQuery/0:\n" +
            "  MUST\n" +
            "  *:*  MUST\n" +
            "  BooleanQuery/0:\n" +
            "    MUST_NOT\n" +
            "    TermQuery: x:1\n"
  {
    NotEqualShape("x", "1");
    TermLineX1At4();
  }
}
