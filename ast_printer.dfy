/**
 * The printer: a read-only walk that renders an expression tree as a fully
 * parenthesised string, and the display of a list of trees as the plain
 * concatenation of their renderings.
 *
 * The debug text of an operator token and of a literal value is not
 * modelled; it is a parameter (DebugText). The properties below hold for
 * any such text, or, where they need it, for operator texts free of
 * parentheses and balanced literal texts (Labelled).
 */
module AstPrinter {
  import opened Tokens
  import opened Syntax

  /** How a token and a literal value are written inside a rendering. */
  datatype DebugText = DebugText(token: Token -> string, value: LiteralValue -> string)

  /** A node's text between its pair of parentheses. */
  function Wrapped(body: string): (s: string)
    ensures |s| == |body| + 2 && s[0] == '(' && s[|s| - 1] == ')'
  {
    "(" + body + ")"
  }

  /**
   * visit_expression: one parenthesised group per node, tagged with the
   * node kind; operands follow their operator, the left operand first.
   */
  function VisitExpression(e: Expr, d: DebugText): (s: string)
    ensures |s| >= 2 && s[0] == '(' && s[|s| - 1] == ')'
  {
    match e
    case Binary(left, operator, right) =>
      Wrapped("Binary " + d.token(operator) + " " + VisitExpression(left, d) + " " + VisitExpression(right, d))
    case Unary(operator, right) =>
      Wrapped("Unary " + d.token(operator) + " " + VisitExpression(right, d))
    case Grouping(expression) =>
      Wrapped("Grouping " + VisitExpression(expression, d))
    case Literal(value) =>
      Wrapped("Literal " + d.value(value))
  }

  /** The renderings of `expressions`, in order, with no separator. */
  function Joined(expressions: seq<Expr>, d: DebugText): (s: string)
    ensures |s| >= 2 * |expressions|
  {
    if expressions == [] then ""
    else VisitExpression(expressions[0], d) + Joined(expressions[1..], d)
  }

  lemma {:induction false} JoinedSnoc(expressions: seq<Expr>, e: Expr, d: DebugText)
    ensures Joined(expressions + [e], d) == Joined(expressions, d) + VisitExpression(e, d)
  {
    if expressions == [] {
      assert [] + [e] == [e];
    } else {
      assert (expressions + [e])[1..] == expressions[1..] + [e];
      JoinedSnoc(expressions[1..], e, d);
    }
  }

  /** Display::fmt: write the rendering of each expression in turn. */
  method Fmt(expressions: seq<Expr>, d: DebugText) returns (out: string)
    ensures out == Joined(expressions, d)
  {
    out := "";
    for i := 0 to |expressions|
      invariant out == Joined(expressions[..i], d)
    {
      JoinedSnoc(expressions[..i], expressions[i], d);
      assert expressions[..i + 1] == expressions[..i] + [expressions[i]];
      out := out + VisitExpression(expressions[i], d);
    }
    assert expressions[..|expressions|] == expressions;
  }

  // ---------------------------------------------------------------------
  // Every rendering is one balanced group of parentheses.

  function Weight(c: char): int
  {
    if c == '(' then 1 else if c == ')' then -1 else 0
  }

  /** Opening minus closing parentheses in `s`. */
  function Depth(s: string): int
  {
    if s == [] then 0 else Depth(s[..|s| - 1]) + Weight(s[|s| - 1])
  }

  predicate ParenFree(t: string)
  {
    forall i :: 0 <= i < |t| ==> t[i] != '(' && t[i] != ')'
  }

  /** Every parenthesis `s` opens it also closes, and none closes before it is opened. */
  predicate Balanced(s: string)
  {
    Depth(s) == 0 && forall k :: 0 <= k <= |s| ==> Depth(s[..k]) >= 0
  }

  /** `s` opens one parenthesis, closes it at its very end and nowhere before. */
  predicate Group(s: string)
  {
    && |s| >= 2 && s[0] == '(' && Depth(s) == 0
    && forall k :: 0 < k < |s| ==> Depth(s[..k]) > 0
  }

  /** The node tags and the separator hold no parenthesis. */
  lemma TagsParenFree()
    ensures ParenFree("Binary ") && ParenFree("Unary ") && ParenFree("Grouping ")
    ensures ParenFree("Literal ") && ParenFree(" ")
  {
  }

  lemma {:induction false} DepthConcat(a: string, b: string)
    ensures Depth(a + b) == Depth(a) + Depth(b)
    decreases |b|
  {
    if b == [] {
      assert a + b == a;
    } else {
      assert (a + b)[..|a + b| - 1] == a + b[..|b| - 1];
      DepthConcat(a, b[..|b| - 1]);
    }
  }

  lemma {:induction false} ParenFreeBalanced(t: string)
    requires ParenFree(t)
    ensures Balanced(t)
    decreases |t|
  {
    if t != [] {
      var u := t[..|t| - 1];
      ParenFreeBalanced(u);
      forall k | 0 <= k <= |t|
        ensures Depth(t[..k]) >= 0
      {
        if k < |t| {
          assert t[..k] == u[..k];
        } else {
          assert t[..k] == t;
        }
      }
    }
  }

  lemma BalancedConcat(a: string, b: string)
    requires Balanced(a) && Balanced(b)
    ensures Balanced(a + b)
  {
    DepthConcat(a, b);
    forall k | 0 <= k <= |a + b|
      ensures Depth((a + b)[..k]) >= 0
    {
      if k <= |a| {
        assert (a + b)[..k] == a[..k];
      } else {
        assert (a + b)[..k] == a + b[..k - |a|];
        DepthConcat(a, b[..k - |a|]);
      }
    }
  }

  lemma GroupBalanced(s: string)
    requires Group(s)
    ensures Balanced(s)
  {
    forall k | 0 <= k <= |s|
      ensures Depth(s[..k]) >= 0
    {
      if k == |s| {
        assert s[..k] == s;
      }
    }
  }

  lemma WrappedGroup(body: string)
    requires Balanced(body)
    ensures Group(Wrapped(body))
  {
    var s := Wrapped(body);
    DepthConcat("(", body);
    DepthConcat("(" + body, ")");
    forall k | 0 < k < |s|
      ensures Depth(s[..k]) > 0
    {
      assert s[..k] == "(" + body[..k - 1];
      DepthConcat("(", body[..k - 1]);
    }
  }

  /**
   * The debug texts of every operator in `e` are free of parentheses, and
   * those of every literal are balanced (as a derived Debug text such as
   * `None` or `Bool(true)` is).
   */
  predicate Labelled(e: Expr, d: DebugText)
  {
    match e
    case Binary(left, operator, right) => ParenFree(d.token(operator)) && Labelled(left, d) && Labelled(right, d)
    case Unary(operator, right) => ParenFree(d.token(operator)) && Labelled(right, d)
    case Grouping(expression) => Labelled(expression, d)
    case Literal(value) => Balanced(d.value(value))
  }

  lemma BinaryGroup(tag: string, o: string, l: string, r: string)
    requires ParenFree(tag) && ParenFree(o) && Group(l) && Group(r)
    ensures Group(Wrapped(tag + o + " " + l + " " + r))
  {
    TagsParenFree();
    ParenFreeBalanced(tag);
    ParenFreeBalanced(o);
    ParenFreeBalanced(" ");
    GroupBalanced(l);
    GroupBalanced(r);
    BalancedConcat(tag, o);
    BalancedConcat(tag + o, " ");
    BalancedConcat(tag + o + " ", l);
    BalancedConcat(tag + o + " " + l, " ");
    BalancedConcat(tag + o + " " + l + " ", r);
    WrappedGroup(tag + o + " " + l + " " + r);
  }

  lemma UnaryGroup(tag: string, o: string, r: string)
    requires ParenFree(tag) && ParenFree(o) && Group(r)
    ensures Group(Wrapped(tag + o + " " + r))
  {
    TagsParenFree();
    ParenFreeBalanced(tag);
    ParenFreeBalanced(o);
    ParenFreeBalanced(" ");
    GroupBalanced(r);
    BalancedConcat(tag, o);
    BalancedConcat(tag + o, " ");
    BalancedConcat(tag + o + " ", r);
    WrappedGroup(tag + o + " " + r);
  }

  lemma TaggedGroup(tag: string, x: string)
    requires ParenFree(tag) && Balanced(x)
    ensures Group(Wrapped(tag + x))
  {
    ParenFreeBalanced(tag);
    BalancedConcat(tag, x);
    WrappedGroup(tag + x);
  }

  /** Fully parenthesised: with such label texts, a rendering is one balanced group. */
  lemma {:induction false} RenderingIsGroup(e: Expr, d: DebugText)
    requires Labelled(e, d)
    ensures Group(VisitExpression(e, d))
  {
    TagsParenFree();
    match e
    case Binary(left, operator, right) =>
      RenderingIsGroup(left, d);
      RenderingIsGroup(right, d);
      BinaryGroup("Binary ", d.token(operator), VisitExpression(left, d), VisitExpression(right, d));
    case Unary(operator, right) =>
      RenderingIsGroup(right, d);
      UnaryGroup("Unary ", d.token(operator), VisitExpression(right, d));
    case Grouping(expression) =>
      RenderingIsGroup(expression, d);
      GroupBalanced(VisitExpression(expression, d));
      TaggedGroup("Grouping ", VisitExpression(expression, d));
    case Literal(value) =>
      TaggedGroup("Literal ", d.value(value));
  }

  // ---------------------------------------------------------------------
  // Each subtree's rendering is a contiguous piece of its parent's.

  /** `a` occurs in `b` starting at index `i`. */
  predicate InfixAt(a: string, b: string, i: int)
  {
    0 <= i <= |b| - |a| && b[i..i + |a|] == a
  }

  /** `a` occurs in `b` as a contiguous piece. */
  ghost predicate Infix(a: string, b: string)
  {
    exists i :: InfixAt(a, b, i)
  }

  lemma InfixOfConcat(a: string, x: string, y: string)
    ensures Infix(a, x + a + y)
  {
    var b := x + a + y;
    assert b[|x|..|x| + |a|] == a;
    assert InfixAt(a, b, |x|);
  }

  lemma InfixTransitive(a: string, b: string, c: string)
    requires Infix(a, b) && Infix(b, c)
    ensures Infix(a, c)
  {
    var i :| InfixAt(a, b, i);
    var j :| InfixAt(b, c, j);
    forall k | 0 <= k < |a|
      ensures c[j + i..j + i + |a|][k] == a[k]
    {
      assert c[j + i + k] == c[j..j + |b|][i + k] == b[i..i + |a|][k];
    }
    assert c[j + i..j + i + |a|] == a;
    assert InfixAt(a, c, j + i);
  }

  lemma BinaryInfix(tag: string, o: string, l: string, r: string)
    ensures Infix(l, Wrapped(tag + o + " " + l + " " + r)) && Infix(r, Wrapped(tag + o + " " + l + " " + r))
  {
    var s := Wrapped(tag + o + " " + l + " " + r);
    assert s == ("(" + tag + o + " ") + l + (" " + r + ")");
    InfixOfConcat(l, "(" + tag + o + " ", " " + r + ")");
    assert s == ("(" + tag + o + " " + l + " ") + r + ")";
    InfixOfConcat(r, "(" + tag + o + " " + l + " ", ")");
  }

  lemma TaggedInfix(head: string, r: string)
    ensures Infix(r, Wrapped(head + r))
  {
    assert Wrapped(head + r) == ("(" + head) + r + ")";
    InfixOfConcat(r, "(" + head, ")");
  }

  predicate SubtreeOf(sub: Expr, e: Expr)
  {
    || sub == e
    || (match e
        case Binary(left, _, right) => SubtreeOf(sub, left) || SubtreeOf(sub, right)
        case Unary(_, right) => SubtreeOf(sub, right)
        case Grouping(expression) => SubtreeOf(sub, expression)
        case Literal(_) => false)
  }

  /** The rendering of every subtree appears, unbroken, in the rendering of the whole tree. */
  lemma {:induction false} SubtreeRenderingInfix(sub: Expr, e: Expr, d: DebugText)
    requires SubtreeOf(sub, e)
    ensures Infix(VisitExpression(sub, d), VisitExpression(e, d))
  {
    var s := VisitExpression(e, d);
    if sub == e {
      assert s[0..|s|] == s;
      assert InfixAt(s, s, 0);
    } else {
      match e
      case Binary(left, operator, right) =>
        BinaryInfix("Binary ", d.token(operator), VisitExpression(left, d), VisitExpression(right, d));
        var child := if SubtreeOf(sub, left) then left else right;
        SubtreeRenderingInfix(sub, child, d);
        InfixTransitive(VisitExpression(sub, d), VisitExpression(child, d), s);
      case Unary(operator, right) =>
        TaggedInfix("Unary " + d.token(operator) + " ", VisitExpression(right, d));
        SubtreeRenderingInfix(sub, right, d);
        InfixTransitive(VisitExpression(sub, d), VisitExpression(right, d), s);
      case Grouping(expression) =>
        TaggedInfix("Grouping ", VisitExpression(expression, d));
        SubtreeRenderingInfix(sub, expression, d);
        InfixTransitive(VisitExpression(sub, d), VisitExpression(expression, d), s);
    }
  }

  // ---------------------------------------------------------------------
  // Unambiguous: distinct trees render differently, and a concatenation of
  // renderings splits back into them in only one way.

  /** The debug text tells tokens apart and tells literal values apart. */
  ghost predicate Distinguishing(d: DebugText)
  {
    && (forall t1, t2 :: d.token(t1) == d.token(t2) ==> t1 == t2)
    && (forall v1, v2 :: d.value(v1) == d.value(v2) ==> v1 == v2)
  }

  lemma CancelPrefix(p: string, x: string, y: string)
    requires p + x == p + y
    ensures x == y
  {
    assert x == (p + x)[|p|..];
    assert y == (p + y)[|p|..];
  }

  lemma WrappedInjective(x: string, y: string)
    requires Wrapped(x) == Wrapped(y)
    ensures x == y
  {
    assert x == Wrapped(x)[1..|Wrapped(x)| - 1];
    assert y == Wrapped(y)[1..|Wrapped(y)| - 1];
  }

  /** The prefix of `s` of length `n` is the first group at its start. */
  ghost predicate ClosesAt(s: string, n: nat)
  {
    0 < n <= |s| && Depth(s[..n]) == 0 && forall k :: 0 < k < n ==> Depth(s[..k]) > 0
  }

  lemma GroupClosesAt(g: string, t: string)
    requires Group(g)
    ensures ClosesAt(g + t, |g|)
  {
    assert (g + t)[..|g|] == g;
    forall k | 0 < k < |g|
      ensures Depth((g + t)[..k]) > 0
    {
      assert (g + t)[..k] == g[..k];
    }
  }

  lemma ClosesAtUnique(s: string, n1: nat, n2: nat)
    requires ClosesAt(s, n1) && ClosesAt(s, n2)
    ensures n1 == n2
  {
  }

  /** No group is a proper prefix of another. */
  lemma GroupsSplit(g1: string, t1: string, g2: string, t2: string)
    requires Group(g1) && Group(g2) && g1 + t1 == g2 + t2
    ensures g1 == g2 && t1 == t2
  {
    GroupClosesAt(g1, t1);
    GroupClosesAt(g2, t2);
    ClosesAtUnique(g1 + t1, |g1|, |g2|);
    assert g1 == (g1 + t1)[..|g1|];
    assert g2 == (g2 + t2)[..|g2|];
    CancelPrefix(g1, t1, t2);
  }

  /** In a label, a space and a group, the first opening parenthesis is the group's. */
  lemma FirstParen(o: string, r: string)
    requires ParenFree(o) && |r| > 0 && r[0] == '('
    ensures (o + " " + r)[|o| + 1] == '('
    ensures forall k :: 0 <= k <= |o| ==> (o + " " + r)[k] != '('
  {
  }

  /** A parenthesis-free label followed by a space and a group is split at the first parenthesis. */
  lemma LabelSplit(o1: string, r1: string, o2: string, r2: string)
    requires ParenFree(o1) && ParenFree(o2) && |r1| > 0 && |r2| > 0 && r1[0] == '(' && r2[0] == '('
    requires o1 + " " + r1 == o2 + " " + r2
    ensures o1 == o2 && r1 == r2
  {
    var s := o1 + " " + r1;
    FirstParen(o1, r1);
    FirstParen(o2, r2);
    assert |o1| == |o2|;
    assert o1 == s[..|o1|];
    assert o2 == (o2 + " " + r2)[..|o2|];
    assert r1 == s[|o1| + 1..];
    assert r2 == (o2 + " " + r2)[|o2| + 1..];
  }

  lemma BinarySplit(tag: string, o1: string, l1: string, r1: string, o2: string, l2: string, r2: string)
    requires ParenFree(o1) && ParenFree(o2) && Group(l1) && Group(l2)
    requires Wrapped(tag + o1 + " " + l1 + " " + r1) == Wrapped(tag + o2 + " " + l2 + " " + r2)
    ensures o1 == o2 && l1 == l2 && r1 == r2
  {
    WrappedInjective(tag + o1 + " " + l1 + " " + r1, tag + o2 + " " + l2 + " " + r2);
    assert tag + o1 + " " + l1 + " " + r1 == tag + (o1 + " " + (l1 + (" " + r1)));
    assert tag + o2 + " " + l2 + " " + r2 == tag + (o2 + " " + (l2 + (" " + r2)));
    CancelPrefix(tag, o1 + " " + (l1 + (" " + r1)), o2 + " " + (l2 + (" " + r2)));
    LabelSplit(o1, l1 + (" " + r1), o2, l2 + (" " + r2));
    GroupsSplit(l1, " " + r1, l2, " " + r2);
    CancelPrefix(" ", r1, r2);
  }

  lemma UnarySplit(tag: string, o1: string, r1: string, o2: string, r2: string)
    requires ParenFree(o1) && ParenFree(o2) && Group(r1) && Group(r2)
    requires Wrapped(tag + o1 + " " + r1) == Wrapped(tag + o2 + " " + r2)
    ensures o1 == o2 && r1 == r2
  {
    WrappedInjective(tag + o1 + " " + r1, tag + o2 + " " + r2);
    assert tag + o1 + " " + r1 == tag + (o1 + " " + r1);
    assert tag + o2 + " " + r2 == tag + (o2 + " " + r2);
    CancelPrefix(tag, o1 + " " + r1, o2 + " " + r2);
    LabelSplit(o1, r1, o2, r2);
  }

  lemma TaggedSplit(tag: string, x: string, y: string)
    requires Wrapped(tag + x) == Wrapped(tag + y)
    ensures x == y
  {
    WrappedInjective(tag + x, tag + y);
    CancelPrefix(tag, x, y);
  }

  /** The first character after the opening parenthesis names the node kind. */
  lemma KindLetter(e: Expr, d: DebugText)
    ensures var c := VisitExpression(e, d)[1];
      && (e.Binary? <==> c == 'B') && (e.Unary? <==> c == 'U')
      && (e.Grouping? <==> c == 'G') && (e.Literal? <==> c == 'L')
  {
  }

  /** Unambiguous: with distinguishing texts that label a tree as Labelled says, distinct trees render differently. */
  lemma {:induction false} RenderingInjective(e1: Expr, e2: Expr, d: DebugText)
    requires Distinguishing(d) && Labelled(e1, d) && Labelled(e2, d)
    requires VisitExpression(e1, d) == VisitExpression(e2, d)
    ensures e1 == e2
  {
    KindLetter(e1, d);
    KindLetter(e2, d);
    match e1
    case Binary(left1, operator1, right1) =>
      RenderingIsGroup(left1, d);
      RenderingIsGroup(e2.left, d);
      BinarySplit("Binary ", d.token(operator1), VisitExpression(left1, d), VisitExpression(right1, d),
                  d.token(e2.operator), VisitExpression(e2.left, d), VisitExpression(e2.right, d));
      RenderingInjective(left1, e2.left, d);
      RenderingInjective(right1, e2.right, d);
    case Unary(operator1, right1) =>
      RenderingIsGroup(right1, d);
      RenderingIsGroup(e2.right, d);
      UnarySplit("Unary ", d.token(operator1), VisitExpression(right1, d),
                 d.token(e2.operator), VisitExpression(e2.right, d));
      RenderingInjective(right1, e2.right, d);
    case Grouping(inner1) =>
      TaggedSplit("Grouping ", VisitExpression(inner1, d), VisitExpression(e2.expression, d));
      RenderingInjective(inner1, e2.expression, d);
    case Literal(value1) =>
      TaggedSplit("Literal ", d.value(value1), d.value(e2.value));
  }

  lemma SameHeadAndTail(a: seq<Expr>, b: seq<Expr>)
    requires |a| > 0 && |b| > 0 && a[0] == b[0] && a[1..] == b[1..]
    ensures a == b
  {
    assert a == [a[0]] + a[1..];
    assert b == [b[0]] + b[1..];
  }

  /**
   * What Display writes determines the expressions it was given: the
   * concatenation of renderings splits back into the same trees.
   */
  lemma {:induction false} JoinedInjective(a: seq<Expr>, b: seq<Expr>, d: DebugText)
    requires Distinguishing(d)
    requires forall i :: 0 <= i < |a| ==> Labelled(a[i], d)
    requires forall i :: 0 <= i < |b| ==> Labelled(b[i], d)
    requires Joined(a, d) == Joined(b, d)
    ensures a == b
  {
    if a != [] && b != [] {
      RenderingIsGroup(a[0], d);
      RenderingIsGroup(b[0], d);
      GroupsSplit(VisitExpression(a[0], d), Joined(a[1..], d), VisitExpression(b[0], d), Joined(b[1..], d));
      RenderingInjective(a[0], b[0], d);
      JoinedInjective(a[1..], b[1..], d);
      SameHeadAndTail(a, b);
    }
  }
}
