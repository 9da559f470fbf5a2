/**
 * AST preprocessing before planning (preprocess.rs): a post-order visit of
 * every expression of a statement that may rewrite the expression in place
 * or break off the traversal with an error.
 *
 * `CastOIDReplacer` replaces `CAST('rel' AS REGCLASS)` and `CAST('rel' AS oid)`
 * by the catalog id of the first schema on the search path that holds `rel`;
 * `EscapedStringToDoubleQuoted` turns `E'...'` literals into double-quoted
 * strings.
 */
module Preprocess {
  import opened Wrappers
  import opened Ast
  import Strings
  import Statements

  /** A catalog object id (`u32`). */
  type Oid = x: int | 0 <= x < 0x1_0000_0000

  datatype PreprocessError =
    | MissingRelation(relation: string)
    | ExprUnsupportedRegclassCast
    | ExprUnsupportedOIDCast

  /** `ControlFlow<PreprocessError>`. */
  datatype Flow = Continue | Break(err: PreprocessError)

  /**
   * The visitors. The oid replacer carries the session's implicit search path
   * and the catalog lookup `resolveEntry(catalog, schema, relation)`, which
   * gives the id of the entry it finds.
   */
  datatype Visitor =
    | CastOIDReplacer(searchPath: seq<string>, resolveEntry: (string, string, string) -> Option<Oid>)
    | EscapedStringToDoubleQuoted

  // ---- find_oid ----

  /** The id from the first schema on the search path that resolves `rel`. */
  function FirstOid(searchPath: seq<string>, resolveEntry: (string, string, string) -> Option<Oid>, rel: string): Option<Oid> {
    if searchPath == [] then None
    else
      var found := resolveEntry(Statements.DEFAULT_CATALOG, searchPath[0], rel);
      if found.Some? then found else FirstOid(searchPath[1..], resolveEntry, rel)
  }

  /**
   * `FirstOid` is the first hit: None exactly when no schema resolves the
   * relation, and otherwise the id of a schema with no hit before it.
   */
  lemma {:induction false} FirstOidIsFirst(searchPath: seq<string>, resolveEntry: (string, string, string) -> Option<Oid>, rel: string)
    ensures FirstOid(searchPath, resolveEntry, rel).None? <==>
      forall i :: 0 <= i < |searchPath| ==> resolveEntry(Statements.DEFAULT_CATALOG, searchPath[i], rel).None?
    ensures FirstOid(searchPath, resolveEntry, rel).Some? ==>
      exists i :: 0 <= i < |searchPath|
        && resolveEntry(Statements.DEFAULT_CATALOG, searchPath[i], rel) == FirstOid(searchPath, resolveEntry, rel)
        && forall j :: 0 <= j < i ==> resolveEntry(Statements.DEFAULT_CATALOG, searchPath[j], rel).None?
  {
    if searchPath != [] {
      FirstOidIsFirst(searchPath[1..], resolveEntry, rel);
      var rest := searchPath[1..];
      assert forall i :: 0 <= i < |rest| ==> rest[i] == searchPath[i + 1];
      if resolveEntry(Statements.DEFAULT_CATALOG, searchPath[0], rel).None? && FirstOid(rest, resolveEntry, rel).Some? {
        var i :| 0 <= i < |rest|
          && resolveEntry(Statements.DEFAULT_CATALOG, rest[i], rel) == FirstOid(rest, resolveEntry, rel)
          && forall j :: 0 <= j < i ==> resolveEntry(Statements.DEFAULT_CATALOG, rest[j], rel).None?;
        assert resolveEntry(Statements.DEFAULT_CATALOG, searchPath[i + 1], rel) == FirstOid(searchPath, resolveEntry, rel);
      }
    }
  }

  /** `find_oid`: scan the search path in order and return at the first schema holding `rel`. */
  method FindOid(searchPath: seq<string>, resolveEntry: (string, string, string) -> Option<Oid>, rel: string) returns (oid: Option<Oid>)
    ensures oid == FirstOid(searchPath, resolveEntry, rel)
  {
    var i := 0;
    while i < |searchPath|
      invariant 0 <= i <= |searchPath|
      invariant FirstOid(searchPath, resolveEntry, rel) == FirstOid(searchPath[i..], resolveEntry, rel)
    {
      var found := resolveEntry(Statements.DEFAULT_CATALOG, searchPath[i], rel);
      if found.Some? {
        return found;
      }
      assert searchPath[i..][1..] == searchPath[i + 1..];
      i := i + 1;
    }
    return None;
  }

  // ---- post_visit_expr ----

  /** Casts the oid replacer acts on: REGCLASS, or a custom type whose lower-cased name is `oid`. */
  predicate IsOidType(t: DataType) {
    t.Regclass? || (t.Custom? && Strings.Lower(t.name) == "oid")
  }

  /** The number literal an oid is written as. */
  function OidLiteral(oid: Oid): Expr {
    Literal(Number(Strings.NatToString(oid), false))
  }

  /** `CastOIDReplacer::post_visit_expr` on one (already visited) expression. */
  function PostVisitCastOid(searchPath: seq<string>, resolveEntry: (string, string, string) -> Option<Oid>, e: Expr): (r: (Flow, Expr))
    ensures !(e.Cast? && IsOidType(e.dataType)) ==> r == (Continue, e)
    ensures r.0.Break? ==> r.1 == e
    ensures r.0.Continue? && e.Cast? && IsOidType(e.dataType) ==>
      e.expr.Literal? && e.expr.value.SingleQuotedString?
      && FirstOid(searchPath, resolveEntry, e.expr.value.s).Some?
      && r.1 == OidLiteral(FirstOid(searchPath, resolveEntry, e.expr.value.s).value)
    ensures r.0.Break? && e.expr.Literal? && e.expr.value.SingleQuotedString? ==>
      r.0.err == MissingRelation(e.expr.value.s)
    ensures r.0.Break? && !(e.expr.Literal? && e.expr.value.SingleQuotedString?) ==>
      r.0.err == if e.dataType.Regclass? then ExprUnsupportedRegclassCast else ExprUnsupportedOIDCast
  {
    match e
    case Cast(inner, t) =>
      if !IsOidType(t) then (Continue, e)
      else if inner.Literal? && inner.value.SingleQuotedString? then
        match FirstOid(searchPath, resolveEntry, inner.value.s)
        case Some(oid) => (Continue, OidLiteral(oid))
        case None => (Break(MissingRelation(inner.value.s)), e)
      else
        (Break(if t.Regclass? then ExprUnsupportedRegclassCast else ExprUnsupportedOIDCast), e)
    case _ => (Continue, e)
  }

  /** `EscapedStringToDoubleQuoted::post_visit_expr`: never breaks. */
  function PostVisitEscaped(e: Expr): (r: Expr)
    ensures e.Literal? && e.value.EscapedStringLiteral? ==> r == Literal(DoubleQuotedString(e.value.s))
    ensures !(e.Literal? && e.value.EscapedStringLiteral?) ==> r == e
  {
    match e
    case Literal(EscapedStringLiteral(s)) => Literal(DoubleQuotedString(s))
    case _ => e
  }

  function PostVisit(v: Visitor, e: Expr): (Flow, Expr) {
    match v
    case CastOIDReplacer(searchPath, resolveEntry) => PostVisitCastOid(searchPath, resolveEntry, e)
    case EscapedStringToDoubleQuoted => (Continue, PostVisitEscaped(e))
  }

  // ---- The traversal ----

  /**
   * The visitor's walk over one expression: children first, left to right,
   * then the node itself. A break stops the walk; what was rewritten before
   * it stays rewritten.
   */
  function PostOrder(v: Visitor, e: Expr): (Flow, Expr) {
    match e
    case Cast(inner, t) =>
      var (f, inner') := PostOrder(v, inner);
      if f.Break? then (f, Cast(inner', t)) else PostVisit(v, Cast(inner', t))
    case UnaryOp(op, x) =>
      var (f, x') := PostOrder(v, x);
      if f.Break? then (f, UnaryOp(op, x')) else PostVisit(v, UnaryOp(op, x'))
    case Nested(x) =>
      var (f, x') := PostOrder(v, x);
      if f.Break? then (f, Nested(x')) else PostVisit(v, Nested(x'))
    case BinaryOp(l, op, r) =>
      var (f1, l') := PostOrder(v, l);
      if f1.Break? then (f1, BinaryOp(l', op, r))
      else
        var (f2, r') := PostOrder(v, r);
        if f2.Break? then (f2, BinaryOp(l', op, r')) else PostVisit(v, BinaryOp(l', op, r'))
    case _ => PostVisit(v, e)
  }

  /** `visit` on one expression, rewriting it bottom-up. */
  method VisitExpr(v: Visitor, e: Expr) returns (flow: Flow, out: Expr)
    ensures (flow, out) == PostOrder(v, e)
    decreases e
  {
    match e {
      case Cast(inner, t) =>
        var f, inner' := VisitExpr(v, inner);
        if f.Break? {
          return f, Cast(inner', t);
        }
        flow, out := PostVisitStep(v, Cast(inner', t));
      case UnaryOp(op, x) =>
        var f, x' := VisitExpr(v, x);
        if f.Break? {
          return f, UnaryOp(op, x');
        }
        flow, out := PostVisitStep(v, UnaryOp(op, x'));
      case Nested(x) =>
        var f, x' := VisitExpr(v, x);
        if f.Break? {
          return f, Nested(x');
        }
        flow, out := PostVisitStep(v, Nested(x'));
      case BinaryOp(l, op, r) =>
        var f1, l' := VisitExpr(v, l);
        if f1.Break? {
          return f1, BinaryOp(l', op, r);
        }
        var f2, r' := VisitExpr(v, r);
        if f2.Break? {
          return f2, BinaryOp(l', op, r');
        }
        flow, out := PostVisitStep(v, BinaryOp(l', op, r'));
      case _ =>
        flow, out := PostVisitStep(v, e);
    }
  }

  /** The visitor's `post_visit_expr` on one node; the oid replacer looks the relation up with `FindOid`. */
  method PostVisitStep(v: Visitor, e: Expr) returns (flow: Flow, out: Expr)
    ensures (flow, out) == PostVisit(v, e)
  {
    match v {
      case EscapedStringToDoubleQuoted =>
        flow, out := Continue, PostVisitEscaped(e);
      case CastOIDReplacer(searchPath, resolveEntry) =>
        if !(e.Cast? && IsOidType(e.dataType)) {
          return Continue, e;
        }
        var inner := e.expr;
        if inner.Literal? && inner.value.SingleQuotedString? {
          var oid := FindOid(searchPath, resolveEntry, inner.value.s);
          if oid.None? {
            return Break(MissingRelation(inner.value.s)), e;
          }
          flow, out := Continue, OidLiteral(oid.value);
        } else {
          flow := Break(if e.dataType.Regclass? then ExprUnsupportedRegclassCast else ExprUnsupportedOIDCast);
          out := e;
        }
    }
  }

  // ---- What the two visitors compute ----

  /** Every oid cast in `e` is of a string literal naming a relation on the search path. */
  predicate CastsResolve(searchPath: seq<string>, resolveEntry: (string, string, string) -> Option<Oid>, e: Expr) {
    match e
    case Cast(inner, t) =>
      if IsOidType(t) then
        inner.Literal? && inner.value.SingleQuotedString? && FirstOid(searchPath, resolveEntry, inner.value.s).Some?
      else CastsResolve(searchPath, resolveEntry, inner)
    case UnaryOp(_, x) => CastsResolve(searchPath, resolveEntry, x)
    case Nested(x) => CastsResolve(searchPath, resolveEntry, x)
    case BinaryOp(l, _, r) => CastsResolve(searchPath, resolveEntry, l) && CastsResolve(searchPath, resolveEntry, r)
    case _ => true
  }

  /** `e` with each resolvable oid cast replaced by the relation's id. */
  function ReplaceOids(searchPath: seq<string>, resolveEntry: (string, string, string) -> Option<Oid>, e: Expr): Expr {
    match e
    case Cast(inner, t) =>
      if IsOidType(t) then
        if inner.Literal? && inner.value.SingleQuotedString? && FirstOid(searchPath, resolveEntry, inner.value.s).Some? then
          OidLiteral(FirstOid(searchPath, resolveEntry, inner.value.s).value)
        else e
      else Cast(ReplaceOids(searchPath, resolveEntry, inner), t)
    case UnaryOp(op, x) => UnaryOp(op, ReplaceOids(searchPath, resolveEntry, x))
    case Nested(x) => Nested(ReplaceOids(searchPath, resolveEntry, x))
    case BinaryOp(l, op, r) => BinaryOp(ReplaceOids(searchPath, resolveEntry, l), op, ReplaceOids(searchPath, resolveEntry, r))
    case _ => e
  }

  /** `e` with every escaped string literal turned into a double-quoted one. */
  function Unescape(e: Expr): Expr {
    match e
    case Literal(EscapedStringLiteral(s)) => Literal(DoubleQuotedString(s))
    case Cast(inner, t) => Cast(Unescape(inner), t)
    case UnaryOp(op, x) => UnaryOp(op, Unescape(x))
    case Nested(x) => Nested(Unescape(x))
    case BinaryOp(l, op, r) => BinaryOp(Unescape(l), op, Unescape(r))
    case _ => e
  }

  /** Replacing oids never creates or removes a single-quoted string literal at the root. */
  lemma ReplaceOidsKeepsStrings(searchPath: seq<string>, resolveEntry: (string, string, string) -> Option<Oid>, e: Expr)
    ensures (ReplaceOids(searchPath, resolveEntry, e).Literal? && ReplaceOids(searchPath, resolveEntry, e).value.SingleQuotedString?)
       <==> (e.Literal? && e.value.SingleQuotedString?)
    ensures e.Literal? ==> ReplaceOids(searchPath, resolveEntry, e) == e
  {
  }

  /**
   * The oid replacer's walk succeeds exactly when every oid cast resolves,
   * and then yields `ReplaceOids`.
   */
  lemma {:induction false} CastOidWalk(searchPath: seq<string>, resolveEntry: (string, string, string) -> Option<Oid>, e: Expr)
    ensures PostOrder(CastOIDReplacer(searchPath, resolveEntry), e).0.Continue? <==> CastsResolve(searchPath, resolveEntry, e)
    ensures PostOrder(CastOIDReplacer(searchPath, resolveEntry), e).0.Continue? ==>
      PostOrder(CastOIDReplacer(searchPath, resolveEntry), e).1 == ReplaceOids(searchPath, resolveEntry, e)
  {
    var v := CastOIDReplacer(searchPath, resolveEntry);
    match e
    case Cast(inner, t) =>
      CastOidWalk(searchPath, resolveEntry, inner);
      ReplaceOidsKeepsStrings(searchPath, resolveEntry, inner);
      if inner.Literal? {
        assert PostOrder(v, inner) == (Continue, inner);
      }
    case UnaryOp(op, x) =>
      CastOidWalk(searchPath, resolveEntry, x);
    case Nested(x) =>
      CastOidWalk(searchPath, resolveEntry, x);
    case BinaryOp(l, op, r) =>
      CastOidWalk(searchPath, resolveEntry, l);
      CastOidWalk(searchPath, resolveEntry, r);
    case _ =>
  }

  /** The escaped-string visitor's walk never breaks and yields `Unescape`. */
  lemma {:induction false} EscapedWalk(e: Expr)
    ensures PostOrder(EscapedStringToDoubleQuoted, e) == (Continue, Unescape(e))
  {
    match e
    case Cast(inner, t) => EscapedWalk(inner);
    case UnaryOp(op, x) => EscapedWalk(x);
    case Nested(x) => EscapedWalk(x);
    case BinaryOp(l, op, r) => EscapedWalk(l); EscapedWalk(r);
    case _ =>
  }

  /** Running the escaped-string rewrite twice is running it once. */
  lemma {:induction false} UnescapeIdempotent(e: Expr)
    ensures Unescape(Unescape(e)) == Unescape(e)
  {
    match e
    case Cast(inner, t) => UnescapeIdempotent(inner);
    case UnaryOp(op, x) => UnescapeIdempotent(x);
    case Nested(x) => UnescapeIdempotent(x);
    case BinaryOp(l, op, r) => UnescapeIdempotent(l); UnescapeIdempotent(r);
    case _ =>
  }

  /** An oid literal reads back as the oid. */
  lemma OidLiteralDenotesOid(oid: Oid)
    ensures OidLiteral(oid).value.Number? && !OidLiteral(oid).value.long
    ensures |OidLiteral(oid).value.digits| > 0
    ensures Strings.DigitsValue(OidLiteral(oid).value.digits) == oid
  {
    Strings.NatToStringRoundTrip(oid);
  }

  // ---- preprocess ----

  /**
   * `preprocess`: visit the statement's expressions in order, rewriting each
   * in place; Ok when no walk breaks. At the first break the error is
   * returned, that expression keeps what its walk rewrote, and the
   * expressions after it are untouched.
   */
  method Preprocess(statement: array<Expr>, v: Visitor) returns (r: Result<(), PreprocessError>)
    modifies statement
    ensures r.Success? <==> forall j :: 0 <= j < statement.Length ==> PostOrder(v, old(statement[j])).0.Continue?
    ensures r.Success? ==> forall j :: 0 <= j < statement.Length ==> statement[j] == PostOrder(v, old(statement[j])).1
    ensures r.Failure? ==>
      exists k :: 0 <= k < statement.Length
        && (forall j :: 0 <= j < k ==> PostOrder(v, old(statement[j])).0.Continue?)
        && PostOrder(v, old(statement[k])).0 == Break(r.error)
        && (forall j :: 0 <= j <= k ==> statement[j] == PostOrder(v, old(statement[j])).1)
        && (forall j :: k < j < statement.Length ==> statement[j] == old(statement[j]))
  {
    for i := 0 to statement.Length
      invariant forall j :: 0 <= j < i ==>
        PostOrder(v, old(statement[j])).0.Continue? && statement[j] == PostOrder(v, old(statement[j])).1
      invariant forall j :: i <= j < statement.Length ==> statement[j] == old(statement[j])
    {
      var flow, out := VisitExpr(v, statement[i]);
      statement[i] := out;
      if flow.Break? {
        return Failure(flow.err);
      }
    }
    r := Success(());
  }

  /**
   * The preprocessing of `plan_ast`: the oid replacer, then the escaped-string
   * rewrite. It fails exactly when some oid cast does not resolve, with the
   * error of the first expression whose walk breaks; expressions before it
   * have their oids replaced, it is left as its walk made it, and later ones
   * are untouched. On success each expression has its oids replaced and its
   * escaped strings unescaped.
   */
  method PlanAstPreprocess(statement: array<Expr>, searchPath: seq<string>, resolveEntry: (string, string, string) -> Option<Oid>)
    returns (r: Result<(), PreprocessError>)
    modifies statement
    ensures r.Success? <==> forall i :: 0 <= i < statement.Length ==> CastsResolve(searchPath, resolveEntry, old(statement[i]))
    ensures r.Success? ==>
      forall i :: 0 <= i < statement.Length ==> statement[i] == Unescape(ReplaceOids(searchPath, resolveEntry, old(statement[i])))
    ensures r.Failure? ==>
      exists k :: 0 <= k < statement.Length
        && (forall j :: 0 <= j < k ==> CastsResolve(searchPath, resolveEntry, old(statement[j])))
        && PostOrder(CastOIDReplacer(searchPath, resolveEntry), old(statement[k])).0 == Break(r.error)
        && (forall j :: 0 <= j < k ==> statement[j] == ReplaceOids(searchPath, resolveEntry, old(statement[j])))
        && statement[k] == PostOrder(CastOIDReplacer(searchPath, resolveEntry), old(statement[k])).1
        && (forall j :: k < j < statement.Length ==> statement[j] == old(statement[j]))
  {
    var oids := CastOIDReplacer(searchPath, resolveEntry);
    forall i | 0 <= i < statement.Length
      ensures PostOrder(oids, statement[i]).0.Continue? <==> CastsResolve(searchPath, resolveEntry, statement[i])
      ensures PostOrder(oids, statement[i]).0.Continue? ==> PostOrder(oids, statement[i]).1 == ReplaceOids(searchPath, resolveEntry, statement[i])
    {
      CastOidWalk(searchPath, resolveEntry, statement[i]);
    }
    r := Preprocess(statement, oids);
    if r.Failure? {
      return;
    }
    ghost var replaced := statement[..];
    forall i | 0 <= i < statement.Length
      ensures PostOrder(EscapedStringToDoubleQuoted, statement[i]) == (Continue, Unescape(statement[i]))
    {
      EscapedWalk(statement[i]);
    }
    r := Preprocess(statement, EscapedStringToDoubleQuoted);
    assert forall i :: 0 <= i < statement.Length ==> statement[i] == Unescape(replaced[i]);
  }
}
