/**
 * The boolean column predicates the readers hand to the database, as a small
 * syntax tree, and their value on one row under SQL's three-valued logic: a
 * test on a NULL column is UNKNOWN, NOT keeps UNKNOWN, AND is FALSE as soon as
 * one operand is FALSE, OR is TRUE as soon as one operand is TRUE, and a WHERE
 * clause keeps a row only when the whole predicate is TRUE.
 */
module Conditions {
  import opened Wrappers
  import opened Inventory

  datatype Truth = True | False | Unknown

  function Negate(t: Truth): Truth {
    match t
    case True => False
    case False => True
    case Unknown => Unknown
  }

  // ---------------------------------------------------------------------------
  // String tests as the database evaluates them

  /** `upper()` restricted to ASCII letters. */
  function UpperChar(ch: char): char {
    if 'a' <= ch <= 'z' then (ch as int - 32) as char else ch
  }

  /** `lower()` restricted to ASCII letters. */
  function LowerChar(ch: char): char {
    if 'A' <= ch <= 'Z' then (ch as int + 32) as char else ch
  }

  function ToUpper(s: string): (u: string)
    ensures |u| == |s| && forall i :: 0 <= i < |s| ==> u[i] == UpperChar(s[i])
  {
    seq(|s|, i requires 0 <= i < |s| => UpperChar(s[i]))
  }

  function ToLower(s: string): (u: string)
    ensures |u| == |s| && forall i :: 0 <= i < |s| ==> u[i] == LowerChar(s[i])
  {
    seq(|s|, i requires 0 <= i < |s| => LowerChar(s[i]))
  }

  /** `LIKE p || '%'`, for a pattern without wildcard characters. */
  predicate HasPrefix(s: string, p: string) {
    |p| <= |s| && s[..|p|] == p
  }

  /** `LIKE '%' || p`, for a pattern without wildcard characters. */
  predicate HasSuffix(s: string, p: string) {
    |p| <= |s| && s[|s| - |p|..] == p
  }

  /** `p` occurs in `s` starting at index `i`. */
  predicate OccursAt(s: string, p: string, i: int) {
    0 <= i && i + |p| <= |s| && s[i..i + |p|] == p
  }

  /** `LIKE '%' || p || '%'`, for a pattern without wildcard characters. */
  predicate HasInfix(s: string, p: string) {
    exists i :: 0 <= i <= |s| - |p| && OccursAt(s, p, i)
  }

  predicate IsDigit(ch: char) {
    '0' <= ch <= '9'
  }

  /**
   * `s ~ 'P[0-9]{6,9}'`. The match is unanchored, so it succeeds exactly when
   * some 'P' is followed by at least six digits.
   */
  predicate MatchesPDocFolder(s: string) {
    exists i :: 0 <= i && i + 7 <= |s| && s[i] == 'P' && forall k :: i < k < i + 7 ==> IsDigit(s[k])
  }

  /**
   * `s ~ '.*?(.pdf|.doc)'`. The match is unanchored and `.` matches any
   * character, so it succeeds exactly when "pdf" or "doc" occurs after the
   * first character.
   */
  predicate MatchesPdfOrDoc(s: string) {
    exists i :: 1 <= i <= |s| - 3 && (OccursAt(s, "pdf", i) || OccursAt(s, "doc", i))
  }

  // ---------------------------------------------------------------------------
  // The predicate syntax

  /** The function applied to a text column before it is tested. */
  datatype Fold = AsStored | Lower | Upper

  /** The two regular expressions the P-doc conditions use. */
  datatype Pattern = PDocFolderPattern | PdfOrDocPattern

  datatype TextTest =
    | StartsWith(prefix: string)
    | EndsWith(suffix: string)
    | Contains(infix: string)
    | Equals(text: string)
    | Matches(pattern: Pattern)

  datatype Comparison = Less | AtMost | Equal | AtLeast | Greater

  datatype Atom =
    | TextAtom(fold: Fold, text: TextColumn, test: TextTest)
      // `column <cmp> bound`
    | NumAtom(numeric: NumericColumn, cmp: Comparison, bound: int)
    | IsNull(column: Column)
    | IsNotNull(column: Column)

  /**
   * A WHERE predicate. `Not(c)` also stands for SQLAlchemy's `c == False`,
   * which renders `c = false` and so has the same three-valued table as NOT.
   */
  datatype Cond =
    | Leaf(atom: Atom)
    | Not(operand: Cond)
    | And(conjuncts: seq<Cond>)
    | Or(disjuncts: seq<Cond>)

  function Folded(f: Fold, s: string): string {
    match f
    case AsStored => s
    case Lower => ToLower(s)
    case Upper => ToUpper(s)
  }

  predicate PassesText(t: TextTest, s: string) {
    match t
    case StartsWith(p) => HasPrefix(s, p)
    case EndsWith(p) => HasSuffix(s, p)
    case Contains(p) => HasInfix(s, p)
    case Equals(p) => s == p
    case Matches(PDocFolderPattern) => MatchesPDocFolder(s)
    case Matches(PdfOrDocPattern) => MatchesPdfOrDoc(s)
  }

  predicate Compares(cmp: Comparison, n: int, bound: int) {
    match cmp
    case Less => n < bound
    case AtMost => n <= bound
    case Equal => n == bound
    case AtLeast => n >= bound
    case Greater => n > bound
  }

  function FromBool(b: bool): Truth {
    if b then True else False
  }

  function EvalAtom(a: Atom, r: Record): (t: Truth)
    ensures (a.IsNull? || a.IsNotNull?) ==> t != Unknown
    ensures a.TextAtom? ==> (t == Unknown <==> GetText(r, a.text).Null?)
    ensures a.NumAtom? ==> (t == Unknown <==> GetNumeric(r, a.numeric).Null?)
  {
    match a
    case TextAtom(f, c, test) =>
      var v := GetText(r, c);
      if v.Str? then FromBool(PassesText(test, Folded(f, v.s))) else Unknown
    case NumAtom(c, cmp, bound) =>
      var v := GetNumeric(r, c);
      if v.Num? then FromBool(Compares(cmp, v.n, bound)) else Unknown
    case IsNull(c) => FromBool(Get(r, c).Null?)
    case IsNotNull(c) => FromBool(!Get(r, c).Null?)
  }

  /** Some atom of `c` tests a column that is NULL on `r` (IS NULL tests excepted). */
  predicate ReadsNull(c: Cond, r: Record) {
    match c
    case Leaf(a) =>
      (a.TextAtom? && GetText(r, a.text).Null?) || (a.NumAtom? && GetNumeric(r, a.numeric).Null?)
    case Not(d) => ReadsNull(d, r)
    case And(cs) => exists i :: 0 <= i < |cs| && ReadsNull(cs[i], r)
    case Or(cs) => exists i :: 0 <= i < |cs| && ReadsNull(cs[i], r)
  }

  /** The three-valued truth of `c` on row `r`. */
  function Eval(c: Cond, r: Record): Truth {
    match c
    case Leaf(a) => EvalAtom(a, r)
    case Not(d) => Negate(Eval(d, r))
    case And(cs) =>
      if exists i :: 0 <= i < |cs| && Eval(cs[i], r) == False then False
      else if exists i :: 0 <= i < |cs| && Eval(cs[i], r) == Unknown then Unknown
      else True
    case Or(cs) =>
      if exists i :: 0 <= i < |cs| && Eval(cs[i], r) == True then True
      else if exists i :: 0 <= i < |cs| && Eval(cs[i], r) == Unknown then Unknown
      else False
  }

  /**
   * UNKNOWN only ever comes from a NULL column: on a row where every tested
   * column has a value, a predicate is plain two-valued.
   */
  lemma {:induction false} UnknownReadsNull(c: Cond, r: Record)
    ensures Eval(c, r) == Unknown ==> ReadsNull(c, r)
  {
    match c
    case Leaf(a) =>
    case Not(d) => UnknownReadsNull(d, r);
    case And(cs) =>
      if Eval(c, r) == Unknown {
        var i :| 0 <= i < |cs| && Eval(cs[i], r) == Unknown;
        UnknownReadsNull(cs[i], r);
      }
    case Or(cs) =>
      if Eval(c, r) == Unknown {
        var i :| 0 <= i < |cs| && Eval(cs[i], r) == Unknown;
        UnknownReadsNull(cs[i], r);
      }
  }

  /** The row passes a WHERE clause made of `c`. */
  predicate Holds(c: Cond, r: Record) {
    Eval(c, r) == True
  }

  /** Every condition of the list is TRUE on `r`. */
  predicate AllHold(cs: seq<Cond>, r: Record) {
    forall i :: 0 <= i < |cs| ==> Holds(cs[i], r)
  }

  /** Some condition of the list is TRUE on `r`. */
  predicate SomeHolds(cs: seq<Cond>, r: Record) {
    exists i :: 0 <= i < |cs| && Holds(cs[i], r)
  }

  /** A row passes an AND group exactly when every member is TRUE on it. */
  lemma AndHolds(cs: seq<Cond>, r: Record)
    ensures Holds(And(cs), r) <==> AllHold(cs, r)
  {
  }

  /** A row passes an OR group exactly when some member is TRUE on it. */
  lemma OrHolds(cs: seq<Cond>, r: Record)
    ensures Holds(Or(cs), r) <==> SomeHolds(cs, r)
  {
  }

  /** `NOT c` (and `c = false`) passes a row only when `c` is FALSE on it, not UNKNOWN. */
  lemma NotHolds(c: Cond, r: Record)
    ensures Holds(Not(c), r) <==> Eval(c, r) == False
  {
  }

  /** Both members of a two-condition list hold exactly when the list does. */
  lemma AllHoldPair(a: Cond, b: Cond, r: Record)
    ensures AllHold([a, b], r) <==> Holds(a, r) && Holds(b, r)
  {
    var cs := [a, b];
    assert cs[0] == a && cs[1] == b;
  }

  /** The conjunction of two lists is the conjunction of each. */
  lemma AllHoldAppend(a: seq<Cond>, b: seq<Cond>, r: Record)
    ensures AllHold(a + b, r) <==> AllHold(a, r) && AllHold(b, r)
  {
    if AllHold(a, r) && AllHold(b, r) {
      forall i | 0 <= i < |a + b| ensures Holds((a + b)[i], r) {
        if i >= |a| {
          assert (a + b)[i] == b[i - |a|];
        }
      }
    }
    if AllHold(a + b, r) {
      forall i | 0 <= i < |a| ensures Holds(a[i], r) {
        assert (a + b)[i] == a[i];
      }
      forall i | 0 <= i < |b| ensures Holds(b[i], r) {
        assert (a + b)[|a| + i] == b[i];
      }
    }
  }
}
