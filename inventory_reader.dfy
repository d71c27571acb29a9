/**
 * The inventory reader (`InvInventoryReader`). It knows what a usable
 * document of each type looks like: a 510(k) file ("K"), a PMA document
 * ("P"), or a document outside the 510(k) folders. From a list of requested
 * type tags ("all" stands for every supported one) it builds the matching
 * condition lists or AND groups, adds the caller's conditions, and runs the
 * resulting queries through the executor.
 */
module InventoryReader {
  import opened Wrappers
  import opened Inventory
  import opened Conditions
  import opened Reader

  // ---------------------------------------------------------------------------
  // The three condition lists

  function TextIs(fold: Fold, c: TextColumn, test: TextTest): Cond {
    Leaf(TextAtom(fold, c, test))
  }

  /** What a usable 510(k) document satisfies. */
  const KFileConditions: seq<Cond> := [
    TextIs(AsStored, FolderId, StartsWith("K")),
    TextIs(AsStored, ObjectId, EndsWith(".pdf")),
    TextIs(Lower, DocDownloadStatus, Equals("downloaded")),
    TextIs(Lower, DocValidationStatus, Equals("validated")),
    Or([Not(TextIs(Upper, UniqueKey, StartsWith("/SUPPLEMENT"))), Leaf(IsNull(Text(UniqueKey)))]),
    Or([Not(TextIs(Upper, UniqueKey, StartsWith("/AMENDMENT"))), Leaf(IsNull(Text(UniqueKey)))]),
    // the NULL guard tests the unique key, not the sub-type it protects
    Or([Not(TextIs(Upper, SubType, Contains("CORRESPONDENCE"))), Leaf(IsNull(Text(UniqueKey)))]),
    Leaf(IsNotNull(Numeric(DocDownloadDate)))
  ]

  /** What a usable PMA document satisfies. */
  const PDocConditions: seq<Cond> := [
    TextIs(AsStored, FolderId, Matches(PDocFolderPattern)),
    TextIs(AsStored, ObjectId, Matches(PdfOrDocPattern)),
    TextIs(Lower, ValidationStatus, Equals("validated")),
    Not(TextIs(Upper, UniqueKey, Contains("RESPONSE"))),
    Not(TextIs(Upper, SubType, Contains("RESPONSE"))),
    Leaf(IsNotNull(Numeric(DocDownloadDate)))
  ]

  /** What a usable document outside the 510(k) folders satisfies. */
  const NonKFileConditions: seq<Cond> := [
    Not(TextIs(AsStored, FolderId, StartsWith("K"))),
    TextIs(AsStored, ObjectId, EndsWith(".pdf")),
    TextIs(Lower, DocDownloadStatus, Equals("downloaded")),
    TextIs(Lower, DocValidationStatus, Equals("validated"))
  ]

  /** The same requirements as `KFileConditions`, stated on the record's fields. */
  predicate IsKFileDocument(x: Record) {
    && x.folderId.Some? && HasPrefix(x.folderId.value, "K")
    && HasSuffix(x.objectId, ".pdf")
    && x.docDownloadStatus.Some? && ToLower(x.docDownloadStatus.value) == "downloaded"
    && x.docValidationStatus.Some? && ToLower(x.docValidationStatus.value) == "validated"
    && (x.uniqueKey.None? || !HasPrefix(ToUpper(x.uniqueKey.value), "/SUPPLEMENT"))
    && (x.uniqueKey.None? || !HasPrefix(ToUpper(x.uniqueKey.value), "/AMENDMENT"))
    && (x.uniqueKey.None? || (x.subType.Some? && !HasInfix(ToUpper(x.subType.value), "CORRESPONDENCE")))
    && x.docDownloadDate.Some?
  }

  /** The same requirements as `PDocConditions`, stated on the record's fields. */
  predicate IsPDocDocument(x: Record) {
    && x.folderId.Some? && MatchesPDocFolder(x.folderId.value)
    && MatchesPdfOrDoc(x.objectId)
    && x.validationStatus.Some? && ToLower(x.validationStatus.value) == "validated"
    && x.uniqueKey.Some? && !HasInfix(ToUpper(x.uniqueKey.value), "RESPONSE")
    && x.subType.Some? && !HasInfix(ToUpper(x.subType.value), "RESPONSE")
    && x.docDownloadDate.Some?
  }

  /** The same requirements as `NonKFileConditions`, stated on the record's fields. */
  predicate IsNonKFileDocument(x: Record) {
    && x.folderId.Some? && !HasPrefix(x.folderId.value, "K")
    && HasSuffix(x.objectId, ".pdf")
    && x.docDownloadStatus.Some? && ToLower(x.docDownloadStatus.value) == "downloaded"
    && x.docValidationStatus.Some? && ToLower(x.docValidationStatus.value) == "validated"
  }

  /** `OR(c = false, unique_key IS NULL)` passes exactly when the key is NULL or `c` is FALSE. */
  lemma NullGuardHolds(c: Cond, x: Record)
    ensures Holds(Or([Not(c), Leaf(IsNull(Text(UniqueKey)))]), x) <==> x.uniqueKey.None? || Eval(c, x) == False
  {
    var cs := [Not(c), Leaf(IsNull(Text(UniqueKey)))];
    OrHolds(cs, x);
    assert SomeHolds(cs, x) <==> Holds(cs[0], x) || Holds(cs[1], x);
  }

  /** `c = false` on a text test passes exactly when the column is not NULL and the test fails. */
  lemma NotTextHolds(fold: Fold, c: TextColumn, test: TextTest, x: Record)
    ensures Holds(Not(TextIs(fold, c, test)), x) <==>
      GetText(x, c).Str? && !PassesText(test, Folded(fold, GetText(x, c).s))
  {
    NotHolds(TextIs(fold, c, test), x);
  }

  /** A text test passes exactly when the column is not NULL and the (folded) value passes. */
  lemma TextIsHolds(fold: Fold, c: TextColumn, test: TextTest, x: Record)
    ensures Holds(TextIs(fold, c, test), x) <==>
      GetText(x, c).Str? && PassesText(test, Folded(fold, GetText(x, c).s))
  {
    var v := GetText(x, c);
    assert Eval(TextIs(fold, c, test), x) == EvalAtom(TextAtom(fold, c, test), x);
  }

  /** The first four 510(k) conditions, stated on the record's fields. */
  lemma KFileTextElements(x: Record)
    ensures var k := KFileConditions;
      && (Holds(k[0], x) <==> x.folderId.Some? && HasPrefix(x.folderId.value, "K"))
      && (Holds(k[1], x) <==> HasSuffix(x.objectId, ".pdf"))
      && (Holds(k[2], x) <==> x.docDownloadStatus.Some? && ToLower(x.docDownloadStatus.value) == "downloaded")
      && (Holds(k[3], x) <==> x.docValidationStatus.Some? && ToLower(x.docValidationStatus.value) == "validated")
  {
    TextIsHolds(AsStored, FolderId, StartsWith("K"), x);
    TextIsHolds(AsStored, ObjectId, EndsWith(".pdf"), x);
    TextIsHolds(Lower, DocDownloadStatus, Equals("downloaded"), x);
    TextIsHolds(Lower, DocValidationStatus, Equals("validated"), x);
  }

  /** The last four 510(k) conditions: the three NULL-guarded exclusions and the download date. */
  lemma KFileGuardElements(x: Record)
    ensures var k := KFileConditions;
      && (Holds(k[4], x) <==> x.uniqueKey.None? || !HasPrefix(ToUpper(x.uniqueKey.value), "/SUPPLEMENT"))
      && (Holds(k[5], x) <==> x.uniqueKey.None? || !HasPrefix(ToUpper(x.uniqueKey.value), "/AMENDMENT"))
      && (Holds(k[6], x) <==> x.uniqueKey.None? || (x.subType.Some? && !HasInfix(ToUpper(x.subType.value), "CORRESPONDENCE")))
      && (Holds(k[7], x) <==> x.docDownloadDate.Some?)
  {
    NullGuardHolds(TextIs(Upper, UniqueKey, StartsWith("/SUPPLEMENT")), x);
    NullGuardHolds(TextIs(Upper, UniqueKey, StartsWith("/AMENDMENT")), x);
    NullGuardHolds(TextIs(Upper, SubType, Contains("CORRESPONDENCE")), x);
  }

  lemma KFileConditionsMeaning(x: Record)
    ensures AllHold(KFileConditions, x) <==> IsKFileDocument(x)
  {
    var k := KFileConditions;
    KFileTextElements(x);
    KFileGuardElements(x);
    assert AllHold(k, x) <==>
      Holds(k[0], x) && Holds(k[1], x) && Holds(k[2], x) && Holds(k[3], x) &&
      Holds(k[4], x) && Holds(k[5], x) && Holds(k[6], x) && Holds(k[7], x);
  }

  /** A PMA match never has a NULL unique key or sub-type: the RESPONSE tests are UNKNOWN there. */
  lemma PDocConditionsMeaning(x: Record)
    ensures AllHold(PDocConditions, x) <==> IsPDocDocument(x)
  {
    var p := PDocConditions;
    PDocElements(x);
    assert AllHold(p, x) <==>
      Holds(p[0], x) && Holds(p[1], x) && Holds(p[2], x) &&
      Holds(p[3], x) && Holds(p[4], x) && Holds(p[5], x);
  }

  /** Each PMA condition, stated on the record's fields. */
  lemma PDocElements(x: Record)
    ensures var p := PDocConditions;
      && (Holds(p[0], x) <==> x.folderId.Some? && MatchesPDocFolder(x.folderId.value))
      && (Holds(p[1], x) <==> MatchesPdfOrDoc(x.objectId))
      && (Holds(p[2], x) <==> x.validationStatus.Some? && ToLower(x.validationStatus.value) == "validated")
      && (Holds(p[3], x) <==> x.uniqueKey.Some? && !HasInfix(ToUpper(x.uniqueKey.value), "RESPONSE"))
      && (Holds(p[4], x) <==> x.subType.Some? && !HasInfix(ToUpper(x.subType.value), "RESPONSE"))
      && (Holds(p[5], x) <==> x.docDownloadDate.Some?)
  {
    TextIsHolds(AsStored, FolderId, Matches(PDocFolderPattern), x);
    TextIsHolds(AsStored, ObjectId, Matches(PdfOrDocPattern), x);
    TextIsHolds(Lower, ValidationStatus, Equals("validated"), x);
    NotTextHolds(Upper, UniqueKey, Contains("RESPONSE"), x);
    NotTextHolds(Upper, SubType, Contains("RESPONSE"), x);
  }

  lemma NonKFileConditionsMeaning(x: Record)
    ensures AllHold(NonKFileConditions, x) <==> IsNonKFileDocument(x)
  {
    var n := NonKFileConditions;
    assert AllHold(n, x) <==> Holds(n[0], x) && Holds(n[1], x) && Holds(n[2], x) && Holds(n[3], x);
    NotTextHolds(AsStored, FolderId, StartsWith("K"), x);
    assert Holds(n[0], x) <==> x.folderId.Some? && !HasPrefix(x.folderId.value, "K");
    assert Holds(n[1], x) <==> HasSuffix(x.objectId, ".pdf");
    assert Holds(n[2], x) <==> x.docDownloadStatus.Some? && ToLower(x.docDownloadStatus.value) == "downloaded";
    assert Holds(n[3], x) <==> x.docValidationStatus.Some? && ToLower(x.docValidationStatus.value) == "validated";
  }

  /** No record is both a 510(k) document and a document outside the 510(k) folders. */
  lemma KFileAndNonKFileDisjoint(x: Record)
    ensures !(AllHold(KFileConditions, x) && AllHold(NonKFileConditions, x))
  {
    KFileConditionsMeaning(x);
    NonKFileConditionsMeaning(x);
  }

  // ---------------------------------------------------------------------------
  // Doctype tags and the statements built for them

  /** The tags the condition-list lookup has an entry for. */
  predicate KnownTag(t: string) {
    t == "K" || t == "P"
  }

  function BaseConditions(t: string): seq<Cond>
    requires KnownTag(t)
  {
    if t == "K" then KFileConditions else PDocConditions
  }

  /**
   * The outcome of `_doctype_assessment`: flag 0 with one tag, or flag 1
   * with a list of tags.
   */
  datatype Assessment = Single(tag: string) | Several(tags: seq<string>)

  /** A Python string iterated or indexed as a sequence of one-character strings. */
  function Chars(s: string): (r: seq<string>)
    ensures |r| == |s| && forall i :: 0 <= i < |s| ==> r[i] == [s[i]]
  {
    seq(|s|, i requires 0 <= i < |s| => [s[i]])
  }

  /** The conditions for one tag: grouped in one AND clause, or the raw list. */
  datatype Statement = Grouped(group: Cond) | Raw(conds: seq<Cond>)

  /** What `_get_condlist_by_doctype` returns: one statement, or a list of them, one per tag. */
  datatype Composite = One(statement: Statement) | PerTag(statements: seq<Statement>)

  /** A statement placed as one element of a condition list. */
  function AsClause(s: Statement): Clause {
    match s
    case Grouped(g) => Expr(g)
    case Raw(_) => PyList
  }

  /** The value `_get_condlist_by_doctype` returns, placed as one element of a condition list. */
  function AsElement(c: Composite): (r: Clause)
    ensures r.Expr? <==> c.One? && c.statement.Grouped?
    ensures r.Expr? || r == PyList
  {
    match c
    case One(Grouped(g)) => Expr(g)
    case _ => PyList
  }

  /** The value `_get_condlist_by_doctype` returns, spread with `*` into an argument list. */
  function Unpack(c: Composite): (r: Result<seq<Clause>, Error>)
    ensures r.Err? <==> c.One? && c.statement.Grouped?
    ensures r.Err? ==> r.error == Undefined
    ensures c.One? && c.statement.Raw? ==> r == Ok(seq(|c.statement.conds|, i requires 0 <= i < |c.statement.conds| => Expr(c.statement.conds[i])))
    ensures c.PerTag? ==> r.Ok? && |r.value| == |c.statements| && forall i :: 0 <= i < |c.statements| ==> r.value[i] == AsClause(c.statements[i])
  {
    match c
    // iterating a clause object is left to the query library
    case One(Grouped(_)) => Err(Undefined)
    case One(Raw(cs)) => Ok(seq(|cs|, i requires 0 <= i < |cs| => Expr(cs[i])))
    case PerTag(ss) => Ok(seq(|ss|, i requires 0 <= i < |ss| => AsClause(ss[i])))
  }

  /** The first unknown tag of the list sits at index `i`. */
  predicate FirstUnknown(tags: seq<string>, i: int) {
    0 <= i < |tags| && !KnownTag(tags[i]) && forall j :: 0 <= j < i ==> KnownTag(tags[j])
  }

  /** Spreading the conditions of a single tag gives the conditions themselves. */
  lemma UnpackRaw(cs: seq<Cond>)
    ensures Unpack(One(Raw(cs))).Ok? && AllExprs(Unpack(One(Raw(cs))).value)
    ensures Exprs(Unpack(One(Raw(cs))).value) == cs
  {
    var u := Unpack(One(Raw(cs))).value;
    assert |Exprs(u)| == |cs|;
    forall i | 0 <= i < |cs| ensures Exprs(u)[i] == cs[i] {
      assert u[i] == Expr(cs[i]);
    }
  }

  // ---------------------------------------------------------------------------
  // Submission ids

  /** `[s for s in ids if "/" not in s]`: the plain folder ids. */
  function PlainIds(ids: seq<string>): (r: seq<string>)
    ensures forall s :: s in r <==> s in ids && '/' !in s
    ensures |r| == 0 <==> forall i :: 0 <= i < |ids| ==> '/' in ids[i]
  {
    if ids == [] then []
    else
      assert ids == [ids[0]] + ids[1..];
      (if '/' !in ids[0] then [ids[0]] else []) + PlainIds(ids[1..])
  }

  /** `[s for s in ids if "/" in s]`: the "folder/suffix" ids. */
  function SupplementIds(ids: seq<string>): (r: seq<string>)
    ensures forall s :: s in r <==> s in ids && '/' in s
    ensures forall i :: 0 <= i < |r| ==> '/' in r[i]
    ensures |r| == 0 <==> forall i :: 0 <= i < |ids| ==> '/' !in ids[i]
  {
    if ids == [] then []
    else
      assert ids == [ids[0]] + ids[1..];
      (if '/' in ids[0] then [ids[0]] else []) + SupplementIds(ids[1..])
  }

  /** The index of the first occurrence of `c` in `s`. */
  function IndexOf(s: string, c: char): (k: nat)
    requires c in s
    ensures k < |s| && s[k] == c && c !in s[..k]
  {
    if s[0] == c then 0
    else
      var k := IndexOf(s[1..], c);
      assert s[..k + 1] == [s[0]] + s[1..][..k];
      k + 1
  }

  /** `s.split("/", 1)`: cut at the first "/" only. */
  function SplitOnce(s: string): (parts: seq<string>)
    ensures '/' !in s ==> parts == [s]
    ensures '/' in s ==> |parts| == 2 && '/' !in parts[0] && parts[0] + "/" + parts[1] == s
  {
    if '/' in s then
      var k := IndexOf(s, '/');
      assert s[..k] + "/" + s[k + 1..] == s;
      [s[..k], s[k + 1..]]
    else [s]
  }

  /**
   * `_format_supplement_ids`: each "X/Y" becomes (X, Y), where X holds no "/"
   * and X + "/" + Y is the id again; one entry per id, in input order.
   */
  function FormatSupplementIds(ids: seq<string>): (r: seq<seq<string>>)
    ensures |r| == |ids|
    ensures forall i :: 0 <= i < |ids| && '/' in ids[i] ==>
      |r[i]| == 2 && '/' !in r[i][0] && r[i][0] + "/" + r[i][1] == ids[i]
    ensures forall i :: 0 <= i < |ids| && '/' !in ids[i] ==> r[i] == [ids[i]]
  {
    seq(|ids|, i requires 0 <= i < |ids| => SplitOnce(ids[i]))
  }

  /**
   * `_identify_submission_types`: the distinct first characters of the ids.
   * An empty id has no first character.
   */
  function IdentifySubmissionTypes(ids: seq<string>): (r: Result<seq<string>, Error>)
    ensures r.Err? <==> exists i :: 0 <= i < |ids| && ids[i] == ""
    ensures r.Err? ==> r.error == IndexError
    ensures r.Ok? ==> NoDup(r.value)
    ensures r.Ok? ==> forall t :: t in r.value <==> exists i :: 0 <= i < |ids| && t == [ids[i][0]]
  {
    if exists i :: 0 <= i < |ids| && ids[i] == "" then Err(IndexError)
    else
      var firsts := seq(|ids|, i requires 0 <= i < |ids| && ids[i] != "" => [ids[i][0]]);
      assert forall t :: t in firsts <==> exists i :: 0 <= i < |ids| && t == [ids[i][0]] by {
        forall t | t in firsts ensures exists i :: 0 <= i < |ids| && t == [ids[i][0]] {
          var i :| 0 <= i < |firsts| && firsts[i] == t;
          assert t == [ids[i][0]];
        }
        forall i | 0 <= i < |ids| ensures [ids[i][0]] in firsts {
          assert firsts[i] == [ids[i][0]];
        }
      }
      Ok(Dedupe(firsts))
  }

  /** `Inv.folder_id == id`. */
  function FolderIs(id: string): Cond {
    TextIs(AsStored, FolderId, Equals(id))
  }

  /** A sequence of two or more copies of one value has a repeat. */
  lemma AllEqualRepeats(s: seq<string>, v: string)
    requires forall t :: t in s ==> t == v
    ensures |s| >= 2 ==> !NoDup(s)
  {
    if |s| >= 2 {
      assert s[0] in s && s[1] in s;
    }
  }

  lemma FolderIsHolds(id: string, x: Record)
    ensures Holds(FolderIs(id), x) <==> x.folderId == Some(id)
  {
  }

  /** `or_(*[Inv.folder_id == s for s in ids if "/" not in s])`. */
  function FolderIdClause(ids: seq<string>): (c: Clause)
    ensures c == EmptyGroup <==> |PlainIds(ids)| == 0
    ensures c.Expr? || c == EmptyGroup
    ensures c.Expr? ==> forall x :: Holds(c.cond, x) <==> x.folderId.Some? && x.folderId.value in PlainIds(ids)
  {
    var plain := PlainIds(ids);
    var clauses := seq(|plain|, i requires 0 <= i < |plain| => Expr(FolderIs(plain[i])));
    assert AllExprs(clauses) && !HasList(clauses);
    FolderDisjunction(plain, clauses);
    var g := Group(Disjunction, clauses);
    g.value
  }

  lemma FolderDisjunction(plain: seq<string>, clauses: seq<Clause>)
    requires |clauses| == |plain| && forall i :: 0 <= i < |plain| ==> clauses[i] == Expr(FolderIs(plain[i]))
    ensures forall x :: Meets(Disjunction, Exprs(clauses), x) <==> x.folderId.Some? && x.folderId.value in plain
  {
    forall x ensures Meets(Disjunction, Exprs(clauses), x) <==> x.folderId.Some? && x.folderId.value in plain {
      if x.folderId.Some? && x.folderId.value in plain {
        var i :| 0 <= i < |plain| && plain[i] == x.folderId.value;
        FolderIsHolds(plain[i], x);
        assert Exprs(clauses)[i] == FolderIs(plain[i]);
      }
      if SomeHolds(Exprs(clauses), x) {
        var i :| 0 <= i < |clauses| && Holds(Exprs(clauses)[i], x);
        assert Exprs(clauses)[i] == FolderIs(plain[i]);
        FolderIsHolds(plain[i], x);
      }
    }
  }

  /** `and_(Inv.folder_id == X, Inv.uniquekey == "/" + Y)` for the pair (X, Y). */
  function SupplementCond(pair: seq<string>): (c: Cond)
    requires |pair| == 2
    ensures forall x :: Holds(c, x) <==> x.folderId == Some(pair[0]) && x.uniqueKey == Some("/" + pair[1])
  {
    var conj := [FolderIs(pair[0]), TextIs(AsStored, UniqueKey, Equals("/" + pair[1]))];
    assert forall x :: Holds(And(conj), x) <==> x.folderId == Some(pair[0]) && x.uniqueKey == Some("/" + pair[1]) by {
      forall x ensures Holds(And(conj), x) <==> x.folderId == Some(pair[0]) && x.uniqueKey == Some("/" + pair[1]) {
        AndHolds(conj, x);
        FolderIsHolds(pair[0], x);
        assert AllHold(conj, x) <==> Holds(conj[0], x) && Holds(conj[1], x);
      }
    }
    And(conj)
  }

  /** The record is the supplement document "X/Y" names: folder X, unique key "/Y". */
  predicate SupplementMatch(id: string, x: Record) {
    '/' in id && x.folderId == Some(SplitOnce(id)[0]) && x.uniqueKey == Some("/" + SplitOnce(id)[1])
  }

  /** The supplement conditions built from the "folder/suffix" ids. */
  function SupplementClauses(ids: seq<string>): (cs: seq<Clause>)
    requires forall i :: 0 <= i < |ids| ==> '/' in ids[i]
    ensures |cs| == |ids| && AllExprs(cs)
    ensures forall x :: SomeHolds(Exprs(cs), x) <==> exists i :: 0 <= i < |ids| && SupplementMatch(ids[i], x)
  {
    var pairs := FormatSupplementIds(ids);
    var cs := seq(|pairs|, i requires 0 <= i < |pairs| && |pairs[i]| == 2 => Expr(SupplementCond(pairs[i])));
    SupplementDisjunction(ids, pairs, cs);
    cs
  }

  lemma SupplementDisjunction(ids: seq<string>, pairs: seq<seq<string>>, cs: seq<Clause>)
    requires pairs == FormatSupplementIds(ids) && forall i :: 0 <= i < |ids| ==> '/' in ids[i]
    requires |cs| == |ids| && forall i :: 0 <= i < |ids| ==> cs[i] == Expr(SupplementCond(pairs[i]))
    ensures forall x :: SomeHolds(Exprs(cs), x) <==> exists i :: 0 <= i < |ids| && SupplementMatch(ids[i], x)
  {
    forall x ensures SomeHolds(Exprs(cs), x) <==> exists i :: 0 <= i < |ids| && SupplementMatch(ids[i], x) {
      forall i | 0 <= i < |ids| ensures Holds(Exprs(cs)[i], x) <==> SupplementMatch(ids[i], x) {
        assert Exprs(cs)[i] == SupplementCond(pairs[i]);
      }
    }
  }

  /** The record is a ".pdf" supplement document one of the "X/Y" ids names. */
  predicate IsSupplementRow(ids: seq<string>, x: Record) {
    HasSuffix(x.objectId, ".pdf") && exists i :: 0 <= i < |ids| && SupplementMatch(ids[i], x)
  }

  predicate AllWhole(rows: seq<Row>) {
    forall i :: 0 <= i < |rows| ==> rows[i].Whole?
  }

  /** A concatenated result splits back into its two parts. */
  lemma ConcatParts(a: seq<Row>, b: seq<Row>)
    ensures (a + b)[..|a|] == a && (a + b)[|a|..] == b
    ensures AllWhole(a) && AllWhole(b) ==> AllWhole(a + b)
  {
    if AllWhole(a) && AllWhole(b) {
      forall i | 0 <= i < |a + b| ensures (a + b)[i].Whole? {
        if i >= |a| {
          assert (a + b)[i] == b[i - |a|];
        }
      }
    }
  }

  /** `[o for o in rows if o.object_id.endswith(".pdf")]`. */
  function PdfOnly(rows: seq<Row>): (r: seq<Row>)
    requires AllWhole(rows)
    ensures AllWhole(r)
    ensures forall o :: o in r <==> o in rows && o.Whole? && HasSuffix(o.record.objectId, ".pdf")
  {
    if rows == [] then []
    else
      assert rows == [rows[0]] + rows[1..];
      (if HasSuffix(rows[0].record.objectId, ".pdf") then [rows[0]] else []) + PdfOnly(rows[1..])
  }

  /** The columns `get_folder_ids` selects. */
  const FolderIdsTarget: Target := Columns([Numeric(CreationDate), Text(FolderId)])

  /** `[record[1] for record in rows]`. */
  function SecondColumn(rows: seq<Row>): (r: seq<Value>)
    requires forall i :: 0 <= i < |rows| ==> rows[i].Tuple? && |rows[i].values| >= 2
    ensures |r| == |rows| && forall i :: 0 <= i < |rows| ==> r[i] == rows[i].values[1]
  {
    seq(|rows|, i requires 0 <= i < |rows| && rows[i].Tuple? && |rows[i].values| >= 2 => rows[i].values[1])
  }

  lemma ProjectMembers(target: Target, recs: seq<Record>)
    ensures forall row :: row in ProjectAll(target, recs) <==> exists x :: x in recs && row == Project(target, x)
  {
    var rows := ProjectAll(target, recs);
    forall row | row in rows ensures exists x :: x in recs && row == Project(target, x) {
      var k :| 0 <= k < |rows| && rows[k] == row;
      assert recs[k] in recs;
    }
    forall x | x in recs ensures Project(target, x) in rows {
      var k :| 0 <= k < |recs| && recs[k] == x;
      assert rows[k] == Project(target, x);
    }
  }

  /** The second column of the folder-id query holds exactly the folder ids of its records. */
  lemma FolderColumnMembers(recs: seq<Record>)
    ensures forall v :: v in SecondColumn(ProjectAll(FolderIdsTarget, recs)) <==> exists x :: x in recs && v == Get(x, Text(FolderId))
  {
    var column := SecondColumn(ProjectAll(FolderIdsTarget, recs));
    forall v ensures v in column <==> exists x :: x in recs && v == Get(x, Text(FolderId)) {
      if v in column {
        var k :| 0 <= k < |column| && column[k] == v;
        assert recs[k] in recs;
      }
      if exists x :: x in recs && v == Get(x, Text(FolderId)) {
        var x :| x in recs && v == Get(x, Text(FolderId));
        var k :| 0 <= k < |recs| && recs[k] == x;
        assert column[k] == v;
      }
    }
  }

  /** The doctype element of `query_submission_id`'s condition list: spread into an OR when the ids have several first characters. */
  function DoctypeClause(composite: Composite, typeCount: nat): (r: Result<Clause, Error>)
    ensures typeCount <= 1 ==> r == Ok(AsElement(composite))
    ensures typeCount > 1 && composite.One? && composite.statement.Grouped? ==> r == Err(Undefined)
    ensures typeCount > 1 && composite.PerTag? && (exists i :: 0 <= i < |composite.statements| && composite.statements[i].Raw?) ==>
      r == Err(ArgumentError)
    ensures typeCount > 1 && composite.PerTag? && composite.statements == [] ==> r == Ok(EmptyGroup)
    ensures typeCount > 1 && composite.PerTag? && composite.statements != [] && AllGrouped(composite.statements) ==>
      r.Ok? && r.value.Expr? &&
      forall x :: Holds(r.value.cond, x) <==> exists i :: 0 <= i < |composite.statements| && Holds(composite.statements[i].group, x)
  {
    if typeCount > 1 then
      var cs :- Unpack(composite);
      if composite.PerTag? then
        GroupedClauses(composite.statements, cs);
        Group(Disjunction, cs)
      else Group(Disjunction, cs)
    else Ok(AsElement(composite))
  }

  predicate AllGrouped(ss: seq<Statement>) {
    forall i :: 0 <= i < |ss| ==> ss[i].Grouped?
  }

  /** Spreading per-tag statements: a raw one is a list, and AND groups are clauses holding as their groups do. */
  lemma GroupedClauses(ss: seq<Statement>, cs: seq<Clause>)
    requires |cs| == |ss| && forall i :: 0 <= i < |ss| ==> cs[i] == AsClause(ss[i])
    ensures (exists i :: 0 <= i < |ss| && ss[i].Raw?) ==> HasList(cs)
    ensures AllGrouped(ss) ==> AllExprs(cs) && forall x :: SomeHolds(Exprs(cs), x) <==> exists i :: 0 <= i < |ss| && Holds(ss[i].group, x)
  {
    if exists i :: 0 <= i < |ss| && ss[i].Raw? {
      var i :| 0 <= i < |ss| && ss[i].Raw?;
      assert cs[i].PyList?;
    }
    if AllGrouped(ss) {
      assert AllExprs(cs);
      forall x ensures SomeHolds(Exprs(cs), x) <==> exists i :: 0 <= i < |ss| && Holds(ss[i].group, x) {
        assert forall i :: 0 <= i < |ss| ==> Exprs(cs)[i] == ss[i].group;
      }
    }
  }

  /** The doctype element "and" the folder clause: built when both are clauses, a list first is an ArgumentError. */
  lemma ElementAndFolder(element: Clause, folder: Clause)
    requires folder.Expr? || folder == EmptyGroup
    ensures Combine(Conjunction, [element, folder]).Ok? <==> element.Expr? && folder.Expr?
    ensures element == PyList ==> Combine(Conjunction, [element, folder]) == Err(ArgumentError)
    ensures element != PyList && !(element.Expr? && folder.Expr?) ==> Combine(Conjunction, [element, folder]) == Err(Undefined)
  {
    var l := [element, folder];
    assert l[0] == element && l[1] == folder;
    assert HasList(l) <==> element == PyList;
    assert AllExprs(l) <==> element.Expr? && folder.Expr?;
  }

  /** A query on whole records returns each selected record, as a whole row. */
  lemma EntityRows(recs: seq<Record>)
    ensures AllWhole(ProjectAll(Entity, recs))
    ensures forall x :: Whole(x) in ProjectAll(Entity, recs) <==> x in recs
  {
    ProjectMembers(Entity, recs);
  }

  /** `[startDate <= Inv.r_creation_date, Inv.r_creation_date <= endDate]`. */
  function DateRangeConditions(startDate: int, endDate: int): seq<Cond> {
    [Leaf(NumAtom(RCreationDate, AtLeast, startDate)), Leaf(NumAtom(RCreationDate, AtMost, endDate))]
  }

  predicate InDateRange(x: Record, startDate: int, endDate: int) {
    x.rCreationDate.Some? && startDate <= x.rCreationDate.value <= endDate
  }

  lemma DateRangeMeaning(startDate: int, endDate: int, x: Record)
    ensures AllHold(DateRangeConditions(startDate, endDate), x) <==> InDateRange(x, startDate, endDate)
  {
    var d := DateRangeConditions(startDate, endDate);
    assert AllHold(d, x) <==> Holds(d[0], x) && Holds(d[1], x);
  }

  /** Every usable 510(k) or PMA document has a folder id. */
  lemma KnownTagHasFolder(t: string, x: Record)
    requires KnownTag(t) && AllHold(BaseConditions(t), x)
    ensures x.folderId.Some?
  {
    if t == "K" {
      KFileConditionsMeaning(x);
    } else {
      PDocConditionsMeaning(x);
    }
  }

  predicate AllStr(vs: seq<Value>) {
    forall i :: 0 <= i < |vs| ==> vs[i].Str?
  }

  function Strings(vs: seq<Value>): (r: seq<string>)
    requires AllStr(vs)
    ensures forall s :: s in r <==> Str(s) in vs
  {
    var r := seq(|vs|, i requires 0 <= i < |vs| && vs[i].Str? => vs[i].s);
    assert forall s :: Str(s) in vs ==> s in r by {
      forall s | Str(s) in vs ensures s in r {
        var k :| 0 <= k < |vs| && vs[k] == Str(s);
        assert r[k] == s;
      }
    }
    r
  }

  /** `Inv.object_id == id`. */
  function ObjectIs(id: string): Cond {
    TextIs(AsStored, ObjectId, Equals(id))
  }

  /** `or_(*[Inv.object_id == oid for oid in ids])`. */
  function ObjectIdClause(ids: seq<string>): (c: Clause)
    ensures c == EmptyGroup <==> |ids| == 0
    ensures c.Expr? || c == EmptyGroup
    ensures c.Expr? ==> forall x :: Holds(c.cond, x) <==> x.objectId in ids
  {
    var clauses := seq(|ids|, i requires 0 <= i < |ids| => Expr(ObjectIs(ids[i])));
    assert AllExprs(clauses) && !HasList(clauses);
    assert forall x :: SomeHolds(Exprs(clauses), x) <==> x.objectId in ids by {
      forall x ensures SomeHolds(Exprs(clauses), x) <==> x.objectId in ids {
        if x.objectId in ids {
          var i :| 0 <= i < |ids| && ids[i] == x.objectId;
          assert Exprs(clauses)[i] == ObjectIs(ids[i]);
        }
      }
    }
    Group(Disjunction, clauses).value
  }

  /** What `get_folder_ids` returns when some row matched: the ids and, on request, the rows. */
  datatype FolderIds = FolderIds(ids: seq<Value>, query: Option<seq<Row>>)

  class InvInventoryReader {
    const supportedDoctypes: seq<string>
    const pdocConditionsList: seq<Cond>
    const kfileConditionsList: seq<Cond>
    const nonkfileConditionsList: seq<Cond>
    /** The executor this reader extends, bound to its session and table. */
    const db: PrimaryReader

    /** The fields hold the lists the constructor stores. */
    predicate Configured() {
      && supportedDoctypes == ["K", "P"]
      && pdocConditionsList == PDocConditions
      && kfileConditionsList == KFileConditions
      && nonkfileConditionsList == NonKFileConditions
    }

    constructor (db: PrimaryReader)
      ensures Configured() && this.db == db
    {
      supportedDoctypes := ["K", "P"];
      pdocConditionsList := PDocConditions;
      kfileConditionsList := KFileConditions;
      nonkfileConditionsList := NonKFileConditions;
      this.db := db;
    }

    /** `_doctype_assessment`. */
    function DoctypeAssessment(docType: seq<string>): (a: Assessment)
      ensures docType == ["all"] ==> a == Several(supportedDoctypes)
      ensures |docType| == 1 && docType != ["all"] ==> a == Single(docType[0])
      ensures |docType| != 1 ==> a == Several(docType)
    {
      if |docType| == 1 then
        if docType[0] == "all" then Several(supportedDoctypes) else Single(docType[0])
      else Several(docType)
    }

    /**
     * `_condlist_switch`: the list stored for "K" or "P". Lists are values
     * here, so extending the result cannot reach the stored list.
     */
    function CondlistSwitch(tag: string): (r: Result<seq<Cond>, Error>)
      ensures r.Ok? <==> KnownTag(tag)
      ensures tag == "K" ==> r == Ok(kfileConditionsList)
      ensures tag == "P" ==> r == Ok(pdocConditionsList)
      ensures r.Err? ==> r.error == KeyError(tag)
      ensures Configured() && r.Ok? ==> r.value == BaseConditions(tag) && r.value != nonkfileConditionsList
    {
      if tag == "K" then Ok(kfileConditionsList)
      else if tag == "P" then Ok(pdocConditionsList)
      else Err(KeyError(tag))
    }

    /**
     * What `_generate_doctype_and_statement` returns for one tag: an AND group
     * that holds exactly when the base and the additional conditions all
     * hold, or the raw list, base conditions first.
     */
    function DoctypeStatement(tag: string, includeAnd: bool, additional: seq<Cond>): (r: Result<Statement, Error>)
      ensures r.Ok? <==> KnownTag(tag)
      ensures r.Err? ==> r.error == KeyError(tag)
      ensures r.Ok? && !includeAnd ==> r.value == Raw(CondlistSwitch(tag).value + additional)
      ensures r.Ok? && includeAnd ==> r.value.Grouped?
      ensures r.Ok? && includeAnd ==>
        forall x :: Holds(r.value.group, x) <==> AllHold(CondlistSwitch(tag).value, x) && AllHold(additional, x)
    {
      var base :- CondlistSwitch(tag);
      var condlist := base + additional;
      if includeAnd then
        assert forall x :: Holds(And(condlist), x) <==> AllHold(base, x) && AllHold(additional, x) by {
          forall x ensures Holds(And(condlist), x) <==> AllHold(base, x) && AllHold(additional, x) {
            AndHolds(condlist, x);
            AllHoldAppend(base, additional, x);
          }
        }
        Ok(Grouped(And(condlist)))
      else
        Ok(Raw(condlist))
    }

    /** The statements built for each tag in turn; the first unknown tag fails the whole list. */
    function StatementsFor(tags: seq<string>, includeAnd: bool, additional: seq<Cond>): (r: Result<seq<Statement>, Error>)
      ensures r.Ok? <==> forall i :: 0 <= i < |tags| ==> KnownTag(tags[i])
      ensures r.Ok? ==> |r.value| == |tags|
      ensures r.Ok? ==>
        forall i :: 0 <= i < |tags| ==> r.value[i] == DoctypeStatement(tags[i], includeAnd, additional).value
      ensures r.Err? ==> exists i :: FirstUnknown(tags, i) && r.error == KeyError(tags[i])
      decreases |tags|
    {
      if tags == [] then Ok([])
      else
        var n := |tags| - 1;
        var init := tags[..n];
        assert forall i :: 0 <= i < n ==> init[i] == tags[i];
        match StatementsFor(init, includeAnd, additional)
        case Err(e) => Err(e)
        case Ok(previous) =>
          match DoctypeStatement(tags[n], includeAnd, additional)
          case Err(e) =>
            assert FirstUnknown(tags, n);
            Err(e)
          case Ok(last) => Ok(previous + [last])
    }

    /** A failure on a prefix of the tags is the failure of the whole list. */
    lemma {:induction false} StatementsForPrefixErr(tags: seq<string>, k: nat, includeAnd: bool, additional: seq<Cond>)
      requires k <= |tags|
      requires StatementsFor(tags[..k], includeAnd, additional).Err?
      ensures StatementsFor(tags, includeAnd, additional) == StatementsFor(tags[..k], includeAnd, additional)
      decreases |tags|
    {
      if k < |tags| {
        var init := tags[..|tags| - 1];
        assert init[..k] == tags[..k];
        StatementsForPrefixErr(init, k, includeAnd, additional);
      } else {
        assert tags[..k] == tags;
      }
    }

    /** What `_get_condlist_by_doctype` returns. */
    function CondlistByDoctype(docType: seq<string>, includeAnd: bool, additional: seq<Cond>): (r: Result<Composite, Error>)
      ensures r.Ok? <==> forall i :: 0 <= i < |ResolvedTags(docType)| ==> KnownTag(ResolvedTags(docType)[i])
      ensures r.Ok? ==> (r.value.One? <==> DoctypeAssessment(docType).Single?)
      ensures r.Ok? && r.value.One? ==> DoctypeStatement(DoctypeAssessment(docType).tag, includeAnd, additional) == Ok(r.value.statement)
      ensures r.Ok? && r.value.PerTag? ==> StatementsFor(DoctypeAssessment(docType).tags, includeAnd, additional) == Ok(r.value.statements)
      ensures r.Ok? && includeAnd ==> (r.value.One? ==> r.value.statement.Grouped?) && (r.value.PerTag? ==> AllGrouped(r.value.statements))
    {
      match DoctypeAssessment(docType)
      case Single(t) =>
        assert ResolvedTags(docType) == [t];
        assert (forall i :: 0 <= i < |[t]| ==> KnownTag([t][i])) <==> KnownTag(t) by {
          assert [t][0] == t;
        }
        var s :- DoctypeStatement(t, includeAnd, additional);
        Ok(One(s))
      case Several(tags) =>
        assert ResolvedTags(docType) == tags;
        var ss :- StatementsFor(tags, includeAnd, additional);
        assert includeAnd ==> AllGrouped(ss) by {
          forall i | 0 <= i < |ss| && includeAnd ensures ss[i].Grouped? {
            assert ss[i] == DoctypeStatement(tags[i], includeAnd, additional).value;
          }
        }
        Ok(PerTag(ss))
    }

    /** `_generate_doctype_and_statement`. */
    method GenerateDoctypeAndStatement(tag: string, includeAnd: bool, additional: Option<seq<Cond>>) returns (r: Result<Statement, Error>)
      ensures r == DoctypeStatement(tag, includeAnd, Extra(additional))
    {
      var switched := CondlistSwitch(tag);
      if switched.Err? {
        return Err(switched.error);
      }
      var doctypeCondlist := switched.value;
      if additional.Some? {
        doctypeCondlist := doctypeCondlist + additional.value;
      }
      assert doctypeCondlist == switched.value + Extra(additional);
      if includeAnd {
        r := Ok(Grouped(And(doctypeCondlist)));
      } else {
        r := Ok(Raw(doctypeCondlist));
      }
    }

    /** `_get_condlist_by_doctype`: one statement for one tag, else one per tag, in tag order. */
    method GetCondlistByDoctype(docType: seq<string>, includeAnd: bool, additional: Option<seq<Cond>>) returns (r: Result<Composite, Error>)
      ensures r == CondlistByDoctype(docType, includeAnd, Extra(additional))
    {
      var assessment := DoctypeAssessment(docType);
      if assessment.Single? {
        var statement := GenerateDoctypeAndStatement(assessment.tag, includeAnd, additional);
        if statement.Err? {
          return Err(statement.error);
        }
        return Ok(One(statement.value));
      }
      var andStatements := AndStatements(assessment.tags, includeAnd, additional);
      if andStatements.Err? {
        return Err(andStatements.error);
      }
      r := Ok(PerTag(andStatements.value));
    }

    /** The loop of `_get_condlist_by_doctype` over several tags, appending one statement per tag. */
    method AndStatements(tags: seq<string>, includeAnd: bool, additional: Option<seq<Cond>>) returns (r: Result<seq<Statement>, Error>)
      ensures r == StatementsFor(tags, includeAnd, Extra(additional))
    {
      var andStatements: seq<Statement> := [];
      for i := 0 to |tags|
        invariant StatementsFor(tags[..i], includeAnd, Extra(additional)) == Ok(andStatements)
      {
        var statement := GenerateDoctypeAndStatement(tags[i], includeAnd, additional);
        assert tags[..i + 1][..i] == tags[..i] && tags[..i + 1][i] == tags[i];
        if statement.Err? {
          StatementsForPrefixErr(tags, i + 1, includeAnd, Extra(additional));
          return Err(statement.error);
        }
        andStatements := andStatements + [statement.value];
      }
      assert tags[..|tags|] == tags;
      r := Ok(andStatements);
    }

    // -------------------------------------------------------------------------
    // What a composed doctype predicate means

    /** The tags a doctype list resolves to. */
    function ResolvedTags(docType: seq<string>): seq<string> {
      match DoctypeAssessment(docType)
      case Single(t) => [t]
      case Several(ts) => ts
    }

    /** The record is a usable document of one of the requested types. */
    predicate MatchesDoctype(docType: seq<string>, x: Record) {
      var tags := ResolvedTags(docType);
      exists i :: 0 <= i < |tags| && KnownTag(tags[i]) && AllHold(BaseConditions(tags[i]), x)
    }

    /** One AND group per tag: some group holds exactly when one tag's list and the additional conditions hold. */
    lemma GroupsMeaning(tags: seq<string>, additional: seq<Cond>)
      requires Configured()
      ensures StatementsFor(tags, true, additional).Ok? ==>
        var cs := Unpack(PerTag(StatementsFor(tags, true, additional).value)).value;
        && |cs| == |tags| && AllExprs(cs)
        && forall x :: SomeHolds(Exprs(cs), x) <==>
             (exists i :: 0 <= i < |tags| && KnownTag(tags[i]) && AllHold(BaseConditions(tags[i]), x)) && AllHold(additional, x)
    {
      var ss := StatementsFor(tags, true, additional);
      if ss.Ok? {
        var cs := Unpack(PerTag(ss.value)).value;
        forall i | 0 <= i < |tags| ensures cs[i].Expr? && forall x :: Holds(Exprs(cs)[i], x) <==> AllHold(BaseConditions(tags[i]), x) && AllHold(additional, x) {
          assert ss.value[i] == DoctypeStatement(tags[i], true, additional).value;
        }
        forall x ensures SomeHolds(Exprs(cs), x) <==>
          (exists i :: 0 <= i < |tags| && KnownTag(tags[i]) && AllHold(BaseConditions(tags[i]), x)) && AllHold(additional, x)
        {
          if exists i :: 0 <= i < |tags| && KnownTag(tags[i]) && AllHold(BaseConditions(tags[i]), x) {
            var i :| 0 <= i < |tags| && KnownTag(tags[i]) && AllHold(BaseConditions(tags[i]), x);
            assert AllHold(additional, x) ==> Holds(Exprs(cs)[i], x);
          }
        }
      }
    }

    /** The clauses `get_folder_ids` hands to the executor, and how it combines them. */
    function FolderIdsClauses(docType: seq<string>, cond: seq<Cond>): Result<(Combinator, seq<Clause>), Error> {
      var a := DoctypeAssessment(docType);
      var composite :- if a.Single? then CondlistByDoctype(Chars(a.tag), false, cond) else CondlistByDoctype(a.tags, true, cond);
      var clauses :- Unpack(composite);
      Ok((if a.Single? then Conjunction else Disjunction, clauses))
    }

    /** The WHERE predicate of `get_folder_ids`. */
    function FolderIdsCondition(docType: seq<string>, cond: seq<Cond>): Result<Cond, Error> {
      var q :- FolderIdsClauses(docType, cond);
      Combine(q.0, q.1)
    }

    /**
     * `get_folder_ids` keeps exactly the usable documents of a requested type
     * that also meet the caller's conditions; with ["all"] that is a 510(k)
     * or a PMA document.
     */
    lemma FolderIdsConditionMeaning(docType: seq<string>, cond: seq<Cond>)
      requires Configured()
      ensures FolderIdsCondition(docType, cond).Ok? ==> CondlistByDoctype(docType, true, []).Ok?
      ensures FolderIdsCondition(docType, cond).Ok? ==>
        forall x :: Holds(FolderIdsCondition(docType, cond).value, x) <==> MatchesDoctype(docType, x) && AllHold(cond, x)
    {
      var a := DoctypeAssessment(docType);
      if a.Single? {
        var t := a.tag;
        if |t| == 1 {
          assert [t[0]] == t;
          assert Chars(t) == [t];
          if KnownTag(t) {
            var base := BaseConditions(t);
            UnpackRaw(base + cond);
            forall x ensures AllHold(base + cond, x) <==> AllHold(base, x) && AllHold(cond, x) {
              AllHoldAppend(base, cond, x);
            }
            assert ResolvedTags(docType) == [t];
          }
        } else {
          var ss := StatementsFor(Chars(t), false, cond);
          if ss.Ok? {
            var cs := Unpack(PerTag(ss.value)).value;
            assert |t| > 0 ==> cs[0] == PyList;
          }
        }
      } else {
        var tags := a.tags;
        assert DoctypeAssessment(tags) == Several(tags);
        GroupsMeaning(tags, cond);
        var ss := StatementsFor(tags, true, cond);
        if ss.Ok? {
          assert FolderIdsClauses(docType, cond) == Ok((Disjunction, Unpack(PerTag(ss.value)).value));
          assert ResolvedTags(docType) == tags;
          assert StatementsFor(tags, true, []).Ok?;
        }
      }
    }

    /**
     * When `get_folder_ids` builds its predicate for a single tag, which it
     * assesses a second time as the tag's characters. One known character
     * gives that tag's list, joined by "and". A longer tag of known
     * characters puts one list per character into `and_`, an ArgumentError,
     * and an unknown character is a KeyError. An empty tag spreads nothing
     * into an empty `and_()`.
     */
    lemma FolderIdsConditionSingle(docType: seq<string>, cond: seq<Cond>)
      requires Configured()
      requires DoctypeAssessment(docType).Single?
      ensures var t := DoctypeAssessment(docType).tag;
        && (|t| == 1 ==> (FolderIdsCondition(docType, cond).Ok? <==> KnownTag(t)))
        && (|t| == 1 && !KnownTag(t) ==> FolderIdsCondition(docType, cond) == Err(KeyError(t)))
        && (|t| > 1 && (forall i :: 0 <= i < |t| ==> KnownTag([t[i]])) ==> FolderIdsCondition(docType, cond) == Err(ArgumentError))
        && (|t| > 1 && (exists i :: 0 <= i < |t| && !KnownTag([t[i]])) ==>
              exists i :: FirstUnknown(Chars(t), i) && FolderIdsCondition(docType, cond) == Err(KeyError([t[i]])))
        && (t == "" ==> FolderIdsCondition(docType, cond) == Err(Undefined))
    {
      var t := DoctypeAssessment(docType).tag;
      var chars := Chars(t);
      if |t| == 1 {
        assert [t[0]] == t;
        assert chars == [t];
        assert DoctypeAssessment(chars) == Single(t);
        if KnownTag(t) {
          UnpackRaw(CondlistSwitch(t).value + cond);
        }
      } else {
        assert DoctypeAssessment(chars) == Several(chars);
        var ss := StatementsFor(chars, false, cond);
        assert ss.Ok? <==> forall i :: 0 <= i < |t| ==> KnownTag([t[i]]);
        if ss.Ok? {
          var cs := Unpack(PerTag(ss.value)).value;
          assert FolderIdsClauses(docType, cond) == Ok((Conjunction, cs));
          if |t| > 1 {
            assert ss.value[0] == DoctypeStatement(chars[0], false, cond).value;
            assert cs[0] == PyList;
            assert HasList(cs);
          } else {
            assert cs == [];
          }
        } else {
          var i :| FirstUnknown(chars, i) && ss.error == KeyError(chars[i]);
          assert FolderIdsCondition(docType, cond) == Err(KeyError([t[i]]));
        }
      }
    }

    /** With several tags, `get_folder_ids` builds its predicate when there is a tag and every tag is known. */
    lemma FolderIdsConditionSeveral(docType: seq<string>, cond: seq<Cond>)
      requires Configured()
      requires DoctypeAssessment(docType).Several?
      ensures var tags := DoctypeAssessment(docType).tags;
        FolderIdsCondition(docType, cond).Ok? <==> |tags| > 0 && forall i :: 0 <= i < |tags| ==> KnownTag(tags[i])
      ensures var tags := DoctypeAssessment(docType).tags;
        StatementsFor(tags, true, cond).Err? ==> FolderIdsCondition(docType, cond) == Err(StatementsFor(tags, true, cond).error)
    {
      var tags := DoctypeAssessment(docType).tags;
      assert DoctypeAssessment(tags) == Several(tags);
      GroupsMeaning(tags, cond);
      var ss := StatementsFor(tags, true, cond);
      if ss.Ok? {
        var cs := Unpack(PerTag(ss.value)).value;
        assert FolderIdsClauses(docType, cond) == Ok((Disjunction, cs));
      }
    }

    /**
     * With ["all"], `get_folder_ids` always builds its predicate, and a row
     * matches exactly when it passes the 510(k) list or the PMA list, and
     * the caller's conditions.
     */
    lemma AllDoctypesFolderIds(cond: seq<Cond>, x: Record)
      requires Configured()
      ensures FolderIdsCondition(["all"], cond).Ok?
      ensures Holds(FolderIdsCondition(["all"], cond).value, x) <==>
        (AllHold(KFileConditions, x) || AllHold(PDocConditions, x)) && AllHold(cond, x)
    {
      var tags := ["K", "P"];
      assert DoctypeAssessment(["all"]) == Several(tags);
      assert DoctypeAssessment(tags) == Several(tags);
      GroupsMeaning(tags, cond);
      var ss := StatementsFor(tags, true, cond);
      assert KnownTag(tags[0]) && KnownTag(tags[1]);
      assert ss.Ok?;
      var cs := Unpack(PerTag(ss.value)).value;
      assert FolderIdsClauses(["all"], cond) == Ok((Disjunction, cs));
      assert |cs| == 2 && AllExprs(cs);
      FolderIdsConditionMeaning(["all"], cond);
      assert ResolvedTags(["all"]) == tags;
      assert MatchesDoctype(["all"], x) <==> AllHold(KFileConditions, x) || AllHold(PDocConditions, x) by {
        if AllHold(KFileConditions, x) {
          assert KnownTag(tags[0]) && AllHold(BaseConditions(tags[0]), x);
        }
        if AllHold(PDocConditions, x) {
          assert KnownTag(tags[1]) && AllHold(BaseConditions(tags[1]), x);
        }
      }
    }

    /** The folder-id query keeps, as (date, folder) tuples, exactly the rows its predicate keeps. */
    lemma FolderQueryFacts(docType: seq<string>, cond: seq<Cond>, clauses: seq<Clause>, filterType: string)
      requires FilterTypeSwitch(filterType).Ok?
      requires FolderIdsClauses(docType, cond) == Ok((FilterTypeSwitch(filterType).value, clauses))
      requires db.Fetch(clauses, filterType, None, None).Ok?
      ensures var matched := db.Fetch(clauses, filterType, None, None).value;
        && FolderIdsCondition(docType, cond).Ok?
        && (forall x :: x in matched <==> x in db.rows && Holds(FolderIdsCondition(docType, cond).value, x))
        && db.FilterByColumn(FolderIdsTarget, clauses, filterType, None, None) == Ok(ProjectAll(FolderIdsTarget, matched))
        && (forall row :: row in ProjectAll(FolderIdsTarget, matched) <==> exists x :: x in matched && row == Project(FolderIdsTarget, x))
        && (|matched| == 0 <==> forall x :: x in db.rows ==> !Holds(FolderIdsCondition(docType, cond).value, x))
    {
      var matched := db.Fetch(clauses, filterType, None, None).value;
      ProjectMembers(FolderIdsTarget, matched);
      if |matched| > 0 {
        assert matched[0] in matched;
      }
    }

    /** The distinct folder ids, and the tuples, of the rows the predicate keeps. */
    lemma DistinctFolders(docType: seq<string>, cond: seq<Cond>, matched: seq<Record>)
      requires FolderIdsCondition(docType, cond).Ok?
      requires forall x :: x in matched <==> x in db.rows && Holds(FolderIdsCondition(docType, cond).value, x)
      ensures var ids := Dedupe(SecondColumn(ProjectAll(FolderIdsTarget, matched)));
        && NoDup(ids)
        && forall v :: v in ids <==>
             exists x :: x in db.rows && Holds(FolderIdsCondition(docType, cond).value, x) && v == Get(x, Text(FolderId))
      ensures forall row :: row in ProjectAll(FolderIdsTarget, matched) <==>
        exists x :: x in db.rows && Holds(FolderIdsCondition(docType, cond).value, x) && row == Project(FolderIdsTarget, x)
    {
      FolderColumnMembers(matched);
      ProjectMembers(FolderIdsTarget, matched);
    }

    /**
     * `get_folder_ids`: the distinct folder ids of the matching rows (and the
     * rows themselves when asked), or no value when no row matches.
     */
    method GetFolderIds(cond: seq<Cond>, docType: seq<string>, returnQuery: bool) returns (r: Result<Option<FolderIds>, Error>)
      requires Configured()
      ensures r.Ok? <==> FolderIdsCondition(docType, cond).Ok?
      ensures r.Err? ==> r.error == FolderIdsCondition(docType, cond).error
      ensures r.Ok? ==> (r.value.None? <==> forall x :: x in db.rows ==> !Holds(FolderIdsCondition(docType, cond).value, x))
      ensures r.Ok? && r.value.Some? ==> NoDup(r.value.value.ids)
      ensures r.Ok? && r.value.Some? ==> forall v :: v in r.value.value.ids <==>
        exists x :: x in db.rows && Holds(FolderIdsCondition(docType, cond).value, x) && v == Get(x, Text(FolderId))
      ensures r.Ok? && r.value.Some? ==> (r.value.value.query.Some? <==> returnQuery)
      ensures r.Ok? && r.value.Some? && returnQuery ==> forall row :: row in r.value.value.query.value <==>
        exists x :: x in db.rows && Holds(FolderIdsCondition(docType, cond).value, x) && row == Project(FolderIdsTarget, x)
    {
      var assessment := DoctypeAssessment(docType);
      var tmpCondList: Result<Composite, Error>;
      var filterType: string;
      if assessment.Single? {
        tmpCondList := GetCondlistByDoctype(Chars(assessment.tag), false, Some(cond));
        filterType := "and";
        assert FilterTypeSwitch(filterType) == Ok(Conjunction);
      } else {
        tmpCondList := GetCondlistByDoctype(assessment.tags, true, Some(cond));
        filterType := "or";
        assert FilterTypeSwitch(filterType) == Ok(Disjunction);
      }
      if tmpCondList.Err? {
        assert FolderIdsClauses(docType, cond) == Err(tmpCondList.error);
        return Err(tmpCondList.error);
      }
      var clauses := Unpack(tmpCondList.value);
      if clauses.Err? {
        assert FolderIdsClauses(docType, cond) == Err(clauses.error);
        return Err(clauses.error);
      }
      var op := FilterTypeSwitch(filterType).value;
      assert FolderIdsClauses(docType, cond) == Ok((op, clauses.value));
      assert FolderIdsCondition(docType, cond) == Combine(op, clauses.value);
      var query := db.FilterByColumn(FolderIdsTarget, clauses.value, filterType, None, None);
      if query.Err? {
        assert query.error == Combine(op, clauses.value).error;
        return Err(query.error);
      }
      var matched := db.Fetch(clauses.value, filterType, None, None).value;
      FolderQueryFacts(docType, cond, clauses.value, filterType);
      if |query.value| == 0 {
        return Ok(None);
      }
      DistinctFolders(docType, cond, matched);
      var folderIds := Dedupe(SecondColumn(query.value));
      if returnQuery {
        r := Ok(Some(FolderIds(folderIds, Some(query.value))));
      } else {
        r := Ok(Some(FolderIds(folderIds, None)));
      }
    }

    // -------------------------------------------------------------------------
    // query_submission_id

    /** The doctype element means "a usable document of a requested type". */
    lemma DoctypeClauseMeaning(docType: seq<string>, typeCount: nat)
      requires Configured()
      ensures var composite := CondlistByDoctype(docType, true, []);
        composite.Ok? && DoctypeClause(composite.value, typeCount).Ok? && DoctypeClause(composite.value, typeCount).value.Expr? ==>
        forall x :: Holds(DoctypeClause(composite.value, typeCount).value.cond, x) <==> MatchesDoctype(docType, x)
    {
      var a := DoctypeAssessment(docType);
      var composite := CondlistByDoctype(docType, true, []);
      if a.Single? && KnownTag(a.tag) {
        SingleClauseMeaning(docType, typeCount);
      } else if a.Several? && composite.Ok? && typeCount > 1 {
        var ss := StatementsFor(a.tags, true, []);
        assert composite.value == PerTag(ss.value);
        GroupsMeaning(a.tags, []);
        var cs := Unpack(PerTag(ss.value)).value;
        assert DoctypeClause(composite.value, typeCount) == Group(Disjunction, cs);
        forall x ensures (exists i :: 0 <= i < |a.tags| && KnownTag(a.tags[i]) && AllHold(BaseConditions(a.tags[i]), x)) <==> MatchesDoctype(docType, x) {
          assert ResolvedTags(docType) == a.tags;
        }
      }
    }

    lemma SingleClauseMeaning(docType: seq<string>, typeCount: nat)
      requires Configured()
      requires DoctypeAssessment(docType).Single? && KnownTag(DoctypeAssessment(docType).tag)
      ensures var composite := CondlistByDoctype(docType, true, []);
        composite.Ok? && DoctypeClause(composite.value, typeCount).Ok? && DoctypeClause(composite.value, typeCount).value.Expr? ==>
        forall x :: Holds(DoctypeClause(composite.value, typeCount).value.cond, x) <==> MatchesDoctype(docType, x)
    {
      var t := DoctypeAssessment(docType).tag;
      var statement := DoctypeStatement(t, true, []).value;
      assert CondlistByDoctype(docType, true, []) == Ok(One(statement));
      if typeCount <= 1 {
        assert DoctypeClause(One(statement), typeCount) == Ok(Expr(statement.group));
        assert ResolvedTags(docType) == [t];
        forall x ensures Holds(statement.group, x) <==> MatchesDoctype(docType, x) {
          assert AllHold([], x);
          assert ResolvedTags(docType)[0] == t;
        }
      }
    }

    /** The WHERE predicate of the plain-id query of `query_submission_id`. */
    function PlainCondition(ids: seq<string>, docType: seq<string>): Result<Cond, Error> {
      var element :- DoctypeElement(ids, docType);
      Combine(Conjunction, [element, FolderIdClause(ids)])
    }

    /**
     * The doctype element of `query_submission_id`'s condition list, which
     * is built before the branch on "/" ids, so its failures come first.
     */
    function DoctypeElement(ids: seq<string>, docType: seq<string>): Result<Clause, Error> {
      var composite :- CondlistByDoctype(docType, true, []);
      var types :- IdentifySubmissionTypes(ids);
      DoctypeClause(composite, |types|)
    }

    /**
     * When the plain-id predicate of `query_submission_id` is built. With a
     * single tag and ids of several first characters, the AND group is
     * spread into `or_`, which is left open; with several tags and ids of
     * one first character, the list of groups goes to `and_` whole, an
     * ArgumentError; and no plain ids, or no tags, give an empty `or_()`.
     */
    lemma PlainConditionCases(ids: seq<string>, docType: seq<string>)
      requires Configured()
      ensures CondlistByDoctype(docType, true, []).Err? ==>
        DoctypeElement(ids, docType) == Err(CondlistByDoctype(docType, true, []).error)
      ensures CondlistByDoctype(docType, true, []).Ok? && IdentifySubmissionTypes(ids).Err? ==>
        DoctypeElement(ids, docType) == Err(IndexError)
      ensures DoctypeElement(ids, docType).Err? ==> PlainCondition(ids, docType) == Err(DoctypeElement(ids, docType).error)
      ensures CondlistByDoctype(docType, true, []).Ok? && IdentifySubmissionTypes(ids).Ok? ==>
        var a := DoctypeAssessment(docType);
        var n := |IdentifySubmissionTypes(ids).value|;
        && (a.Single? && n > 1 ==> DoctypeElement(ids, docType) == Err(Undefined))
        && (a.Single? && n <= 1 ==> DoctypeElement(ids, docType).Ok? && (PlainCondition(ids, docType).Ok? <==> |PlainIds(ids)| > 0))
        && (a.Single? && n <= 1 && |PlainIds(ids)| == 0 ==> PlainCondition(ids, docType) == Err(Undefined))
        && (a.Several? && n > 1 ==> DoctypeElement(ids, docType).Ok? && (PlainCondition(ids, docType).Ok? <==> |a.tags| > 0 && |PlainIds(ids)| > 0))
        && (a.Several? && n > 1 && (|a.tags| == 0 || |PlainIds(ids)| == 0) ==> PlainCondition(ids, docType) == Err(Undefined))
        && (a.Several? && n <= 1 ==> DoctypeElement(ids, docType).Ok? && PlainCondition(ids, docType) == Err(ArgumentError))
    {
      var composite := CondlistByDoctype(docType, true, []);
      var types := IdentifySubmissionTypes(ids);
      if composite.Ok? && types.Ok? {
        if DoctypeAssessment(docType).Single? {
          PlainConditionSingle(ids, docType);
        } else {
          PlainConditionSeveral(ids, docType);
        }
      }
    }

    /** `PlainConditionCases` for a single tag: its AND group is one clause. */
    lemma PlainConditionSingle(ids: seq<string>, docType: seq<string>)
      requires DoctypeAssessment(docType).Single?
      requires CondlistByDoctype(docType, true, []).Ok? && IdentifySubmissionTypes(ids).Ok?
      ensures |IdentifySubmissionTypes(ids).value| > 1 ==> DoctypeElement(ids, docType) == Err(Undefined)
      ensures |IdentifySubmissionTypes(ids).value| <= 1 ==>
        DoctypeElement(ids, docType).Ok? && (PlainCondition(ids, docType).Ok? <==> |PlainIds(ids)| > 0)
      ensures |IdentifySubmissionTypes(ids).value| <= 1 && |PlainIds(ids)| == 0 ==> PlainCondition(ids, docType) == Err(Undefined)
    {
      var composite := CondlistByDoctype(docType, true, []).value;
      var element := DoctypeClause(composite, |IdentifySubmissionTypes(ids).value|);
      assert DoctypeElement(ids, docType) == element;
      if element.Ok? {
        assert PlainCondition(ids, docType) == Combine(Conjunction, [element.value, FolderIdClause(ids)]);
        ElementAndFolder(element.value, FolderIdClause(ids));
      }
    }

    /** `PlainConditionCases` for several tags: a list of AND groups, one per tag. */
    lemma PlainConditionSeveral(ids: seq<string>, docType: seq<string>)
      requires DoctypeAssessment(docType).Several?
      requires CondlistByDoctype(docType, true, []).Ok? && IdentifySubmissionTypes(ids).Ok?
      ensures var tags := DoctypeAssessment(docType).tags;
        && (|IdentifySubmissionTypes(ids).value| > 1 ==>
              DoctypeElement(ids, docType).Ok? && (PlainCondition(ids, docType).Ok? <==> |tags| > 0 && |PlainIds(ids)| > 0))
        && (|IdentifySubmissionTypes(ids).value| > 1 && (|tags| == 0 || |PlainIds(ids)| == 0) ==>
              PlainCondition(ids, docType) == Err(Undefined))
        && (|IdentifySubmissionTypes(ids).value| <= 1 ==>
              DoctypeElement(ids, docType).Ok? && PlainCondition(ids, docType) == Err(ArgumentError))
    {
      var composite := CondlistByDoctype(docType, true, []).value;
      assert |composite.statements| == |DoctypeAssessment(docType).tags|;
      var element := DoctypeClause(composite, |IdentifySubmissionTypes(ids).value|);
      assert DoctypeElement(ids, docType) == element;
      assert element.Ok?;
      assert PlainCondition(ids, docType) == Combine(Conjunction, [element.value, FolderIdClause(ids)]);
      ElementAndFolder(element.value, FolderIdClause(ids));
    }

    /**
     * `query_submission_id(ids, ["all"])` with one-letter ids, none of them
     * containing "/": both doctype groups go to `and_` as a list.
     */
    lemma AllDoctypesOneLetter(ids: seq<string>)
      requires Configured()
      requires ids != [] && ids[0] != ""
      requires forall i :: 0 <= i < |ids| ==> ids[i] != "" && ids[i][0] == ids[0][0] && '/' !in ids[i]
      ensures PlainCondition(ids, ["all"]) == Err(ArgumentError)
    {
      var types := IdentifySubmissionTypes(ids);
      assert types.Ok?;
      assert forall t :: t in types.value ==> t == [ids[0][0]];
      AllEqualRepeats(types.value, [ids[0][0]]);
      assert StatementsFor(["K", "P"], true, []).Ok? by {
        assert KnownTag(["K", "P"][0]) && KnownTag(["K", "P"][1]);
      }
      PlainConditionCases(ids, ["all"]);
    }

    /** A one-character folder query on the 510(k) documents is always built. */
    lemma KFolderQueryBuilt(id: string)
      requires Configured()
      requires id != [] && '/' !in id
      ensures DoctypeElement([id], ["K"]).Ok? && PlainCondition([id], ["K"]).Ok?
    {
      var types := IdentifySubmissionTypes([id]);
      assert types.Ok?;
      assert forall t :: t in types.value ==> t == [id[0]];
      AllEqualRepeats(types.value, [id[0]]);
      assert PlainIds([id]) == [id];
      PlainConditionCases([id], ["K"]);
    }

    /** The plain-id query keeps the usable documents of a requested type in one of the plain folders. */
    lemma PlainConditionMeaning(ids: seq<string>, docType: seq<string>)
      requires Configured()
      ensures PlainCondition(ids, docType).Ok? ==> forall x :: Holds(PlainCondition(ids, docType).value, x) <==>
        MatchesDoctype(docType, x) && x.folderId.Some? && x.folderId.value in PlainIds(ids)
    {
      var element := DoctypeElement(ids, docType);
      if element.Ok? {
        var clauses := [element.value, FolderIdClause(ids)];
        var c := Combine(Conjunction, clauses);
        assert PlainCondition(ids, docType) == c;
        if c.Ok? {
          assert clauses[0].Expr? && clauses[1].Expr?;
          var typeClause, folderClause := clauses[0].cond, clauses[1].cond;
          DoctypeElementMeaning(ids, docType);
          assert forall x :: Holds(folderClause, x) <==> x.folderId.Some? && x.folderId.value in PlainIds(ids);
          assert Exprs(clauses) == [typeClause, folderClause];
          forall x ensures Holds(c.value, x) <==> Holds(typeClause, x) && Holds(folderClause, x) {
            AllHoldPair(typeClause, folderClause, x);
          }
        }
      }
    }

    /** The doctype element, when a clause, means "a usable document of a requested type". */
    lemma DoctypeElementMeaning(ids: seq<string>, docType: seq<string>)
      requires Configured()
      ensures DoctypeElement(ids, docType).Ok? && DoctypeElement(ids, docType).value.Expr? ==>
        forall x :: Holds(DoctypeElement(ids, docType).value.cond, x) <==> MatchesDoctype(docType, x)
    {
      var composite := CondlistByDoctype(docType, true, []);
      var types := IdentifySubmissionTypes(ids);
      if composite.Ok? && types.Ok? {
        DoctypeClauseMeaning(docType, |types.value|);
      }
    }

    /** The plain-id query returns, as whole rows, exactly the table rows its predicate keeps. */
    lemma PlainQueryFacts(conditionList: seq<Clause>, order: Option<string>, orderAttr: Option<Column>)
      ensures var q := db.FilterByColumn(Entity, conditionList, "and", order, orderAttr);
        q.Ok? ==>
          AllWhole(q.value) && Combine(Conjunction, conditionList).Ok? &&
          forall x :: Whole(x) in q.value <==> x in db.rows && Holds(Combine(Conjunction, conditionList).value, x)
    {
      var f := db.Fetch(conditionList, "and", order, orderAttr);
      if f.Ok? {
        EntityRows(f.value);
      }
    }

    /**
     * The doctype statement and one more clause, joined by "and": several
     * tags put a list in the condition list, an empty group is undefined,
     * and otherwise a row is returned when it has the type and meets the clause.
     */
    lemma DoctypeAndQuery(docType: seq<string>, second: Clause)
      requires Configured()
      requires CondlistByDoctype(docType, true, []).Ok?
      requires second.Expr? || second == EmptyGroup
      ensures var l := [AsElement(CondlistByDoctype(docType, true, []).value), second];
        var q := db.FilterByColumn(Entity, l, "and", None, None);
        (DoctypeAssessment(docType).Several? ==> q == Err(ArgumentError)) &&
        (DoctypeAssessment(docType).Single? ==> (q.Ok? <==> second.Expr?)) &&
        (q.Ok? ==> second.Expr? && AllWhole(q.value)) &&
        (q.Ok? ==> forall x :: Whole(x) in q.value <==> x in db.rows && MatchesDoctype(docType, x) && Holds(second.cond, x))
    {
      var composite := CondlistByDoctype(docType, true, []).value;
      var l := [AsElement(composite), second];
      PlainQueryFacts(l, None, None);
      if DoctypeAssessment(docType).Several? {
        assert l[0] == PyList;
        assert HasList(l);
      } else {
        DoctypeClauseMeaning(docType, 0);
        assert DoctypeClause(composite, 0) == Ok(l[0]);
        assert l[0].Expr?;
        if second.Expr? {
          assert AllExprs(l);
          assert Exprs(l) == [l[0].cond, second.cond];
          forall x ensures AllHold(Exprs(l), x) <==> Holds(l[0].cond, x) && Holds(second.cond, x) {
            var es := Exprs(l);
            assert es[0] == l[0].cond && es[1] == second.cond && |es| == 2;
            if Holds(l[0].cond, x) && Holds(second.cond, x) {
              forall i | 0 <= i < |es| ensures Holds(es[i], x) {
              }
            }
          }
        } else {
          assert !l[1].Expr?;
        }
      }
    }

    /** The supplement query, after the ".pdf" filter, returns exactly the supplement documents the ids name. */
    lemma SupplementQueryFacts(ids: seq<string>, order: Option<string>, orderAttr: Option<Column>)
      requires forall i :: 0 <= i < |ids| ==> '/' in ids[i]
      ensures var q := db.FilterByColumn(Entity, SupplementClauses(ids), "or", order, orderAttr);
        q.Ok? ==>
          AllWhole(q.value) && AllWhole(PdfOnly(q.value)) &&
          forall x :: Whole(x) in PdfOnly(q.value) <==> x in db.rows && IsSupplementRow(ids, x)
    {
      var f := db.Fetch(SupplementClauses(ids), "or", order, orderAttr);
      if f.Ok? {
        EntityRows(f.value);
      }
    }

    /**
     * `query_submission_id`: the documents of the plain folder ids, followed
     * (when some id has the form "X/Y") by the ".pdf" supplement documents
     * those ids name. `split` marks where the second part starts.
     */
    method QuerySubmissionId(submissionIds: seq<string>, docType: seq<string>, order: Option<string>, orderAttr: Option<Column>)
      returns (r: Result<seq<Row>, Error>, ghost split: nat)
      requires Configured()
      ensures CondlistByDoctype(docType, true, []).Err? ==> r == Err(CondlistByDoctype(docType, true, []).error)
      ensures CondlistByDoctype(docType, true, []).Ok? && IdentifySubmissionTypes(submissionIds).Err? ==> r == Err(IndexError)
      ensures DoctypeElement(submissionIds, docType).Err? ==> r == Err(DoctypeElement(submissionIds, docType).error)
      ensures DoctypeElement(submissionIds, docType).Ok? && OrderFor(order, orderAttr).Err? ==> r == Err(OrderFor(order, orderAttr).error)
      ensures DoctypeElement(submissionIds, docType).Ok? && OrderFor(order, orderAttr).Ok? ==>
        (r.Ok? <==> |submissionIds| > 0 && (|PlainIds(submissionIds)| > 0 ==> PlainCondition(submissionIds, docType).Ok?))
      ensures DoctypeElement(submissionIds, docType).Ok? && OrderFor(order, orderAttr).Ok? && r.Err? ==>
        PlainCondition(submissionIds, docType).Err? && r.error == PlainCondition(submissionIds, docType).error
      ensures r.Ok? ==> split <= |r.value| && AllWhole(r.value)
      ensures r.Ok? && |PlainIds(submissionIds)| > 0 ==> PlainCondition(submissionIds, docType).Ok?
      ensures r.Ok? && |PlainIds(submissionIds)| > 0 ==> forall x :: Whole(x) in r.value[..split] <==>
        x in db.rows && Holds(PlainCondition(submissionIds, docType).value, x)
      ensures r.Ok? && |PlainIds(submissionIds)| == 0 ==> split == 0
      ensures r.Ok? ==> forall x :: Whole(x) in r.value[split..] <==> x in db.rows && IsSupplementRow(SupplementIds(submissionIds), x)
      ensures r.Ok? && |SupplementIds(submissionIds)| == 0 ==> split == |r.value|
    {
      var docTypeStatement := GetCondlistByDoctype(docType, true, None);
      if docTypeStatement.Err? {
        return Err(docTypeStatement.error), 0;
      }
      var submissionTypes := IdentifySubmissionTypes(submissionIds);
      if submissionTypes.Err? {
        return Err(submissionTypes.error), 0;
      }
      var folderidStatement := FolderIdClause(submissionIds);
      var doctypeElement := DoctypeClause(docTypeStatement.value, |submissionTypes.value|);
      if doctypeElement.Err? {
        return Err(doctypeElement.error), 0;
      }
      var conditionList := [doctypeElement.value, folderidStatement];
      assert DoctypeElement(submissionIds, docType) == doctypeElement;
      assert PlainCondition(submissionIds, docType) == Combine(Conjunction, conditionList);
      r, split := RunSubmissionQueries(submissionIds, conditionList, order, orderAttr);
    }

    /**
     * The second half of `query_submission_id`: with some "X/Y" id, the plain
     * query (skipped when no plain id remains), then the supplement query
     * filtered to ".pdf" documents; otherwise the plain query alone.
     */
    method RunSubmissionQueries(submissionIds: seq<string>, conditionList: seq<Clause>, order: Option<string>, orderAttr: Option<Column>)
      returns (r: Result<seq<Row>, Error>, ghost split: nat)
      requires |conditionList| == 2 && conditionList[1] == FolderIdClause(submissionIds)
      ensures OrderFor(order, orderAttr).Err? ==> r == Err(OrderFor(order, orderAttr).error)
      ensures OrderFor(order, orderAttr).Ok? ==>
        (r.Ok? <==> |submissionIds| > 0 && (|PlainIds(submissionIds)| > 0 ==> Combine(Conjunction, conditionList).Ok?))
      ensures OrderFor(order, orderAttr).Ok? && r.Err? ==>
        Combine(Conjunction, conditionList).Err? && r.error == Combine(Conjunction, conditionList).error
      ensures r.Ok? ==> split <= |r.value| && AllWhole(r.value)
      ensures r.Ok? && |PlainIds(submissionIds)| > 0 ==> Combine(Conjunction, conditionList).Ok?
      ensures r.Ok? && |PlainIds(submissionIds)| > 0 ==> forall x :: Whole(x) in r.value[..split] <==>
        x in db.rows && Holds(Combine(Conjunction, conditionList).value, x)
      ensures r.Ok? && |PlainIds(submissionIds)| == 0 ==> split == 0
      ensures r.Ok? ==> forall x :: Whole(x) in r.value[split..] <==> x in db.rows && IsSupplementRow(SupplementIds(submissionIds), x)
      ensures r.Ok? && |SupplementIds(submissionIds)| == 0 ==> split == |r.value|
    {
      if exists i :: 0 <= i < |submissionIds| && '/' in submissionIds[i] {
        r, split := QueryWithSupplements(submissionIds, conditionList, order, orderAttr);
      } else {
        r := db.FilterByColumn(Entity, conditionList, "and", order, orderAttr);
        PlainQueryFacts(conditionList, order, orderAttr);
        if r.Ok? {
          split := |r.value|;
          assert r.value[..split] == r.value;
        } else {
          split := 0;
        }
      }
    }

    /**
     * The branch of `query_submission_id` where some id names a supplement:
     * the plain query (skipped when no plain id remains), then the supplement
     * query filtered to ".pdf" documents, concatenated.
     */
    method QueryWithSupplements(submissionIds: seq<string>, conditionList: seq<Clause>, order: Option<string>, orderAttr: Option<Column>)
      returns (r: Result<seq<Row>, Error>, ghost split: nat)
      requires |conditionList| == 2 && conditionList[1] == FolderIdClause(submissionIds)
      requires |SupplementIds(submissionIds)| > 0
      ensures OrderFor(order, orderAttr).Err? ==> r == Err(OrderFor(order, orderAttr).error)
      ensures OrderFor(order, orderAttr).Ok? ==>
        (r.Ok? <==> (|PlainIds(submissionIds)| > 0 ==> Combine(Conjunction, conditionList).Ok?))
      ensures OrderFor(order, orderAttr).Ok? && r.Err? ==>
        Combine(Conjunction, conditionList).Err? && r.error == Combine(Conjunction, conditionList).error
      ensures r.Ok? ==> split <= |r.value| && AllWhole(r.value)
      ensures r.Ok? && |PlainIds(submissionIds)| > 0 ==> Combine(Conjunction, conditionList).Ok?
      ensures r.Ok? && |PlainIds(submissionIds)| > 0 ==> forall x :: Whole(x) in r.value[..split] <==>
        x in db.rows && Holds(Combine(Conjunction, conditionList).value, x)
      ensures r.Ok? && |PlainIds(submissionIds)| == 0 ==> split == 0
      ensures r.Ok? ==> forall x :: Whole(x) in r.value[split..] <==> x in db.rows && IsSupplementRow(SupplementIds(submissionIds), x)
    {
      var supplementIds := SupplementIds(submissionIds);
      var otherIds := PlainIds(submissionIds);
      var supplementConditions := SupplementClauses(supplementIds);
      var submissionQuery: seq<Row> := [];
      if |otherIds| > 0 {
        var q := db.FilterByColumn(Entity, conditionList, "and", order, orderAttr);
        if q.Err? {
          return Err(q.error), 0;
        }
        PlainQueryFacts(conditionList, order, orderAttr);
        submissionQuery := q.value;
      }
      var supplementQuery := db.FilterByColumn(Entity, supplementConditions, "or", order, orderAttr);
      if supplementQuery.Err? {
        return Err(supplementQuery.error), 0;
      }
      SupplementQueryFacts(supplementIds, order, orderAttr);
      var supplementQueryFinal := PdfOnly(supplementQuery.value);
      ConcatParts(submissionQuery, supplementQueryFinal);
      r := Ok(submissionQuery + supplementQueryFinal);
      split := |submissionQuery|;
    }
    // -------------------------------------------------------------------------
    // The date, object-id and sample queries

    /** A matched document's folder id is present. */
    lemma MatchesDoctypeHasFolder(docType: seq<string>, x: Record)
      requires MatchesDoctype(docType, x)
      ensures x.folderId.Some?
    {
      var tags := ResolvedTags(docType);
      var i :| 0 <= i < |tags| && KnownTag(tags[i]) && AllHold(BaseConditions(tags[i]), x);
      KnownTagHasFolder(tags[i], x);
    }

    /**
     * `query_creationdate_range`: the folder ids with a document of a
     * requested type created in the range, then every document
     * `query_submission_id` returns for those ids: each usable document of a
     * requested type in one of those folders, not only the ones in the range.
     */
    method QueryCreationdateRange(dateRange: seq<int>, docType: seq<string>) returns (r: Result<seq<Row>, Error>, ghost folderIds: seq<string>)
      requires Configured()
      ensures |dateRange| != 2 ==> r == Err(ValueError)
      ensures |dateRange| == 2 && FolderIdsCondition(docType, DateRangeConditions(dateRange[0], dateRange[1])).Err? ==>
        r == Err(FolderIdsCondition(docType, DateRangeConditions(dateRange[0], dateRange[1])).error)
      ensures r.Ok? ==> |dateRange| == 2
      ensures (|dateRange| == 2 && FolderIdsCondition(docType, DateRangeConditions(dateRange[0], dateRange[1])).Ok? &&
               !AnyInRange(docType, dateRange[0], dateRange[1])) ==>
        r == Err(TypeError)
      ensures (|dateRange| == 2 && FolderIdsCondition(docType, DateRangeConditions(dateRange[0], dateRange[1])).Ok? &&
               AnyInRange(docType, dateRange[0], dateRange[1])) ==>
        && folderIds != []
        && (forall id :: id in folderIds <==>
              exists y :: y in db.rows && MatchesDoctype(docType, y) && InDateRange(y, dateRange[0], dateRange[1]) && y.folderId == Some(id))
        && (DoctypeElement(folderIds, docType).Err? ==> r == Err(DoctypeElement(folderIds, docType).error))
        && (DoctypeElement(folderIds, docType).Ok? ==>
              (r.Ok? <==> (|PlainIds(folderIds)| > 0 ==> PlainCondition(folderIds, docType).Ok?)))
        && (DoctypeElement(folderIds, docType).Ok? && r.Err? ==>
              PlainCondition(folderIds, docType).Err? && r.error == PlainCondition(folderIds, docType).error)
      ensures r.Ok? ==> AllWhole(r.value)
      ensures r.Ok? ==> forall x :: x in db.rows && MatchesDoctype(docType, x) && x.folderId.Some? && x.folderId.value in PlainIds(folderIds) ==>
        Whole(x) in r.value
      ensures r.Ok? ==> forall x :: Whole(x) in r.value ==>
        x in db.rows && ((MatchesDoctype(docType, x) && x.folderId.Some? && x.folderId.value in PlainIds(folderIds)) || IsSupplementRow(SupplementIds(folderIds), x))
    {
      folderIds := [];
      if |dateRange| != 2 {
        return Err(ValueError), folderIds;
      }
      var startDate, endDate := dateRange[0], dateRange[1];
      var daterangeConditions := DateRangeConditions(startDate, endDate);
      var found := GetFolderIds(daterangeConditions, docType, false);
      if found.Err? {
        return Err(found.error), folderIds;
      }
      RangeCondition(docType, startDate, endDate);
      assert found.value.None? <==> !AnyInRange(docType, startDate, endDate);
      if found.value.None? {
        // `query_submission_id` resolves the doctype (which `get_folder_ids`
        // has already resolved), then fails iterating the missing list
        return Err(TypeError), folderIds;
      }
      var ids := found.value.value.ids;
      RangeFolderIds(docType, startDate, endDate, ids);
      var submissionIds := Strings(ids);
      folderIds := submissionIds;
      ghost var y :| y in db.rows && MatchesDoctype(docType, y) && InDateRange(y, startDate, endDate);
      MatchesDoctypeHasFolder(docType, y);
      assert y.folderId.value in folderIds;
      r := QueryFolderIds(submissionIds, docType);
    }

    /**
     * `query_submission_id(folder_ids, docType)` as `query_creationdate_range`
     * calls it, with no ordering: the usable documents of the type in the
     * plain folders, and the supplement rows the "/" ids name.
     */
    method QueryFolderIds(ids: seq<string>, docType: seq<string>) returns (r: Result<seq<Row>, Error>)
      requires Configured()
      ensures DoctypeElement(ids, docType).Err? ==> r == Err(DoctypeElement(ids, docType).error)
      ensures DoctypeElement(ids, docType).Ok? ==>
        (r.Ok? <==> |ids| > 0 && (|PlainIds(ids)| > 0 ==> PlainCondition(ids, docType).Ok?))
      ensures DoctypeElement(ids, docType).Ok? && r.Err? ==>
        PlainCondition(ids, docType).Err? && r.error == PlainCondition(ids, docType).error
      ensures r.Ok? ==> AllWhole(r.value)
      ensures r.Ok? ==> forall x :: x in db.rows && MatchesDoctype(docType, x) && x.folderId.Some? && x.folderId.value in PlainIds(ids) ==>
        Whole(x) in r.value
      ensures r.Ok? ==> forall x :: Whole(x) in r.value ==>
        x in db.rows && ((MatchesDoctype(docType, x) && x.folderId.Some? && x.folderId.value in PlainIds(ids)) || IsSupplementRow(SupplementIds(ids), x))
    {
      ghost var split;
      r, split := QuerySubmissionId(ids, docType, None, None);
      if r.Ok? {
        PlainConditionMeaning(ids, docType);
        SubmissionResult(ids, docType, r.value, split);
      }
    }

    /** Some usable document of a requested type was created in the range. */
    predicate AnyInRange(docType: seq<string>, startDate: int, endDate: int)
      reads db
    {
      exists y :: y in db.rows && MatchesDoctype(docType, y) && InDateRange(y, startDate, endDate)
    }

    /** `get_folder_ids`' predicate for a date range keeps the usable documents of the type created in range. */
    lemma RangeCondition(docType: seq<string>, startDate: int, endDate: int)
      requires Configured()
      ensures FolderIdsCondition(docType, DateRangeConditions(startDate, endDate)).Ok? ==>
        forall y :: Holds(FolderIdsCondition(docType, DateRangeConditions(startDate, endDate)).value, y) <==>
          MatchesDoctype(docType, y) && InDateRange(y, startDate, endDate)
    {
      FolderIdsConditionMeaning(docType, DateRangeConditions(startDate, endDate));
      forall y ensures AllHold(DateRangeConditions(startDate, endDate), y) <==> InDateRange(y, startDate, endDate) {
        DateRangeMeaning(startDate, endDate, y);
      }
    }

    /** The folder ids `get_folder_ids` finds for a date range are strings, one per matching folder. */
    lemma RangeFolderIds(docType: seq<string>, startDate: int, endDate: int, ids: seq<Value>)
      requires Configured()
      requires FolderIdsCondition(docType, DateRangeConditions(startDate, endDate)).Ok?
      requires forall v :: v in ids <==>
        exists x :: x in db.rows && Holds(FolderIdsCondition(docType, DateRangeConditions(startDate, endDate)).value, x) && v == Get(x, Text(FolderId))
      ensures AllStr(ids)
      ensures forall id :: id in Strings(ids) <==>
        exists y :: y in db.rows && MatchesDoctype(docType, y) && InDateRange(y, startDate, endDate) && y.folderId == Some(id)
    {
      var c := FolderIdsCondition(docType, DateRangeConditions(startDate, endDate)).value;
      RangeCondition(docType, startDate, endDate);
      forall k | 0 <= k < |ids| ensures ids[k].Str? {
        assert ids[k] in ids;
        var y :| y in db.rows && Holds(c, y) && ids[k] == Get(y, Text(FolderId));
        MatchesDoctypeHasFolder(docType, y);
      }
      forall id ensures Str(id) in ids <==>
        exists y :: y in db.rows && MatchesDoctype(docType, y) && InDateRange(y, startDate, endDate) && y.folderId == Some(id)
      {
        assert forall y :: Get(y, Text(FolderId)) == Str(id) <==> y.folderId == Some(id);
      }
    }

    /** The two parts of the submission query's result, taken together. */
    lemma SubmissionResult(ids: seq<string>, docType: seq<string>, rows: seq<Row>, split: nat)
      requires split <= |rows| && AllWhole(rows)
      requires |PlainIds(ids)| > 0 ==> forall x :: Whole(x) in rows[..split] <==>
        x in db.rows && MatchesDoctype(docType, x) && x.folderId.Some? && x.folderId.value in PlainIds(ids)
      requires |PlainIds(ids)| == 0 ==> split == 0
      requires forall x :: Whole(x) in rows[split..] <==> x in db.rows && IsSupplementRow(SupplementIds(ids), x)
      ensures forall x :: x in db.rows && MatchesDoctype(docType, x) && x.folderId.Some? && x.folderId.value in PlainIds(ids) ==>
        Whole(x) in rows
      ensures forall x :: Whole(x) in rows ==>
        x in db.rows && ((MatchesDoctype(docType, x) && x.folderId.Some? && x.folderId.value in PlainIds(ids)) || IsSupplementRow(SupplementIds(ids), x))
    {
      forall x ensures Whole(x) in rows <==> Whole(x) in rows[..split] || Whole(x) in rows[split..] {
        InSplit(rows, split, Whole(x));
      }
    }

    /** A row is in a result exactly when it is in the part before the split or the part after it. */
    lemma InSplit(rows: seq<Row>, split: nat, w: Row)
      requires split <= |rows|
      ensures w in rows <==> w in rows[..split] || w in rows[split..]
    {
      assert rows == rows[..split] + rows[split..];
    }

    /**
     * `query_creationdate_exact` as written: the date test is put in the
     * condition list as a list, which the query library rejects, so the call
     * fails on every input the doctype lookup lets through.
     */
    method QueryCreationdateExact(searchDate: int, docType: seq<string>) returns (r: Result<seq<Row>, Error>)
      requires Configured()
      ensures CondlistByDoctype(docType, true, []).Err? ==> r == Err(CondlistByDoctype(docType, true, []).error)
      ensures CondlistByDoctype(docType, true, []).Ok? ==> r == Err(ArgumentError)
    {
      var doctypeStatement := GetCondlistByDoctype(docType, true, None);
      if doctypeStatement.Err? {
        return Err(doctypeStatement.error);
      }
      // The date test is wrapped in a one-element Python list, so it reaches `and_` as a list.
      var dateStatement := PyList;
      var conditionList := [AsElement(doctypeStatement.value), dateStatement];
      assert conditionList[1] == PyList;
      r := db.FilterByColumn(Entity, conditionList, "and", None, None);
    }

    /**
     * `query_creationdate_exact` with the date test passed as a clause: the
     * usable documents of the requested type created at `searchDate`.
     */
    method QueryCreationdateExactCorrected(searchDate: int, docType: seq<string>) returns (r: Result<seq<Row>, Error>)
      requires Configured()
      ensures CondlistByDoctype(docType, true, []).Err? ==> r == Err(CondlistByDoctype(docType, true, []).error)
      ensures DoctypeAssessment(docType).Single? && KnownTag(DoctypeAssessment(docType).tag) ==> r.Ok?
      ensures r.Ok? ==> AllWhole(r.value)
      ensures r.Ok? ==> forall x :: Whole(x) in r.value <==>
        x in db.rows && MatchesDoctype(docType, x) && x.creationDate == Some(searchDate)
    {
      var doctypeStatement := GetCondlistByDoctype(docType, true, None);
      if doctypeStatement.Err? {
        return Err(doctypeStatement.error);
      }
      var dateStatement := Expr(Leaf(NumAtom(CreationDate, Equal, searchDate)));
      var conditionList := [AsElement(doctypeStatement.value), dateStatement];
      assert doctypeStatement == CondlistByDoctype(docType, true, []);
      r := db.FilterByColumn(Entity, conditionList, "and", None, None);
      DoctypeAndQuery(docType, dateStatement);
      assert forall x :: Holds(dateStatement.cond, x) <==> x.creationDate == Some(searchDate);
    }

    /**
     * `query_r_object_id`: the usable documents of one requested type whose
     * object id is one of `objectIds`. Several tags put a list in the
     * condition list, and no ids leave an empty `or_()`.
     */
    method QueryRObjectId(objectIds: seq<string>, docType: seq<string>) returns (r: Result<seq<Row>, Error>)
      requires Configured()
      ensures CondlistByDoctype(docType, true, []).Err? ==> r == Err(CondlistByDoctype(docType, true, []).error)
      ensures CondlistByDoctype(docType, true, []).Ok? && DoctypeAssessment(docType).Several? ==> r == Err(ArgumentError)
      ensures CondlistByDoctype(docType, true, []).Ok? && DoctypeAssessment(docType).Single? ==> (r.Ok? <==> |objectIds| > 0)
      ensures r.Ok? ==> AllWhole(r.value)
      ensures r.Ok? ==> forall x :: Whole(x) in r.value <==> x in db.rows && MatchesDoctype(docType, x) && x.objectId in objectIds
    {
      var doctypeStatement := GetCondlistByDoctype(docType, true, None);
      if doctypeStatement.Err? {
        return Err(doctypeStatement.error);
      }
      var objectidStatement := ObjectIdClause(objectIds);
      var conditionList := [AsElement(doctypeStatement.value), objectidStatement];
      assert doctypeStatement == CondlistByDoctype(docType, true, []);
      r := db.FilterByColumn(Entity, conditionList, "and", None, None);
      DoctypeAndQuery(docType, objectidStatement);
    }

    /** `random_kdoc_sample`: up to `sampleSize` distinct usable 510(k) documents. */
    function RandomKdocSample(sampleSize: int, shuffle: seq<Record>): (r: Result<seq<Record>, Error>)
      reads db
      requires Configured() && db.Valid() && multiset(shuffle) == multiset(db.rows)
      ensures r.Err? <==> sampleSize < 0
      ensures r.Ok? ==> |r.value| == Min(sampleSize, |Select(db.rows, And(KFileConditions))|) && NoDup(r.value)
      ensures r.Ok? ==> forall x :: x in r.value ==> x in db.rows && IsKFileDocument(x)
    {
      var sample := db.RandomSample(sampleSize, kfileConditionsList, shuffle);
      assert sample.Ok? ==> forall x :: x in sample.value ==> IsKFileDocument(x) by {
        forall x | sample.Ok? && x in sample.value ensures IsKFileDocument(x) {
          KFileConditionsMeaning(x);
        }
      }
      sample
    }

    /** `random_pma_sample`: up to `sampleSize` distinct usable PMA documents. */
    function RandomPmaSample(sampleSize: int, shuffle: seq<Record>): (r: Result<seq<Record>, Error>)
      reads db
      requires Configured() && db.Valid() && multiset(shuffle) == multiset(db.rows)
      ensures r.Err? <==> sampleSize < 0
      ensures r.Ok? ==> |r.value| == Min(sampleSize, |Select(db.rows, And(PDocConditions))|) && NoDup(r.value)
      ensures r.Ok? ==> forall x :: x in r.value ==> x in db.rows && IsPDocDocument(x)
    {
      var sample := db.RandomSample(sampleSize, pdocConditionsList, shuffle);
      assert sample.Ok? ==> forall x :: x in sample.value ==> IsPDocDocument(x) by {
        forall x | sample.Ok? && x in sample.value ensures IsPDocDocument(x) {
          PDocConditionsMeaning(x);
        }
      }
      sample
    }

    /** `random_nonkdoc_sample`: up to `sampleSize` distinct usable documents outside the 510(k) folders. */
    function RandomNonkdocSample(sampleSize: int, shuffle: seq<Record>): (r: Result<seq<Record>, Error>)
      reads db
      requires Configured() && db.Valid() && multiset(shuffle) == multiset(db.rows)
      ensures r.Err? <==> sampleSize < 0
      ensures r.Ok? ==> |r.value| == Min(sampleSize, |Select(db.rows, And(NonKFileConditions))|) && NoDup(r.value)
      ensures r.Ok? ==> forall x :: x in r.value ==> x in db.rows && IsNonKFileDocument(x)
    {
      var sample := db.RandomSample(sampleSize, nonkfileConditionsList, shuffle);
      assert sample.Ok? ==> forall x :: x in sample.value ==> IsNonKFileDocument(x) by {
        forall x | sample.Ok? && x in sample.value ensures IsNonKFileDocument(x) {
          NonKFileConditionsMeaning(x);
        }
      }
      sample
    }
  }

  /** An omitted `additional_conditions` adds nothing. */
  function Extra(additional: Option<seq<Cond>>): seq<Cond> {
    if additional.Some? then additional.value else []
  }
}
