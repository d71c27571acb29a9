/**
 * One row of the `reports.inventory` table.
 *
 * Text columns are strings, timestamp columns are modelled as integers (a
 * point in time), and every column except the primary key `object_id` may
 * be NULL, which the model writes as `None`.
 */
module Inventory {
  import opened Wrappers

  /** The columns whose values are text. */
  datatype TextColumn =
    | ObjectId | FolderId | FolderType | SubType | ObjectName | UniqueKey | Guid
    | DocDownloadStatus | DocValidationStatus | CommentDocFailure
      // used by the P-doc conditions, not declared in the schema class
    | ValidationStatus

  /** The columns whose values are timestamps or integers. */
  datatype NumericColumn =
    | CreationDate | ModifyDate | NumberOfPages | DocValidationDate | DocDownloadDate
    | DocumentDate | ScanDate | IndexDate | LoadDate | UpdateDate
      // used by the creation-date range query, not declared in the schema class
    | RCreationDate

  datatype Column = Text(text: TextColumn) | Numeric(numeric: NumericColumn)

  /** The value of one column of one row, as the database hands it back. */
  datatype Value = Null | Str(s: string) | Num(n: int)

  datatype Record = Record(
    creationDate: Option<int>,
    modifyDate: Option<int>,
    objectId: string,
    folderId: Option<string>,
    folderType: Option<string>,
    subType: Option<string>,
    objectName: Option<string>,
    uniqueKey: Option<string>,
    guid: Option<string>,
    numberOfPages: Option<int>,
    docDownloadStatus: Option<string>,
    docValidationStatus: Option<string>,
    docValidationDate: Option<int>,
    docDownloadDate: Option<int>,
    documentDate: Option<int>,
    scanDate: Option<int>,
    indexDate: Option<int>,
    loadDate: Option<int>,
    updateDate: Option<int>,
    commentDocFailure: Option<string>,
    validationStatus: Option<string>,
    rCreationDate: Option<int>
  )

  function TextValue(o: Option<string>): Value {
    if o.Some? then Str(o.value) else Null
  }

  function NumValue(o: Option<int>): Value {
    if o.Some? then Num(o.value) else Null
  }

  function GetText(r: Record, c: TextColumn): (v: Value)
    ensures v.Null? || v.Str?
  {
    match c
    case ObjectId => Str(r.objectId)
    case FolderId => TextValue(r.folderId)
    case FolderType => TextValue(r.folderType)
    case SubType => TextValue(r.subType)
    case ObjectName => TextValue(r.objectName)
    case UniqueKey => TextValue(r.uniqueKey)
    case Guid => TextValue(r.guid)
    case DocDownloadStatus => TextValue(r.docDownloadStatus)
    case DocValidationStatus => TextValue(r.docValidationStatus)
    case CommentDocFailure => TextValue(r.commentDocFailure)
    case ValidationStatus => TextValue(r.validationStatus)
  }

  function GetNumeric(r: Record, c: NumericColumn): (v: Value)
    ensures v.Null? || v.Num?
  {
    match c
    case CreationDate => NumValue(r.creationDate)
    case ModifyDate => NumValue(r.modifyDate)
    case NumberOfPages => NumValue(r.numberOfPages)
    case DocValidationDate => NumValue(r.docValidationDate)
    case DocDownloadDate => NumValue(r.docDownloadDate)
    case DocumentDate => NumValue(r.documentDate)
    case ScanDate => NumValue(r.scanDate)
    case IndexDate => NumValue(r.indexDate)
    case LoadDate => NumValue(r.loadDate)
    case UpdateDate => NumValue(r.updateDate)
    case RCreationDate => NumValue(r.rCreationDate)
  }

  /** The value a row holds in a column. */
  function Get(r: Record, c: Column): Value {
    match c
    case Text(t) => GetText(r, t)
    case Numeric(n) => GetNumeric(r, n)
  }

  /** Whether `v` is a value of the kind column `c` holds: text or NULL, a number or NULL. */
  predicate OfKind(c: Column, v: Value) {
    match c
    case Text(_) => v.Null? || v.Str?
    case Numeric(_) => v.Null? || v.Num?
  }

  /** Whether the database accepts `v` as a value of column `c`. */
  predicate Fits(c: Column, v: Value) {
    match c
    case Text(ObjectId) => v.Str?
    case Text(_) => v.Null? || v.Str?
    case Numeric(_) => v.Null? || v.Num?
  }

  function AsText(v: Value): Option<string> {
    if v.Str? then Some(v.s) else None
  }

  function AsNum(v: Value): Option<int> {
    if v.Num? then Some(v.n) else None
  }

  function SetText(r: Record, c: TextColumn, v: Value): (r': Record)
    requires Fits(Text(c), v)
    ensures GetText(r', c) == v
    ensures forall d :: d != c ==> GetText(r', d) == GetText(r, d)
    ensures forall n :: GetNumeric(r', n) == GetNumeric(r, n)
  {
    match c
    case ObjectId => r.(objectId := v.s)
    case FolderId => r.(folderId := AsText(v))
    case FolderType => r.(folderType := AsText(v))
    case SubType => r.(subType := AsText(v))
    case ObjectName => r.(objectName := AsText(v))
    case UniqueKey => r.(uniqueKey := AsText(v))
    case Guid => r.(guid := AsText(v))
    case DocDownloadStatus => r.(docDownloadStatus := AsText(v))
    case DocValidationStatus => r.(docValidationStatus := AsText(v))
    case CommentDocFailure => r.(commentDocFailure := AsText(v))
    case ValidationStatus => r.(validationStatus := AsText(v))
  }

  function SetNumeric(r: Record, c: NumericColumn, v: Value): (r': Record)
    requires Fits(Numeric(c), v)
    ensures GetNumeric(r', c) == v
    ensures forall d :: d != c ==> GetNumeric(r', d) == GetNumeric(r, d)
    ensures forall t :: GetText(r', t) == GetText(r, t)
  {
    match c
    case CreationDate => r.(creationDate := AsNum(v))
    case ModifyDate => r.(modifyDate := AsNum(v))
    case NumberOfPages => r.(numberOfPages := AsNum(v))
    case DocValidationDate => r.(docValidationDate := AsNum(v))
    case DocDownloadDate => r.(docDownloadDate := AsNum(v))
    case DocumentDate => r.(documentDate := AsNum(v))
    case ScanDate => r.(scanDate := AsNum(v))
    case IndexDate => r.(indexDate := AsNum(v))
    case LoadDate => r.(loadDate := AsNum(v))
    case UpdateDate => r.(updateDate := AsNum(v))
    case RCreationDate => r.(rCreationDate := AsNum(v))
  }

  /**
   * The row after `setattr(record, column, value)`: the named column reads
   * back `v` and every other column keeps its value.
   */
  function Set(r: Record, c: Column, v: Value): (r': Record)
    requires Fits(c, v)
    ensures Get(r', c) == v
    ensures forall d :: d != c ==> Get(r', d) == Get(r, d)
  {
    match c
    case Text(t) => SetText(r, t, v)
    case Numeric(n) => SetNumeric(r, n, v)
  }

  /** No two rows share a primary key. */
  predicate KeysUnique(rows: seq<Record>) {
    forall i, j :: 0 <= i < j < |rows| ==> rows[i].objectId != rows[j].objectId
  }

  /** Some row holds primary key `id`. */
  predicate KeyTaken(rows: seq<Record>, id: string) {
    exists i :: 0 <= i < |rows| && rows[i].objectId == id
  }
}
