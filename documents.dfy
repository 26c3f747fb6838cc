/**
 * The file-count rules of the document picker: the allowed selection range, the error it reports when a
 * selection falls outside it, the document store and the importer's handling of a picked set of files.
 */
module Documents {
  import opened Wrappers
  import opened Decimal
  import opened Text

  /** `Int.max` on a 64-bit platform. */
  const IntMax: int := 0x7FFF_FFFF_FFFF_FFFF

  /**
   * The forms of `RangeExpression<Int>` the picker distinguishes: `a...b`, `a...`, `...b`, `..<b`, and
   * the remaining standard form `a..<b`, which every switch over the range sends to its default branch.
   */
  datatype FileRange =
    | Closed(lower: int, upper: int)
    | From(lower: int)
    | Through(upper: int)
    | UpTo(upper: int)
    | HalfOpen(lower: int, upper: int)

  /** `isValidFileCount`: `range.contains(count)`. */
  predicate IsValidFileCount(range: FileRange, count: int) {
    match range
    case Closed(a, b) => a <= count <= b
    case From(a) => a <= count
    case Through(b) => count <= b
    case UpTo(b) => count < b
    case HalfOpen(a, b) => a <= count < b
  }

  /** Every range is an interval: a count between two valid counts is valid too, whatever the form. */
  lemma ValidCountsContiguous(range: FileRange, low: int, mid: int, high: int)
    requires IsValidFileCount(range, low) && IsValidFileCount(range, high) && low <= mid <= high
    ensures IsValidFileCount(range, mid)
  {
  }

  datatype DocumentHandlerError =
    | InvalidFileCount(min: int, max: int)
    | FileReadError(underlying: string)
    | UnsupportedFileType

  /**
   * `DocumentHandlerError.fromRange`: the bounds reported for a range. For every form but `a..<b`, and
   * for any count from 1 up to `Int.max`, the count is valid exactly when it lies between the reported
   * bounds, so the message names the real limits.
   */
  function FromRange(range: FileRange, count: int): (r: DocumentHandlerError)
    ensures r.InvalidFileCount?
    ensures !range.HalfOpen? && 1 <= count <= IntMax ==> (IsValidFileCount(range, count) <==> r.min <= count <= r.max)
    ensures range.HalfOpen? ==> r.min == 1 && r.max == 1
    ensures !range.Closed? && !range.From? ==> r.min == 1
  {
    match range
    case Closed(a, b) => InvalidFileCount(a, b)
    case From(a) => InvalidFileCount(a, IntMax)
    case Through(b) => InvalidFileCount(1, b)
    case UpTo(b) => InvalidFileCount(1, b - 1)
    case HalfOpen(_, _) => InvalidFileCount(1, 1)
  }

  /** `allowsMultipleSelection`: it agrees with the upper bound `fromRange` reports, whatever the form. */
  predicate AllowsMultipleSelection(range: FileRange)
    ensures AllowsMultipleSelection(range) <==> FromRange(range, 0).max > 1
  {
    match range
    case Closed(_, b) => b > 1
    case From(_) => true
    case Through(b) => b > 1
    case UpTo(b) => b > 2
    case HalfOpen(_, _) => false
  }

  const ExactlyPrefix: string := "Please select exactly "
  const BetweenPrefix: string := "Please select between "

  /** `errorDescription`: "exactly" when both bounds agree, "between" otherwise. */
  function ErrorDescription(e: DocumentHandlerError): (r: string)
    ensures e.InvalidFileCount? ==> (StartsWith(r, ExactlyPrefix) <==> e.min == e.max)
    ensures e.InvalidFileCount? && e.min != e.max ==> StartsWith(r, BetweenPrefix)
    ensures e.FileReadError? ==> |r| >= |e.underlying| && r[|r| - |e.underlying|..] == e.underlying
  {
    match e
    case InvalidFileCount(a, b) =>
      var r := if a == b then ExactlyPrefix + IntText(a) + " file(s)."
               else BetweenPrefix + IntText(a) + " and " + IntText(b) + " files.";
      assert r[..|BetweenPrefix|] == BetweenPrefix || a == b;
      assert r[..|ExactlyPrefix|] == ExactlyPrefix || a != b;
      assert BetweenPrefix[14] != ExactlyPrefix[14];
      r
    case FileReadError(u) => "Failed to read file: " + u
    case UnsupportedFileType => "Unsupported file type. Please select a JSON file."
  }

  /** The text of an integer determines the integer. */
  lemma IntTextInjective(m: int, n: int)
    requires IntText(m) == IntText(n)
    ensures m == n
  {
    if m < 0 && n < 0 {
      assert IntText(m)[1..] == Digits(-m) && IntText(n)[1..] == Digits(-n);
      DigitsInjective(-m, -n);
    } else if m >= 0 && n >= 0 {
      DigitsInjective(m, n);
    }
  }

  /** Two "exactly" messages with different counts never read the same. */
  lemma ExactCountMessagesDiffer(m: int, n: int)
    requires m != n
    ensures ErrorDescription(InvalidFileCount(m, m)) != ErrorDescription(InvalidFileCount(n, n))
  {
    var s, t := ErrorDescription(InvalidFileCount(m, m)), ErrorDescription(InvalidFileCount(n, n));
    if s == t {
      var k := |ExactlyPrefix|;
      assert s[k..|s| - 9] == IntText(m);
      assert t[k..|t| - 9] == IntText(n);
      IntTextInjective(m, n);
    }
  }

  /** The picker's range `...3`: up to three files, and a single error message naming 1 and 3. */
  lemma DefaultSelectionRange()
    ensures AllowsMultipleSelection(Through(3))
    ensures forall c :: 1 <= c <= IntMax ==> (IsValidFileCount(Through(3), c) <==> c <= 3)
    ensures ErrorDescription(FromRange(Through(3), 4)) == "Please select between 1 and 3 files."
  {
    assert IntText(1) == "1" && IntText(3) == "3";
  }

  /** A picked document. The UUID is an integer drawn by the caller; the bytes are opaque. */
  datatype DocumentModel = DocumentModel(id: int, fileName: string, filePath: Option<string>, data: seq<bv8>)

  /** The index of the first document with identifier `id`. */
  function FirstWithId(docs: seq<DocumentModel>, id: int): (r: Option<nat>)
    ensures r.None? <==> forall i :: 0 <= i < |docs| ==> docs[i].id != id
    ensures r.Some? ==> r.value < |docs| && docs[r.value].id == id
    ensures r.Some? ==> forall j :: 0 <= j < r.value ==> docs[j].id != id
  {
    if docs == [] then None
    else if docs[0].id == id then Some(0)
    else match FirstWithId(docs[1..], id)
      case None => None
      case Some(i) => Some(i + 1)
  }

  /** Appending a document never changes which document an earlier identifier finds. */
  lemma {:induction false} FirstWithIdAppend(docs: seq<DocumentModel>, d: DocumentModel, id: int)
    ensures FirstWithId(docs + [d], id) ==
      if FirstWithId(docs, id).Some? then FirstWithId(docs, id)
      else if d.id == id then Some(|docs|)
      else None
  {
    if docs != [] {
      assert (docs + [d])[1..] == docs[1..] + [d];
      FirstWithIdAppend(docs[1..], d, id);
    }
  }

  /** `DocumentModelManager`: the store of every document read so far, in the order read. */
  class DocumentModelManager {
    var docs: seq<DocumentModel>

    constructor()
      ensures docs == []
    {
      docs := [];
    }

    /** `addDocument(_:)` appends at the end. */
    method AddDocument(d: DocumentModel)
      modifies this
      ensures docs == old(docs) + [d]
    {
      docs := docs + [d];
    }

    /** `getDocuments()`: every document added, in insertion order. */
    function GetDocuments(): seq<DocumentModel>
      reads this
    {
      docs
    }

    /** `getFilename(by:)`: the name of the first document with that identifier, or none. */
    function GetFilename(id: int): (r: Option<string>)
      reads this
      ensures r.None? <==> forall i :: 0 <= i < |docs| ==> docs[i].id != id
      ensures r.Some? ==> exists i :: 0 <= i < |docs| && docs[i].id == id && r.value == docs[i].fileName &&
                                      forall j :: 0 <= j < i ==> docs[j].id != id
    {
      match FirstWithId(docs, id)
      case None => None
      case Some(i) => Some(docs[i].fileName)
    }

    /** `getFilePath(by:)`: the path of the first document with that identifier; none when it has no path. */
    function GetFilePath(id: int): (r: Option<string>)
      reads this
      ensures (forall i :: 0 <= i < |docs| ==> docs[i].id != id) ==> r.None?
      ensures forall i :: 0 <= i < |docs| && docs[i].id == id && (forall j :: 0 <= j < i ==> docs[j].id != id) ==>
                r == docs[i].filePath
      ensures r.Some? ==> exists i :: 0 <= i < |docs| && docs[i].id == id && docs[i].filePath == r &&
                                      forall j :: 0 <= j < i ==> docs[j].id != id
    {
      match FirstWithId(docs, id)
      case None => None
      case Some(i) => docs[i].filePath
    }
  }

  /** What the importer needs of a picked URL: its last path component and its path. */
  datatype FileUrl = FileUrl(lastPathComponent: string, path: string)

  /** The error the view model publishes: one of its own, or one the file importer reported. */
  datatype ImportError = Handler(e: DocumentHandlerError) | Importer(description: string)

  /**
   * The documents created from the first `n` picked files, in order: one per file that could be read.
   * `read` stands for reading the file's bytes and `ids` for the UUID drawn for the `k`-th file.
   */
  function Imported(urls: seq<FileUrl>, read: FileUrl -> Result<seq<bv8>, string>, ids: nat -> int, n: nat)
    : (r: seq<DocumentModel>)
    requires n <= |urls|
    ensures |r| <= n
  {
    if n == 0 then []
    else
      var u := urls[n - 1];
      Imported(urls, read, ids, n - 1) +
      (match read(u)
       case Ok(bytes) => [DocumentModel(ids(n - 1), u.lastPathComponent, Some(u.path), bytes)]
       case Err(_) => [])
  }

  /** Every imported document comes from a readable file, with that file's id, name and path. */
  lemma {:induction false} ImportedFromReadableFiles(urls: seq<FileUrl>, read: FileUrl -> Result<seq<bv8>, string>,
                                                     ids: nat -> int, n: nat)
    requires n <= |urls|
    ensures forall d :: d in Imported(urls, read, ids, n) ==>
              exists k :: 0 <= k < n && read(urls[k]).Ok? && d.id == ids(k) && d.data == read(urls[k]).value &&
                          d.fileName == urls[k].lastPathComponent && d.filePath == Some(urls[k].path)
  {
    if n > 0 {
      ImportedFromReadableFiles(urls, read, ids, n - 1);
    }
  }

  /** The error left after the first `n` files: the last read failure among them, else `prior`. */
  function LastReadError(urls: seq<FileUrl>, read: FileUrl -> Result<seq<bv8>, string>, n: nat, prior: Option<ImportError>)
    : (r: Option<ImportError>)
    requires n <= |urls|
    ensures r != prior ==> exists k :: 0 <= k < n && read(urls[k]).Err? &&
                                       r == Some(Handler(FileReadError(read(urls[k]).error)))
    ensures (forall k :: 0 <= k < n ==> read(urls[k]).Ok?) ==> r == prior
  {
    if n == 0 then prior
    else match read(urls[n - 1])
      case Err(e) => Some(Handler(FileReadError(e)))
      case Ok(_) => LastReadError(urls, read, n - 1, prior)
  }

  /** One more file adds its document when it can be read, and nothing otherwise. */
  lemma ImportedNext(urls: seq<FileUrl>, read: FileUrl -> Result<seq<bv8>, string>, ids: nat -> int, i: nat,
                     prior: Option<ImportError>)
    requires i < |urls|
    ensures read(urls[i]).Ok? ==>
              Imported(urls, read, ids, i + 1) ==
              Imported(urls, read, ids, i) + [DocumentModel(ids(i), urls[i].lastPathComponent, Some(urls[i].path), read(urls[i]).value)]
    ensures read(urls[i]).Err? ==> Imported(urls, read, ids, i + 1) == Imported(urls, read, ids, i)
    ensures read(urls[i]).Ok? ==> LastReadError(urls, read, i + 1, prior) == LastReadError(urls, read, i, prior)
    ensures read(urls[i]).Err? ==> LastReadError(urls, read, i + 1, prior) == Some(Handler(FileReadError(read(urls[i]).error)))
  {
  }

  /** The document picker's view model, with the selection range fixed at construction. */
  class DocumentHandler {
    const fileSelectionRange: FileRange
    const documentManager: DocumentModelManager
    var documents: seq<DocumentModel>
    var error: Option<ImportError>

    constructor(range: FileRange)
      ensures fileSelectionRange == range && fresh(documentManager) && documentManager.docs == []
      ensures documents == [] && error.None?
    {
      fileSelectionRange := range;
      documentManager := new DocumentModelManager();
      documents := [];
      error := None;
    }

    /**
     * `handleFileImporter(result:)`. A failed picker publishes its error. A count outside the range
     * publishes `fromRange` and reads nothing. Otherwise every file is read in order: each readable one
     * is stored and the published list refreshed, each unreadable one replaces the error.
     */
    method HandleFileImporter(result: Result<seq<FileUrl>, string>, read: FileUrl -> Result<seq<bv8>, string>,
                              ids: nat -> int)
      modifies this, documentManager
      ensures result.Err? ==> error == Some(Importer(result.error)) &&
                              documentManager.docs == old(documentManager.docs) && documents == old(documents)
      ensures result.Ok? && !IsValidFileCount(fileSelectionRange, |result.value|) ==>
                error == Some(Handler(FromRange(fileSelectionRange, |result.value|))) &&
                documentManager.docs == old(documentManager.docs) && documents == old(documents)
      ensures result.Ok? && IsValidFileCount(fileSelectionRange, |result.value|) ==>
                var urls := result.value;
                var added := Imported(urls, read, ids, |urls|);
                documentManager.docs == old(documentManager.docs) + added &&
                documents == (if added == [] then old(documents) else documentManager.docs) &&
                error == LastReadError(urls, read, |urls|, old(error))
    {
      match result
      case Err(e) =>
        error := Some(Importer(e));
      case Ok(urls) =>
        if !IsValidFileCount(fileSelectionRange, |urls|) {
          error := Some(Handler(FromRange(fileSelectionRange, |urls|)));
          return;
        }
        ImportAll(urls, read, ids);
    }

    /** The import loop over the picked files, in order. */
    method ImportAll(urls: seq<FileUrl>, read: FileUrl -> Result<seq<bv8>, string>, ids: nat -> int)
      modifies this`documents, this`error, documentManager
      ensures documentManager.docs == old(documentManager.docs) + Imported(urls, read, ids, |urls|)
      ensures documents == (if Imported(urls, read, ids, |urls|) == [] then old(documents) else documentManager.docs)
      ensures error == LastReadError(urls, read, |urls|, old(error))
    {
      var i := 0;
      while i < |urls|
        invariant 0 <= i <= |urls|
        invariant documentManager.docs == old(documentManager.docs) + Imported(urls, read, ids, i)
        invariant Imported(urls, read, ids, i) == [] ==> documents == old(documents)
        invariant Imported(urls, read, ids, i) != [] ==> documents == documentManager.docs
        invariant error == LastReadError(urls, read, i, old(error))
      {
        ImportedNext(urls, read, ids, i, old(error));
        ImportFile(urls[i], ids(i), read);
        i := i + 1;
      }
    }

    /** One turn of the import loop: a readable file is stored and the list refreshed; otherwise the error is replaced. */
    method ImportFile(url: FileUrl, id: int, read: FileUrl -> Result<seq<bv8>, string>)
      modifies this`documents, this`error, documentManager
      ensures read(url).Ok? ==>
                documentManager.docs == old(documentManager.docs) + [DocumentModel(id, url.lastPathComponent, Some(url.path), read(url).value)] &&
                documents == documentManager.docs && error == old(error)
      ensures read(url).Err? ==>
                documentManager.docs == old(documentManager.docs) && documents == old(documents) &&
                error == Some(Handler(FileReadError(read(url).error)))
    {
      match read(url) {
        case Ok(bytes) =>
          documentManager.AddDocument(DocumentModel(id, url.lastPathComponent, Some(url.path), bytes));
          documents := documentManager.GetDocuments();
          assert documents == documentManager.docs;
        case Err(e) =>
          error := Some(Handler(FileReadError(e)));
      }
    }
  }
}
