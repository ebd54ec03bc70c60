/** Uploaded documents: the checks an upload passes, the stored file name,
    and the processing status a document moves through (pending, then
    processed, review_needed or error; a review or a reprocess moves it
    again). */
module Documents {
  import opened Common
  import opened Text
  import opened Records
  import opened Ordering

  const AllowedExtensions: seq<string> := ["pdf", "png", "jpg", "jpeg", "csv", "xlsx"]
  const MaxUploadSize: nat := 10485760

  /** The MIME types the content sniffer may report for an accepted upload. */
  const AllowedMimes: seq<string> := ["application/pdf", "image/png", "image/jpeg", "text/csv",
                                      "application/vnd.openxmlformats-officedocument.spreadsheetml.sheet"]

  const ValidStatuses: seq<string> := ["pending", "processed", "error", "review_needed"]

  const DocumentNotFound := HttpError(404, "Document not found")

  // ---- File names ----

  /** The position just after the last `c` in `s`, or 0 when there is none. */
  function AfterLast(s: string, c: char): (r: nat)
    ensures r <= |s|
    ensures c !in s[r..]
    ensures r > 0 ==> s[r - 1] == c
  {
    if s == [] then 0
    else if s[|s| - 1] == c then |s|
    else
      var r := AfterLast(s[..|s| - 1], c);
      assert s[r..] == s[..|s| - 1][r..] + [s[|s| - 1]];
      r
  }

  /** The last `c` is the one before `post` when `post` holds none. */
  lemma {:induction false} AfterLastOf(pre: string, c: char, post: string)
    requires c !in post
    ensures AfterLast(pre + [c] + post, c) == |pre| + 1
    decreases |post|
  {
    var s := pre + [c] + post;
    if post != [] {
      var init := post[..|post| - 1];
      assert post[|post| - 1] in post;
      assert c !in init by {
        forall i | 0 <= i < |init| ensures init[i] != c {
          assert post[i] in post;
        }
      }
      assert s[..|s| - 1] == pre + [c] + init;
      AfterLastOf(pre, c, init);
    }
  }

  /** `os.path.basename`: the text after the last '/'. */
  function BaseName(path: string): (r: string)
    ensures '/' !in r
    ensures |r| <= |path| && r == path[|path| - |r|..]
    ensures '/' !in path ==> r == path
  {
    path[AfterLast(path, '/')..]
  }

  /** A character `[\w.\-]` accepts: an ASCII letter or digit, '_', '.' or '-'. */
  predicate SafeChar(c: char) {
    ('a' <= c <= 'z') || ('A' <= c <= 'Z') || IsDigit(c) || c == '_' || c == '.' || c == '-'
  }

  /** `re.sub(r"[^\w.\-]", "_", name)` */
  function ReplaceUnsafe(s: string): (r: string)
    ensures |r| == |s|
    ensures forall i :: 0 <= i < |s| ==> r[i] == if SafeChar(s[i]) then s[i] else '_'
  {
    seq(|s|, i requires 0 <= i < |s| => if SafeChar(s[i]) then s[i] else '_')
  }

  /** The number of leading dots. */
  function LeadingDots(s: string): (n: nat)
    ensures n <= |s|
    ensures forall i :: 0 <= i < n ==> s[i] == '.'
    ensures n == |s| || s[n] != '.'
  {
    if s != [] && s[0] == '.' then 1 + LeadingDots(s[1..]) else 0
  }

  /** `name.lstrip(".")` */
  function StripLeadingDots(s: string): (r: string)
    ensures r == [] || r[0] != '.'
    ensures |r| <= |s| && r == s[|s| - |r|..]
  {
    s[LeadingDots(s)..]
  }

  /** A name that `_sanitize_filename` may return: not empty, not hidden, and
      made of safe characters only. */
  predicate SafeName(name: string) {
    && name != []
    && name[0] != '.'
    && forall i :: 0 <= i < |name| ==> SafeChar(name[i])
  }

  /** `_sanitize_filename`: the base name with unsafe characters replaced,
      leading dots removed, and "document" for what is left empty. */
  function SanitizeFilename(filename: string): (r: string)
    ensures SafeName(r)
  {
    var replaced := ReplaceUnsafe(BaseName(filename));
    var cleaned := StripLeadingDots(replaced);
    assert forall i :: 0 <= i < |cleaned| ==> SafeChar(cleaned[i]) by {
      forall i | 0 <= i < |cleaned| ensures SafeChar(cleaned[i]) {
        assert cleaned[i] == replaced[|replaced| - |cleaned| + i];
      }
    }
    if cleaned == [] then "document" else cleaned
  }

  /** A safe name holds no '/', so it names a file inside the upload
      directory. */
  lemma SafeNameHasNoSlash(name: string)
    requires SafeName(name)
    ensures '/' !in name
  {
    forall i | 0 <= i < |name| ensures name[i] != '/' {
      assert SafeChar(name[i]);
    }
  }

  /** A safe name is its own sanitised form. */
  lemma SanitizeKeepsSafe(name: string)
    requires SafeName(name)
    ensures SanitizeFilename(name) == name
  {
    SafeNameHasNoSlash(name);
    assert ReplaceUnsafe(name) == name;
  }

  /** Sanitising twice changes nothing more. */
  lemma SanitizeIdempotent(filename: string)
    ensures SanitizeFilename(SanitizeFilename(filename)) == SanitizeFilename(filename)
  {
    SanitizeKeepsSafe(SanitizeFilename(filename));
  }

  /** Directories in the uploaded name are dropped. */
  lemma SanitizeDropsDirectories(dir: string, name: string)
    requires '/' !in name
    ensures SanitizeFilename(dir + "/" + name) == SanitizeFilename(name)
  {
    AfterLastOf(dir, '/', name);
    var path := dir + "/" + name;
    assert path == dir + ['/'] + name;
    assert path[|dir| + 1..] == name;
    assert BaseName(path) == BaseName(name);
  }

  /** The upload's file type: `filename.split('.')[-1].lower()`, the text
      after the last '.' (the whole name when it has none), lowercased. */
  function Extension(filename: string): (r: string)
    ensures |r| <= |filename|
    ensures '.' !in r
  {
    var e := filename[AfterLast(filename, '.')..];
    assert '.' !in Lower(e) by {
      forall i | 0 <= i < |e| ensures Lower(e)[i] != '.' {
        assert e[i] in e;
      }
    }
    Lower(e)
  }

  /** The extension is what follows the last dot. */
  lemma ExtensionAfterDot(stem: string, ext: string)
    requires '.' !in ext
    ensures Extension(stem + "." + ext) == Lower(ext)
  {
    AfterLastOf(stem, '.', ext);
    assert stem + "." + ext == stem + ['.'] + ext;
    assert (stem + "." + ext)[|stem| + 1..] == ext;
  }

  /** A name without a dot is its own extension. */
  lemma NoDotIsExtension(filename: string)
    requires '.' !in filename
    ensures Extension(filename) == Lower(filename)
  {
  }

  function Join(items: seq<string>, sep: string): string {
    if items == [] then []
    else if |items| == 1 then items[0]
    else items[0] + sep + Join(items[1..], sep)
  }

  /** An accepted upload: its stored name and its file type. */
  datatype Accepted = Accepted(safeName: string, fileType: string)

  /** The checks of `upload_document`, in order: extension, size, then the
      MIME type the content sniffer reports for the bytes. */
  function UploadCheck(filename: string, size: nat, mime: string): (r: Result<Accepted, HttpError>)
    ensures r.Ok? <==> Extension(filename) in AllowedExtensions && size <= MaxUploadSize && mime in AllowedMimes
    ensures Extension(filename) !in AllowedExtensions ==>
      r == Err(HttpError(400, "File type ." + Extension(filename) + " not allowed. Allowed: " + Join(AllowedExtensions, ", ")))
    ensures Extension(filename) in AllowedExtensions && size > MaxUploadSize ==>
      r == Err(HttpError(400, "File too large. Max size: 10MB"))
    ensures r.Ok? ==> r.value == Accepted(SanitizeFilename(filename), Extension(filename))
    ensures r.Ok? ==> SafeName(r.value.safeName) && r.value.fileType in AllowedExtensions
  {
    var ext := Extension(filename);
    if ext !in AllowedExtensions then
      Err(HttpError(400, "File type ." + ext + " not allowed. Allowed: " + Join(AllowedExtensions, ", ")))
    else if size > MaxUploadSize then Err(HttpError(400, "File too large. Max size: 10MB"))
    else if mime !in AllowedMimes then Err(HttpError(400, "File content does not match an allowed type."))
    else Ok(Accepted(SanitizeFilename(filename), ext))
  }

  // ---- Processing ----

  /** What the AI extraction pulled out of a document. */
  datatype Extraction = Extraction(documentType: Option<string>, category: Option<string>, vendorName: Option<string>,
                                   amount: Option<int>, taxAmount: Option<int>)

  /** The end of a processing run: extracted fields, a failed extraction, or
      an exception while reading the file or calling the processor. */
  datatype ProcessingOutcome = Extracted(data: Extraction, needsReview: bool) | Failed | Crashed

  /** `process_document_ai`'s update of a document. */
  function Processed(d: Document, outcome: ProcessingOutcome): (r: Document)
    ensures r.id == d.id && r.originalFilename == d.originalFilename && r.fileType == d.fileType
    ensures r.processingStatus == match outcome
      case Extracted(_, needsReview) => if needsReview then "review_needed" else "processed"
      case _ => "error"
    ensures outcome.Extracted? ==> r.amount == outcome.data.amount && r.vendorName == outcome.data.vendorName
    ensures outcome.Extracted? ==>
      && r.documentType == outcome.data.documentType && r.category == outcome.data.category
      && r.taxAmount == outcome.data.taxAmount
      && r.reviewNotes == d.reviewNotes && r.reviewed == d.reviewed
    ensures !outcome.Extracted? ==>
      r == d.(processingStatus := "error", reviewNotes := Some(if outcome.Failed? then "Processing failed" else "Processing error"))
  {
    match outcome
    case Extracted(data, needsReview) =>
      d.(documentType := data.documentType, category := data.category, vendorName := data.vendorName,
         amount := data.amount, taxAmount := data.taxAmount,
         processingStatus := if needsReview then "review_needed" else "processed")
    case Failed => d.(processingStatus := "error", reviewNotes := Some("Processing failed"))
    case Crashed => d.(processingStatus := "error", reviewNotes := Some("Processing error"))
  }

  /** `review_document`'s update: approved means processed, otherwise the
      document still needs review. */
  function Reviewed(d: Document, approved: bool, notes: Option<string>): (r: Document)
    ensures r.reviewed && r.reviewNotes == notes
    ensures r.processingStatus == (if approved then "processed" else "review_needed")
    ensures r.id == d.id && r.originalFilename == d.originalFilename && r.fileType == d.fileType
  {
    d.(reviewed := true, reviewNotes := notes, processingStatus := if approved then "processed" else "review_needed")
  }

  /** A stored document: a safe name, an allowed type and a known status. */
  predicate DocumentOk(d: Document) {
    SafeName(d.originalFilename) && d.fileType in AllowedExtensions && d.processingStatus in ValidStatuses
  }

  /** Every status change keeps a document within the known statuses. */
  lemma StatusesStayValid(d: Document, outcome: ProcessingOutcome, approved: bool, notes: Option<string>)
    requires DocumentOk(d)
    ensures DocumentOk(Processed(d, outcome))
    ensures DocumentOk(Reviewed(d, approved, notes))
    ensures DocumentOk(d.(processingStatus := "pending"))
  {
  }

  // ---- Listing ----

  function MatchingDocuments(docs: seq<Document>, status: Option<string>): (r: seq<Document>)
    ensures forall d :: d in r <==> d in docs && (status.Some? && status.value != "" ==> d.processingStatus == status.value)
  {
    if docs == [] then []
    else
      var d := docs[|docs| - 1];
      assert forall x :: x in docs <==> x in docs[..|docs| - 1] || x == d;
      MatchingDocuments(docs[..|docs| - 1], status)
        + (if status.Some? && status.value != "" && d.processingStatus != status.value then [] else [d])
  }

  const ListPageCap := 100

  /** `list_documents`: the count of matches and one page of them, newest
      first; an unknown status filter is refused. */
  function ListDocuments(docs: seq<Document>, status: Option<string>, skip: nat, limit: nat): Result<(nat, seq<Document>), HttpError> {
    if status.Some? && status.value != "" && status.value !in ValidStatuses then
      Err(HttpError(400, "Invalid status filter"))
    else
      var matching := MatchingDocuments(docs, status);
      Ok((|matching|, Page(Reversed(matching), skip, if limit < ListPageCap then limit else ListPageCap)))
  }

  lemma ListDocumentsMatch(docs: seq<Document>, status: Option<string>, skip: nat, limit: nat)
    ensures var r := ListDocuments(docs, status, skip, limit);
      && (r.Err? <==> status.Some? && status.value != "" && status.value !in ValidStatuses)
      && (r.Ok? ==>
        && r.value.0 == |MatchingDocuments(docs, status)|
        && |r.value.1| <= ListPageCap && |r.value.1| <= limit
        && (forall d :: d in r.value.1 ==> d in docs && (status.Some? && status.value != "" ==> d.processingStatus == status.value)))
  {
    var r := ListDocuments(docs, status, skip, limit);
    if r.Ok? {
      var matching := MatchingDocuments(docs, status);
      var page := r.value.1;
      forall d | d in page ensures d in matching {
        var i :| 0 <= i < |page| && page[i] == d;
        assert d == matching[|matching| - 1 - (skip + i)];
      }
    }
  }

  /** Ids increase along the sequence, as they do in storage order. */
  predicate DocumentIdsIncreasing(docs: seq<Document>) {
    forall i, j :: 0 <= i < j < |docs| ==> docs[i].id < docs[j].id
  }

  /** Filtering keeps the documents in storage order, so ids still increase. */
  lemma {:induction false} MatchingKeepsOrder(docs: seq<Document>, status: Option<string>)
    requires DocumentIdsIncreasing(docs)
    ensures DocumentIdsIncreasing(MatchingDocuments(docs, status))
  {
    if docs != [] {
      var prefix := docs[..|docs| - 1];
      var d := docs[|docs| - 1];
      MatchingKeepsOrder(prefix, status);
      var rest := MatchingDocuments(prefix, status);
      forall x | x in rest ensures x.id < d.id {
        var k :| 0 <= k < |prefix| && prefix[k] == x;
        assert docs[k] == x;
      }
      var r := MatchingDocuments(docs, status);
      assert r == rest + (if status.Some? && status.value != "" && d.processingStatus != status.value then [] else [d]);
      forall i, j | 0 <= i < j < |r| ensures r[i].id < r[j].id {
        if j < |rest| {
          assert r[i] == rest[i] && r[j] == rest[j];
        } else {
          assert r[i] == rest[i] && rest[i] in rest && r[j] == d;
        }
      }
    }
  }

  /** The listed page is newest first: ids decrease along it. */
  lemma ListDocumentsNewestFirst(docs: seq<Document>, status: Option<string>, skip: nat, limit: nat)
    requires DocumentIdsIncreasing(docs)
    ensures var r := ListDocuments(docs, status, skip, limit);
      r.Ok? ==> forall i, j :: 0 <= i < j < |r.value.1| ==> r.value.1[i].id > r.value.1[j].id
  {
    var r := ListDocuments(docs, status, skip, limit);
    if r.Ok? {
      var matching := MatchingDocuments(docs, status);
      MatchingKeepsOrder(docs, status);
      var page := r.value.1;
      forall i, j | 0 <= i < j < |page| ensures page[i].id > page[j].id {
        var x := |matching| - 1 - (skip + i);
        var y := |matching| - 1 - (skip + j);
        assert page[i] == matching[x] && page[j] == matching[y];
        assert 0 <= y < x < |matching|;
        assert matching[y].id < matching[x].id;
      }
    }
  }

  function DocumentIndex(docs: seq<Document>, id: int): (r: Option<nat>)
    ensures r.Some? ==> r.value < |docs| && docs[r.value].id == id
    ensures r.None? <==> forall d :: d in docs ==> d.id != id
  {
    if docs == [] then None
    else if docs[0].id == id then Some(0)
    else
      var rest := DocumentIndex(docs[1..], id);
      if rest.Some? then Some(rest.value + 1) else None
  }

  class DocumentStore {
    var documents: seq<Document>
    var nextId: nat

    /** Ids increase and stay below the next id; every stored document has a
        safe name, an allowed type and a known status. */
    ghost predicate Valid()
      reads this
    {
      && DocumentIdsIncreasing(documents)
      && (forall d :: d in documents ==> d.id < nextId && DocumentOk(d))
    }

    constructor ()
      ensures Valid() && documents == []
    {
      documents, nextId := [], 1;
    }

    /** `upload_document`'s checks and new record. The stored file name is
        `unique` (a fresh UUID), '_' and the safe name; processing follows
        separately. */
    method Upload(filename: string, size: nat, mime: string, unique: string) returns (r: Result<Document, HttpError>)
      requires Valid()
      modifies this
      ensures Valid()
      ensures var check := UploadCheck(filename, size, mime);
        && (check.Err? ==> r == Err(check.error) && documents == old(documents))
        && (check.Ok? ==>
          && r.Ok? && r.value.id == old(nextId)
          && r.value == Document(old(nextId), unique + "_" + check.value.safeName, check.value.safeName,
                                 check.value.fileType, size, "pending", false, None, None, None, None, None, None)
          && documents == old(documents) + [r.value])
    {
      var check := UploadCheck(filename, size, mime);
      if check.Err? {
        return Err(check.error);
      }
      var d := Document(nextId, unique + "_" + check.value.safeName, check.value.safeName,
                        check.value.fileType, size, "pending", false, None, None, None, None, None, None);
      assert DocumentOk(d);
      Add(d);
      return Ok(d);
    }

    function GetDocument(id: int): (r: Result<Document, HttpError>)
      reads this
      ensures r.Err? <==> forall d :: d in documents ==> d.id != id
      ensures r.Err? ==> r.error == DocumentNotFound
      ensures r.Ok? ==> r.value in documents && r.value.id == id
    {
      var k := DocumentIndex(documents, id);
      if k.None? then Err(DocumentNotFound) else Ok(documents[k.value])
    }

    /** Stores a new well-formed document under the next id. */
    method Add(d: Document)
      requires Valid() && d.id == nextId && DocumentOk(d)
      modifies this
      ensures Valid() && documents == old(documents) + [d] && nextId == old(nextId) + 1
    {
      documents := documents + [d];
      nextId := nextId + 1;
    }

    /** Replaces document `k` by a changed copy that is still well formed. */
    method Replace(k: nat, d: Document)
      requires Valid() && k < |documents| && d.id == documents[k].id && DocumentOk(d)
      modifies this
      ensures Valid() && documents == old(documents)[k := d] && nextId == old(nextId)
    {
      assert documents[k] in documents;
      documents := documents[k := d];
      forall x | x in documents ensures x.id < nextId && DocumentOk(x) {
        var i :| 0 <= i < |documents| && documents[i] == x;
        assert i != k ==> old(documents)[i] in old(documents);
      }
    }

    method Remove(k: nat)
      requires Valid() && k < |documents|
      modifies this
      ensures Valid() && documents == old(documents)[..k] + old(documents)[k + 1..] && nextId == old(nextId)
    {
      RemoveKeepsOrder(documents, k);
      documents := documents[..k] + documents[k + 1..];
    }

    /** `process_document_ai`: a missing document is ignored. */
    method ApplyProcessing(id: int, outcome: ProcessingOutcome)
      requires Valid()
      modifies this
      ensures Valid()
      ensures DocumentIndex(old(documents), id).None? ==> documents == old(documents)
      ensures DocumentIndex(old(documents), id).Some? ==>
        var k := DocumentIndex(old(documents), id).value;
        documents == old(documents)[k := Processed(old(documents)[k], outcome)]
    {
      var k := DocumentIndex(documents, id);
      if k.None? {
        return;
      }
      assert documents[k.value] in documents;
      StatusesStayValid(documents[k.value], outcome, false, None);
      Replace(k.value, Processed(documents[k.value], outcome));
    }

    /** `review_document` */
    method ReviewDocument(id: int, approved: bool, notes: Option<string>) returns (r: Result<string, HttpError>)
      requires Valid()
      modifies this
      ensures Valid()
      ensures DocumentIndex(old(documents), id).None? ==> r == Err(DocumentNotFound) && documents == old(documents)
      ensures DocumentIndex(old(documents), id).Some? ==>
        var k := DocumentIndex(old(documents), id).value;
        r == Ok("Document reviewed successfully") && documents == old(documents)[k := Reviewed(old(documents)[k], approved, notes)]
    {
      var k := DocumentIndex(documents, id);
      if k.None? {
        return Err(DocumentNotFound);
      }
      assert documents[k.value] in documents;
      StatusesStayValid(documents[k.value], Failed, approved, notes);
      Replace(k.value, Reviewed(documents[k.value], approved, notes));
      return Ok("Document reviewed successfully");
    }

    /** `reprocess_document`: the document goes back to pending; the new
        processing run is `ApplyProcessing`. */
    method ReprocessDocument(id: int) returns (r: Result<string, HttpError>)
      requires Valid()
      modifies this
      ensures Valid()
      ensures DocumentIndex(old(documents), id).None? ==> r == Err(DocumentNotFound) && documents == old(documents)
      ensures DocumentIndex(old(documents), id).Some? ==>
        var k := DocumentIndex(old(documents), id).value;
        r == Ok("Document reprocessing started") && documents == old(documents)[k := old(documents)[k].(processingStatus := "pending")]
    {
      var k := DocumentIndex(documents, id);
      if k.None? {
        return Err(DocumentNotFound);
      }
      assert documents[k.value] in documents;
      Replace(k.value, documents[k.value].(processingStatus := "pending"));
      return Ok("Document reprocessing started");
    }

    /** `delete_document`: the record goes; removing the file is not modelled. */
    method DeleteDocument(id: int) returns (r: Result<string, HttpError>)
      requires Valid()
      modifies this
      ensures Valid()
      ensures DocumentIndex(old(documents), id).None? ==> r == Err(DocumentNotFound) && documents == old(documents)
      ensures DocumentIndex(old(documents), id).Some? ==>
        var k := DocumentIndex(old(documents), id).value;
        r == Ok("Document deleted successfully") && documents == old(documents)[..k] + old(documents)[k + 1..]
    {
      var k := DocumentIndex(documents, id);
      if k.None? {
        return Err(DocumentNotFound);
      }
      Remove(k.value);
      return Ok("Document deleted successfully");
    }
  }

  lemma RemoveKeepsOrder(docs: seq<Document>, k: nat)
    requires k < |docs| && forall i, j :: 0 <= i < j < |docs| ==> docs[i].id < docs[j].id
    ensures var r := docs[..k] + docs[k + 1..];
      && (forall i, j :: 0 <= i < j < |r| ==> r[i].id < r[j].id)
      && (forall d :: d in r ==> d in docs)
  {
    var r := docs[..k] + docs[k + 1..];
    forall i, j | 0 <= i < j < |r| ensures r[i].id < r[j].id {
      var i' := if i < k then i else i + 1;
      var j' := if j < k then j else j + 1;
      assert r[i] == docs[i'] && r[j] == docs[j'];
    }
  }
}
