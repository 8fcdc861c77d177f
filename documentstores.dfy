/** The in-memory document registries of the chatbot API classes: the unified `FinancialChatbot`
    and the simplified `LangGraphChatbot` both keep a `document_store` dictionary from document id
    to the ingestion metadata, next to the vector store. The enhanced chatbot keeps no registry and
    passes through to the vector store.

    The vector store is outside this model: what it answers (its chunk lookup and whether a
    deletion raised) is a parameter, and the chunk additions the chatbot sends it are recorded, in
    order, in `vectorAdds`. The dictionary's iteration order (insertion order) is kept in `order`. */
module DocumentStores {
  import opened Results
  import opened Collections
  import opened Ingestion

  /** `DocumentType`, the upload response's document type: the only member is `pdf`. */
  const DocumentTypes: set<string> := {"pdf"}

  /** The document type of the error response. */
  const ErrorDocumentType := "pdf"

  /** The validation error raised when a non-member document type is put into the response. */
  const InvalidDocumentType := "document_type: value is not a valid DocumentType"

  /** `DocumentUploadResponse`. */
  datatype UploadResponse = UploadResponse(
    documentId: string, filename: string, documentType: string, status: string, metadata: Metadata)

  /** One `add_document_chunks` call: document id, chunks and the metadata sent along. */
  datatype VectorAdd = VectorAdd(documentId: string, chunks: MetaValue, metadata: Metadata)

  /** Python truthiness of a metadata value (a pandas object is never stored under `chunks`). */
  predicate NonEmpty(v: MetaValue) {
    match v
    case Str(s) => s != ""
    case Int(i) => i != 0
    case Texts(items) => items != []
    case PandasObject(_) => true
  }

  /** `m[key]`, raising `KeyError` when it is missing. */
  function Field(m: Metadata, key: string): (r: Result<MetaValue>)
    ensures r.Success? <==> key in m
    ensures r.Success? ==> r.value == m[key]
  {
    if key in m then Success(m[key]) else Failure("'" + key + "'")
  }

  /** `m.get(key, default)`. */
  function Get(m: Metadata, key: string, default: MetaValue): MetaValue {
    if key in m then m[key] else default
  }

  /** Document ids are strings: the ingestion pipeline stores the `uuid4` text under `document_id`. */
  predicate DocumentIdIsText(processed: Result<Metadata>) {
    processed.Success? && "document_id" in processed.value ==> processed.value["document_id"].Str?
  }

  // ---------------------------------------------------------------------------------------------
  // Upload (identical in both chatbots)

  function ErrorResponse(filename: string, e: string): UploadResponse {
    UploadResponse("", filename, ErrorDocumentType, "error", map["error" := Str(e)])
  }

  /** The metadata dictionary sent with the chunks; a missing key raises before the call. */
  function VectorMetadata(m: Metadata): Result<Metadata> {
    var filename :- Field(m, "filename");
    var fileType :- Field(m, "file_type");
    var totalChunks :- Field(m, "total_chunks");
    Success(map["filename" := filename, "file_type" := fileType, "total_chunks" := totalChunks])
  }

  /** The success response; building it fails when the file type is missing or not a `DocumentType`. */
  function Receipt(documentId: string, filename: string, m: Metadata, fileSize: nat): UploadResponse {
    if "file_type" !in m then ErrorResponse(filename, "'file_type'")
    else if !(m["file_type"].Str? && m["file_type"].s in DocumentTypes) then ErrorResponse(filename, InvalidDocumentType)
    else UploadResponse(documentId, filename, m["file_type"].s, "processed", map[
      "total_chunks" := Get(m, "total_chunks", Int(0)),
      "total_words" := Get(m, "total_words", Int(0)),
      "file_size" := Int(fileSize)])
  }

  /** What an upload does: the id it stores the metadata under (if any), the vector-store addition
      it makes (if any), and its response. */
  datatype UploadEffect = UploadEffect(stored: Option<string>, indexed: Option<VectorAdd>, response: UploadResponse)

  /** `upload_document` given the ingestion outcome, the file size and the outcome of the vector
      store's `add_document_chunks`. */
  function Upload(processed: Result<Metadata>, filename: string, fileSize: nat, addOutcome: Result<()>): UploadEffect
    requires DocumentIdIsText(processed)
  {
    if processed.Failure? then UploadEffect(None, None, ErrorResponse(filename, processed.error))
    else if "document_id" !in processed.value then UploadEffect(None, None, ErrorResponse(filename, "'document_id'"))
    else
      var m := processed.value;
      var id := m["document_id"].s;
      if "chunks" in m && NonEmpty(m["chunks"]) then
        match VectorMetadata(m)
        case Failure(e) => UploadEffect(Some(id), None, ErrorResponse(filename, e))
        case Success(vm) =>
          var add := VectorAdd(id, m["chunks"], vm);
          if addOutcome.Failure? then UploadEffect(Some(id), Some(add), ErrorResponse(filename, addOutcome.error))
          else UploadEffect(Some(id), Some(add), Receipt(id, filename, m, fileSize))
      else UploadEffect(Some(id), None, Receipt(id, filename, m, fileSize))
  }

  /** The response is either a success for the stored document or the error response with an
      empty id; chunks go to the vector store only for a stored document with non-empty chunks,
      and they are that document's chunks. */
  lemma UploadOutcome(processed: Result<Metadata>, filename: string, fileSize: nat, addOutcome: Result<()>)
    requires DocumentIdIsText(processed)
    ensures var e := Upload(processed, filename, fileSize, addOutcome);
      (e.response.status == "processed" || e.response.status == "error") &&
      e.response.filename == filename &&
      (e.response.status == "error" ==>
        e.response.documentId == "" && e.response.documentType == ErrorDocumentType &&
        e.response.metadata.Keys == {"error"}) &&
      (e.response.status == "processed" ==>
        e.stored == Some(e.response.documentId) && e.response.documentType in DocumentTypes &&
        e.response.metadata.Keys == {"total_chunks", "total_words", "file_size"} &&
        e.response.metadata["file_size"] == Int(fileSize)) &&
      (e.indexed.Some? ==>
        processed.Success? && e.stored == Some(e.indexed.value.documentId) &&
        "chunks" in processed.value && NonEmpty(processed.value["chunks"]) &&
        e.indexed.value.chunks == processed.value["chunks"])
  {
  }

  /** The entry is written before anything else can fail: a processed document with an id is stored
      even when the vector store, a missing key or the response then fails. */
  lemma StoredEvenOnError(processed: Result<Metadata>, filename: string, fileSize: nat, addOutcome: Result<()>)
    requires DocumentIdIsText(processed)
    requires processed.Success? && "document_id" in processed.value
    ensures Upload(processed, filename, fileSize, addOutcome).stored == Some(processed.value["document_id"].s)
  {
  }

  /** An upload succeeds exactly when processing succeeded with an id, the chunk hand-off (if there
      are chunks) went through, and the file type is a `DocumentType`. */
  lemma UploadSucceedsIff(processed: Result<Metadata>, filename: string, fileSize: nat, addOutcome: Result<()>)
    requires DocumentIdIsText(processed)
    ensures Upload(processed, filename, fileSize, addOutcome).response.status == "processed" <==>
      processed.Success? && "document_id" in processed.value &&
      ("chunks" in processed.value && NonEmpty(processed.value["chunks"]) ==>
        VectorMetadata(processed.value).Success? && addOutcome.Success?) &&
      "file_type" in processed.value && processed.value["file_type"].Str? &&
      processed.value["file_type"].s in DocumentTypes
  {
  }

  /** Because `DocumentType` admits only `pdf`, every processed CSV upload is registered (and its
      chunks indexed) but answered with the error response. */
  lemma CsvUploadReportedAsError(processed: Result<Metadata>, filename: string, fileSize: nat, addOutcome: Result<()>)
    requires DocumentIdIsText(processed)
    requires processed.Success? && "document_id" in processed.value
    requires "file_type" in processed.value && processed.value["file_type"] == Str("csv")
    ensures var e := Upload(processed, filename, fileSize, addOutcome);
      e.stored.Some? && e.response.status == "error" && e.response.documentId == ""
  {
  }

  // ---------------------------------------------------------------------------------------------
  // The registry and its iteration order

  predicate Distinct(s: seq<string>) {
    forall i, j :: 0 <= i < j < |s| ==> s[i] != s[j]
  }

  /** The order lists each registered id exactly once. */
  ghost predicate Indexed(store: map<string, Metadata>, order: seq<string>) {
    Distinct(order) && forall id :: id in store <==> id in order
  }

  /** A dictionary assignment: a new key goes last, an existing key keeps its place. */
  function InsertKey(order: seq<string>, id: string): seq<string> {
    if id in order then order else order + [id]
  }

  /** `del`: the key leaves the order, the others keep theirs. */
  function RemoveKey(order: seq<string>, id: string): seq<string> {
    Filter(order, k => k != id)
  }

  lemma {:induction false} FilterDistinct(s: seq<string>, p: string -> bool)
    requires Distinct(s)
    ensures Distinct(Filter(s, p))
  {
    if |s| > 0 {
      FilterDistinct(s[1..], p);
      FilterMembership(s[1..], p, s[0]);
      var rest := Filter(s[1..], p);
      assert s[0] !in s[1..];
      if p(s[0]) {
        var r := [s[0]] + rest;
        forall i, j | 0 <= i < j < |r|
          ensures r[i] != r[j]
        {
          if i == 0 {
            assert r[j] == rest[j - 1];
          }
        }
      }
    }
  }

  lemma InsertKeyIndexed(store: map<string, Metadata>, order: seq<string>, id: string, m: Metadata)
    requires Indexed(store, order)
    ensures Indexed(store[id := m], InsertKey(order, id))
  {
  }

  lemma RemoveKeyIndexed(store: map<string, Metadata>, order: seq<string>, id: string)
    requires Indexed(store, order)
    ensures Indexed(store - {id}, RemoveKey(order, id))
  {
    FilterDistinct(order, k => k != id);
    forall k
      ensures k in store - {id} <==> k in RemoveKey(order, id)
    {
      FilterMembership(order, k' => k' != id, k);
    }
  }

  // ---------------------------------------------------------------------------------------------
  // Listing

  datatype Variant = Unified | LangGraph

  /** One `list_documents` entry. The unified chatbot defaults the status to `processed` and adds
      `total_chunks` (default 0); the LangGraph chatbot requires a status and has no chunk count. */
  datatype Listed = Listed(documentId: string, filename: MetaValue, fileType: MetaValue, status: MetaValue,
                           totalChunks: Option<MetaValue>)

  function Entry(variant: Variant, id: string, m: Metadata): (r: Result<Listed>)
    ensures r.Success? ==> r.value.documentId == id
    ensures r.Success? <==> "filename" in m && "file_type" in m && (variant == LangGraph ==> "status" in m)
  {
    var filename :- Field(m, "filename");
    var fileType :- Field(m, "file_type");
    match variant
    case Unified =>
      Success(Listed(id, filename, fileType, Get(m, "status", Str("processed")), Some(Get(m, "total_chunks", Int(0)))))
    case LangGraph =>
      var status :- Field(m, "status");
      Success(Listed(id, filename, fileType, status, None))
  }

  /** The entries for `ids` in order; the first entry that cannot be built raises. */
  function Listing(variant: Variant, ids: seq<string>, store: map<string, Metadata>): Result<seq<Listed>>
    requires forall k :: 0 <= k < |ids| ==> ids[k] in store
  {
    if ids == [] then Success([])
    else
      var front :- Listing(variant, ids[..|ids| - 1], store);
      var last :- Entry(variant, ids[|ids| - 1], store[ids[|ids| - 1]]);
      Success(front + [last])
  }

  /** A listing has one entry per id, in order; it fails iff some document lacks a required key. */
  lemma {:induction false} ListingOnePerId(variant: Variant, ids: seq<string>, store: map<string, Metadata>)
    requires forall k :: 0 <= k < |ids| ==> ids[k] in store
    ensures var l := Listing(variant, ids, store);
      (l.Success? ==> |l.value| == |ids| && forall i :: 0 <= i < |ids| ==> l.value[i].documentId == ids[i]) &&
      (l.Failure? <==> exists i :: 0 <= i < |ids| && Entry(variant, ids[i], store[ids[i]]).Failure?)
    decreases |ids|
  {
    if ids != [] {
      var front := ids[..|ids| - 1];
      ListingOnePerId(variant, front, store);
      if Listing(variant, front, store).Failure? {
        var i :| 0 <= i < |front| && Entry(variant, front[i], store[front[i]]).Failure?;
        assert ids[i] == front[i];
      } else if Entry(variant, ids[|ids| - 1], store[ids[|ids| - 1]]).Success? {
        forall i | 0 <= i < |ids|
          ensures Entry(variant, ids[i], store[ids[i]]).Success?
        {
          if i < |front| {
            assert ids[i] == front[i];
          }
        }
      }
    }
  }

  /** A listing names every registered document exactly once. */
  lemma ListingCoversStore(variant: Variant, store: map<string, Metadata>, order: seq<string>, l: seq<Listed>)
    requires Indexed(store, order)
    requires Listing(variant, order, store) == Success(l)
    ensures forall i, j :: 0 <= i < j < |l| ==> l[i].documentId != l[j].documentId
    ensures forall id :: id in store <==> exists i :: 0 <= i < |l| && l[i].documentId == id
  {
    ListingOnePerId(variant, order, store);
    forall id | id in store
      ensures exists i :: 0 <= i < |l| && l[i].documentId == id
    {
      var i :| 0 <= i < |order| && order[i] == id;
      assert l[i].documentId == id;
    }
  }

  // ---------------------------------------------------------------------------------------------
  // The unified chatbot (`backend/app/api/financial_chatbot.py`)

  class FinancialChatbot {
    var documentStore: map<string, Metadata>
    var order: seq<string>
    var vectorAdds: seq<VectorAdd>

    ghost predicate Valid()
      reads this
    {
      Indexed(documentStore, order)
    }

    constructor ()
      ensures Valid() && documentStore == map[] && order == [] && vectorAdds == []
    {
      documentStore := map[];
      order := [];
      vectorAdds := [];
    }

    /** `upload_document`: store the processed metadata under its id, hand non-empty chunks to the
        vector store, then build the response; any failure gives the error response. */
    method UploadDocument(processed: Result<Metadata>, filename: string, fileSize: nat, addOutcome: Result<()>)
      returns (resp: UploadResponse)
      requires Valid() && DocumentIdIsText(processed)
      modifies this
      ensures Valid()
      ensures var e := Upload(processed, filename, fileSize, addOutcome);
        resp == e.response &&
        (e.stored.None? ==> documentStore == old(documentStore) && order == old(order)) &&
        (e.stored.Some? ==>
          documentStore == old(documentStore)[e.stored.value := processed.value] &&
          order == InsertKey(old(order), e.stored.value)) &&
        vectorAdds == old(vectorAdds) + (if e.indexed.Some? then [e.indexed.value] else [])
    {
      if processed.Failure? {
        return ErrorResponse(filename, processed.error);
      }
      var metadata := processed.value;
      if "document_id" !in metadata {
        return ErrorResponse(filename, "'document_id'");
      }
      var documentId := metadata["document_id"].s;
      InsertKeyIndexed(documentStore, order, documentId, metadata);
      documentStore := documentStore[documentId := metadata];
      order := InsertKey(order, documentId);
      if "chunks" in metadata && NonEmpty(metadata["chunks"]) {
        var vectorMetadata := VectorMetadata(metadata);
        if vectorMetadata.Failure? {
          return ErrorResponse(filename, vectorMetadata.error);
        }
        vectorAdds := vectorAdds + [VectorAdd(documentId, metadata["chunks"], vectorMetadata.value)];
        if addOutcome.Failure? {
          return ErrorResponse(filename, addOutcome.error);
        }
      }
      resp := Receipt(documentId, filename, metadata, fileSize);
    }

    /** `get_document_info`: a registered document is described from its entry (a missing
        `filename` or `file_type` gives `None`); otherwise from the first of the vector store's
        chunks for it, and `None` when it has none or the lookup raises. */
    function GetDocumentInfo(documentId: string, vectorChunks: Result<seq<map<string, string>>>): (r: Option<Metadata>)
      reads this
      ensures r.Some? ==> "document_id" in r.value && r.value["document_id"] == Str(documentId)
      ensures documentId in documentStore ==>
        var m := documentStore[documentId];
        (r.Some? <==> "filename" in m && "file_type" in m) &&
        (r.Some? ==>
          "filename" in r.value && "file_type" in r.value && "status" in r.value &&
          r.value["filename"] == m["filename"] && r.value["file_type"] == m["file_type"] &&
          r.value["status"] == Get(m, "status", Str("processed")))
      ensures documentId !in documentStore ==>
        (r.Some? <==> vectorChunks.Success? && vectorChunks.value != []) &&
        (r.Some? ==> "total_chunks" in r.value && r.value["total_chunks"] == Int(|vectorChunks.value|))
    {
      if documentId in documentStore then
        var m := documentStore[documentId];
        if "filename" in m && "file_type" in m then
          Some(map[
            "document_id" := Str(documentId),
            "filename" := m["filename"],
            "file_type" := m["file_type"],
            "total_chunks" := Get(m, "total_chunks", Int(0)),
            "total_words" := Get(m, "total_words", Int(0)),
            "status" := Get(m, "status", Str("processed"))])
        else None
      else if vectorChunks.Failure? || vectorChunks.value == [] then None
      else
        var first := vectorChunks.value[0];
        Some(map[
          "document_id" := Str(documentId),
          "filename" := Str(if "filename" in first then first["filename"] else "Unknown"),
          "file_type" := Str(if "file_type" in first then first["file_type"] else "unknown"),
          "total_chunks" := Int(|vectorChunks.value|),
          "upload_date" := Str(if "upload_date" in first then first["upload_date"] else "Unknown")])
    }

    /** The local registry shadows the vector store: for a registered document the vector store's
        answer makes no difference. */
    lemma RegistryShadowsVectorStore(documentId: string, a: Result<seq<map<string, string>>>,
                                     b: Result<seq<map<string, string>>>)
      requires documentId in documentStore
      ensures GetDocumentInfo(documentId, a) == GetDocumentInfo(documentId, b)
    {
    }

    /** `list_documents`: one entry per registered document in insertion order; a document without
        `filename` or `file_type` makes the whole listing `[]`. */
    method ListDocuments() returns (docs: seq<Listed>)
      requires Valid()
      ensures var l := Listing(Unified, order, documentStore);
        docs == if l.Success? then l.value else []
    {
      var acc: seq<Listed> := [];
      var i := 0;
      while i < |order|
        invariant 0 <= i <= |order|
        invariant Listing(Unified, order[..i], documentStore) == Success(acc)
      {
        assert order[..i + 1][..i] == order[..i];
        var entry := Entry(Unified, order[i], documentStore[order[i]]);
        if entry.Failure? {
          FailureExtends(order, i + 1);
          return [];
        }
        acc := acc + [entry.value];
        i := i + 1;
      }
      assert order[..i] == order;
      docs := acc;
    }

    /** Once a prefix of the listing fails, the whole listing fails. */
    lemma FailureExtends(ids: seq<string>, n: nat)
      requires Valid() && ids == order && n <= |ids|
      requires Listing(Unified, ids[..n], documentStore).Failure?
      ensures Listing(Unified, ids, documentStore).Failure?
    {
      ListingOnePerId(Unified, ids[..n], documentStore);
      var i :| 0 <= i < n && Entry(Unified, ids[..n][i], documentStore[ids[..n][i]]).Failure?;
      ListingOnePerId(Unified, ids, documentStore);
      assert ids[i] == ids[..n][i];
    }

    /** `delete_document`: ask the vector store to delete (if that raises, nothing changes and the
        answer is false), drop the registry entry if there is one, and answer whether either
        deleted something. */
    method DeleteDocument(documentId: string, vectorDelete: Result<bool>) returns (deleted: bool)
      requires Valid()
      modifies this
      ensures Valid() && vectorAdds == old(vectorAdds)
      ensures vectorDelete.Failure? ==> !deleted && documentStore == old(documentStore) && order == old(order)
      ensures vectorDelete.Success? ==>
        documentStore == old(documentStore) - {documentId} && order == RemoveKey(old(order), documentId) &&
        (deleted <==> vectorDelete.value || documentId in old(documentStore))
    {
      if vectorDelete.Failure? {
        return false;
      }
      var success := false;
      if documentId in documentStore {
        RemoveKeyIndexed(documentStore, order, documentId);
        documentStore := documentStore - {documentId};
        order := RemoveKey(order, documentId);
        success := true;
      } else {
        RemoveKeyIndexed(documentStore, order, documentId);
        assert documentStore - {documentId} == documentStore;
        FilterMembership(order, k => k != documentId, documentId);
        FilterAllKept(order, k => k != documentId);
      }
      deleted := vectorDelete.value || success;
    }
  }

  // ---------------------------------------------------------------------------------------------
  // The LangGraph chatbot (`backend/app/api/langgraph_chatbot.py`)

  class LangGraphChatbot {
    var documentStore: map<string, Metadata>
    var order: seq<string>
    var vectorAdds: seq<VectorAdd>

    ghost predicate Valid()
      reads this
    {
      Indexed(documentStore, order)
    }

    constructor ()
      ensures Valid() && documentStore == map[] && order == [] && vectorAdds == []
    {
      documentStore := map[];
      order := [];
      vectorAdds := [];
    }

    /** `upload_document`, the same steps as the unified chatbot's. */
    method UploadDocument(processed: Result<Metadata>, filename: string, fileSize: nat, addOutcome: Result<()>)
      returns (resp: UploadResponse)
      requires Valid() && DocumentIdIsText(processed)
      modifies this
      ensures Valid()
      ensures var e := Upload(processed, filename, fileSize, addOutcome);
        resp == e.response &&
        (e.stored.None? ==> documentStore == old(documentStore) && order == old(order)) &&
        (e.stored.Some? ==>
          documentStore == old(documentStore)[e.stored.value := processed.value] &&
          order == InsertKey(old(order), e.stored.value)) &&
        vectorAdds == old(vectorAdds) + (if e.indexed.Some? then [e.indexed.value] else [])
    {
      if processed.Failure? {
        return ErrorResponse(filename, processed.error);
      }
      var metadata := processed.value;
      if "document_id" !in metadata {
        return ErrorResponse(filename, "'document_id'");
      }
      var documentId := metadata["document_id"].s;
      InsertKeyIndexed(documentStore, order, documentId, metadata);
      documentStore := documentStore[documentId := metadata];
      order := InsertKey(order, documentId);
      if "chunks" in metadata && NonEmpty(metadata["chunks"]) {
        var vectorMetadata := VectorMetadata(metadata);
        if vectorMetadata.Failure? {
          return ErrorResponse(filename, vectorMetadata.error);
        }
        vectorAdds := vectorAdds + [VectorAdd(documentId, metadata["chunks"], vectorMetadata.value)];
        if addOutcome.Failure? {
          return ErrorResponse(filename, addOutcome.error);
        }
      }
      resp := Receipt(documentId, filename, metadata, fileSize);
    }

    /** `get_document_info`: exactly the stored metadata, or `None`. */
    function GetDocumentInfo(documentId: string): (r: Option<Metadata>)
      reads this
      ensures r.Some? <==> documentId in documentStore
      ensures r.Some? ==> r.value == documentStore[documentId]
    {
      if documentId in documentStore then Some(documentStore[documentId]) else None
    }

    /** `list_documents`: one entry per registered document, in insertion order, naming
        `document_id`, `filename`, `file_type` and `status`; a document without one of them raises. */
    function ListDocuments(): (r: Result<seq<Listed>>)
      requires Valid()
      reads this
      ensures r.Success? ==>
        |r.value| == |order| &&
        forall i :: 0 <= i < |order| ==> r.value[i].documentId == order[i] && r.value[i].totalChunks.None?
    {
      ListingOnePerId(LangGraph, order, documentStore);
      ListingShape(order, documentStore);
      Listing(LangGraph, order, documentStore)
    }

    /** `delete_document`: an unknown id answers false and changes nothing; for a registered one the
        vector store is asked to delete (if that raises the entry stays and the answer is false),
        then the entry is dropped and the answer is true. */
    method DeleteDocument(documentId: string, vectorDelete: Result<bool>) returns (deleted: bool)
      requires Valid()
      modifies this
      ensures Valid() && vectorAdds == old(vectorAdds)
      ensures deleted <==> documentId in old(documentStore) && vectorDelete.Success?
      ensures deleted ==> documentStore == old(documentStore) - {documentId} && order == RemoveKey(old(order), documentId)
      ensures !deleted ==> documentStore == old(documentStore) && order == old(order)
    {
      if documentId in documentStore {
        if vectorDelete.Failure? {
          return false;
        }
        RemoveKeyIndexed(documentStore, order, documentId);
        documentStore := documentStore - {documentId};
        order := RemoveKey(order, documentId);
        return true;
      }
      return false;
    }
  }

  /** LangGraph entries never carry a chunk count. */
  lemma {:induction false} ListingShape(ids: seq<string>, store: map<string, Metadata>)
    requires forall k :: 0 <= k < |ids| ==> ids[k] in store
    ensures var l := Listing(LangGraph, ids, store);
      l.Success? ==> |l.value| == |ids| && forall i :: 0 <= i < |l.value| ==> l.value[i].totalChunks.None?
    decreases |ids|
  {
    if ids != [] {
      ListingShape(ids[..|ids| - 1], store);
    }
  }

  // ---------------------------------------------------------------------------------------------
  // The enhanced chatbot (`backend/app/api/enhanced_chatbot.py`): no registry

  /** `delete_document`: the vector store's answer, or false when it raises. */
  function PassThroughDelete(vectorDelete: Result<bool>): (deleted: bool)
    ensures deleted <==> vectorDelete == Success(true)
  {
    if vectorDelete.Success? then vectorDelete.value else false
  }

  /** `list_documents`: always empty, whatever has been uploaded. */
  function PassThroughList(): (docs: seq<Listed>)
    ensures |docs| == 0
  {
    []
  }
}
