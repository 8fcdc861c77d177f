/** `DocumentIngestionPipeline.process_document` (both versions) with the PDF processor: save the
    upload, classify it by extension, run the matching processor and add the document fields. */
module Ingestion {
  import opened Results
  import opened Text
  import opened Collections
  import opened FileTypes
  import opened Chunking
  import opened Tabular
  import StructuredCsv
  import LegacyCsv

  type Bytes = seq<bv8>

  /** The values a processor's metadata dictionary holds; pandas objects (the data frame, the
      analysis, sample rows, summary statistics) are kept only by name. */
  datatype MetaValue = Str(s: string) | Int(i: int) | Texts(items: seq<string>) | PandasObject(what: string)

  type Metadata = map<string, MetaValue>

  /** What the libraries outside this model produce for a saved file: PyPDF2's page texts and
      `pd.read_csv`'s table (each may fail), plus the pandas-side probes and renderings. */
  datatype Readers = Readers(
    pages: Result<seq<string>>,
    table: Result<Table>,
    parsesAsDate: string -> bool,
    timeSeriesOk: string -> bool,
    render: StructuredCsv.Facet -> string,
    stats: string -> (string, string))

  /** The two versions of the pipeline differ only in their CSV processor. */
  datatype Version = Current | Legacy

  /** `os.path.join(directory, name)`. */
  function JoinPath(directory: string, name: string): string {
    if StartsWith(name, "/") || directory == "" then name
    else if directory[|directory| - 1] == '/' then directory + name
    else directory + "/" + name
  }

  /** The upload directory: saved files by path. */
  class UploadDirectory {
    const path: string
    var files: map<string, Bytes>

    constructor (path: string)
      ensures this.path == path && files == map[]
    {
      this.path := path;
      files := map[];
    }

    /** `save_file`: store the bytes as `{document_id}{suffix}` in the upload directory, keeping
        the suffix's original case. The fresh `uuid4()` is the `documentId` argument. */
    method SaveFile(content: Bytes, filename: string, documentId: string) returns (filePath: string)
      modifies this
      ensures filePath == JoinPath(path, documentId + Suffix(PathName(filename)))
      ensures files == old(files)[filePath := content]
    {
      var savedName := documentId + Suffix(PathName(filename));
      filePath := JoinPath(path, savedName);
      files := files[filePath := content];
    }
  }

  const PdfKeys: set<string> := {"total_chunks", "total_characters", "total_words", "chunks", "full_text"}
  const CsvKeys: set<string> := {"dataframe", "analysis", "sample_data", "summary_stats", "chunks", "total_chunks",
                                 "total_words", "chunking_strategy"}
  const LegacyCsvKeys: set<string> := {"dataframe", "analysis", "sample_data", "summary_stats", "chunks", "total_chunks",
                                       "total_words"}

  /** The PDF processor's entries in `m`: the stripped text of the pages joined by newlines, its length
      and word count, and its chunks cut with the default size and overlap, with their number. */
  ghost predicate PdfMetadata(pages: seq<string>, m: Metadata) {
    var text := Strip(Join(pages, "\n"));
    PdfKeys <= m.Keys &&
    m["total_characters"] == Int(|text|) && m["total_words"] == Int(WordCount(text)) &&
    m["full_text"] == Str(text) &&
    m["chunks"].Texts? && m["total_chunks"] == Int(|m["chunks"].items|) &&
    StrippedChunks(text, DefaultChunkSize, DefaultChunkSize - DefaultOverlap, m["chunks"].items)
  }

  /** The current CSV processor's entries in `m`: the labelled renderings of the structured layout of
      the table, their number and word total, and the strategy name. */
  ghost predicate CsvMetadata(t: Table, readers: Readers, m: Metadata)
    requires t.Valid()
  {
    var a := Analyzed(t, readers.parsesAsDate);
    var texts := StructuredCsv.Render(StructuredCsv.Layout(t, a, 1000, readers.timeSeriesOk), t, a, readers.render);
    CsvKeys <= m.Keys &&
    m["chunks"].Texts? && |m["chunks"].items| == |texts| &&
    (forall i {:trigger m["chunks"].items[i]} :: 0 <= i < |texts| ==>
       m["chunks"].items[i] == StructuredCsv.ChunkLabel(i + 1) + texts[i]) &&
    m["total_chunks"] == Int(|m["chunks"].items|) && m["total_words"] == Int(TotalWords(m["chunks"].items)) &&
    m["chunking_strategy"] == Str("multi_strategy_csv")
  }

  /** The older CSV processor's entries in `m`: its chunk layout of the table, their number and word total. */
  ghost predicate LegacyCsvMetadata(t: Table, readers: Readers, m: Metadata)
    requires t.Valid()
  {
    LegacyCsvKeys <= m.Keys &&
    m["chunks"] == Texts(LegacyCsv.Layout(t, Analyzed(t, readers.parsesAsDate), readers.stats)) &&
    m["total_chunks"] == Int(|m["chunks"].items|) && m["total_words"] == Int(TotalWords(m["chunks"].items))
  }

  /** `PDFProcessor.process`: extract, chunk with the default sizes, count. */
  method ProcessPdf(pages: seq<string>) returns (m: Metadata)
    ensures m.Keys == PdfKeys && PdfMetadata(pages, m)
    ensures |m["chunks"].items| == CeilDiv(|Strip(Join(pages, "\n"))|, DefaultChunkSize - DefaultOverlap)
  {
    var text := ExtractText(pages);
    var chunks := ChunkText(text, None, None);
    m := map[
      "total_chunks" := Int(|chunks|),
      "total_characters" := Int(|text|),
      "total_words" := Int(WordCount(text)),
      "chunks" := Texts(chunks),
      "full_text" := Str(text)];
  }

  /** The current CSV processor's metadata. */
  method ProcessCsv(t: Table, readers: Readers) returns (m: Metadata)
    requires t.Valid()
    ensures m.Keys == CsvKeys && CsvMetadata(t, readers, m)
  {
    var r := StructuredCsv.Process(t, 1000, readers.parsesAsDate, readers.timeSeriesOk, readers.render);
    m := map[
      "dataframe" := PandasObject("dataframe"),
      "analysis" := PandasObject("analysis"),
      "sample_data" := PandasObject("sample_data"),
      "summary_stats" := PandasObject("summary_stats"),
      "chunks" := Texts(r.chunks),
      "total_chunks" := Int(r.totalChunks),
      "total_words" := Int(r.totalWords),
      "chunking_strategy" := Str(r.strategy)];
  }

  /** The older CSV processor's metadata. */
  method ProcessLegacyCsv(t: Table, readers: Readers) returns (m: Metadata)
    requires t.Valid()
    ensures m.Keys == LegacyCsvKeys && LegacyCsvMetadata(t, readers, m)
    ensures |m["chunks"].items| == 1 + |t.columns| + (if t.rows < 5 then t.rows else 5)
  {
    var r := LegacyCsv.Process(t, readers.parsesAsDate, readers.stats);
    LegacyCsv.LayoutCount(t, r.analysis, readers.stats);
    m := map[
      "dataframe" := PandasObject("dataframe"),
      "analysis" := PandasObject("analysis"),
      "sample_data" := PandasObject("sample_data"),
      "summary_stats" := PandasObject("summary_stats"),
      "chunks" := Texts(r.chunks),
      "total_chunks" := Int(r.totalChunks),
      "total_words" := Int(r.totalWords)];
  }

  /** The fields `process_document` adds to the processor's metadata (`metadata.update`). */
  function DocumentFields(documentId: string, filename: string, fileType: FileType, filePath: string): Metadata {
    map[
      "document_id" := Str(documentId),
      "filename" := Str(filename),
      "file_type" := Str(fileType.Name()),
      "file_path" := Str(filePath),
      "status" := Str("processed")]
  }

  const DocumentFieldKeys: set<string> := {"document_id", "filename", "file_type", "file_path", "status"}

  /** The document fields never collide with a processor's keys. */
  lemma DocumentFieldsApart(documentId: string, filename: string, fileType: FileType, filePath: string)
    ensures DocumentFields(documentId, filename, fileType, filePath).Keys == DocumentFieldKeys
    ensures DocumentFieldKeys !! PdfKeys && DocumentFieldKeys !! CsvKeys && LegacyCsvKeys <= CsvKeys
  {
    forall k | k in DocumentFieldKeys
      ensures k !in PdfKeys && k !in CsvKeys
    {
      assert k[0] in "dfs";
    }
  }

  /** Adding entries under other keys keeps what a processor put in the metadata. */
  lemma ProcessorEntriesKept(m: Metadata, fields: Metadata, keys: set<string>)
    requires keys <= m.Keys && fields.Keys !! keys
    ensures keys <= (m + fields).Keys && forall k :: k in keys ==> (m + fields)[k] == m[k]
  {
  }

  /** Every entry of `fields` is in `m`. */
  predicate Includes(m: Metadata, fields: Metadata) {
    forall k :: k in fields ==> k in m && m[k] == fields[k]
  }

  /** `update` keeps every processor key, overwrites nothing but the five document fields, and
      always ends with status `processed`. */
  lemma DocumentFieldsUpdate(m: Metadata, documentId: string, filename: string, fileType: FileType, filePath: string)
    ensures var u := m + DocumentFields(documentId, filename, fileType, filePath);
      u.Keys == m.Keys + {"document_id", "filename", "file_type", "file_path", "status"} &&
      u["status"] == Str("processed") && u["document_id"] == Str(documentId) &&
      u["file_type"] == Str(fileType.Name()) &&
      forall k :: k in m && k !in {"document_id", "filename", "file_type", "file_path", "status"} ==> u[k] == m[k]
  {
  }

  /** `process_document`: the file is saved first; then an unsupported extension, an unreadable PDF
      or an unreadable CSV raises, with the file already saved; otherwise the processor's metadata
      gains the document fields. */
  method ProcessDocument(dir: UploadDirectory, version: Version, content: Bytes, filename: string,
                         documentId: string, readers: Readers) returns (r: Result<Metadata>)
    requires readers.table.Success? ==> readers.table.value.Valid()
    modifies dir
    ensures var filePath := JoinPath(dir.path, documentId + Suffix(PathName(filename)));
      dir.files == old(dir.files)[filePath := content] &&
      match GetFileType(filename)
      case Failure(e) => r == Failure(e)
      case Success(Pdf) =>
        (readers.pages.Failure? ==> r == Failure(readers.pages.error)) &&
        (readers.pages.Success? ==>
          r.Success? && r.value.Keys == PdfKeys + DocumentFieldKeys &&
          PdfMetadata(readers.pages.value, r.value) &&
          Includes(r.value, DocumentFields(documentId, filename, Pdf, filePath)))
      case Success(Csv) =>
        (readers.table.Failure? ==> r == Failure(readers.table.error)) &&
        (readers.table.Success? ==>
          r.Success? && Includes(r.value, DocumentFields(documentId, filename, Csv, filePath)) &&
          (version == Current ==>
             r.value.Keys == CsvKeys + DocumentFieldKeys && CsvMetadata(readers.table.value, readers, r.value)) &&
          (version == Legacy ==>
             r.value.Keys == LegacyCsvKeys + DocumentFieldKeys &&
             LegacyCsvMetadata(readers.table.value, readers, r.value)))
  {
    var filePath := dir.SaveFile(content, filename, documentId);
    var fileType := GetFileType(filename);
    if fileType.Failure? {
      return Failure(fileType.error);
    }
    var metadata: Metadata;
    match fileType.value {
      case Pdf =>
        if readers.pages.Failure? {
          return Failure(readers.pages.error);
        }
        metadata := ProcessPdf(readers.pages.value);
      case Csv =>
        if readers.table.Failure? {
          return Failure(readers.table.error);
        }
        if version == Current {
          metadata := ProcessCsv(readers.table.value, readers);
        } else {
          metadata := ProcessLegacyCsv(readers.table.value, readers);
        }
    }
    var fields := DocumentFields(documentId, filename, fileType.value, filePath);
    DocumentFieldsApart(documentId, filename, fileType.value, filePath);
    ProcessorEntriesKept(metadata, fields, if fileType.value == Pdf then PdfKeys else metadata.Keys);
    metadata := metadata + fields;
    r := Success(metadata);
  }
}
