/** The pipeline stage `AutoDocPipeline`: it creates a document when the
    configured `tag` opens, applies margins and opens the document for content
    when `opentag` opens, and closes the document when `tag` closes. Its state
    lives in the context map that the final `PdfWriterPipeline` stage owns. */
module AutoDoc {
  import opened CaseFold
  import opened MarginResolution

  /** A markup element as the pipeline sees it: its name and its CSS map. */
  datatype Tag = Tag(name: string, css: seq<CssEntry>)

  /** The output stream a `FileMaker` hands out. */
  datatype Stream = Stream(id: nat)

  /** The outcome of `fm.getStream()`: a stream, or an `IOException`. */
  datatype Acquire = Acquired(stream: Stream) | IoFailure

  /** `PdfWriter.getInstance(d, os)`: a writer binding a document to a stream. */
  datatype Writer = Writer(doc: Document, sink: Stream)

  /** Keys of the `PdfWriterPipeline` context map: `DOCUMENT`, `WRITER`, and those of others. */
  datatype Slot = DocumentSlot | WriterSlot | OtherSlot(name: string)

  datatype Value = DocValue(doc: Document) | WriterValue(writer: Writer) | OtherValue(name: string)

  /** What `(Document) cc.get(DOCUMENT)` yields: null, a failed cast, or a document. */
  datatype Lookup = Missing | NotADocument | Found(doc: Document)

  /** The cause wrapped by a `PipelineException`. */
  datatype Cause = IoCause | DocumentCause | NoCustomContext

  /** The exceptions `open` and `close` can raise: the checked `PipelineException`
      and the unchecked ones that a missing or ill-typed `DOCUMENT` slot provokes. */
  datatype Exception =
    | PipelineException(message: Option<string>, cause: Cause)
    | NullPointer
    | ClassCast

  /** A pipeline stage, by identity. */
  type StageId = nat

  /** Either the stage `open`/`close` returns (`getNext()`), or the exception it throws. */
  datatype Outcome = Returned(next: Option<StageId>) | Thrown(error: Exception)

  /** Elements of the `ProcessObject` queue: the deferred element this stage adds, or another stage's. */
  datatype WritableElement = DeferredOpen(t: Tag) | OtherElement(id: nat)

  const DEPENDS_ON_WRITER: string := "AutoDocPipeline depends on PdfWriterPipeline."

  /** The exception both methods raise when no `PdfWriterPipeline` context exists. */
  const MISSING_WRITER_PIPELINE: Exception := PipelineException(Some(DEPENDS_ON_WRITER), NoCustomContext)

  /** Width in points of the default (A4) page of a new document. */
  const A4_WIDTH: real := 595.0

  /** Margins of a new document: 36 points on each side. */
  const DEFAULT_MARGINS: Margins := Margins(36.0, 36.0, 36.0, 36.0)

  /** The part of a document this stage reads and changes. */
  class Document {
    var pageWidth: real
    var margins: Margins
    var isOpen: bool
    var isClosed: bool

    /** A document as `new Document()` makes it: default page and margins, neither opened nor closed. */
    predicate Pristine()
      reads this
    {
      pageWidth == A4_WIDTH && margins == DEFAULT_MARGINS && !isOpen && !isClosed
    }

    constructor ()
      ensures Pristine()
    {
      pageWidth := A4_WIDTH;
      margins := DEFAULT_MARGINS;
      isOpen := false;
      isClosed := false;
    }

    method SetMargins(m: Margins)
      modifies this`margins
      ensures margins == m
    {
      margins := m;
    }

    method Open()
      modifies this`isOpen
      ensures isOpen
    {
      isOpen := true;
    }

    method Close()
      modifies this`isOpen, this`isClosed
      ensures isClosed && !isOpen
    {
      isOpen := false;
      isClosed := true;
    }
  }

  /** The `MapContext` that `PdfWriterPipeline` registers with the worker context. */
  class MapContext {
    var slots: map<Slot, Value>

    constructor ()
      ensures slots == map[]
    {
      slots := map[];
    }

    /** `(Document) get(DOCUMENT)`. */
    function DocumentLookup(): Lookup
      reads this
    {
      if DocumentSlot !in slots then Missing
      else match slots[DocumentSlot]
        case DocValue(d) => Found(d)
        case _ => NotADocument
    }

    /** The document the `DOCUMENT` slot holds, if any. */
    function Held(): set<Document>
      reads this
    {
      match DocumentLookup()
      case Found(d) => {d}
      case _ => {}
    }

    method Put(k: Slot, v: Value)
      modifies this
      ensures slots == old(slots)[k := v]
    {
      slots := slots[k := v];
    }
  }

  /** The queue of elements that `PdfWriterPipeline` writes when it flushes. */
  class ProcessObject {
    var elements: seq<WritableElement>

    constructor ()
      ensures elements == []
    {
      elements := [];
    }

    method Add(e: WritableElement)
      modifies this
      ensures elements == old(elements) + [e]
    {
      elements := elements + [e];
    }
  }

  class AutoDocPipeline {
    /** The element whose open creates a document and whose close closes it (case-sensitive). */
    const tag: string
    /** The element whose open sets the margins and opens the document (case-insensitive). */
    const opentag: string
    /** `CssUtils.parseValueToPt`. */
    const cssUtils: Converter
    /** The next stage of the chain (`getNext()`). */
    var next: Option<StageId>

    constructor (tag: string, opentag: string, cssUtils: Converter)
      ensures this.tag == tag && this.opentag == opentag && this.cssUtils == cssUtils
      ensures next == None
    {
      this.tag := tag;
      this.opentag := opentag;
      this.cssUtils := cssUtils;
      next := None;
    }

    /** `tag.equals(name)`. */
    predicate Creates(name: string) {
      tag == name
    }

    /** `name.equalsIgnoreCase(opentag)`. */
    predicate Opens(name: string) {
      EqualsIgnoreCase(name, opentag)
    }

    /** The create branch of `open`: a new document goes into the `DOCUMENT`
        slot once a stream is obtained, and its writer into `WRITER` once the
        writer is made. */
    method CreateDocument(cc: MapContext, acquire: Acquire, writerAccepted: bool) returns (failure: Option<Exception>)
      modifies cc
      ensures acquire.IoFailure? ==> failure == Some(PipelineException(None, IoCause)) && unchanged(cc)
      ensures acquire.Acquired? ==>
        && cc.DocumentLookup().Found?
        && var d := cc.DocumentLookup().doc;
        && fresh(d) && d.Pristine()
        && (writerAccepted ==>
              failure == None
              && cc.slots == old(cc.slots)[DocumentSlot := DocValue(d)][WriterSlot := WriterValue(Writer(d, acquire.stream))])
        && (!writerAccepted ==>
              failure == Some(PipelineException(None, DocumentCause))
              && cc.slots == old(cc.slots)[DocumentSlot := DocValue(d)])
    {
      var d := new Document();
      match acquire
      case IoFailure =>
        return Some(PipelineException(None, IoCause));
      case Acquired(os) =>
        cc.Put(DocumentSlot, DocValue(d));
        if !writerAccepted {
          return Some(PipelineException(None, DocumentCause));
        }
        cc.Put(WriterSlot, WriterValue(Writer(d, os)));
        failure := None;
    }

    /** The opentag branch of `open`: queue the deferred element, then set the
        document's margins from the tag's CSS and open it. A missing document
        is only noticed after the element is queued. */
    method OpenDocument(t: Tag, po: ProcessObject, cc: MapContext) returns (failure: Option<Exception>)
      modifies po, cc.Held()
      ensures unchanged(cc)
      ensures cc.DocumentLookup().Missing? ==>
        failure == Some(NullPointer) && po.elements == old(po.elements) + [DeferredOpen(t)]
      ensures cc.DocumentLookup().NotADocument? ==>
        failure == Some(ClassCast) && unchanged(po)
      ensures cc.DocumentLookup().Found? ==>
        && var d := cc.DocumentLookup().doc;
        && failure == None
        && po.elements == old(po.elements) + [DeferredOpen(t)]
        && d.margins == Resolve(t.css, old(d.pageWidth), cssUtils)
        && d.isOpen && d.isClosed == old(d.isClosed) && d.pageWidth == old(d.pageWidth)
    {
      match cc.DocumentLookup()
      case NotADocument =>
        return Some(ClassCast);
      case Missing =>
        po.Add(DeferredOpen(t));
        return Some(NullPointer);
      case Found(d) =>
        po.Add(DeferredOpen(t));
        var m := ResolveMargins(t.css, d.pageWidth, cssUtils);
        d.SetMargins(m);
        d.Open();
        failure := None;
    }

    /** `open(t, po)`. `cc` is the context `PdfWriterPipeline` registered (null
        when there is none); `acquire` is what `fm.getStream()` answers and
        `writerAccepted` whether `PdfWriter.getInstance` succeeds. The two name
        tests are independent, so one event can take both branches. */
    method Open(t: Tag, po: ProcessObject, cc: MapContext?, acquire: Acquire, writerAccepted: bool) returns (r: Outcome)
      modifies po, cc, if cc == null then {} else cc.Held()
      ensures r.Returned? ==> r.next == next
      // an unrelated element changes nothing
      ensures !Creates(t.name) && !Opens(t.name) ==>
        && r == Returned(next) && unchanged(po) && (cc != null ==> unchanged(cc))
        && (cc != null && old(cc.DocumentLookup()).Found? ==> unchanged(old(cc.DocumentLookup()).doc))
      // no PdfWriterPipeline context
      ensures (Creates(t.name) || Opens(t.name)) && cc == null ==>
        r == Thrown(MISSING_WRITER_PIPELINE) && unchanged(po)
      // create: the stream cannot be had
      ensures Creates(t.name) && cc != null && acquire.IoFailure? ==>
        && r == Thrown(PipelineException(None, IoCause)) && unchanged(po, cc)
        && (old(cc.DocumentLookup()).Found? ==> unchanged(old(cc.DocumentLookup()).doc))
      // create: the document is published, the writer cannot be made
      ensures Creates(t.name) && cc != null && acquire.Acquired? && !writerAccepted ==>
        && r == Thrown(PipelineException(None, DocumentCause)) && unchanged(po)
        && (old(cc.DocumentLookup()).Found? ==> unchanged(old(cc.DocumentLookup()).doc))
        && cc.DocumentLookup().Found?
        && var d := cc.DocumentLookup().doc;
        && fresh(d) && d.Pristine()
        && cc.slots == old(cc.slots)[DocumentSlot := DocValue(d)]
      // create succeeds: a new document and its writer are published; if the
      // name also matches opentag, the new document gets its margins and is opened
      ensures Creates(t.name) && cc != null && acquire.Acquired? && writerAccepted ==>
        && r == Returned(next)
        && (old(cc.DocumentLookup()).Found? ==> unchanged(old(cc.DocumentLookup()).doc))
        && cc.DocumentLookup().Found?
        && var d := cc.DocumentLookup().doc;
        && fresh(d)
        && cc.slots == old(cc.slots)[DocumentSlot := DocValue(d)][WriterSlot := WriterValue(Writer(d, acquire.stream))]
        && (!Opens(t.name) ==> d.Pristine() && unchanged(po))
        && (Opens(t.name) ==>
              && po.elements == old(po.elements) + [DeferredOpen(t)]
              && d.margins == Resolve(t.css, A4_WIDTH, cssUtils)
              && d.isOpen && !d.isClosed && d.pageWidth == A4_WIDTH)
      // open only: the document already in the context gets its margins and is opened
      ensures !Creates(t.name) && Opens(t.name) && cc != null ==>
        && unchanged(cc)
        && match old(cc.DocumentLookup())
           case Missing =>
             r == Thrown(NullPointer) && po.elements == old(po.elements) + [DeferredOpen(t)]
           case NotADocument =>
             r == Thrown(ClassCast) && unchanged(po)
           case Found(d) =>
             && r == Returned(next)
             && po.elements == old(po.elements) + [DeferredOpen(t)]
             && d.margins == Resolve(t.css, old(d.pageWidth), cssUtils)
             && d.isOpen && d.isClosed == old(d.isClosed) && d.pageWidth == old(d.pageWidth)
    {
      if Creates(t.name) {
        if cc == null {
          return Thrown(MISSING_WRITER_PIPELINE);
        }
        var failure := CreateDocument(cc, acquire, writerAccepted);
        if failure.Some? {
          return Thrown(failure.value);
        }
      }
      if Opens(t.name) {
        if cc == null {
          return Thrown(MISSING_WRITER_PIPELINE);
        }
        var failure := OpenDocument(t, po, cc);
        if failure.Some? {
          return Thrown(failure.value);
        }
      }
      return Returned(next);
    }

    /** `close(t, po)`: closing `tag` closes the document in the `DOCUMENT`
        slot; the context slots are left as they are. */
    method Close(t: Tag, cc: MapContext?) returns (r: Outcome)
      modifies if cc == null then {} else cc.Held()
      ensures r.Returned? ==> r.next == next
      ensures cc != null ==> unchanged(cc)
      ensures !Creates(t.name) ==>
        && r == Returned(next)
        && (cc != null && old(cc.DocumentLookup()).Found? ==> unchanged(old(cc.DocumentLookup()).doc))
      ensures Creates(t.name) && cc == null ==> r == Thrown(MISSING_WRITER_PIPELINE)
      ensures Creates(t.name) && cc != null ==>
        match old(cc.DocumentLookup())
        case Missing => r == Thrown(NullPointer)
        case NotADocument => r == Thrown(ClassCast)
        case Found(d) =>
          && r == Returned(next)
          && d.isClosed && !d.isOpen
          && d.margins == old(d.margins) && d.pageWidth == old(d.pageWidth)
    {
      if Creates(t.name) {
        if cc == null {
          return Thrown(MISSING_WRITER_PIPELINE);
        }
        match cc.DocumentLookup()
        case Missing =>
          return Thrown(NullPointer);
        case NotADocument =>
          return Thrown(ClassCast);
        case Found(d) =>
          d.Close();
      }
      return Returned(next);
    }

    /** `write(writer, d)` of the deferred element queued by `open`: the same
        margin loop, on the page width of the document handed in, then `open`. */
    method WriteDeferredOpen(t: Tag, writer: Writer, d: Document)
      modifies d
      ensures d.margins == Resolve(t.css, old(d.pageWidth), cssUtils)
      ensures d.isOpen && d.isClosed == old(d.isClosed) && d.pageWidth == old(d.pageWidth)
    {
      var m := ResolveMargins(t.css, d.pageWidth, cssUtils);
      d.SetMargins(m);
      d.Open();
    }
  }

  /** Replaying the element that an opentag `open` queued, at flush time, on the
      document in the `DOCUMENT` slot gives the margins the immediate path set.
      This covers both paths that queue the element and reach the margins: an
      existing document, and one the same event has just created. */
  method ReplayAgreesWithImmediate(p: AutoDocPipeline, t: Tag, po: ProcessObject, cc: MapContext,
                                   acquire: Acquire, writerAccepted: bool, w: Writer)
    returns (immediate: Margins, replayed: Margins)
    requires p.Opens(t.name)
    requires if p.Creates(t.name) then acquire.Acquired? && writerAccepted else cc.DocumentLookup().Found?
    modifies po, cc, cc.Held()
    ensures immediate == replayed
    ensures cc.DocumentLookup().Found?
    ensures immediate == Resolve(t.css, cc.DocumentLookup().doc.pageWidth, p.cssUtils)
  {
    var r := p.Open(t, po, cc, acquire, writerAccepted);
    var d := cc.DocumentLookup().doc;
    immediate := d.margins;
    var queued := po.elements[|po.elements| - 1];
    p.WriteDeferredOpen(queued.t, w, d);
    replayed := d.margins;
  }

  /** When `tag` and `opentag` coincide, one successful `open` of `tag` both
      creates the document and opens it: the `DOCUMENT` slot holds a new, open
      document with the margins resolved at the default page width, and exactly
      one deferred element is queued. */
  method SameNameCreatesAndOpens(p: AutoDocPipeline, t: Tag, po: ProcessObject, cc: MapContext, os: Stream)
    returns (r: Outcome)
    requires p.tag == p.opentag && t.name == p.tag
    modifies po, cc, cc.Held()
    ensures r == Returned(p.next)
    ensures cc.DocumentLookup().Found?
    ensures fresh(cc.DocumentLookup().doc)
    ensures cc.DocumentLookup().doc.isOpen && !cc.DocumentLookup().doc.isClosed
    ensures cc.DocumentLookup().doc.margins == Resolve(t.css, A4_WIDTH, p.cssUtils)
    ensures po.elements == old(po.elements) + [DeferredOpen(t)]
  {
    EqualsIgnoreCaseIsEquivalence(t.name, p.opentag, p.opentag);
    r := p.Open(t, po, cc, Acquired(os), true);
  }

  /** An upper-cased `tag` opens the document when `opentag` equals `tag`, but neither creates nor closes it. */
  lemma UpperCaseNameOnlyOpens(p: AutoDocPipeline)
    requires p.tag == p.opentag == "book"
    ensures p.Opens("BOOK") && !p.Creates("BOOK")
  {
  }

  /** The run `open(book)`, `open(P)` with margin-left 10%, `close(book)`
      with tag `book` and opentag `p`: every event forwards to the next stage,
      and the document ends closed with its left margin converted from 10%. */
  method BookScenario(toPt: Converter, os: Stream) returns (d: Document, outcomes: seq<Outcome>)
    ensures outcomes == [Returned(None), Returned(None), Returned(None)]
    ensures d.isClosed && !d.isOpen
    ensures d.margins == Margins(toPt("10%", A4_WIDTH), 0.0, 0.0, 0.0)
  {
    var p := new AutoDocPipeline("book", "p", toPt);
    var cc := new MapContext();
    var po := new ProcessObject();
    var book := Tag("book", []);
    var para := Tag("P", [CssEntry("margin-left", "10%")]);
    assert p.Creates(book.name);
    assert !p.Opens(book.name);
    var r1 := p.Open(book, po, cc, Acquired(os), true);
    d := cc.DocumentLookup().doc;
    assert !p.Creates(para.name);
    assert p.Opens(para.name);
    var r2 := p.Open(para, po, cc, Acquired(os), true);
    var r3 := p.Close(book, cc);
    outcomes := [r1, r2, r3];
    assert para.css[..0] == [];
    assert Names("margin-left", Left);
    assert Resolve(para.css, A4_WIDTH, toPt) == Margins(toPt("10%", A4_WIDTH), 0.0, 0.0, 0.0);
  }
}
