# AutoDocPipeline, modelled in Dafny

`AutoDocPipeline` is a stage of the XML Worker pipeline. It creates PDF documents by itself while markup streams through. It reacts to element names:

- When the configured `tag` opens (exact, case-sensitive match), it creates a new `Document`. It asks its `FileMaker` for an output stream and binds a `PdfWriter` to the document and stream. It then publishes the document and the writer under the `DOCUMENT` and `WRITER` keys of the context map that `PdfWriterPipeline` owns.
- When `opentag` opens (match ignoring case), it looks up that document and queues a deferred element on the `ProcessObject`. It then immediately sets the document's margins from the element's CSS and opens the document. When the writer stage flushes the queue, the deferred element repeats the same margin computation and the same `open`.
- When `tag` closes, it closes the document in the `DOCUMENT` slot and leaves the slots as they are.
- Any other element is passed through untouched. Both `open` and `close` return the next stage.

Margins follow the CSS 2.1 margin properties (section 8.3 of CSS 2.1). These are `margin-left`, `margin-right`, `margin-top` and `margin-bottom`, with percentages taken against the page width. Each margin starts at 0. Every CSS entry whose key names one of these properties, ignoring case, overwrites that margin with the converted value.

The project has three modules:

- `CaseFold` (`case_fold.dfy`) models `String.equalsIgnoreCase` on ASCII letters and proves it is an equivalence relation.
- `MarginResolution` (`margins.dfy`) specifies the margin loop as a left fold, `Resolve`, over the CSS entries in iteration order. `ResolveMargins` is the loop itself, written with the four local variables of the source and proved equal to the fold. The lemmas characterise the fold: the last matching entry wins, unrelated keys are ignored, and adjacent entries for different sides commute.
- `AutoDoc` (`auto_doc.dfy`) holds the classes `Document`, `MapContext` (a `map` from slot to value), `ProcessObject` (a queue held as a `seq`) and `AutoDocPipeline`, whose `Open` and `Close` change these objects in place.

External collaborators are modelled as follows:

- `getContext().get(PdfWriterPipeline.class)` becomes a parameter `cc: MapContext?`. `null` stands for `NoCustomContextException`.
- The outcome of `fm.getStream()` becomes the parameter `acquire`, which is either a stream or an `IOException`.
- Whether `PdfWriter.getInstance` succeeds becomes the parameter `writerAccepted`.
- `CssUtils.parseValueToPt` is an arbitrary function `Converter = (string, real) -> real`, fixed at construction.
- Exceptions are the `Thrown` case of the result. A `null` or non-`Document` value in the `DOCUMENT` slot yields the unchecked `NullPointer` or `ClassCast` that the Java code would raise at that point.
- `new Document()` gets the library's defaults: an A4 page 595 points wide and 36-point margins. These defaults come from the document library, which is not part of this model.

Behaviour worth noting:

- **Duplicate margin keys.** Each matching entry overwrites its margin, so when a property occurs more than once, the entry iterated last wins (`ResolveIsLastMatch`).
- **Partial publication.** `DOCUMENT` is put before the writer is created. If `PdfWriter.getInstance` fails, `DOCUMENT` holds the new document and `WRITER` is unchanged.
- **Second open of `tag`.** Opening `tag` a second time before a close silently replaces the document in the context; the previous document is left untouched.
- **Missing document in the opentag branch.** The deferred element is queued before the missing document is dereferenced. The queue therefore grows even though `open` then raises `NullPointer`.

## Model

| member | source | states |
|---|---|---|
| `CaseFold.EqualsIgnoreCaseIffToLower` | xmlworker/src/main/java/com/itextpdf/tool/xml/pipeline/html/AutoDocPipeline.java:121 | `equalsIgnoreCase`'s per-character test (equal, equal upper-cased, or equal lower-cased after upper-casing) holds exactly when the lower-case forms of the two names are equal |
| `CaseFold.EqualsIgnoreCaseIsEquivalence` | xmlworker/src/main/java/com/itextpdf/tool/xml/pipeline/html/AutoDocPipeline.java:139-145 | name matching ignoring case is implied by plain equality and is symmetric and transitive |
| `MarginResolution.KeySide` | xmlworker/src/main/java/com/itextpdf/tool/xml/pipeline/html/AutoDocPipeline.java:164-172 | the else-if chain picks side `s` exactly when the key equals `s`'s property name ignoring case, so every entry selects at most one margin |
| `MarginResolution.StepChangesAtMostOneSide` | xmlworker/src/main/java/com/itextpdf/tool/xml/pipeline/html/AutoDocPipeline.java:164-172 | one entry leaves every margin whose property it does not name unchanged, and an entry naming no margin property changes nothing |
| `MarginResolution.LastMatch` | xmlworker/src/main/java/com/itextpdf/tool/xml/pipeline/html/AutoDocPipeline.java:161-173 | returns the index of an entry naming the side after which no entry names it, or none when no entry names it |
| `MarginResolution.ResolveMargins` | xmlworker/src/main/java/com/itextpdf/tool/xml/pipeline/html/AutoDocPipeline.java:156-173 | the loop over the CSS entries with four locals starting at 0 computes the fold `Resolve`, and each margin is 0 when no key names its property and otherwise the converted value of the last entry naming it |
| `MarginResolution.ResolveIsLastMatch` | xmlworker/src/main/java/com/itextpdf/tool/xml/pipeline/html/AutoDocPipeline.java:156-173 | each resolved margin is 0 unless some key names its property ignoring case, and otherwise `parseValueToPt` of the last such entry's value at the page width |
| `MarginResolution.ResolveIgnoresIrrelevant` | xmlworker/src/main/java/com/itextpdf/tool/xml/pipeline/html/AutoDocPipeline.java:161-173 | dropping every entry whose key names none of the four properties leaves the resolved margins unchanged |
| `MarginResolution.ResolveSwapAdjacent` | xmlworker/src/main/java/com/itextpdf/tool/xml/pipeline/html/AutoDocPipeline.java:161-173 | two neighbouring entries that name different sides (or none) can be visited in either order with the same result, so iteration order matters only for repeated properties |
| `MarginResolution.ResolveExample` | xmlworker/src/main/java/com/itextpdf/tool/xml/pipeline/html/AutoDocPipeline.java:156-174 | `margin-left: 10%`, `margin-top: 5pt` and `color: red` on a 200-point page give left and top converted and right and bottom 0 |
| `AutoDoc.AutoDocPipeline.constructor` | xmlworker/src/main/java/com/itextpdf/tool/xml/pipeline/html/AutoDocPipeline.java:88-93 | keeps `tag`, `opentag` and the converter; the next stage is unset (`super(null)`) |
| `AutoDoc.AutoDocPipeline.CreateDocument` | xmlworker/src/main/java/com/itextpdf/tool/xml/pipeline/html/AutoDocPipeline.java:106-118 | an I/O failure leaves the context unchanged and raises a `PipelineException`; otherwise a fresh, unopened document is put in `DOCUMENT` and, if the writer can be made, the writer binding it to the stream in `WRITER`; a writer failure leaves `DOCUMENT` set and raises |
| `AutoDoc.AutoDocPipeline.OpenDocument` | xmlworker/src/main/java/com/itextpdf/tool/xml/pipeline/html/AutoDocPipeline.java:121-176 | appends exactly one deferred element to the queue, and gives the document in `DOCUMENT` the resolved margins for the tag's CSS at its page width and opens it; a missing document raises after the element is queued, a non-document raises before |
| `AutoDoc.AutoDocPipeline.Open` | xmlworker/src/main/java/com/itextpdf/tool/xml/pipeline/html/AutoDocPipeline.java:103-183 | a normal return is `getNext()`; an unrelated name changes neither queue, context nor document; without a writer context both branches raise "AutoDocPipeline depends on PdfWriterPipeline."; the create and open branches are independent, so a name matching both creates a document and opens it with its margins; a create that gets as far as publishing leaves the previously held document untouched |
| `AutoDoc.AutoDocPipeline.Close` | xmlworker/src/main/java/com/itextpdf/tool/xml/pipeline/html/AutoDocPipeline.java:193-207 | closing `tag` closes the document in `DOCUMENT` and leaves the context slots as they were; other names change nothing; every normal return is `getNext()`; a missing writer context, a missing or ill-typed document raise |
| `AutoDoc.AutoDocPipeline.WriteDeferredOpen` | xmlworker/src/main/java/com/itextpdf/tool/xml/pipeline/html/AutoDocPipeline.java:128-151 | the deferred `write` sets the document's margins to the resolved margins of the captured tag's CSS at the document's page width and opens it |
| `AutoDoc.ReplayAgreesWithImmediate` | xmlworker/src/main/java/com/itextpdf/tool/xml/pipeline/html/AutoDocPipeline.java:106-175 | on every path where an opentag `open` queues its element and sets the margins (an existing document, or one the same event creates), replaying the queued element on the document in `DOCUMENT` yields the margins the immediate path set |
| `AutoDoc.SameNameCreatesAndOpens` | xmlworker/src/main/java/com/itextpdf/tool/xml/pipeline/html/AutoDocPipeline.java:106-126 | when `tag` and `opentag` coincide, one successful `open` of `tag` returns the next stage and leaves in `DOCUMENT` a new, open document whose margins are resolved from the tag's CSS at the default page width, with exactly one deferred element queued |
| `AutoDoc.UpperCaseNameOnlyOpens` | xmlworker/src/main/java/com/itextpdf/tool/xml/pipeline/html/AutoDocPipeline.java:195 | with `tag` = `opentag` = `book`, the name `BOOK` opens a document but neither creates nor closes one: the matching is asymmetric |
| `AutoDoc.BookScenario` | xmlworker/src/main/java/com/itextpdf/tool/xml/pipeline/html/AutoDocPipeline.java:103-207 | `open(book)`, `open(P)` with `margin-left: 10%`, `close(book)` all return the next stage and leave a closed document whose left margin is the converted 10% and whose other margins are 0 |

## Left out

- `FileMaker.getStream` I/O and `PdfWriter.getInstance` internals are not modelled. Their outcomes are parameters of `Open`, so every combination of success and failure is covered.
- `CssUtils.parseValueToPt` unit parsing and float arithmetic are not modelled. The conversion is an arbitrary function into `real`, and page widths and margins are reals rather than 32-bit floats.
- `CaseFold.EqualsIgnoreCase` folds only ASCII letters. Java also folds other characters; for example, a dotless `ı` matches `i`, and `É` matches `é`. Two tests are affected. A CSS key spelled with such characters is not recognised as a margin property. The `opentag` test at line 121 also differs: the element `RÉSUMÉ` with `opentag` `résumé` opens the document in Java but not in the model.
- The CSS cascade that fills `t.getCSS()` is not modelled. The map is given as its entry sequence in iteration order.
- The Tag is an immutable value. The Java deferred element reads `t.getCSS()` at flush time, so a change to the tag's CSS between `open` and the flush is not modelled.
- The `AbstractPipeline` chaining (`setNext`, the worker context) is not modelled beyond "returns the next stage".
- The flush phase of `PdfWriterPipeline` is modelled only as one replay of the deferred element (`ReplayAgreesWithImmediate`).
- `Document` keeps only its page width, its margins and its open and closed flags. Library rules, such as whether a closed document can be reopened or whether opening twice is harmless, are not modelled.
- `null` element names and a `null` `tag` or `opentag` are not modelled; names are strings.
- A custom context that is not a `MapContext` (a failing cast at lines 108, 123 and 198) is not modelled.
