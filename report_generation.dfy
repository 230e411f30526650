/**
 * `generate_report_for_document`: for each of the five report sections, evidence is retrieved
 * (the vector store's hits, or the document's first twelve blocks when there are none), capped at
 * 14000 characters and sent to the language model together with the section's instruction; the
 * answers become the report's sections and key figures, and a final call wraps them with a title,
 * a summary and a conclusion.
 *
 * The retrieval and the language model are oracles: `retrieve(documentId, query, k)` is the hit
 * list `query_similar_chunks` returns, or `None` when it raises (its query embedding fails after
 * its retries), and `reply(n)` is the decoded JSON answer to the `n`-th `generate_json` call, or
 * `None` when that call raises.
 */
module ReportGeneration {
  import opened Wrappers
  import opened Seqs
  import opened Strings
  import opened Records
  import opened ReportSchema
  import opened KeyFigures
  import VectorStore
  import BlockStructuring
  import opened SectionLoop

  // ---------------------------------------------------------------------------------------------
  // Output language

  const GermanRule: string :=
    "Output language: German (de). IMPORTANT: Write the entire output strictly in German. "
    + "Do not use English words for headings or labels."
  const EnglishRule: string :=
    "Output language: English (en). IMPORTANT: Write the entire output strictly in English."
  const GermanNames: seq<string> := ["de", "german", "deutsch"]
  const EnglishNames: seq<string> := ["en", "english"]

  /** The rule for any other language, naming it. */
  function OtherRule(lang: string): string {
    "Output language: " + lang + ". IMPORTANT: Write the entire output strictly in " + lang + ". Do not mix languages."
  }

  /** `(lang or "de").strip()`. */
  function LanguageName(lang: string): string {
    Strip(if lang == "" then "de" else lang)
  }

  /** `language_instruction`. */
  function LanguageInstruction(lang: string): string {
    var name := LanguageName(lang);
    var low := Lower(name);
    if low in GermanNames then GermanRule
    else if low in EnglishNames then EnglishRule
    else OtherRule(name)
  }

  /** `document.language or "de"`. */
  function LanguageOf(doc: Document): string {
    if Truthy(doc.language) then doc.language.value else "de"
  }

  // ---------------------------------------------------------------------------------------------
  // Sections

  datatype Section = Section(heading: string, instruction: string)

  const KeyFiguresHeading: string := "Key Figures"

  const SummarySection: Section := Section("Executive Summary", "High-level overview of the document and its purpose.")
  const FindingsSection: Section := Section("Key Findings", "Most important insights, takeaways, patterns or decisions.")
  const FiguresSection: Section :=
    Section(KeyFiguresHeading, "Extract explicit numerical values, totals, KPIs stated in the document.")
  const RisksSection: Section := Section("Risks & Issues", "Risks, inconsistencies, missing data, warnings, concerns.")
  const ConclusionSection: Section := Section("Conclusion", "Concluding statement based strictly on the document.")

  /** `REPORT_SECTIONS`, in report order. */
  const ReportSections: seq<Section> := [SummarySection, FindingsSection, FiguresSection, RisksSection, ConclusionSection]

  /** The position of the key figures section. */
  const KeyFiguresIndex: nat := 2

  /** The retrieval query of a section, `f"{heading}. {instruction}"`. */
  function Query(s: Section): string {
    s.heading + ". " + s.instruction
  }

  /** `k=8` of the retrieval call. */
  const HitsPerSection: nat := 8

  // ---------------------------------------------------------------------------------------------
  // Evidence

  /** One piece of evidence: a retrieval hit, or a block standing in for one. */
  datatype EvidenceItem = EvidenceItem(id: string, text: string, pageStart: Option<int>, pageEnd: Option<int>,
                                       sectionTitle: Option<string>)

  function FromHit(h: VectorStore.Hit): EvidenceItem {
    EvidenceItem(h.id, h.text, h.metadata.page_start, h.metadata.page_end, h.metadata.section_title)
  }

  /** `b.title or b.semantic_label`. */
  function TitleOrLabel(b: DocumentBlock): Option<string> {
    if Truthy(b.title) then b.title else b.semantic_label
  }

  /** The stand-in hit for the stored block at `position`: id `block_{id}`, no pages. */
  function FromBlock(position: nat, b: DocumentBlock): EvidenceItem {
    EvidenceItem("block_" + IntToString(RowId(position)), b.content, None, None, TitleOrLabel(b))
  }

  /** `.limit(12)` of the block query. */
  const FallbackLimit: nat := 12

  /** The positions of the document's blocks, in store order, each once. */
  function DocumentMatches(blocks: seq<DocumentBlock>, documentId: int): (r: seq<nat>)
    ensures forall p: nat :: p in r <==> p < |blocks| && blocks[p].document_id == documentId
    ensures forall x :: multiset(r)[x] <= 1
  {
    var all := Range(|blocks|);
    var r := Filter<nat>(all, (p: nat) => p < |blocks| && blocks[p].document_id == documentId);
    forall p: nat | p < |blocks| && blocks[p].document_id == documentId ensures p in r {
      assert all[p] == p;
    }
    forall x: nat ensures multiset(all)[x] <= 1 {
      DistinctCount(all, x);
    }
    r
  }

  /** The block query by document, as positions in the store: each block of it once, by `block_index`. */
  function DocumentPositions(blocks: seq<DocumentBlock>, documentId: int): (r: seq<nat>)
    ensures forall k :: 0 <= k < |r| ==> r[k] < |blocks| && blocks[r[k]].document_id == documentId
    ensures forall p :: 0 <= p < |blocks| && blocks[p].document_id == documentId ==> p in r
    ensures Distinct(r)
    ensures forall i, j :: 0 <= i < j < |r| ==> blocks[r[i]].block_index <= blocks[r[j]].block_index
  {
    var r := SortBy<nat>(DocumentMatches(blocks, documentId), BlockStructuring.IndexKey(blocks));
    SortedMatches(blocks, documentId, r);
    r
  }

  /** The matching positions, sorted by block index, are the document's, each once, in order. */
  lemma SortedMatches(blocks: seq<DocumentBlock>, documentId: int, r: seq<nat>)
    requires r == SortBy<nat>(DocumentMatches(blocks, documentId), BlockStructuring.IndexKey(blocks))
    ensures forall k :: 0 <= k < |r| ==> r[k] < |blocks| && blocks[r[k]].document_id == documentId
    ensures forall p :: 0 <= p < |blocks| && blocks[p].document_id == documentId ==> p in r
    ensures Distinct(r)
    ensures forall i, j :: 0 <= i < j < |r| ==> blocks[r[i]].block_index <= blocks[r[j]].block_index
  {
    var matching := DocumentMatches(blocks, documentId);
    forall k | 0 <= k < |r| ensures r[k] < |blocks| && blocks[r[k]].document_id == documentId {
      assert r[k] in multiset(r);
    }
    forall p | 0 <= p < |blocks| && blocks[p].document_id == documentId ensures p in r {
      assert p in multiset(matching);
    }
    CountDistinct(r);
    BlockStructuring.SortedPositions(blocks, r);
  }

  /** The evidence used when retrieval finds nothing: the first twelve blocks of the document. */
  function FallbackItems(blocks: seq<DocumentBlock>, documentId: int): (r: seq<EvidenceItem>)
    ensures |r| == Min(FallbackLimit, |DocumentPositions(blocks, documentId)|)
  {
    var ps := DocumentPositions(blocks, documentId);
    var first := ps[..Min(FallbackLimit, |ps|)];
    seq(|first|, i requires 0 <= i < |first| => FromBlock(first[i], blocks[first[i]]))
  }

  /** The evidence of a section: the hits, or the fallback blocks when there are none. */
  function Items(hits: seq<VectorStore.Hit>, blocks: seq<DocumentBlock>, documentId: int): (r: seq<EvidenceItem>)
    ensures hits == [] ==> r == FallbackItems(blocks, documentId)
    ensures hits != [] ==> |r| == |hits| && forall i :: 0 <= i < |hits| ==> r[i] == FromHit(hits[i])
  {
    if hits == [] then FallbackItems(blocks, documentId)
    else seq(|hits|, i requires 0 <= i < |hits| => FromHit(hits[i]))
  }

  /** `f"[{id}] (p{page_start}–{page_end}, section={section_title})\n{(text or '').strip()}"`. */
  function EvidencePart(e: EvidenceItem): string {
    "[" + e.id + "] (p" + OptIntToString(e.pageStart) + "–" + OptIntToString(e.pageEnd)
    + ", section=" + OptToString(e.sectionTitle) + ")\n" + Strip(e.text)
  }

  function EvidenceParts(items: seq<EvidenceItem>): (r: seq<string>)
    ensures |r| == |items|
  {
    if items == [] then [] else EvidenceParts(items[..|items| - 1]) + [EvidencePart(items[|items| - 1])]
  }

  const EvidenceSeparator: string := "\n\n---\n\n"

  /** The safety cap on the evidence text. */
  const EvidenceLimit: nat := 14000

  /**
   * The evidence text: the parts joined by separators, cut to 14000 characters; it is the joined
   * text itself when that fits.
   */
  function EvidenceText(items: seq<EvidenceItem>): (r: string)
    ensures |r| <= EvidenceLimit
    ensures r <= Join(EvidenceSeparator, EvidenceParts(items))
    ensures |Join(EvidenceSeparator, EvidenceParts(items))| <= EvidenceLimit ==> r == Join(EvidenceSeparator, EvidenceParts(items))
  {
    Prefix(Join(EvidenceSeparator, EvidenceParts(items)), EvidenceLimit)
  }

  /** The provenance dict of one piece of evidence. */
  function SourceEntry(e: EvidenceItem): JsonObject {
    map["chunk_id" := Str(e.id), "page_start" := IntOrNull(e.pageStart), "page_end" := IntOrNull(e.pageEnd),
        "section_title" := StrOrNull(e.sectionTitle)]
  }

  /** `sources_fallback`. */
  function Sources(items: seq<EvidenceItem>): (r: seq<JsonObject>)
    ensures |r| == |items|
  {
    if items == [] then [] else Sources(items[..|items| - 1]) + [SourceEntry(items[|items| - 1])]
  }

  /** The user prompt head up to the evidence. */
  function PromptHead(s: Section): string {
    "Section: " + s.heading + "\nInstruction: " + s.instruction + "\n\nEvidence (use only this):"
  }

  /** The stripped user prompt of a section. */
  function UserPrompt(s: Section, evidence: string): string {
    Strip("\n" + PromptHead(s) + "\n" + evidence + "\n")
  }

  // ---------------------------------------------------------------------------------------------
  // Key figures

  /** At most this many extracted items are validated. */
  const FigureLimit: nat := 12

  /** `data.get("key_figures", [])[:12]` when it is a list, and nothing otherwise. */
  function ExtractedItems(data: JsonObject): (r: seq<Value>)
    ensures |r| <= FigureLimit
    ensures "key_figures" in data && data["key_figures"].List? ==> r <= data["key_figures"].items
                                                                   && |r| == Min(FigureLimit, |data["key_figures"].items|)
    ensures !("key_figures" in data && data["key_figures"].List?) ==> r == []
  {
    var extracted := Get(data, "key_figures", List([]));
    if extracted.List? then extracted.items[..Min(FigureLimit, |extracted.items|)] else []
  }

  /** The figures of the items that validate, in order. */
  function ValidFigures(items: seq<Value>): seq<KeyFigure> {
    if items == [] then []
    else
      ValidFigures(items[..|items| - 1])
      + match FigureOf(items[|items| - 1]) { case Some(kf) => [kf] case None => [] }
  }

  /** `[normalize_key_figure(kf) for kf in validated]`. */
  function Normalized(kfs: seq<KeyFigure>): (r: seq<KeyFigure>)
    ensures |r| == |kfs| && forall i :: 0 <= i < |kfs| ==> r[i] == NormalizeKeyFigure(kfs[i])
  {
    seq(|kfs|, i requires 0 <= i < |kfs| => NormalizeKeyFigure(kfs[i]))
  }

  /** `""` for an empty or `unknown` unit, else a space and the unit. */
  function UnitSuffix(unit: string): string {
    if unit == "" || unit == "unknown" then "" else " " + unit
  }

  /** A space and the context in parentheses, or nothing when the context is empty. */
  function ContextSuffix(context: string): string {
    if context != "" then " (" + context + ")" else ""
  }

  /** One line of the key figures section. */
  function FigureLine(kf: KeyFigure): string {
    "- " + kf.name + ": " + kf.value + UnitSuffix(kf.unit) + ContextSuffix(kf.context)
  }

  function FigureLines(kfs: seq<KeyFigure>): (r: seq<string>)
    ensures |r| == |kfs|
  {
    if kfs == [] then [] else FigureLines(kfs[..|kfs| - 1]) + [FigureLine(kfs[|kfs| - 1])]
  }

  const NoFiguresText: string := "No key figures could be extracted " + "from the evidence."

  /** The content of the key figures section. */
  function FiguresContent(kfs: seq<KeyFigure>): string {
    if kfs == [] then NoFiguresText else Join("\n", FigureLines(kfs))
  }

  /** The dicts as JSON values. */
  function ObjectValues(srcs: seq<JsonObject>): (r: seq<Value>)
    ensures |r| == |srcs| && forall i :: 0 <= i < |srcs| ==> r[i] == Object(srcs[i])
  {
    seq(|srcs|, i requires 0 <= i < |srcs| => Object(srcs[i]))
  }

  /** The sources of the key figures section: the answer's list, or the evidence provenance. */
  function FigureSources(data: JsonObject, fallback: seq<JsonObject>): seq<Value> {
    if "sources" in data && data["sources"].List? then data["sources"].items else ObjectValues(fallback)
  }

  /** The section dict of the key figures section. */
  function FiguresDict(data: JsonObject, fallback: seq<JsonObject>): JsonObject {
    var figures := Normalized(ValidFigures(ExtractedItems(data)));
    map["heading" := Str(KeyFiguresHeading), "content" := Str(FiguresContent(figures)),
        "sources" := List(FigureSources(data, fallback))]
  }

  // ---------------------------------------------------------------------------------------------
  // Other sections

  /** The answer's dict with the defaults filled in: heading, content and sources. */
  function SectionDict(reply: Value, heading: string, fallback: seq<JsonObject>): JsonObject {
    var d0 := if reply.Object? then reply.fields else map[];
    var d1 := if !Get(d0, "heading", Null).Truthy() then d0["heading" := Str(heading)] else d0;
    var d2 := if Get(d1, "content", Null) == Null then d1["content" := Str("")] else d1;
    if !Get(d2, "sources", Null).List? then d2["sources" := List(ObjectValues(fallback))] else d2
  }

  // ---------------------------------------------------------------------------------------------
  // The report

  /** The system prompt of a call (the prompt texts themselves are not modelled). */
  datatype SystemPrompt = SectionSystem | KeyFiguresSystem | FinalSystem

  /** One `generate_json` call: its system prompt, the language rule appended to it, the user prompt. */
  datatype Request = Request(system: SystemPrompt, languageRule: string, user: string)

  datatype ReportError =
    | DocumentNotFound(documentId: int)
    | CallFailed(call: nat)       // `generate_json` raised
    | NotAnObject(call: nat)      // `.get` on an answer that is not a dict
    | InvalidSection(call: nat)   // `ReportSection(**section_dict)` rejected the dict
    | InvalidReport               // `ReportModel(...)` rejected the wrapper's fields
    | RetrievalFailed(section: nat) // `query_similar_chunks` raised for section `section`

  /** What one section contributes: the section, and the key figures of the key figures section. */
  type Draft = Pass<ReportSection, KeyFigure>

  /** `query_similar_chunks(document_id, query, k)`: its hits, or `None` when it raises. */
  type Retrieval = (int, string, nat) -> Option<seq<VectorStore.Hit>>

  /** The inputs of a run once the document is found. */
  datatype Env = Env(documentId: int, blocks: seq<DocumentBlock>, rule: string,
                     retrieve: Retrieval, reply: nat -> Option<Value>)

  /** The retrieval for section `k`. */
  function Retrieved(env: Env, k: nat): Option<seq<VectorStore.Hit>>
    requires k < |ReportSections|
  {
    env.retrieve(env.documentId, Query(ReportSections[k]), HitsPerSection)
  }

  /** The evidence for section `k` (only consulted once its retrieval has succeeded). */
  function SectionItems(env: Env, k: nat): seq<EvidenceItem>
    requires k < |ReportSections|
  {
    Items(Retrieved(env, k).GetOr([]), env.blocks, env.documentId)
  }

  /** The first section whose retrieval raises, or the number of sections when none does. */
  function FirstRetrievalFailure(env: Env): (f: nat)
    ensures f <= |ReportSections|
    ensures forall j :: 0 <= j < f ==> Retrieved(env, j).Some?
    ensures f < |ReportSections| ==> Retrieved(env, f).None?
  {
    FirstRetrievalFailureFrom(env, 0)
  }

  function FirstRetrievalFailureFrom(env: Env, k: nat): (f: nat)
    requires k <= |ReportSections|
    requires forall j :: 0 <= j < k ==> Retrieved(env, j).Some?
    ensures k <= f <= |ReportSections|
    ensures forall j :: 0 <= j < f ==> Retrieved(env, j).Some?
    ensures f < |ReportSections| ==> Retrieved(env, f).None?
    decreases |ReportSections| - k
  {
    if k == |ReportSections| || Retrieved(env, k).None? then k else FirstRetrievalFailureFrom(env, k + 1)
  }

  /** The call made for section `k`. */
  function SectionRequest(env: Env, k: nat): Request
    requires k < |ReportSections|
  {
    var s := ReportSections[k];
    Request(if s.heading == KeyFiguresHeading then KeyFiguresSystem else SectionSystem, env.rule,
            UserPrompt(s, EvidenceText(SectionItems(env, k))))
  }

  /** What section `k` makes of answer `reply` (call `k`), given the evidence provenance. */
  function SectionDraft(k: nat, heading: string, reply: Option<Value>, fallback: seq<JsonObject>): Result<Draft, ReportError> {
    if reply.None? then Failure(CallFailed(k))
    else if heading == KeyFiguresHeading then
      if !reply.value.Object? then Failure(NotAnObject(k))
      else
        var data := reply.value.fields;
        match SectionOf(FiguresDict(data, fallback))
        case Some(s) => Success(Pass(s, Normalized(ValidFigures(ExtractedItems(data)))))
        case None => Failure(InvalidSection(k))
    else
      match SectionOf(SectionDict(reply.value, heading, fallback))
      case Some(s) => Success(Pass(s, []))
      case None => Failure(InvalidSection(k))
  }

  function SectionResult(env: Env, k: nat): Result<Draft, ReportError>
    requires k < |ReportSections|
  {
    SectionDraft(k, ReportSections[k].heading, env.reply(k), Sources(SectionItems(env, k)))
  }

  type ReportProgress = Progress<Request, ReportSection, KeyFigure, ReportError>

  /**
   * One pass of the section loop. A section's evidence depends only on the retrieval and its
   * answer only on its own call, so every pass is determined before the loop runs.
   */
  type ReportStep = Step<Request, ReportSection, KeyFigure, ReportError>

  function SectionStep(env: Env, k: nat): ReportStep
    requires k < |ReportSections|
  {
    Step(SectionRequest(env, k), ReportSections[k].heading == KeyFiguresHeading, SectionResult(env, k))
  }

  /**
   * The section loop with the retrievals: the passes before the first failing retrieval run as
   * `Loop` says, and if none of them raised, the run then raises that retrieval's error before
   * the section's call.
   */
  function Drafting(env: Env): ReportProgress {
    var f := FirstRetrievalFailure(env);
    Halted(Steps(env), f, RetrievalFailed(f))
  }

  /** Pass `k` of a run is section `k`'s call and outcome. */
  lemma StepAt(env: Env, k: nat)
    requires k < |ReportSections|
    ensures Steps(env)[k] == Step(SectionRequest(env, k), ReportSections[k].heading == KeyFiguresHeading, SectionResult(env, k))
  {
  }

  /** The five passes of a run. */
  function Steps(env: Env): (r: seq<ReportStep>)
    ensures |r| == |ReportSections|
  {
    seq(|ReportSections|, k requires 0 <= k < |ReportSections| => SectionStep(env, k))
  }

  /** `"\n\n".join(f"{s.heading}\n{s.content}" for s in sections)`. */
  function Assembled(sections: seq<ReportSection>): string {
    Join("\n\n", seq(|sections|, i requires 0 <= i < |sections| => sections[i].heading + "\n" + sections[i].content))
  }

  /** The user prompt of the final call. */
  function FinalPrompt(sections: seq<ReportSection>): string {
    "Drafted sections:\n\n" + Assembled(sections)
  }

  /** The report from the final answer: title, summary and conclusion with their defaults. */
  function Wrap(reply: Option<Value>, call: nat, filename: string, sections: seq<ReportSection>,
                figures: seq<KeyFigure>): Result<ReportModel, ReportError>
  {
    if reply.None? then Failure(CallFailed(call))
    else if !reply.value.Object? then Failure(NotAnObject(call))
    else
      var m := reply.value.fields;
      var title := Get(m, "title", Str("Report for " + filename));
      var summary := Get(m, "summary", Str(""));
      var conclusion := Get(m, "conclusion", Str(""));
      if title.Str? && summary.Str? && conclusion.Str? then
        Success(ReportModel(title.s, summary.s, sections, figures, conclusion.s))
      else Failure(InvalidReport)
  }

  /** `db.query(Document).filter(Document.id == document_id).first()`. */
  function FindDocument(documents: seq<Document>, documentId: int): (r: Option<Document>)
    ensures r.None? <==> forall i :: 0 <= i < |documents| ==> documents[i].id != documentId
    ensures r.Some? ==> exists i :: 0 <= i < |documents| && documents[i] == r.value && r.value.id == documentId
                                    && forall j :: 0 <= j < i ==> documents[j].id != documentId
  {
    if documents == [] then None
    else if documents[0].id == documentId then Some(documents[0])
    else
      var r := FindDocument(documents[1..], documentId);
      assert forall i :: 1 <= i < |documents| ==> documents[i] == documents[1..][i - 1];
      r
  }

  /** The outcome of a run: the report or the error it raised, and the calls made. */
  datatype Outcome = Outcome(result: Result<ReportModel, ReportError>, requests: seq<Request>)

  /** The environment of a run on a found document. */
  function EnvOf(doc: Document, documentId: int, blocks: seq<DocumentBlock>,
                 retrieve: Retrieval, reply: nat -> Option<Value>): Env {
    Env(documentId, blocks, LanguageInstruction(LanguageOf(doc)), retrieve, reply)
  }

  /** `generate_report_for_document`. */
  function Report(documents: seq<Document>, blocks: seq<DocumentBlock>, documentId: int,
                  retrieve: Retrieval, reply: nat -> Option<Value>): Outcome
  {
    match FindDocument(documents, documentId)
    case None => Outcome(Failure(DocumentNotFound(documentId)), [])
    case Some(doc) => Run(EnvOf(doc, documentId, blocks, retrieve, reply), doc.filename)
  }

  /** A run on a found document: the section loop, then the final call and the report wrapper. */
  function Run(env: Env, filename: string): Outcome {
    var p := Drafting(env);
    if p.error.Some? then Outcome(Failure(p.error.value), p.requests)
    else
      Outcome(Wrap(env.reply(|ReportSections|), |ReportSections|, filename, p.sections, p.figures),
              p.requests + [Request(FinalSystem, env.rule, FinalPrompt(p.sections))])
  }

  // ---------------------------------------------------------------------------------------------
  // The loops

  /** The `evidence_parts` loop. */
  method BuildEvidenceParts(items: seq<EvidenceItem>) returns (parts: seq<string>)
    ensures parts == EvidenceParts(items)
  {
    parts := [];
    var i := 0;
    while i < |items|
      invariant i <= |items|
      invariant parts == EvidenceParts(items[..i])
    {
      assert items[..i + 1][..i] == items[..i];
      parts := parts + [EvidencePart(items[i])];
      i := i + 1;
    }
    assert items[..i] == items;
  }

  /** The `sources_fallback` loop. */
  method BuildSources(items: seq<EvidenceItem>) returns (sources: seq<JsonObject>)
    ensures sources == Sources(items)
  {
    sources := [];
    var i := 0;
    while i < |items|
      invariant i <= |items|
      invariant sources == Sources(items[..i])
    {
      assert items[..i + 1][..i] == items[..i];
      sources := sources + [SourceEntry(items[i])];
      i := i + 1;
    }
    assert items[..i] == items;
  }

  /** The validation loop: `KeyFigure(**item)` for the first twelve items, skipping those that raise. */
  method ValidateFigures(data: JsonObject) returns (validated: seq<KeyFigure>)
    ensures validated == ValidFigures(ExtractedItems(data))
  {
    validated := [];
    var extracted := Get(data, "key_figures", List([]));
    if extracted.List? {
      var items := extracted.items[..Min(FigureLimit, |extracted.items|)];
      var i := 0;
      while i < |items|
        invariant i <= |items|
        invariant validated == ValidFigures(items[..i])
      {
        assert items[..i + 1][..i] == items[..i];
        match FigureOf(items[i]) {
          case Some(kf) => validated := validated + [kf];
          case None =>
        }
        i := i + 1;
      }
      assert items[..i] == items;
    }
  }

  /** The `lines` loop. */
  method BuildFigureLines(kfs: seq<KeyFigure>) returns (lines: seq<string>)
    ensures lines == FigureLines(kfs)
  {
    lines := [];
    var i := 0;
    while i < |kfs|
      invariant i <= |kfs|
      invariant lines == FigureLines(kfs[..i])
    {
      assert kfs[..i + 1][..i] == kfs[..i];
      var kf := kfs[i];
      var unit := if kf.unit == "" || kf.unit == "unknown" then "" else " " + kf.unit;
      var context := if kf.context != "" then " (" + kf.context + ")" else "";
      lines := lines + ["- " + kf.name + ": " + kf.value + unit + context];
      i := i + 1;
    }
    assert kfs[..i] == kfs;
  }

  /** The key figures branch, once the answer `data` is known to be a dict. */
  method KeyFiguresDraft(k: nat, data: JsonObject, fallback: seq<JsonObject>) returns (outcome: Result<Draft, ReportError>)
    ensures outcome == SectionDraft(k, KeyFiguresHeading, Some(Object(data)), fallback)
  {
    var validated := ValidateFigures(data);
    var keyFigures := Normalized(validated);
    var lines := BuildFigureLines(keyFigures);
    var prettyContent := if |lines| > 0 then Join("\n", lines) else NoFiguresText;
    var sources := if "sources" in data && data["sources"].List? then data["sources"].items else ObjectValues(fallback);
    var sectionDict := map["heading" := Str(KeyFiguresHeading), "content" := Str(prettyContent), "sources" := List(sources)];
    assert sectionDict == FiguresDict(data, fallback);
    match SectionOf(sectionDict) {
      case Some(s) => outcome := Success(Pass(s, keyFigures));
      case None => outcome := Failure(InvalidSection(k));
    }
  }

  /** Any other section: the answer's dict with its missing keys filled in. */
  method OtherDraft(k: nat, reply: Value, heading: string, fallback: seq<JsonObject>) returns (outcome: Result<Draft, ReportError>)
    requires heading != KeyFiguresHeading
    ensures outcome == SectionDraft(k, heading, Some(reply), fallback)
  {
    var sectionDict: JsonObject := if reply.Object? then reply.fields else map[];
    if !Get(sectionDict, "heading", Null).Truthy() {
      sectionDict := sectionDict["heading" := Str(heading)];
    }
    if Get(sectionDict, "content", Null) == Null {
      sectionDict := sectionDict["content" := Str("")];
    }
    if !Get(sectionDict, "sources", Null).List? {
      sectionDict := sectionDict["sources" := List(ObjectValues(fallback))];
    }
    match SectionOf(sectionDict) {
      case Some(s) => outcome := Success(Pass(s, []));
      case None => outcome := Failure(InvalidSection(k));
    }
  }

  /** One pass of the section loop: evidence, prompt, call `k` and its answer. */
  method DraftSection(env: Env, k: nat) returns (request: Option<Request>, outcome: Result<Draft, ReportError>)
    requires k < |ReportSections|
    ensures Retrieved(env, k).None? ==> request == None && outcome == Failure(RetrievalFailed(k))
    ensures Retrieved(env, k).Some? ==> request == Some(SectionRequest(env, k)) && outcome == SectionResult(env, k)
  {
    var s := ReportSections[k];
    var retrieved := env.retrieve(env.documentId, s.heading + ". " + s.instruction, HitsPerSection);
    if retrieved.None? {
      return None, Failure(RetrievalFailed(k));
    }
    var hits := retrieved.value;
    var items: seq<EvidenceItem>;
    if |hits| == 0 {
      items := FallbackItems(env.blocks, env.documentId);
    } else {
      items := seq(|hits|, i requires 0 <= i < |hits| => FromHit(hits[i]));
    }
    assert items == SectionItems(env, k);
    var parts := BuildEvidenceParts(items);
    var evidenceText := Prefix(Join(EvidenceSeparator, parts), EvidenceLimit);
    var sourcesFallback := BuildSources(items);
    var userPrompt := UserPrompt(s, evidenceText);
    request := Some(Request(if s.heading == KeyFiguresHeading then KeyFiguresSystem else SectionSystem, env.rule, userPrompt));
    var answer := env.reply(k);
    if answer.None? {
      outcome := Failure(CallFailed(k));
    } else if s.heading == KeyFiguresHeading {
      if !answer.value.Object? {
        outcome := Failure(NotAnObject(k));
      } else {
        outcome := KeyFiguresDraft(k, answer.value.fields, sourcesFallback);
      }
    } else {
      outcome := OtherDraft(k, answer.value, s.heading, sourcesFallback);
    }
  }

  /**
   * One pass of the section loop, from a state the loop reaches without raising, given what
   * `DraftSection` makes of section `k`: a failing retrieval ends the run with its error; otherwise
   * the call is made, and a failing answer ends the run with its error while a good one extends
   * the sections (and, on the key figures pass, replaces the key figures).
   */
  lemma DraftingPass(env: Env, k: nat, sections: seq<ReportSection>, keyFigures: seq<KeyFigure>, requests: seq<Request>,
                     request: Option<Request>, outcome: Result<Draft, ReportError>)
    requires k < |ReportSections| && k <= FirstRetrievalFailure(env)
    requires Loop(Steps(env), k) == Progress(sections, keyFigures, requests, None)
    requires Retrieved(env, k).None? ==> request == None && outcome == Failure(RetrievalFailed(k))
    requires Retrieved(env, k).Some? ==> request == Some(SectionRequest(env, k)) && outcome == SectionResult(env, k)
    ensures request.None? ==> outcome.Failure? && Drafting(env) == Progress(sections, keyFigures, requests, Some(outcome.error))
    ensures request.Some? && outcome.Failure? ==>
              Drafting(env) == Progress(sections, keyFigures, requests + [request.value], Some(outcome.error))
    ensures request.Some? && outcome.Success? ==>
              k < FirstRetrievalFailure(env)
              && Loop(Steps(env), k + 1)
                 == Progress(sections + [outcome.value.section],
                             if k == KeyFiguresIndex then outcome.value.figures else keyFigures,
                             requests + [request.value], None)
  {
    var steps := Steps(env);
    var f := FirstRetrievalFailure(env);
    StepAt(env, k);
    KeyFiguresOnlyAt(k);
    if Retrieved(env, k).None? {
      HaltedAtCut(steps, f, RetrievalFailed(f));
    } else if outcome.Failure? {
      HaltedAfterFailure(steps, f, RetrievalFailed(f), k);
    }
  }

  /** A section loop that passes every section without raising ends with the state it reached. */
  lemma DraftingEnd(env: Env, k: nat, p: ReportProgress)
    requires k == |ReportSections| <= FirstRetrievalFailure(env) && Loop(Steps(env), k) == p
    ensures Drafting(env) == p
  {
    HaltedComplete(Steps(env), RetrievalFailed(FirstRetrievalFailure(env)));
  }

  /** The section loop, stopping at the first retrieval or call that raises. */
  method DraftAll(env: Env) returns (p: ReportProgress)
    ensures p == Drafting(env)
  {
    var sections: seq<ReportSection> := [];
    var keyFigures: seq<KeyFigure> := [];
    var requests: seq<Request> := [];
    var k := 0;
    while k < |ReportSections|
      invariant k <= FirstRetrievalFailure(env)
      invariant Loop(Steps(env), k) == Progress(sections, keyFigures, requests, None)
    {
      var request, outcome := DraftSection(env, k);
      DraftingPass(env, k, sections, keyFigures, requests, request, outcome);
      if request.None? {
        return Progress(sections, keyFigures, requests, Some(outcome.error));
      }
      requests := requests + [request.value];
      if outcome.Failure? {
        return Progress(sections, keyFigures, requests, Some(outcome.error));
      }
      sections := sections + [outcome.value.section];
      KeyFiguresOnlyAt(k);
      if ReportSections[k].heading == KeyFiguresHeading {
        keyFigures := outcome.value.figures;
      }
      k := k + 1;
    }
    p := Progress(sections, keyFigures, requests, None);
    DraftingEnd(env, k, p);
  }

  /** `generate_report_for_document`: the report or the error it raises, and the calls it made. */
  method GenerateReport(db: Database, documentId: int, retrieve: Retrieval,
                        reply: nat -> Option<Value>) returns (result: Result<ReportModel, ReportError>, requests: seq<Request>)
    ensures Outcome(result, requests) == Report(db.documents, db.blocks, documentId, retrieve, reply)
  {
    var document := FindDocument(db.documents, documentId);
    if document.None? {
      return Failure(DocumentNotFound(documentId)), [];
    }
    var lang := LanguageOf(document.value);
    var langRule := LanguageInstruction(lang);
    var env := Env(documentId, db.blocks, langRule, retrieve, reply);
    var p := DraftAll(env);
    requests := p.requests;
    if p.error.Some? {
      return Failure(p.error.value), requests;
    }
    var assembled := Assembled(p.sections);
    requests := requests + [Request(FinalSystem, langRule, "Drafted sections:\n\n" + assembled)];
    result := Wrap(reply(|ReportSections|), |ReportSections|, document.value.filename, p.sections, p.figures);
  }

  // ---------------------------------------------------------------------------------------------
  // Properties

  // ---------------------------------------------------------------------------------------------
  // Properties of the language rule

  /** No other language's rule reads like the German or the English one: they end differently. */
  lemma OtherRuleDistinct(x: string)
    ensures OtherRule(x) != GermanRule && OtherRule(x) != EnglishRule
  {
    var o := OtherRule(x);
    assert o == ("Output language: " + x + ". IMPORTANT: Write the entire output strictly in " + x) + ". Do not mix languages.";
    assert o[|o| - 3] == 'e';
    assert GermanRule[|GermanRule| - 3] == 'l';
    assert EnglishRule[|EnglishRule| - 3] == 's';
  }

  /**
   * The German rule is chosen exactly when the stripped, lowercased language is de, german or
   * deutsch, the English rule exactly when it is en or english, and any other language is named
   * as given (stripped, not lowercased).
   */
  lemma LanguageInstructionSpec(lang: string)
    ensures var low := Lower(LanguageName(lang));
            (LanguageInstruction(lang) == GermanRule <==> low in GermanNames)
            && (LanguageInstruction(lang) == EnglishRule <==> low in EnglishNames)
            && (low !in GermanNames && low !in EnglishNames ==> LanguageInstruction(lang) == OtherRule(LanguageName(lang)))
  {
    OtherRuleDistinct(LanguageName(lang));
    assert GermanRule[|GermanRule| - 3] != EnglishRule[|EnglishRule| - 3];
  }

  /** A document without a language is reported in German. */
  lemma DefaultLanguageIsGerman(doc: Document)
    requires !Truthy(doc.language)
    ensures LanguageInstruction(LanguageOf(doc)) == GermanRule
  {
    assert LanguageName("de") == "de";
    assert Lower("de") == "de";
  }

  /**
   * A blank language is kept (a non-empty string is truthy) and strips to an empty language name,
   * so it gets the rule for the language "", not German.
   */
  lemma BlankLanguage(lang: string)
    requires lang != "" && forall i :: 0 <= i < |lang| ==> IsSpace(lang[i])
    ensures LanguageInstruction(lang) == OtherRule("")
  {
    BlankIffAllSpace(lang);
    assert LanguageName(lang) == "";
    assert Lower("") == "";
  }

  // ---------------------------------------------------------------------------------------------
  // Properties of the evidence

  /**
   * The fallback evidence is the document's blocks in `block_index` order, cut after twelve: each
   * item stands for one block of the document (id `block_{id}`, its content, no pages, its title
   * or else its label), and no block of the document left out comes before one kept.
   */
  lemma FallbackItemsSpec(blocks: seq<DocumentBlock>, documentId: int)
    ensures var r := FallbackItems(blocks, documentId);
            var ps := DocumentPositions(blocks, documentId);
            |r| == Min(FallbackLimit, |ps|)
            && (forall i :: 0 <= i < |r| ==> ps[i] < |blocks| && blocks[ps[i]].document_id == documentId
                                             && r[i] == FromBlock(ps[i], blocks[ps[i]]))
            && (forall i, j :: 0 <= i < |r| && i < j < |ps| ==> blocks[ps[i]].block_index <= blocks[ps[j]].block_index)
  {
  }

  /** The fallback items have distinct ids, as the blocks they stand for are distinct rows. */
  lemma FallbackIdsDistinct(blocks: seq<DocumentBlock>, documentId: int)
    ensures var r := FallbackItems(blocks, documentId);
            forall i, j :: 0 <= i < j < |r| ==> r[i].id != r[j].id
  {
    var r := FallbackItems(blocks, documentId);
    var ps := DocumentPositions(blocks, documentId);
    forall i, j | 0 <= i < j < |r| ensures r[i].id != r[j].id {
      var a, b := IntToString(RowId(ps[i])), IntToString(RowId(ps[j]));
      if r[i].id == r[j].id {
        assert ("block_" + a)[6..] == a && ("block_" + b)[6..] == b;
        IntToStringInjective(RowId(ps[i]), RowId(ps[j]));
        assert false;
      }
    }
  }

  lemma EvidencePartsAt(items: seq<EvidenceItem>, i: nat)
    requires i < |items|
    ensures EvidenceParts(items)[i] == EvidencePart(items[i])
  {
    if i < |items| - 1 {
      EvidencePartsAt(items[..|items| - 1], i);
    }
  }

  lemma SourcesAt(items: seq<EvidenceItem>, i: nat)
    requires i < |items|
    ensures Sources(items)[i] == SourceEntry(items[i])
  {
    if i < |items| - 1 {
      SourcesAt(items[..|items| - 1], i);
    }
  }

  /**
   * The provenance list has one dict per piece of evidence, in order, holding its id, its pages
   * and its section title.
   */
  lemma SourcesSpec(items: seq<EvidenceItem>)
    ensures var r := Sources(items);
            |r| == |items|
            && forall i :: 0 <= i < |items| ==>
                 r[i].Keys == {"chunk_id", "page_start", "page_end", "section_title"}
                 && r[i]["chunk_id"] == Str(items[i].id) && r[i]["page_start"] == IntOrNull(items[i].pageStart)
                 && r[i]["page_end"] == IntOrNull(items[i].pageEnd) && r[i]["section_title"] == StrOrNull(items[i].sectionTitle)
  {
    forall i | 0 <= i < |items| {
      SourcesAt(items, i);
    }
  }

  // ---------------------------------------------------------------------------------------------
  // Properties of the user prompt

  /** Right-stripping after a part that ends in a non-space character only strips what follows it. */
  lemma {:induction false} RStripAfter(p: string, t: string)
    requires p != [] && !IsSpace(p[|p| - 1])
    ensures RStrip(p + t) == p + RStrip(t)
    decreases |t|
  {
    if t == [] {
      assert p + t == p;
    } else if IsSpace(t[|t| - 1]) {
      assert (p + t)[..|p + t| - 1] == p + t[..|t| - 1];
      RStripAfter(p, t[..|t| - 1]);
    }
  }

  /** The user prompt is the section's head followed by the evidence, with trailing whitespace removed. */
  lemma UserPromptSpec(s: Section, evidence: string)
    ensures UserPrompt(s, evidence) == PromptHead(s) + RStrip("\n" + evidence + "\n")
  {
    var h := PromptHead(s);
    var t := "\n" + evidence + "\n";
    assert "\n" + h + "\n" + evidence + "\n" == "\n" + (h + t);
    assert ("\n" + (h + t))[1..] == h + t;
    assert (h + t)[0] == 'S';
    assert LStrip("\n" + h + "\n" + evidence + "\n") == h + t;
    assert h[|h| - 1] == ':';
    RStripAfter(h, t);
  }

  /** Evidence that does not end in whitespace reaches the prompt whole, after the head and a newline. */
  lemma PromptCarriesEvidence(s: Section, evidence: string)
    requires evidence != "" && !IsSpace(evidence[|evidence| - 1])
    ensures UserPrompt(s, evidence) == PromptHead(s) + "\n" + evidence
  {
    UserPromptSpec(s, evidence);
    var p := "\n" + evidence;
    assert p[|p| - 1] == evidence[|evidence| - 1];
    RStripAfter(p, "\n");
    assert "\n" + evidence + "\n" == p + "\n";
    assert RStrip("\n") == "";
  }

  // ---------------------------------------------------------------------------------------------
  // Properties of the key figures

  /** Validation works item by item: the figures of two runs of items are the figures of each, in order. */
  lemma {:induction false} ValidFiguresAppend(a: seq<Value>, b: seq<Value>)
    ensures ValidFigures(a + b) == ValidFigures(a) + ValidFigures(b)
    decreases |b|
  {
    if b == [] {
      assert a + b == a;
    } else {
      ValidFiguresAppend(a, b[..|b| - 1]);
      assert (a + b)[..|a + b| - 1] == a + b[..|b| - 1];
      assert (a + b)[|a + b| - 1] == b[|b| - 1];
    }
  }

  /** An item that does not validate is skipped: nothing else changes. */
  lemma InvalidFigureSkipped(a: seq<Value>, x: Value, b: seq<Value>)
    requires FigureOf(x).None?
    ensures ValidFigures(a + [x] + b) == ValidFigures(a) + ValidFigures(b)
  {
    ValidFiguresAppend(a + [x], b);
    ValidFiguresAppend(a, [x]);
    ValidFigure(x);
  }

  /** A single item gives its validation, or nothing. */
  lemma ValidFigure(x: Value)
    ensures ValidFigures([x]) == match FigureOf(x) { case Some(kf) => [kf] case None => [] }
  {
    assert [x][..0] == [];
  }

  /** At most one figure per item. */
  lemma {:induction false} ValidFiguresLength(items: seq<Value>)
    ensures |ValidFigures(items)| <= |items|
  {
    if items != [] {
      ValidFiguresLength(items[..|items| - 1]);
    }
  }

  /** Each figure is the validation of one of the items. */
  lemma {:induction false} ValidFiguresFrom(items: seq<Value>)
    ensures forall kf :: kf in ValidFigures(items) ==> exists i :: 0 <= i < |items| && FigureOf(items[i]) == Some(kf)
  {
    if items != [] {
      var front := items[..|items| - 1];
      ValidFiguresFrom(front);
      forall kf | kf in ValidFigures(items) ensures exists i :: 0 <= i < |items| && FigureOf(items[i]) == Some(kf) {
        if kf in ValidFigures(front) {
          var i :| 0 <= i < |front| && FigureOf(front[i]) == Some(kf);
          assert items[i] == front[i];
        } else {
          assert FigureOf(items[|items| - 1]) == Some(kf);
        }
      }
    }
  }

  /** When every item validates, the figures are their validations, one per item in order. */
  lemma {:induction false} ValidFiguresAll(items: seq<Value>)
    requires forall i :: 0 <= i < |items| ==> FigureOf(items[i]).Some?
    ensures |ValidFigures(items)| == |items|
    ensures forall i :: 0 <= i < |items| ==> ValidFigures(items)[i] == FigureOf(items[i]).value
  {
    if items != [] {
      var front := items[..|items| - 1];
      ValidFiguresAll(front);
      var last := FigureOf(items[|items| - 1]).value;
      assert ValidFigures(items) == ValidFigures(front) + [last];
      forall i | 0 <= i < |items| ensures ValidFigures(items)[i] == FigureOf(items[i]).value {
        if i < |front| {
          assert front[i] == items[i];
        }
      }
    }
  }

  lemma FigureLinesAt(kfs: seq<KeyFigure>, i: nat)
    requires i < |kfs|
    ensures FigureLines(kfs)[i] == FigureLine(kfs[i])
  {
    if i < |kfs| - 1 {
      FigureLinesAt(kfs[..|kfs| - 1], i);
    }
  }

  /** A join of parts whose first part is non-empty starts with that part's first character. */
  lemma JoinFirst(sep: string, parts: seq<string>)
    requires parts != [] && parts[0] != ""
    ensures Join(sep, parts) != "" && Join(sep, parts)[0] == parts[0][0]
  {
  }

  /** The key figures content is the placeholder exactly when there are no figures. */
  lemma FiguresContentEmpty(kfs: seq<KeyFigure>)
    ensures FiguresContent(kfs) == NoFiguresText <==> kfs == []
  {
    if kfs != [] {
      FigureLinesAt(kfs, 0);
      JoinFirst("\n", FigureLines(kfs));
      assert FiguresContent(kfs)[0] == '-';
      assert NoFiguresText[0] == 'N';
    }
  }

  /** With figures, the content splits on newlines back into one line per figure, in order, when no line holds a newline. */
  lemma FiguresContentLines(kfs: seq<KeyFigure>)
    requires kfs != []
    requires forall i :: 0 <= i < |kfs| ==> '\n' !in FigureLine(kfs[i])
    ensures Split(FiguresContent(kfs), '\n') == FigureLines(kfs)
  {
    var lines := FigureLines(kfs);
    assert FiguresContent(kfs) == Join("\n", lines);
    LinesWithoutNewline(kfs);
    SplitJoin(lines, '\n');
  }

  lemma LinesWithoutNewline(kfs: seq<KeyFigure>)
    requires forall i :: 0 <= i < |kfs| ==> '\n' !in FigureLine(kfs[i])
    ensures forall k :: 0 <= k < |FigureLines(kfs)| ==> '\n' !in FigureLines(kfs)[k]
  {
    forall k | 0 <= k < |FigureLines(kfs)| ensures '\n' !in FigureLines(kfs)[k] {
      FigureLinesAt(kfs, k);
    }
  }

  // ---------------------------------------------------------------------------------------------
  // Properties of the sections

  /**
   * The defaults of a section: the answer's heading when truthy, else the section's own; its
   * content unless absent or null, else `""`; its sources when a list, else the evidence
   * provenance. Every other key of the answer is kept.
   */
  lemma SectionDictSpec(reply: Value, heading: string, fallback: seq<JsonObject>)
    ensures var d0 := if reply.Object? then reply.fields else map[];
            var d := SectionDict(reply, heading, fallback);
            d.Keys == d0.Keys + {"heading", "content", "sources"}
            && d["heading"] == (if Get(d0, "heading", Null).Truthy() then d0["heading"] else Str(heading))
            && d["content"] == (if Get(d0, "content", Null) == Null then Str("") else d0["content"])
            && d["sources"] == (if Get(d0, "sources", Null).List? then d0["sources"] else List(ObjectValues(fallback)))
            && forall key :: key in d0 && key !in {"heading", "content", "sources"} ==> d[key] == d0[key]
  {
  }

  /** Only the third section is the key figures section. */
  lemma KeyFiguresOnlyAt(k: nat)
    requires k < |ReportSections|
    ensures ReportSections[k].heading == KeyFiguresHeading <==> k == KeyFiguresIndex
  {
    assert |SummarySection.heading| == 17 && |FindingsSection.heading| == 12;
    assert |RisksSection.heading| == 14 && |ConclusionSection.heading| == 10 && |KeyFiguresHeading| == 11;
  }

  /**
   * A section other than key figures, when it validates: the heading is the answer's when it is
   * truthy and the section's own otherwise; the content is the answer's, or `""` when absent or
   * null; the sources are the answer's list, or the evidence provenance.
   */
  lemma OtherSectionSpec(k: nat, reply: Value, heading: string, fallback: seq<JsonObject>)
    requires heading != KeyFiguresHeading
    requires SectionDraft(k, heading, Some(reply), fallback).Success?
    ensures var d0 := if reply.Object? then reply.fields else map[];
            var s := SectionDraft(k, heading, Some(reply), fallback).value.section;
            s.heading == (if Get(d0, "heading", Null).Truthy() then d0["heading"].s else heading)
            && s.content == (if Get(d0, "content", Null) == Null then "" else d0["content"].s)
            && (!Get(d0, "sources", Null).List? ==> s.sources == fallback)
  {
    SectionDictSpec(reply, heading, fallback);
    var d := SectionDict(reply, heading, fallback);
    var s := SectionOf(d).value;
    if !Get(if reply.Object? then reply.fields else map[], "sources", Null).List? {
      assert d["sources"].items == ObjectValues(fallback);
      assert s.sources == fallback;
    }
  }

  /**
   * The key figures section, when it validates: heading "Key Figures"; its figures are the
   * normalised validations of the first at most twelve extracted items; its content is their
   * lines, or the placeholder when there are none.
   */
  lemma KeyFiguresSectionSpec(k: nat, data: JsonObject, fallback: seq<JsonObject>)
    requires SectionDraft(k, KeyFiguresHeading, Some(Object(data)), fallback).Success?
    ensures var d := SectionDraft(k, KeyFiguresHeading, Some(Object(data)), fallback).value;
            d.section.heading == KeyFiguresHeading
            && d.figures == Normalized(ValidFigures(ExtractedItems(data)))
            && |d.figures| <= FigureLimit
            && d.section.content == FiguresContent(d.figures)
            && (!("sources" in data && data["sources"].List?) ==> d.section.sources == fallback)
  {
    ValidFiguresLength(ExtractedItems(data));
    var d := SectionDraft(k, KeyFiguresHeading, Some(Object(data)), fallback).value;
    if !("sources" in data && data["sources"].List?) {
      assert FiguresDict(data, fallback)["sources"].items == ObjectValues(fallback);
    }
  }

  // ---------------------------------------------------------------------------------------------
  // Properties of the section loop and the report

  /** Only the third pass is the key figures section. */
  lemma StepsKeyFigures(env: Env)
    ensures forall i :: 0 <= i < |Steps(env)| ==> (Steps(env)[i].keyFigures <==> i == KeyFiguresIndex)
  {
    forall i | 0 <= i < |Steps(env)| ensures Steps(env)[i].keyFigures <==> i == KeyFiguresIndex {
      KeyFiguresOnlyAt(i);
    }
  }

  /** A section never fails with a missing document. */
  lemma SectionNeverMissing(env: Env, k: nat)
    requires k < |ReportSections| && SectionResult(env, k).Failure?
    ensures !SectionResult(env, k).error.DocumentNotFound? && !SectionResult(env, k).error.InvalidReport?
            && !SectionResult(env, k).error.RetrievalFailed? && SectionResult(env, k).error.call == k
  {
  }

  /**
   * A section loop that raises stops where it fails: a retrieval error for section `k` comes after
   * the calls of sections `0 .. k-1`; a section's error names the last call made.
   */
  lemma DraftingStops(env: Env)
    requires Drafting(env).error.Some?
    ensures var p := Drafting(env);
            var e := p.error.value;
            !e.DocumentNotFound? && !e.InvalidReport?
            && (e.RetrievalFailed? ==>
                  e.section == |p.requests| < |ReportSections| && Retrieved(env, e.section).None?
                  && forall j :: 0 <= j < e.section ==> Retrieved(env, j).Some?)
            && (!e.RetrievalFailed? ==> 0 < |p.requests| <= |ReportSections| && e.call == |p.requests| - 1)
  {
    var f := FirstRetrievalFailure(env);
    HaltedStops(Steps(env), f, RetrievalFailed(f));
    var h := Drafting(env);
    if h.error != Some(RetrievalFailed(f)) {
      var k := |h.requests| - 1;
      StepAt(env, k);
      SectionNeverMissing(env, k);
    }
  }

  /**
   * A section loop whose section `f` is the first whose retrieval raises raises: the retrieval
   * error after exactly the calls of sections `0 .. f-1` when those all succeed, and the first
   * failing section's error otherwise.
   */
  lemma DraftingRetrievalFailure(env: Env)
    requires FirstRetrievalFailure(env) < |ReportSections|
    ensures var p := Drafting(env);
            var f := FirstRetrievalFailure(env);
            p.error.Some?
            && ((forall j :: 0 <= j < f ==> SectionResult(env, j).Success?) <==> p.error == Some(RetrievalFailed(f)))
            && (p.error == Some(RetrievalFailed(f)) ==>
                  |p.requests| == f && forall j :: 0 <= j < f ==> p.requests[j] == SectionRequest(env, j))
  {
    var steps := Steps(env);
    var f := FirstRetrievalFailure(env);
    forall i | 0 <= i < |steps| && steps[i].result.Failure?
      ensures steps[i].result.error != RetrievalFailed(f)
    {
      SectionNeverMissing(env, i);
    }
    HaltedIff(steps, f, RetrievalFailed(f));
    forall j | 0 <= j < f
      ensures steps[j].result == SectionResult(env, j) && steps[j].request == SectionRequest(env, j)
    {
      assert steps[j] == SectionStep(env, j);
    }
  }

  /**
   * A failing run on a found document stops where it fails: a retrieval error for section `k`
   * comes after the calls of sections `0 .. k-1` and before section `k`'s call; a section's error
   * names the last call made; an invalid wrapper comes after all six calls.
   */
  lemma RunStopsAtFailure(env: Env, filename: string)
    requires Run(env, filename).result.Failure?
    ensures var o := Run(env, filename);
            var e := o.result.error;
            !e.DocumentNotFound?
            && (e.InvalidReport? ==> |o.requests| == |ReportSections| + 1)
            && (e.RetrievalFailed? ==>
                  e.section == |o.requests| < |ReportSections| && Retrieved(env, e.section).None?
                  && forall j :: 0 <= j < e.section ==> Retrieved(env, j).Some?)
            && (!e.InvalidReport? && !e.RetrievalFailed? ==>
                  0 < |o.requests| <= |ReportSections| + 1 && e.call == |o.requests| - 1)
  {
    if Drafting(env).error.Some? {
      DraftingStops(env);
    } else {
      DraftingComplete(env);
      LoopRequests(Steps(env), |ReportSections|);
    }
  }

  /**
   * A run whose section `f` is the first whose retrieval raises fails: with the retrieval error
   * for section `f`, after exactly the calls of sections `0 .. f-1`, when those sections all
   * succeed, and with the first failing section's error otherwise.
   */
  lemma RunRetrievalFailure(env: Env, filename: string)
    requires FirstRetrievalFailure(env) < |ReportSections|
    ensures var o := Run(env, filename);
            var f := FirstRetrievalFailure(env);
            o.result.Failure?
            && ((forall j :: 0 <= j < f ==> SectionResult(env, j).Success?) <==> o.result.error == RetrievalFailed(f))
            && (o.result.error == RetrievalFailed(f) ==>
                  |o.requests| == f && forall j :: 0 <= j < f ==> o.requests[j] == SectionRequest(env, j))
  {
    DraftingRetrievalFailure(env);
  }

  /** A run whose section loop did not raise ran every section's retrieval and the loop to its end. */
  lemma DraftingComplete(env: Env)
    requires Drafting(env).error.None?
    ensures FirstRetrievalFailure(env) == |ReportSections| && Drafting(env) == Drafted(Steps(env))
    ensures forall k :: 0 <= k < |ReportSections| ==> Retrieved(env, k).Some?
  {
    HaltedFailure(Steps(env), FirstRetrievalFailure(env), RetrievalFailed(FirstRetrievalFailure(env)));
  }

  /** The run fails with `Document not found` exactly when no document has the id, and then calls nothing. */
  lemma ReportMissingDocument(documents: seq<Document>, blocks: seq<DocumentBlock>, documentId: int,
                              retrieve: Retrieval, reply: nat -> Option<Value>)
    ensures var o := Report(documents, blocks, documentId, retrieve, reply);
            (o.result.Failure? && o.result.error.DocumentNotFound?)
            <==> forall i :: 0 <= i < |documents| ==> documents[i].id != documentId
    ensures var o := Report(documents, blocks, documentId, retrieve, reply);
            o.result.Failure? && o.result.error.DocumentNotFound? ==>
              o.result.error.documentId == documentId && o.requests == []
  {
    match FindDocument(documents, documentId)
    case None =>
    case Some(doc) =>
      var env := EnvOf(doc, documentId, blocks, retrieve, reply);
      if Run(env, doc.filename).result.Failure? {
        RunStopsAtFailure(env, doc.filename);
      }
  }

  /**
   * A successful run made the five section calls in order and then the final call on the drafted
   * sections, and its report holds the five sections those calls produced.
   */
  lemma RunCalls(env: Env, filename: string)
    requires Run(env, filename).result.Success?
    ensures var o := Run(env, filename);
            var rep := o.result.value;
            |o.requests| == |ReportSections| + 1 && |rep.sections| == |ReportSections|
            && (forall k :: 0 <= k < |ReportSections| ==> o.requests[k] == SectionRequest(env, k))
            && o.requests[|ReportSections|] == Request(FinalSystem, env.rule, FinalPrompt(rep.sections))
            && (forall k :: 0 <= k < |ReportSections| ==> Retrieved(env, k).Some?)
            && forall k :: 0 <= k < |ReportSections| ==>
                 SectionResult(env, k).Success? && rep.sections[k] == SectionResult(env, k).value.section
  {
    var steps := Steps(env);
    DraftingComplete(env);
    var p := Drafted(steps);
    LoopRequests(steps, |steps|);
    LoopSections(steps, |steps|);
    var o := Run(env, filename);
    WrapKeeps(env.reply(|ReportSections|), |ReportSections|, filename, p.sections, p.figures);
    assert o.requests == p.requests + [Request(FinalSystem, env.rule, FinalPrompt(p.sections))];
    assert o.result.value.sections == p.sections;
    forall k | 0 <= k < |ReportSections|
      ensures o.requests[k] == SectionRequest(env, k)
      ensures SectionResult(env, k).Success? && o.result.value.sections[k] == SectionResult(env, k).value.section
    {
      assert steps[k] == SectionStep(env, k);
    }
  }

  /** A report wrapper keeps the drafted sections and key figures. */
  lemma WrapKeeps(reply: Option<Value>, call: nat, filename: string, sections: seq<ReportSection>, figures: seq<KeyFigure>)
    ensures var r := Wrap(reply, call, filename, sections, figures);
            r.Success? ==> r.value.sections == sections && r.value.key_figures == figures
  {
  }

  /**
   * The key figures of a successful report are the normalised validations of the first at most
   * twelve items of the key figures answer, and its third section is headed "Key Figures".
   */
  lemma RunKeyFigures(env: Env, filename: string)
    requires Run(env, filename).result.Success?
    ensures env.reply(KeyFiguresIndex).Some? && env.reply(KeyFiguresIndex).value.Object?
    ensures var rep := Run(env, filename).result.value;
            |rep.sections| == |ReportSections| && rep.sections[KeyFiguresIndex].heading == KeyFiguresHeading
            && rep.key_figures == Normalized(ValidFigures(ExtractedItems(env.reply(KeyFiguresIndex).value.fields)))
            && |rep.key_figures| <= FigureLimit
  {
    var steps := Steps(env);
    DraftingComplete(env);
    var p := Drafted(steps);
    var rep := Run(env, filename).result.value;
    assert p.error.None?;
    assert rep.sections == p.sections && rep.key_figures == p.figures by {
      WrapKeeps(env.reply(|ReportSections|), |ReportSections|, filename, p.sections, p.figures);
    }
    assert |p.sections| == |ReportSections| by {
      LoopRequests(steps, |steps|);
      LoopSections(steps, |steps|);
    }
    assert steps[KeyFiguresIndex] == SectionStep(env, KeyFiguresIndex);
    var d := SectionResult(env, KeyFiguresIndex);
    assert d.Success? && p.sections[KeyFiguresIndex] == d.value.section && p.figures == d.value.figures by {
      StepsKeyFigures(env);
      LoopRequests(steps, |steps|);
      LoopSections(steps, |steps|);
      LoopFigures(steps, |steps|, KeyFiguresIndex);
    }
    var fallback := Sources(SectionItems(env, KeyFiguresIndex));
    assert d == SectionDraft(KeyFiguresIndex, KeyFiguresHeading, env.reply(KeyFiguresIndex), fallback);
    KeyFiguresSectionSpec(KeyFiguresIndex, env.reply(KeyFiguresIndex).value.fields, fallback);
  }

  /**
   * The wrapper of the final answer: the title is the answer's, or "Report for" and the file name
   * when absent; summary and conclusion are the answer's or `""`; each present one must be a string.
   */
  lemma WrapSpec(reply: JsonObject, call: nat, filename: string, sections: seq<ReportSection>, figures: seq<KeyFigure>)
    ensures var r := Wrap(Some(Object(reply)), call, filename, sections, figures);
            r.Success? <==> ("title" in reply ==> reply["title"].Str?) && ("summary" in reply ==> reply["summary"].Str?)
                            && ("conclusion" in reply ==> reply["conclusion"].Str?)
    ensures var r := Wrap(Some(Object(reply)), call, filename, sections, figures);
            r.Success? ==>
              r.value.title == (if "title" in reply then reply["title"].s else "Report for " + filename)
              && r.value.summary == (if "summary" in reply then reply["summary"].s else "")
              && r.value.conclusion == (if "conclusion" in reply then reply["conclusion"].s else "")
              && r.value.sections == sections && r.value.key_figures == figures
    ensures var r := Wrap(Some(Object(reply)), call, filename, sections, figures);
            r.Failure? ==> r.error == InvalidReport
  {
  }
}
