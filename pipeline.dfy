/** The document pipeline: text extraction, text normalisation, entity
    recognition, field resolution and structuring, run strictly in that order,
    each checked before the next starts, every failure returned as a tagged
    result and never thrown. The four model-backed stages are parameters. */
module Pipeline {
  import opened Wrappers
  import opened Schemas
  import opened EntityLookup

  /** A value a stage throws: an `Error` carrying a message, or anything
      else. */
  datatype Thrown = Error(message: string) | NonError

  /** What awaiting a stage gives: the output it returned (possibly `null` or
      `undefined`, here `None`), or the value it threw. */
  datatype StageOutcome<T> = Returned(output: Option<T>) | Threw(thrown: Thrown)

  /** The four model-backed stages. */
  datatype Stages = Stages(
    extract: string -> StageOutcome<OcrOutput>,
    preprocess: string -> StageOutcome<PreprocessOutput>,
    recognize: string -> StageOutcome<NerOutput>,
    structure: StructureInput -> StageOutcome<StructuredRecord>)

  /** What `processDocument` resolves to: `{success: true, data}` or
      `{success: false, error}`. */
  datatype ProcessResult = Succeeded(data: Option<StructuredRecord>) | Failed(error: string)

  /** One invocation of a stage, with the argument it was given. */
  datatype Call =
    | ExtractCall(documentDataUri: string)
    | PreprocessCall(extractedText: string)
    | RecognizeCall(preprocessedText: string)
    | StructureCall(input: StructureInput)
  {
    /** Position of the stage in the pipeline. */
    function Step(): nat
    {
      match this
      case ExtractCall(_) => 0
      case PreprocessCall(_) => 1
      case RecognizeCall(_) => 2
      case StructureCall(_) => 3
    }
  }

  /** A run of the pipeline: its result and the stage calls made, in order. */
  datatype Execution = Execution(result: ProcessResult, calls: seq<Call>)

  const FailurePrefix: string := "Failed to process document. "
  const UnknownErrorMessage: string := "An unknown error occurred."
  const MissingUriMessage: string := "Document data URI is missing."
  const OcrFailedMessage: string := "OCR failed to extract text from the document."
  const PreprocessFailedMessage: string := "Text preprocessing failed."
  const NerFailedMessage: string := "Named Entity Recognition failed to identify entities."

  /** The message the catch block reports for a thrown value. */
  function ErrorMessage(t: Thrown): string
  {
    match t
    case Error(m) => m
    case NonError => UnknownErrorMessage
  }

  /** The catch block: the run stops with the calls made so far and a
      wrapped message. */
  function Abort(calls: seq<Call>, t: Thrown): (e: Execution)
    ensures e.result.Failed? && IsPrefix(FailurePrefix, e.result.error)
    ensures e.calls == calls
  {
    Execution(Failed(FailurePrefix + ErrorMessage(t)), calls)
  }

  /** `processDocument`, with each stage invocation recorded. */
  function Execute(dataUri: Option<string>, st: Stages): (e: Execution)
    ensures e.result.Failed? ==> IsPrefix(FailurePrefix, e.result.error)
    ensures |e.calls| <= 4
    ensures forall i :: 0 <= i < |e.calls| ==> e.calls[i].Step() == i
    ensures e.result.Succeeded? ==> |e.calls| == 4
  {
    if !TruthyString(dataUri) then
      Abort([], Error(MissingUriMessage))
    else
      var uri := dataUri.value;
      var c1 := [ExtractCall(uri)];
      match st.extract(uri)
      case Threw(t) => Abort(c1, t)
      case Returned(ocr) =>
        if !(ocr.Some? && TruthyString(ocr.value.extractedText)) then
          Abort(c1, Error(OcrFailedMessage))
        else
          var text := ocr.value.extractedText.value;
          var c2 := [ExtractCall(uri), PreprocessCall(text)];
          match st.preprocess(text)
          case Threw(t) => Abort(c2, t)
          case Returned(pre) =>
            if !(pre.Some? && TruthyString(pre.value.preprocessedText)) then
              Abort(c2, Error(PreprocessFailedMessage))
            else
              var clean := pre.value.preprocessedText.value;
              var c3 := [ExtractCall(uri), PreprocessCall(text), RecognizeCall(clean)];
              match st.recognize(clean)
              case Threw(t) => Abort(c3, t)
              case Returned(ner) =>
                if !(ner.Some? && ner.value.entities.Some?) then
                  Abort(c3, Error(NerFailedMessage))
                else
                  var input := ResolveFields(ner.value.entities.value);
                  var c4 := [ExtractCall(uri), PreprocessCall(text), RecognizeCall(clean), StructureCall(input)];
                  match st.structure(input)
                  case Threw(t) => Abort(c4, t)
                  case Returned(data) => Execution(Succeeded(data), c4)
  }

  /** `processDocument`: always a tagged result, every failure message
      carrying the fixed prefix. */
  function ProcessDocument(dataUri: Option<string>, st: Stages): (r: ProcessResult)
    ensures r.Failed? ==> IsPrefix(FailurePrefix, r.error)
  {
    Execute(dataUri, st).result
  }

  // ---------------------------------------------------------------------
  // Gates and thrown errors, stage by stage
  // ---------------------------------------------------------------------

  /** A missing or empty data URI fails before any stage is called. */
  lemma MissingUriFails(dataUri: Option<string>, st: Stages)
    requires dataUri == None || dataUri == Some("")
    ensures Execute(dataUri, st) == Execution(Failed(FailurePrefix + MissingUriMessage), [])
  {
  }

  /** A value thrown by text extraction is caught and wrapped; nothing after
      it runs. */
  lemma ExtractThrows(uri: string, st: Stages, t: Thrown)
    requires uri != "" && st.extract(uri) == Threw(t)
    ensures Execute(Some(uri), st) == Execution(Failed(FailurePrefix + (if t.Error? then t.message else UnknownErrorMessage)), [ExtractCall(uri)])
  {
  }

  /** An absent extraction output, or one whose text is absent or empty,
      fails the OCR gate; preprocessing is never called. */
  lemma OcrGateFails(uri: string, st: Stages, ocr: Option<OcrOutput>)
    requires uri != "" && st.extract(uri) == Returned(ocr)
    requires ocr == None || ocr.value.extractedText == None || ocr.value.extractedText == Some("")
    ensures Execute(Some(uri), st) == Execution(Failed(FailurePrefix + OcrFailedMessage), [ExtractCall(uri)])
  {
  }

  /** A value thrown by preprocessing is caught and wrapped; entity
      recognition is never called. */
  lemma PreprocessThrows(uri: string, text: string, st: Stages, t: Thrown)
    requires uri != "" && st.extract(uri) == Returned(Some(OcrOutput(Some(text)))) && text != ""
    requires st.preprocess(text) == Threw(t)
    ensures Execute(Some(uri), st)
      == Execution(Failed(FailurePrefix + (if t.Error? then t.message else UnknownErrorMessage)), [ExtractCall(uri), PreprocessCall(text)])
  {
  }

  /** An absent, empty or missing preprocessed text fails its gate; entity
      recognition is never called. */
  lemma PreprocessGateFails(uri: string, text: string, st: Stages, pre: Option<PreprocessOutput>)
    requires uri != "" && st.extract(uri) == Returned(Some(OcrOutput(Some(text)))) && text != ""
    requires st.preprocess(text) == Returned(pre)
    requires pre == None || pre.value.preprocessedText == None || pre.value.preprocessedText == Some("")
    ensures Execute(Some(uri), st)
      == Execution(Failed(FailurePrefix + PreprocessFailedMessage), [ExtractCall(uri), PreprocessCall(text)])
  {
  }

  /** A value thrown by entity recognition is caught and wrapped; structuring
      is never called. */
  lemma RecognizeThrows(uri: string, text: string, clean: string, st: Stages, t: Thrown)
    requires uri != "" && st.extract(uri) == Returned(Some(OcrOutput(Some(text)))) && text != ""
    requires st.preprocess(text) == Returned(Some(PreprocessOutput(Some(clean)))) && clean != ""
    requires st.recognize(clean) == Threw(t)
    ensures Execute(Some(uri), st)
      == Execution(Failed(FailurePrefix + (if t.Error? then t.message else UnknownErrorMessage)), [ExtractCall(uri), PreprocessCall(text), RecognizeCall(clean)])
  {
  }

  /** An absent recognition output, or one without an entity list, fails the
      entity gate; structuring is never called. */
  lemma NerGateFails(uri: string, text: string, clean: string, st: Stages, ner: Option<NerOutput>)
    requires uri != "" && st.extract(uri) == Returned(Some(OcrOutput(Some(text)))) && text != ""
    requires st.preprocess(text) == Returned(Some(PreprocessOutput(Some(clean)))) && clean != ""
    requires st.recognize(clean) == Returned(ner)
    requires ner == None || ner.value.entities == None
    ensures Execute(Some(uri), st)
      == Execution(Failed(FailurePrefix + NerFailedMessage), [ExtractCall(uri), PreprocessCall(text), RecognizeCall(clean)])
  {
  }

  /** A value thrown by structuring is caught and wrapped. */
  lemma StructureThrows(uri: string, text: string, clean: string, entities: seq<Entity>, st: Stages, t: Thrown)
    requires uri != "" && st.extract(uri) == Returned(Some(OcrOutput(Some(text)))) && text != ""
    requires st.preprocess(text) == Returned(Some(PreprocessOutput(Some(clean)))) && clean != ""
    requires st.recognize(clean) == Returned(Some(NerOutput(Some(entities))))
    requires st.structure(ResolveFields(entities)) == Threw(t)
    ensures Execute(Some(uri), st) == Execution(Failed(FailurePrefix + (if t.Error? then t.message else UnknownErrorMessage)),
      [ExtractCall(uri), PreprocessCall(text), RecognizeCall(clean), StructureCall(ResolveFields(entities))])
  {
  }

  /** When every gate passes, the four stages are called in order, each with
      the previous stage's output, the structuring stage with the resolved
      fields, and its output is returned unchecked as the data. */
  lemma EveryGatePasses(uri: string, text: string, clean: string, entities: seq<Entity>, st: Stages,
                        data: Option<StructuredRecord>)
    requires uri != "" && st.extract(uri) == Returned(Some(OcrOutput(Some(text)))) && text != ""
    requires st.preprocess(text) == Returned(Some(PreprocessOutput(Some(clean)))) && clean != ""
    requires st.recognize(clean) == Returned(Some(NerOutput(Some(entities))))
    requires st.structure(ResolveFields(entities)) == Returned(data)
    ensures Execute(Some(uri), st) == Execution(Succeeded(data),
      [ExtractCall(uri), PreprocessCall(text), RecognizeCall(clean), StructureCall(ResolveFields(entities))])
  {
  }

  /** An empty entity list passes the entity gate: structuring still runs,
      on an input with every field absent. */
  lemma EmptyEntitiesPassGate(uri: string, text: string, clean: string, st: Stages)
    requires uri != "" && st.extract(uri) == Returned(Some(OcrOutput(Some(text)))) && text != ""
    requires st.preprocess(text) == Returned(Some(PreprocessOutput(Some(clean)))) && clean != ""
    requires st.recognize(clean) == Returned(Some(NerOutput(Some([]))))
    ensures |Execute(Some(uri), st).calls| == 4
    ensures Execute(Some(uri), st).calls[3] == StructureCall(StructureInput(None, None, None, None, None))
  {
    NoEntitiesAllFieldsAbsent();
  }

  /** The example of a stage failing with a network timeout. */
  lemma NetworkTimeoutReported(uri: string, st: Stages)
    requires uri != "" && st.extract(uri) == Threw(Error("network timeout"))
    ensures ProcessDocument(Some(uri), st) == Failed("Failed to process document. network timeout")
  {
    ExtractThrows(uri, st, Error("network timeout"));
    assert FailurePrefix + "network timeout" == "Failed to process document. network timeout";
  }

  // ---------------------------------------------------------------------
  // Whole-run properties
  // ---------------------------------------------------------------------

  /** Success happens only when every gate passes, and then the data is
      exactly what structuring returned for the resolved fields. */
  lemma SuccessOnlyWhenEveryGatePasses(dataUri: Option<string>, st: Stages)
    requires ProcessDocument(dataUri, st).Succeeded?
    ensures exists text, clean, entities ::
      dataUri.Some? && dataUri.value != ""
      && st.extract(dataUri.value) == Returned(Some(OcrOutput(Some(text)))) && text != ""
      && st.preprocess(text) == Returned(Some(PreprocessOutput(Some(clean)))) && clean != ""
      && st.recognize(clean) == Returned(Some(NerOutput(Some(entities))))
      && st.structure(ResolveFields(entities)) == Returned(ProcessDocument(dataUri, st).data)
  {
    var uri := dataUri.value;
    var text := st.extract(uri).output.value.extractedText.value;
    var clean := st.preprocess(text).output.value.preprocessedText.value;
    var entities := st.recognize(clean).output.value.entities.value;
    assert st.structure(ResolveFields(entities)) == Returned(ProcessDocument(dataUri, st).data);
  }

  /** Fail-fast: a stage that was not called has no influence on the run, so
      replacing every stage after the last one called changes nothing. */
  lemma UncalledStagesIrrelevant(dataUri: Option<string>, st: Stages, st2: Stages)
    requires var n := |Execute(dataUri, st).calls|;
      (n >= 1 ==> st2.extract == st.extract)
      && (n >= 2 ==> st2.preprocess == st.preprocess)
      && (n >= 3 ==> st2.recognize == st.recognize)
      && (n >= 4 ==> st2.structure == st.structure)
    ensures Execute(dataUri, st2) == Execute(dataUri, st)
  {
  }
}
