/** The record shapes that flow between the stages of the document pipeline,
    taken from the schemas declared next to each stage. */
module Schemas {
  import opened Wrappers

  /** One recognised span: an open-vocabulary label and the extracted text. */
  datatype Entity = Entity(labelText: string, value: string)

  /** What the text-extraction stage returns when it returns at all. */
  datatype OcrOutput = OcrOutput(extractedText: Option<string>)

  /** What the text-normalisation stage returns when it returns at all. */
  datatype PreprocessOutput = PreprocessOutput(preprocessedText: Option<string>)

  /** What the entity-recognition stage returns when it returns at all. */
  datatype NerOutput = NerOutput(entities: Option<seq<Entity>>)

  /** The partial record handed to the structuring stage: every field optional
      (`None` is a structurally absent field, not `null`). */
  datatype StructureInput = StructureInput(
    pattaHolderName: Option<string>,
    villageName: Option<string>,
    coordinates: Option<string>,
    claimStatus: Option<string>,
    otherInformation: Option<string>)

  /** The structured record: every field present, each a string or `null`
      (`None` here). */
  datatype StructuredRecord = StructuredRecord(
    pattaHolderName: Option<string>,
    villageName: Option<string>,
    coordinates: Option<string>,
    claimStatus: Option<string>,
    additionalNotes: Option<string>)
}
