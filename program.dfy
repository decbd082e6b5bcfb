/** The input-format mapping of the middle revision's entry point (cyclonedx/Program.cs). */
module Program {
  import opened Wrappers
  import opened Strings
  import opened Formats
  import Utils

  /** The entry point's input-format option: autodetect, json, xml, csv, or any other value
      of that enum (its declaration is not part of this model). */
  datatype ProgramInputFormat = InputAutodetect | InputJson | InputXml | InputCsv | InputOther(ordinal: int)

  /** InputFormatHelper: autodetect asks the registry about the file name, even when the
      name is empty (an error is printed and detection still runs, giving Unsupported);
      json, xml and csv map to their formats and every other value to Unsupported. */
  function InputFormatHelper(inputFile: Option<string>, inputFormat: ProgramInputFormat): (r: BomFormat)
    ensures r in {Unsupported, Xml, Json, Protobuf, SpdxTag, Csv}
    ensures inputFormat == InputAutodetect && IsNullOrEmpty(inputFile) ==> r == Unsupported
    ensures inputFormat == InputAutodetect ==> r == Utils.DetectFileFormat(inputFile)
    ensures inputFormat.InputOther? ==> r == Unsupported
    ensures inputFormat != InputAutodetect && r != Unsupported ==> Utils.BomDeserializer(r).Returned?
  {
    if inputFormat == InputAutodetect then
      Utils.DetectFileFormat(inputFile)
    else if inputFormat == InputJson then Json
    else if inputFormat == InputXml then Xml
    else if inputFormat == InputCsv then Csv
    else Unsupported
  }
}
