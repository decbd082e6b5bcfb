/** The format registry of the earliest command-line tool: XML and JSON only. */
module LegacyUtils {
  import opened Wrappers
  import opened Strings
  import opened Formats
  import Utils

  /** FileFormatFromFilename: ".json" and ".xml" by the last extension, else Unsupported. */
  function FileFormatFromFilename(filename: Option<string>): (r: FileFormat)
    ensures r == JsonFile <==> Utils.ExtensionOf(filename) == Some(".json")
    ensures r == XmlFile <==> Utils.ExtensionOf(filename) == Some(".xml")
  {
    var ext := Utils.ExtensionOf(filename);
    if ext == Some(".json") then JsonFile
    else if ext == Some(".xml") then XmlFile
    else UnsupportedFile
  }

  /** BomDeserializer: the JSON or XML reader; anything else throws. */
  function BomDeserializer(format: FileFormat): (r: Result<Decoder>)
    ensures r.Thrown? <==> format == UnsupportedFile
    ensures r.Thrown? ==> r.error == UnsupportedFormatException
    ensures r.Returned? ==> r.value in {JsonDecoder, XmlDecoder}
  {
    if format.JsonFile? then Returned(JsonDecoder)
    else if format.XmlFile? then Returned(XmlDecoder)
    else Thrown(UnsupportedFormatException)
  }

  /** BomSerializer: the JSON or XML writer, with no downgrade; anything else throws. */
  function BomSerializer(format: FileFormat): (r: Result<Serialization>)
    ensures r.Thrown? <==> format == UnsupportedFile
    ensures r.Thrown? ==> r.error == UnsupportedFormatException
    ensures r.Returned? ==> r.value in {JsonText([]), XmlText([])}
  {
    if format.JsonFile? then Returned(JsonText([]))
    else if format.XmlFile? then Returned(XmlText([]))
    else Thrown(UnsupportedFormatException)
  }

  /** Reading and writing agree on every file name: both throw exactly when the detected
      format is Unsupported, and otherwise read and write the same format. */
  lemma ConversionThrowsIffUnsupported(filename: Option<string>)
    ensures var f := FileFormatFromFilename(filename);
      BomDeserializer(f).Thrown? <==> f == UnsupportedFile
    ensures var f := FileFormatFromFilename(filename);
      BomSerializer(f).Thrown? <==> f == UnsupportedFile
    ensures var f := FileFormatFromFilename(filename);
      BomDeserializer(f) == Returned(JsonDecoder) <==> BomSerializer(f) == Returned(JsonText([]))
  {
  }

  /** A ".json" or ".xml" name is converted whatever precedes the extension. */
  lemma SuffixDetected(prefix: string)
    ensures FileFormatFromFilename(Some(prefix + ".json")) == JsonFile
    ensures FileFormatFromFilename(Some(prefix + ".xml")) == XmlFile
  {
    ExtensionOfSuffix(prefix, ".json");
    ExtensionOfSuffix(prefix, ".xml");
  }
}
