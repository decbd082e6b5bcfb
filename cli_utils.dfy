/** The format detection and the input/output dispatch of the newest command-line tool
    (src/cyclonedx/CliUtils.cs). The synchronous earlier revision (cyclonedx/CliUtils.cs)
    has the same detection chain and input helpers; its output helpers are in CliUtilsSync.
    A helper that "reads" or "writes" returns the read or write it performs: which source or
    sink, which library decoder or serializer. */
module CliUtils {
  import opened Wrappers
  import opened Strings
  import opened Formats
  import Utils

  /** The stream format a registry format corresponds to, autodetect for the rest. */
  function StreamOfRegistry(f: BomFormat): StreamFormat {
    match f
    case Json => StreamJson
    case Xml => StreamXml
    case Protobuf => StreamProtobuf
    case _ => StreamAutodetect
  }

  /** The convert command's input format a registry format corresponds to. */
  function InputOfRegistry(f: BomFormat): InputFormat {
    match f
    case Json => InJson
    case Xml => InXml
    case Protobuf => InProtobuf
    case Csv => InCsv
    case _ => InAutodetect
  }

  /** The convert command's output format a registry format corresponds to. */
  function OutputOfRegistry(f: BomFormat): OutputFormat {
    match f
    case Json => OutJson
    case Xml => OutXml
    case Protobuf => OutProtobuf
    case Csv => OutCsv
    case SpdxTag => OutSpdxTag
    case _ => OutAutodetect
  }

  /** AutoDetectBomFormat: null or empty names are not detected; otherwise the last
      extension decides, with the same table as the middle revision's DetectFileFormat
      restricted to the JSON, XML and Protobuf entries. */
  function AutoDetectBomFormat(filename: Option<string>): (r: StreamFormat)
    ensures IsNullOrEmpty(filename) ==> r == StreamAutodetect
    ensures !IsNullOrEmpty(filename) ==> r == StreamOfRegistry(Utils.DetectFileFormat(filename))
  {
    if IsNullOrEmpty(filename) then StreamAutodetect
    else
      var ext := Utils.ExtensionOf(filename);
      if ext == Some(".json") then StreamJson
      else if ext == Some(".xml") then StreamXml
      else if ext == Some(".cdx") || ext == Some(".bin") then StreamProtobuf
      else StreamAutodetect
  }

  /** AutoDetectConvertCommandInputBomFormat: ".csv", else the stream detection cast by name.
      The chain recognises exactly the registry's readable formats. */
  function AutoDetectConvertCommandInputBomFormat(filename: Option<string>): (r: InputFormat)
    ensures IsNullOrEmpty(filename) ==> r == InAutodetect
    ensures !IsNullOrEmpty(filename) ==> r == InputOfRegistry(Utils.DetectFileFormat(filename))
  {
    if IsNullOrEmpty(filename) then InAutodetect
    else if Utils.ExtensionOf(filename) == Some(".csv") then InCsv
    else StreamToInput(AutoDetectBomFormat(filename))
  }

  /** AutoDetectConvertCommandOutputBomFormat: ".spdx", else the input detection cast by
      name. The chain recognises exactly the registry's detectable formats. */
  function AutoDetectConvertCommandOutputBomFormat(filename: Option<string>): (r: OutputFormat)
    ensures IsNullOrEmpty(filename) ==> r == OutAutodetect
    ensures !IsNullOrEmpty(filename) ==> r == OutputOfRegistry(Utils.DetectFileFormat(filename))
  {
    if IsNullOrEmpty(filename) then OutAutodetect
    else if Utils.ExtensionOf(filename) == Some(".spdx") then OutSpdxTag
    else InputToOutput(AutoDetectConvertCommandInputBomFormat(filename))
  }

  /** Which library deserializer a stream format is read with; none for autodetect. */
  function StreamDecoder(f: StreamFormat): Option<Decoder> {
    match f
    case StreamJson => Some(JsonDecoder)
    case StreamXml => Some(XmlDecoder)
    case StreamProtobuf => Some(ProtobufDecoder)
    case StreamAutodetect => None
  }

  /** The format a helper reads or writes once autodetect has been resolved. */
  function Resolved(filename: Option<string>, format: StreamFormat): StreamFormat {
    if format == StreamAutodetect then AutoDetectBomFormat(filename) else format
  }

  /** InputBomHelper(string, BomFormat): null (nothing read) exactly when the format is
      autodetect and the name gives nothing, standard input included; otherwise one read of
      the file, or of standard input for a null name, with the decoder for the format. */
  method InputBomHelper(filename: Option<string>, format: StreamFormat) returns (r: Option<Read>)
    ensures r.None? <==> format == StreamAutodetect && AutoDetectBomFormat(filename) == StreamAutodetect
    ensures r.Some? ==> r.value.source == SourceOf(filename)
    ensures r.Some? ==> Some(r.value.decoder) == StreamDecoder(Resolved(filename, format))
  {
    var fmt := format;
    if filename.None? && fmt == StreamAutodetect {
      return None;
    } else if fmt == StreamAutodetect {
      fmt := AutoDetectBomFormat(filename);
      if fmt == StreamAutodetect {
        return None;
      }
    }
    var decoder := StreamDecoder(fmt);
    if decoder.None? {
      return None;
    }
    return Some(Read(SourceOf(filename), decoder.value));
  }

  /** The convert command's input format once autodetect has been resolved. */
  function ResolvedInput(filename: Option<string>, format: InputFormat): InputFormat {
    if format == InAutodetect then AutoDetectConvertCommandInputBomFormat(filename) else format
  }

  /** InputBomHelper(string, ConvertInputFormat): csv input is read whole and handed to the
      CSV reader; every other format goes through the stream helper above. */
  method ConvertInputBomHelper(filename: Option<string>, format: InputFormat) returns (r: Option<Read>)
    ensures r.None? <==> format == InAutodetect && AutoDetectConvertCommandInputBomFormat(filename) == InAutodetect
    ensures r.Some? ==> r.value.source == SourceOf(filename)
    ensures r.Some? ==> (r.value.decoder == CsvDecoder <==> ResolvedInput(filename, format) == InCsv)
    ensures r.Some? && ResolvedInput(filename, format) != InCsv ==>
      Some(r.value.decoder) == StreamDecoder(InputToStream(ResolvedInput(filename, format)))
  {
    var fmt := format;
    if filename.None? && fmt == InAutodetect {
      return None;
    } else if fmt == InAutodetect {
      fmt := AutoDetectConvertCommandInputBomFormat(filename);
      if fmt == InAutodetect {
        return None;
      }
    }
    if fmt == InCsv {
      return Some(Read(SourceOf(filename), CsvDecoder));
    } else {
      r := InputBomHelper(filename, InputToStream(fmt));
    }
  }

  /** The serialization a stream output format is written with. */
  function StreamSerialization(f: StreamFormat): Option<Serialization> {
    match f
    case StreamProtobuf => Some(ProtobufBytes)
    case StreamJson => Some(JsonText([]))
    case StreamXml => Some(XmlText([]))
    case StreamAutodetect => None
  }

  /** OutputBomHelper(Bom, BomFormat, string): ParameterValidationError when autodetect
      cannot be resolved. A detected format is never assigned back, so autodetect with a
      detectable name writes nothing and still returns 0; an explicit format writes the BOM
      unchanged to the file, or to standard output for a null name. */
  method OutputBomHelper(format: StreamFormat, filename: Option<string>) returns (r: OutputOutcome)
    ensures r.OutputOutcome?
    ensures r.exitCode == Code(ParameterValidationError) <==>
      format == StreamAutodetect && AutoDetectBomFormat(filename) == StreamAutodetect
    ensures r.exitCode in {0, Code(ParameterValidationError)}
    ensures r.emitted.Some? <==> format != StreamAutodetect
    ensures r.emitted.Some? ==>
      r.emitted.value == Emission(SinkOf(filename), StreamSerialization(format).value)
  {
    if filename.None? && format == StreamAutodetect {
      return OutputOutcome(Code(ParameterValidationError), None);
    } else if format == StreamAutodetect {
      var detected := AutoDetectBomFormat(filename);
      if detected == StreamAutodetect {
        return OutputOutcome(Code(ParameterValidationError), None);
      }
    }
    var serialization := StreamSerialization(format);
    if serialization.Some? {
      r := OutputOutcome(0, Some(Emission(SinkOf(filename), serialization.value)));
    } else {
      r := OutputOutcome(0, None);
    }
  }

  /** The four output formats the convert helper hands to the stream helper. */
  predicate Delegated(format: OutputFormat) {
    format in {OutAutodetect, OutJson, OutProtobuf, OutXml}
  }

  /** The BomFormat of the middle revision that has the same name as an output format. */
  function RegistryName(format: OutputFormat): Option<BomFormat> {
    match format
    case OutAutodetect => None
    case OutJson => Some(Json)
    case OutXml => Some(Xml)
    case OutProtobuf => Some(Protobuf)
    case OutCsv => Some(Csv)
    case OutSpdxTag => Some(SpdxTag)
    case OutSpdxTag_v2_1 => Some(SpdxTag_v2_1)
    case OutSpdxTag_v2_2 => Some(SpdxTag_v2_2)
    case OutJson_v1_2 => Some(Json_v1_2)
    case OutJson_v1_3 => Some(Json_v1_3)
    case OutXml_v1_0 => Some(Xml_v1_0)
    case OutXml_v1_1 => Some(Xml_v1_1)
    case OutXml_v1_2 => Some(Xml_v1_2)
    case OutXml_v1_3 => Some(Xml_v1_3)
    case OutProtobuf_v1_3 => Some(Protobuf_v1_3)
    case Undeclared(_) => None
  }

  /** The writer chosen for an output format the convert helper handles itself: the
      versioned library writers after their downgrade chains, SPDX tag-value at 2.2
      (also for plain spdxtag) or 2.1, and CSV; none for an undeclared value. */
  function VersionedSerialization(format: OutputFormat): (r: Option<Serialization>)
    requires !Delegated(format)
    ensures r.None? <==> format.Undeclared?
  {
    match format
    case OutProtobuf_v1_3 => Some(ProtobufBytes)
    case OutJson_v1_3 => Some(JsonText([]))
    case OutJson_v1_2 => Some(JsonText(Downgrades(1)))
    case OutXml_v1_3 => Some(XmlText([]))
    case OutXml_v1_2 => Some(XmlText(Downgrades(1)))
    case OutXml_v1_1 => Some(XmlText(Downgrades(2)))
    case OutXml_v1_0 => Some(XmlText(Downgrades(3)))
    case OutSpdxTag | OutSpdxTag_v2_2 => Some(SpdxTagText(v2_2))
    case OutSpdxTag_v2_1 => Some(SpdxTagText(v2_1))
    case OutCsv => Some(CsvText)
    case Undeclared(_) => None
  }

  /** Every output format with a name is written exactly as the middle revision's
      BomSerializer writes the BomFormat of the same name: same writer, same SPDX version,
      same downgrade chain. */
  lemma {:induction false} VersionedSerializationMatchesRegistry(format: OutputFormat)
    requires !Delegated(format) && !format.Undeclared?
    ensures RegistryName(format).Some?
    ensures Utils.BomSerializer(RegistryName(format).value) == Returned(VersionedSerialization(format).value)
  {
    match format
    case OutProtobuf_v1_3 =>
    case OutJson_v1_3 =>
    case OutJson_v1_2 =>
    case OutXml_v1_3 =>
    case OutXml_v1_2 =>
    case OutXml_v1_1 =>
    case OutXml_v1_0 =>
    case OutSpdxTag =>
    case OutSpdxTag_v2_2 =>
    case OutSpdxTag_v2_1 =>
    case OutCsv =>
  }

  /** OutputBomHelper(Bom, ConvertOutputFormat, string): autodetect, json, protobuf and xml
      go to the stream helper; the other declared formats are written, unchanged exit 0,
      with the same writer the registry picks for that name; an undeclared value writes
      nothing and returns UnsupportedFormat. */
  method ConvertOutputBomHelper(format: OutputFormat, filename: Option<string>) returns (r: OutputOutcome)
    ensures r.OutputOutcome?
    ensures Delegated(format) ==>
      (r.exitCode == Code(ParameterValidationError) <==>
        format == OutAutodetect && AutoDetectBomFormat(filename) == StreamAutodetect)
    ensures !Delegated(format) ==>
      (r.exitCode == Code(UnsupportedFormat) <==> format.Undeclared?)
    ensures r.exitCode in {0, Code(ParameterValidationError), Code(UnsupportedFormat)}
    ensures r.emitted.Some? <==> format != OutAutodetect && !format.Undeclared?
    ensures r.emitted.Some? ==>
      r.emitted.value.sink == SinkOf(filename)
      && RegistryName(format).Some?
      && Utils.BomSerializer(RegistryName(format).value) == Returned(r.emitted.value.serialization)
  {
    if Delegated(format) {
      r := OutputBomHelper(OutputToStream(format), filename);
    } else {
      var serialization := VersionedSerialization(format);
      if serialization.Some? {
        VersionedSerializationMatchesRegistry(format);
        r := OutputOutcome(0, Some(Emission(SinkOf(filename), serialization.value)));
      } else {
        r := OutputOutcome(Code(UnsupportedFormat), None);
      }
    }
  }
}
