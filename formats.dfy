/** The enumerations the command-line tool switches on, with their declared ordinals where
    code casts between them, and the descriptions of what a library reader or writer is
    asked to do (which decoder, which serializer after which model downgrades, which sink). */
module Formats {
  import opened Wrappers

  /** cyclonedx/BomFormat.cs, in declaration order. */
  datatype BomFormat =
    | Unsupported | Xml | Xml_v1_0 | Xml_v1_1 | Xml_v1_2 | Xml_v1_3 | Json | Json_v1_2 | Json_v1_3
    | Protobuf | Protobuf_v1_3 | Csv | SpdxTag | SpdxTag_v2_1 | SpdxTag_v2_2

  function BomFormatOrdinal(f: BomFormat): nat {
    match f
    case Unsupported => 0
    case Xml => 1
    case Xml_v1_0 => 2
    case Xml_v1_1 => 3
    case Xml_v1_2 => 4
    case Xml_v1_3 => 5
    case Json => 6
    case Json_v1_2 => 7
    case Json_v1_3 => 8
    case Protobuf => 9
    case Protobuf_v1_3 => 10
    case Csv => 11
    case SpdxTag => 12
    case SpdxTag_v2_1 => 13
    case SpdxTag_v2_2 => 14
  }

  /** The declared BomFormat with a given ordinal, if any. */
  function BomFormatWithOrdinal(n: int): (r: Option<BomFormat>)
    ensures r.Some? <==> 0 <= n < 15
    ensures r.Some? ==> BomFormatOrdinal(r.value) == n
  {
    if n == 0 then Some(Unsupported) else if n == 1 then Some(Xml) else if n == 2 then Some(Xml_v1_0)
    else if n == 3 then Some(Xml_v1_1) else if n == 4 then Some(Xml_v1_2) else if n == 5 then Some(Xml_v1_3)
    else if n == 6 then Some(Json) else if n == 7 then Some(Json_v1_2) else if n == 8 then Some(Json_v1_3)
    else if n == 9 then Some(Protobuf) else if n == 10 then Some(Protobuf_v1_3) else if n == 11 then Some(Csv)
    else if n == 12 then Some(SpdxTag) else if n == 13 then Some(SpdxTag_v2_1) else if n == 14 then Some(SpdxTag_v2_2)
    else None
  }

  /** cyclonedx/Commands/ConvertOutputFormat.cs, in declaration order. */
  datatype ConvertOutputFormat =
    | autodetect | xml | xml_v1_0 | xml_v1_1 | xml_v1_2 | xml_v1_3 | json | json_v1_2 | json_v1_3
    | csv | spdxtag | spdxtag_v2_1 | spdxtag_v2_2

  function ConvertOutputFormatOrdinal(f: ConvertOutputFormat): nat {
    match f
    case autodetect => 0
    case xml => 1
    case xml_v1_0 => 2
    case xml_v1_1 => 3
    case xml_v1_2 => 4
    case xml_v1_3 => 5
    case json => 6
    case json_v1_2 => 7
    case json_v1_3 => 8
    case csv => 9
    case spdxtag => 10
    case spdxtag_v2_1 => 11
    case spdxtag_v2_2 => 12
  }

  /** The C# cast `(BomFormat) f`: the value with the same ordinal. The two enums agree up
      to json_v1_3 and then drift apart, because BomFormat declares Protobuf and
      Protobuf_v1_3 where ConvertOutputFormat declares csv and spdxtag. */
  function CastToBomFormat(f: ConvertOutputFormat): (r: BomFormat)
    ensures BomFormatOrdinal(r) == ConvertOutputFormatOrdinal(f)
    ensures f == autodetect ==> r == Unsupported
    ensures f == xml ==> r == Xml
    ensures f == xml_v1_0 ==> r == Xml_v1_0
    ensures f == xml_v1_1 ==> r == Xml_v1_1
    ensures f == xml_v1_2 ==> r == Xml_v1_2
    ensures f == xml_v1_3 ==> r == Xml_v1_3
    ensures f == json ==> r == Json
    ensures f == json_v1_2 ==> r == Json_v1_2
    ensures f == json_v1_3 ==> r == Json_v1_3
    ensures f == csv ==> r == Protobuf
    ensures f == spdxtag ==> r == Protobuf_v1_3
    ensures f == spdxtag_v2_1 ==> r == Csv
    ensures f == spdxtag_v2_2 ==> r == SpdxTag
  {
    BomFormatWithOrdinal(ConvertOutputFormatOrdinal(f)).value
  }

  /** cyclonedx/ExitCode.cs, in declaration order. */
  datatype ExitCode = Ok | OkFail | IOError | ParameterValidationError | UnsupportedFormat

  /** `(int) code`: the process exit status. */
  function Code(e: ExitCode): int {
    match e
    case Ok => 0
    case OkFail => 1
    case IOError => 2
    case ParameterValidationError => 3
    case UnsupportedFormat => 4
  }

  /** CycloneDX.CLI/FileFormat.cs */
  datatype FileFormat = UnsupportedFile | XmlFile | JsonFile

  /** The stream formats of the two later revisions (`BomFormat` there,
      `StandardInputOutputBomFormat` in the middle revision). */
  datatype StreamFormat = StreamAutodetect | StreamJson | StreamXml | StreamProtobuf

  /** The convert command's input formats: the stream formats and csv. */
  datatype InputFormat = InAutodetect | InJson | InXml | InProtobuf | InCsv

  /** The convert command's output formats in the two later revisions. `Undeclared` is an
      integer the enum declares no name for, which a C# enum variable can still hold. */
  datatype OutputFormat =
    | OutAutodetect | OutJson | OutXml | OutProtobuf | OutCsv
    | OutSpdxTag | OutSpdxTag_v2_1 | OutSpdxTag_v2_2
    | OutJson_v1_2 | OutJson_v1_3 | OutXml_v1_0 | OutXml_v1_1 | OutXml_v1_2 | OutXml_v1_3
    | OutProtobuf_v1_3
    | Undeclared(ordinal: int)

  /** `(InputFormat) f`: the same-named value. */
  function StreamToInput(f: StreamFormat): (r: InputFormat)
    ensures r != InCsv
    ensures (r == InAutodetect) == (f == StreamAutodetect)
  {
    match f
    case StreamAutodetect => InAutodetect
    case StreamJson => InJson
    case StreamXml => InXml
    case StreamProtobuf => InProtobuf
  }

  /** `(StreamFormat) f` for every input format except csv, which is read separately. */
  function InputToStream(f: InputFormat): (r: StreamFormat)
    requires f != InCsv
    ensures StreamToInput(r) == f
  {
    match f
    case InAutodetect => StreamAutodetect
    case InJson => StreamJson
    case InXml => StreamXml
    case InProtobuf => StreamProtobuf
  }

  /** `(OutputFormat) f`: the same-named value. */
  function InputToOutput(f: InputFormat): (r: OutputFormat)
    ensures r in {OutAutodetect, OutJson, OutXml, OutProtobuf, OutCsv}
    ensures (r == OutAutodetect) == (f == InAutodetect)
  {
    match f
    case InAutodetect => OutAutodetect
    case InJson => OutJson
    case InXml => OutXml
    case InProtobuf => OutProtobuf
    case InCsv => OutCsv
  }

  /** `(StreamFormat) f` for the four output formats that share a name with a stream format. */
  function OutputToStream(f: OutputFormat): (r: StreamFormat)
    requires f in {OutAutodetect, OutJson, OutXml, OutProtobuf}
    ensures InputToOutput(StreamToInput(r)) == f
  {
    match f
    case OutAutodetect => StreamAutodetect
    case OutJson => StreamJson
    case OutXml => StreamXml
    case OutProtobuf => StreamProtobuf
  }

  /** The SPDX specification versions the tag-value writer can produce. */
  datatype SpdxVersion = v2_1 | v2_2

  /** CycloneDX specification versions. */
  datatype SpecVersion = v1_0 | v1_1 | v1_2 | v1_3 | v1_4 | v1_5

  function SpecMinor(v: SpecVersion): nat {
    match v
    case v1_0 => 0
    case v1_1 => 1
    case v1_2 => 2
    case v1_3 => 3
    case v1_4 => 4
    case v1_5 => 5
  }

  /** The library's model constructors convert a v1.3 BOM one version at a time, always in
      this order: `new v1_2.Bom(bom)`, then `new v1_1.Bom(..)`, then `new v1_0.Bom(..)`. */
  const DowngradeOrder: seq<SpecVersion> := [v1_2, v1_1, v1_0]

  /** The first `n` downgrade steps. */
  function Downgrades(n: nat): (d: seq<SpecVersion>)
    requires n <= 3
    ensures |d| == n
    ensures d <= DowngradeOrder
  {
    DowngradeOrder[..n]
  }

  /** The version of the model that reaches the serializer after a chain of downgrades. */
  function WrittenVersion(d: seq<SpecVersion>): SpecVersion {
    if d == [] then v1_3 else d[|d| - 1]
  }

  /** Every prefix of the downgrade order writes the version 3 - n minor steps old, and
      each step lowers the version by exactly one. */
  lemma DowngradesLowerOneStepAtATime(n: nat)
    requires n <= 3
    ensures SpecMinor(WrittenVersion(Downgrades(n))) == 3 - n
    ensures forall i :: 0 <= i < n ==> SpecMinor(Downgrades(n)[i]) == 2 - i
  {
  }

  /** Which library deserializer reads the input. */
  datatype Decoder = JsonDecoder | XmlDecoder | ProtobufDecoder | CsvDecoder

  /** Which serializer writes the output: a library serializer after a chain of model
      downgrades, the SPDX tag-value writer at a version, or the CSV writer. */
  datatype Serialization =
    | ProtobufBytes
    | JsonText(downgrades: seq<SpecVersion>)
    | XmlText(downgrades: seq<SpecVersion>)
    | SpdxTagText(spdx: SpdxVersion)
    | CsvText

  /** Where input comes from: standard input when the file name is null, else the file. */
  datatype Source = Stdin | FileIn(name: string)

  function SourceOf(filename: Option<string>): Source {
    if filename.Some? then FileIn(filename.value) else Stdin
  }

  /** One read of the input with a decoder. */
  datatype Read = Read(source: Source, decoder: Decoder)

  /** Where output goes: standard output when the file name is null, else the file. */
  datatype Sink = Stdout | FileOut(name: string)

  function SinkOf(filename: Option<string>): Sink {
    if filename.Some? then FileOut(filename.value) else Stdout
  }

  /** One write of a serialization to a sink. */
  datatype Emission = Emission(sink: Sink, serialization: Serialization)

  /** What an output helper did: its return value and the write it made, if any; or the
      write it made before it raised an exception instead of returning. */
  datatype OutputOutcome =
    | OutputOutcome(exitCode: int, emitted: Option<Emission>)
    | ThrownAfter(emitted: Option<Emission>, error: Exception)
}
