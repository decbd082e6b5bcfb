/** The format registry of the middle revision: file-extension detection and the choice of
    library deserializer and serializer for each `BomFormat`. */
module Utils {
  import opened Wrappers
  import opened Strings
  import opened Formats

  /** The file extension a detectable format is recognised by (Protobuf also by ".bin"). */
  function CanonicalExtension(f: BomFormat): Option<string> {
    match f
    case Json => Some(".json")
    case Xml => Some(".xml")
    case Protobuf => Some(".cdx")
    case SpdxTag => Some(".spdx")
    case Csv => Some(".csv")
    case _ => None
  }

  /** `Path.GetExtension` on a possibly null path (null gives null). */
  function ExtensionOf(filename: Option<string>): Option<string> {
    if filename.Some? then Some(Extension(filename.value)) else None
  }

  /** DetectFileFormat: only the last extension counts, compared case-sensitively. */
  function DetectFileFormat(filename: Option<string>): (r: BomFormat)
    ensures r in {Unsupported, Xml, Json, Protobuf, SpdxTag, Csv}
    ensures r != Unsupported ==> ExtensionOf(filename) == CanonicalExtension(r) || (r == Protobuf && ExtensionOf(filename) == Some(".bin"))
  {
    var ext := ExtensionOf(filename);
    if ext == Some(".json") then Json
    else if ext == Some(".xml") then Xml
    else if ext == Some(".cdx") || ext == Some(".bin") then Protobuf
    else if ext == Some(".spdx") then SpdxTag
    else if ext == Some(".csv") then Csv
    else Unsupported
  }

  /** Any path ending in a detectable format's extension is detected as that format,
      whatever precedes the extension: "a.spdx.json" is Json. */
  lemma DetectBySuffix(prefix: string, f: BomFormat)
    requires CanonicalExtension(f).Some?
    ensures DetectFileFormat(Some(prefix + CanonicalExtension(f).value)) == f
  {
    var e := CanonicalExtension(f).value;
    assert e[0] == '.' && '.' !in e[1..] && '/' !in e[1..];
    ExtensionOfSuffix(prefix, e);
  }

  /** A name with no extension (no '.' after the last '/') is Unsupported. */
  lemma DetectWithoutExtension(dir: string, base: string)
    requires '.' !in base && '/' !in base
    ensures DetectFileFormat(Some(dir + "/" + base)) == Unsupported
  {
    var p := dir + "/" + base;
    ExtensionScanNoDot(p, |p|, |dir|);
  }

  lemma {:induction false} ExtensionScanNoDot(p: string, i: nat, slash: nat)
    requires slash < i <= |p|
    requires p[slash] == '/'
    requires forall j :: slash < j < |p| ==> p[j] != '.' && p[j] != '/'
    ensures ExtensionScan(p, i) == ""
    decreases i
  {
    if i - 1 != slash {
      ExtensionScanNoDot(p, i - 1, slash);
    }
  }

  /** BomDeserializer: which library reader handles a format. Only the four plain formats
      Json, Csv, Xml and Protobuf are readable; every other value, SpdxTag and all the
      versioned values included, throws. */
  function BomDeserializer(format: BomFormat): (r: Result<Decoder>)
    ensures r.Thrown? <==> format !in {Json, Csv, Xml, Protobuf}
    ensures r.Thrown? ==> r.error == UnsupportedFormatException
    ensures r.Returned? ==> (r.value == CsvDecoder <==> format == Csv)
  {
    if format == Json || format == Csv then
      (if format == Csv then Returned(CsvDecoder) else Returned(JsonDecoder))
    else if format == Xml then Returned(XmlDecoder)
    else if format == Protobuf then Returned(ProtobufDecoder)
    else Thrown(UnsupportedFormatException)
  }

  /** Every detected file format can be read back except SpdxTag (and Unsupported). */
  lemma DetectedFormatsReadable(filename: Option<string>)
    ensures BomDeserializer(DetectFileFormat(filename)).Returned?
        <==> DetectFileFormat(filename) !in {Unsupported, SpdxTag}
  {
  }

  /** The CycloneDX version a format name promises, for the Xml and Json families:
      the plain name means the current model, v1.3. */
  function NamedVersion(f: BomFormat): Option<SpecVersion> {
    match f
    case Xml | Xml_v1_3 | Json | Json_v1_3 => Some(v1_3)
    case Xml_v1_2 | Json_v1_2 => Some(v1_2)
    case Xml_v1_1 => Some(v1_1)
    case Xml_v1_0 => Some(v1_0)
    case _ => None
  }

  /** BomSerializer: which writer produces the output for a format, after how many model
      downgrades. Every format except Unsupported has a branch. */
  function BomSerializer(format: BomFormat): (r: Result<Serialization>)
    ensures r.Thrown? <==> format == Unsupported
    ensures r.Thrown? ==> r.error == UnsupportedFormatException
    ensures r.Returned? && (r.value.JsonText? || r.value.XmlText?) ==> r.value.downgrades <= DowngradeOrder
    ensures format in {SpdxTag, SpdxTag_v2_2} <==> r == Returned(SpdxTagText(v2_2))
    ensures format == SpdxTag_v2_1 <==> r == Returned(SpdxTagText(v2_1))
    ensures format == Csv <==> r == Returned(CsvText)
    ensures format in {Protobuf, Protobuf_v1_3} <==> r == Returned(ProtobufBytes)
  {
    match format
    case Protobuf | Protobuf_v1_3 => Returned(ProtobufBytes)
    case Json | Json_v1_3 => Returned(JsonText([]))
    case Json_v1_2 => Returned(JsonText(Downgrades(1)))
    case Xml | Xml_v1_3 => Returned(XmlText([]))
    case Xml_v1_2 => Returned(XmlText(Downgrades(1)))
    case Xml_v1_1 => Returned(XmlText(Downgrades(2)))
    case Xml_v1_0 => Returned(XmlText(Downgrades(3)))
    case SpdxTag | SpdxTag_v2_2 => Returned(SpdxTagText(v2_2))
    case SpdxTag_v2_1 => Returned(SpdxTagText(v2_1))
    case Csv => Returned(CsvText)
    case Unsupported => Thrown(UnsupportedFormatException)
  }

  /** For the Xml and Json families the serializer writes exactly the version the format
      name promises, reached by downgrading one version at a time from v1.3; the depth is
      1 for the *_v1_2 names, 2 for Xml_v1_1, 3 for Xml_v1_0 and 0 otherwise. */
  lemma SerializerWritesNamedVersion(f: BomFormat)
    requires NamedVersion(f).Some?
    ensures BomSerializer(f).Returned?
    ensures var s := BomSerializer(f).value;
      (s.JsonText? || s.XmlText?)
      && (s.JsonText? <==> f in {Json, Json_v1_2, Json_v1_3})
      && WrittenVersion(s.downgrades) == NamedVersion(f).value
      && |s.downgrades| == 3 - SpecMinor(NamedVersion(f).value)
  {
    DowngradesLowerOneStepAtATime(1);
    DowngradesLowerOneStepAtATime(2);
    DowngradesLowerOneStepAtATime(3);
  }
}
