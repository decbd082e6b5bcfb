/** The merge command of the newest revision (src/cyclonedx/Commands/MergeCommand.cs):
    parameter checks, the subject component, the library merge, and the reset of the
    document identity. The library's FlatMerge and HierarchicalMerge, the reader behind a
    `Read`, and the GUID generator are parameters. */
module Merge {
  import opened Wrappers
  import opened Strings
  import opened Formats
  import opened BomModel
  import opened CliUtils

  /** MergeCommandOptions: the command-line options, bound into an object whose output
      format the command overwrites once autodetect is resolved. */
  class MergeCommandOptions {
    var inputFiles: seq<string>
    var outputFile: Option<string>
    var inputFormat: StreamFormat
    var outputFormat: StreamFormat
    var hierarchical: bool
    var group: Option<string>
    var name: Option<string>
    var version: Option<string>

    constructor(inputFiles: seq<string>, outputFile: Option<string>, inputFormat: StreamFormat, outputFormat: StreamFormat,
                hierarchical: bool, group: Option<string>, name: Option<string>, version: Option<string>)
      ensures this.inputFiles == inputFiles && this.outputFile == outputFile
      ensures this.inputFormat == inputFormat && this.outputFormat == outputFormat
      ensures this.hierarchical == hierarchical
      ensures this.group == group && this.name == name && this.version == version
    {
      this.inputFiles := inputFiles;
      this.outputFile := outputFile;
      this.inputFormat := inputFormat;
      this.outputFormat := outputFormat;
      this.hierarchical := hierarchical;
      this.group := group;
      this.name := name;
      this.version := version;
    }
  }

  /** The read that `InputBomHelper` makes for one input file, or none when it returns null. */
  function ReadOf(filename: string, format: StreamFormat): (r: Option<Read>)
    ensures r.None? <==> format == StreamAutodetect && AutoDetectBomFormat(Some(filename)) == StreamAutodetect
    ensures r.Some? ==> r.value.source == FileIn(filename)
  {
    match StreamDecoder(Resolved(Some(filename), format))
    case None => None
    case Some(d) => Some(Read(FileIn(filename), d))
  }

  /** The input BOMs, one per file in the listed order. A file the helper cannot read
      gives a null BOM, whose `Components` is then dereferenced. */
  function Decoded(filenames: seq<string>, format: StreamFormat, decode: Read -> Bom): (r: Result<seq<Bom>>)
    ensures r.Thrown? ==> r.error == NullReferenceException
  {
    if filenames == [] then Returned([])
    else
      match ReadOf(filenames[0], format)
      case None => Thrown(NullReferenceException)
      case Some(read) =>
        match Decoded(filenames[1..], format, decode)
        case Thrown(e) => Thrown(e)
        case Returned(rest) => Returned([decode(read)] + rest)
  }

  /** Boms already read, in front of the outcome of reading the rest. */
  function Prepend(boms: seq<Bom>, rest: Result<seq<Bom>>): Result<seq<Bom>> {
    match rest
    case Thrown(e) => Thrown(e)
    case Returned(more) => Returned(boms + more)
  }

  /** Reading fails exactly when some file cannot be read; otherwise there is one BOM per
      file, the decoding of that file's read, in order. */
  lemma {:induction false} DecodedReadsEveryFile(filenames: seq<string>, format: StreamFormat, decode: Read -> Bom)
    ensures Decoded(filenames, format, decode).Thrown? <==>
      exists i :: 0 <= i < |filenames| && ReadOf(filenames[i], format).None?
    ensures Decoded(filenames, format, decode).Returned? ==>
      var boms := Decoded(filenames, format, decode).value;
      && |boms| == |filenames|
      && forall i :: 0 <= i < |filenames| ==>
           ReadOf(filenames[i], format).Some? && boms[i] == decode(ReadOf(filenames[i], format).value)
  {
    if filenames != [] {
      var rest := filenames[1..];
      DecodedReadsEveryFile(rest, format, decode);
      assert forall i :: 0 < i < |filenames| ==> filenames[i] == rest[i - 1];
      if ReadOf(filenames[0], format).None? {
        assert ReadOf(filenames[0], format).None?;
      } else if Decoded(rest, format, decode).Thrown? {
        var j :| 0 <= j < |rest| && ReadOf(rest[j], format).None?;
        assert filenames[j + 1] == rest[j];
      } else {
        var boms := Decoded(filenames, format, decode).value;
        var more := Decoded(rest, format, decode).value;
        assert boms == [decode(ReadOf(filenames[0], format).value)] + more;
        forall i | 0 <= i < |filenames|
          ensures ReadOf(filenames[i], format).Some? && boms[i] == decode(ReadOf(filenames[i], format).value)
        {
          if i > 0 {
            assert boms[i] == more[i - 1];
          }
        }
      }
    }
  }

  /** InputBoms: the read loop, appending one BOM per file. */
  method InputBoms(filenames: seq<string>, format: StreamFormat, decode: Read -> Bom) returns (r: Result<seq<Bom>>)
    ensures r == Decoded(filenames, format, decode)
  {
    var boms: seq<Bom> := [];
    var i := 0;
    PrependNothing(filenames, format, decode);
    while i < |filenames|
      invariant 0 <= i <= |filenames|
      invariant Decoded(filenames, format, decode) == Prepend(boms, Decoded(filenames[i..], format, decode))
    {
      var read := InputBomHelper(Some(filenames[i]), format);
      DecodedFrom(filenames, i, format, decode);
      if read.None? {
        return Thrown(NullReferenceException);
      }
      var bom := decode(read.value);
      PrependOne(boms, bom, Decoded(filenames[i + 1..], format, decode));
      boms := boms + [bom];
      i := i + 1;
    }
    assert filenames[i..] == [] && boms + [] == boms;
    return Returned(boms);
  }

  lemma PrependNothing(filenames: seq<string>, format: StreamFormat, decode: Read -> Bom)
    ensures Decoded(filenames, format, decode) == Prepend([], Decoded(filenames[0..], format, decode))
  {
    assert filenames[0..] == filenames;
    if Decoded(filenames, format, decode).Returned? {
      assert [] + Decoded(filenames, format, decode).value == Decoded(filenames, format, decode).value;
    }
  }

  /** Reading from the i-th file on: a failure there, or its BOM in front of the rest. */
  lemma DecodedFrom(filenames: seq<string>, i: nat, format: StreamFormat, decode: Read -> Bom)
    requires i < |filenames|
    ensures ReadOf(filenames[i], format).None? ==> Decoded(filenames[i..], format, decode) == Thrown(NullReferenceException)
    ensures ReadOf(filenames[i], format).Some? ==>
      Decoded(filenames[i..], format, decode)
        == Prepend([decode(ReadOf(filenames[i], format).value)], Decoded(filenames[i + 1..], format, decode))
  {
    assert filenames[i..][0] == filenames[i] && filenames[i..][1..] == filenames[i + 1..];
  }

  /** One more BOM read moves from the outcome to the BOMs already read. */
  lemma PrependOne(boms: seq<Bom>, bom: Bom, later: Result<seq<Bom>>)
    ensures Prepend(boms, Prepend([bom], later)) == Prepend(boms + [bom], later)
  {
    if later.Returned? {
      assert boms + ([bom] + later.value) == (boms + [bom]) + later.value;
    }
  }

  /** The subject component: an application with the given group, name and version,
      present exactly when at least one of the three is given. */
  function BomSubject(group: Option<string>, name: Option<string>, version: Option<string>): (r: Option<Component>)
    ensures r.Some? <==> group.Some? || name.Some? || version.Some?
    ensures r.Some? ==>
      r.value.kind == Application && r.value.group == group && r.value.name == name && r.value.version == version
  {
    if group.Some? || name.Some? || version.Some? then Some(NewComponent(Application, group, name, version))
    else None
  }

  /** The metadata component of the first input, in order, that has one. */
  function FirstSubject(boms: seq<Bom>): Option<Component> {
    if boms == [] then None
    else if MetadataComponent(boms[0]).Some? then MetadataComponent(boms[0])
    else FirstSubject(boms[1..])
  }

  /** FirstSubject is none exactly when no input has a metadata component, and otherwise
      the component of the earliest input that has one. */
  lemma {:induction false} FirstSubjectIsEarliest(boms: seq<Bom>)
    ensures FirstSubject(boms).None? <==> forall i :: 0 <= i < |boms| ==> MetadataComponent(boms[i]).None?
    ensures FirstSubject(boms).Some? ==>
      exists i :: 0 <= i < |boms| && MetadataComponent(boms[i]) == FirstSubject(boms)
        && forall j :: 0 <= j < i ==> MetadataComponent(boms[j]).None?
  {
    if boms != [] && MetadataComponent(boms[0]).None? {
      var rest := boms[1..];
      FirstSubjectIsEarliest(rest);
      assert forall i :: 0 < i < |boms| ==> boms[i] == rest[i - 1];
      if FirstSubject(rest).Some? {
        var i :| 0 <= i < |rest| && MetadataComponent(rest[i]) == FirstSubject(rest)
          && forall j :: 0 <= j < i ==> MetadataComponent(rest[j]).None?;
        assert MetadataComponent(boms[i + 1]) == FirstSubject(boms);
      } else {
        assert forall i :: 0 <= i < |boms| ==> MetadataComponent(boms[i]).None?;
      }
    }
  }

  /** The fallback loop with its `break`: take the first input's metadata component. */
  method FindFirstSubject(boms: seq<Bom>) returns (c: Option<Component>)
    ensures c == FirstSubject(boms)
  {
    c := None;
    var i := 0;
    while i < |boms|
      invariant 0 <= i <= |boms|
      invariant FirstSubject(boms) == FirstSubject(boms[i..])
    {
      assert boms[i..][1..] == boms[i + 1..];
      var bom := boms[i];
      if bom.metadata.Some? && bom.metadata.value.component.Some? {
        c := bom.metadata.value.component;
        break;
      }
      i := i + 1;
    }
  }

  /** Flat mode after the library merge: metadata is created if missing; a supplied
      subject becomes its component, else the first input's subject if any, else the
      merged metadata keeps its component. */
  function FlatWithSubject(merged: Bom, subject: Option<Component>, boms: seq<Bom>): (r: Bom)
    ensures r.metadata.Some? && r == merged.(metadata := r.metadata)
    ensures merged.metadata.Some? ==> r.metadata.value == merged.metadata.value.(component := r.metadata.value.component)
    ensures subject.Some? ==> r.metadata.value.component == subject
    ensures subject.None? && FirstSubject(boms).Some? ==> r.metadata.value.component == FirstSubject(boms)
    ensures subject.None? && FirstSubject(boms).None? && merged.metadata.Some? ==>
      r.metadata.value.component == merged.metadata.value.component
  {
    var metadata := if merged.metadata.Some? then merged.metadata.value else EmptyMetadata;
    var first := FirstSubject(boms);
    var component := if subject.Some? then subject else if first.Some? then first else metadata.component;
    merged.(metadata := Some(metadata.(component := component)))
  }

  /** The merged document before its identity is reset. */
  function MergedBom(hierarchical: bool, boms: seq<Bom>, subject: Option<Component>,
                     flatMerge: seq<Bom> -> Bom, hierarchicalMerge: (seq<Bom>, Option<Component>) -> Bom): Bom {
    if hierarchical then hierarchicalMerge(boms, subject)
    else FlatWithSubject(flatMerge(boms), subject, boms)
  }

  /** Version 1 and a new serial number built from a GUID. */
  function WithNewIdentity(bom: Bom, guid: string): (r: Bom)
    ensures r.version == Some(1) && r.serialNumber == Some("urn:uuid:" + guid)
    ensures r.(version := bom.version, serialNumber := bom.serialNumber) == bom
  {
    bom.(version := Some(1), serialNumber := Some("urn:uuid:" + guid))
  }

  /** In flat mode the output always has metadata. Its subject is the supplied one when
      given, else that of the earliest input having one, else whatever the library merge
      produced; the merged components and dependencies are untouched. */
  lemma FlatSubjectChoice(merged: Bom, subject: Option<Component>, boms: seq<Bom>)
    ensures var r := FlatWithSubject(merged, subject, boms);
      && r.metadata.Some?
      && r.components == merged.components && r.dependencies == merged.dependencies
      && (subject.Some? ==> MetadataComponent(r) == subject)
      && (subject.None? && (exists i :: 0 <= i < |boms| && MetadataComponent(boms[i]).Some?) ==>
            exists i :: 0 <= i < |boms| && MetadataComponent(r) == MetadataComponent(boms[i])
              && MetadataComponent(boms[i]).Some?
              && forall j :: 0 <= j < i ==> MetadataComponent(boms[j]).None?)
      && (subject.None? && (forall i :: 0 <= i < |boms| ==> MetadataComponent(boms[i]).None?) ==>
            MetadataComponent(r) == MetadataComponent(merged))
  {
    FirstSubjectIsEarliest(boms);
  }

  /** The merge step: the library's hierarchical merge, or its flat merge followed by the
      metadata and subject steps. */
  method MergeInputs(hierarchical: bool, boms: seq<Bom>, bomSubject: Option<Component>,
                     flatMerge: seq<Bom> -> Bom, hierarchicalMerge: (seq<Bom>, Option<Component>) -> Bom)
    returns (outputBom: Bom)
    ensures outputBom == MergedBom(hierarchical, boms, bomSubject, flatMerge, hierarchicalMerge)
  {
    if hierarchical {
      outputBom := hierarchicalMerge(boms, bomSubject);
    } else {
      outputBom := flatMerge(boms);
      if outputBom.metadata.None? {
        outputBom := outputBom.(metadata := Some(EmptyMetadata));
      }
      if bomSubject.Some? {
        outputBom := outputBom.(metadata := Some(outputBom.metadata.value.(component := bomSubject)));
      } else {
        var first := FindFirstSubject(boms);
        if first.Some? {
          outputBom := outputBom.(metadata := Some(outputBom.metadata.value.(component := first)));
        }
      }
    }
  }

  /** What the merge command did: its exit code, the BOM it wrote and how. */
  datatype MergeOutcome = MergeOutcome(exitCode: int, output: Option<Bom>, emitted: Option<Emission>)

  const MergeRejected := MergeOutcome(Code(ParameterValidationError), None, None)

  /** Merge. */
  method Merge(options: MergeCommandOptions, decode: Read -> Bom, flatMerge: seq<Bom> -> Bom,
               hierarchicalMerge: (seq<Bom>, Option<Component>) -> Bom, guid: string) returns (r: Result<MergeOutcome>)
    modifies options
    ensures options.inputFiles == old(options.inputFiles) && options.outputFile == old(options.outputFile)
    ensures options.inputFormat == old(options.inputFormat) && options.hierarchical == old(options.hierarchical)
    ensures options.group == old(options.group) && options.name == old(options.name)
    ensures options.version == old(options.version)
    ensures options.hierarchical && (options.name.None? || options.version.None?) ==>
      r == Returned(MergeRejected) && options.outputFormat == old(options.outputFormat)
    ensures !(options.hierarchical && (options.name.None? || options.version.None?)) ==>
      options.outputFormat == Resolved(options.outputFile, old(options.outputFormat))
    ensures (!(options.hierarchical && (options.name.None? || options.version.None?))
      && options.outputFormat == StreamAutodetect) ==> r == Returned(MergeRejected)
    ensures r.Thrown? <==>
      && !(options.hierarchical && (options.name.None? || options.version.None?))
      && options.outputFormat != StreamAutodetect
      && Decoded(options.inputFiles, options.inputFormat, decode).Thrown?
    ensures r.Thrown? ==> r.error == NullReferenceException
    ensures (!(options.hierarchical && (options.name.None? || options.version.None?))
      && options.outputFormat != StreamAutodetect
      && Decoded(options.inputFiles, options.inputFormat, decode).Returned?)
      ==> r.Returned? && r != Returned(MergeRejected)
    ensures r.Returned? && r != Returned(MergeRejected) ==>
      var boms := Decoded(options.inputFiles, options.inputFormat, decode).value;
      var subject := BomSubject(options.group, options.name, options.version);
      var merged := MergedBom(options.hierarchical, boms, subject, flatMerge, hierarchicalMerge);
      r.value == MergeOutcome(0, Some(WithNewIdentity(merged, guid)),
        Some(Emission(SinkOf(options.outputFile), StreamSerialization(options.outputFormat).value)))
  {
    if options.hierarchical && (options.name.None? || options.version.None?) {
      return Returned(MergeRejected);
    }
    if options.outputFormat == StreamAutodetect {
      options.outputFormat := AutoDetectBomFormat(options.outputFile);
    }
    if options.outputFormat == StreamAutodetect {
      return Returned(MergeRejected);
    }
    var inputBoms := InputBoms(options.inputFiles, options.inputFormat, decode);
    if inputBoms.Thrown? {
      return Thrown(inputBoms.error);
    }
    var boms := inputBoms.value;
    var bomSubject := BomSubject(options.group, options.name, options.version);
    var outputBom := MergeInputs(options.hierarchical, boms, bomSubject, flatMerge, hierarchicalMerge);
    outputBom := outputBom.(version := Some(1));
    outputBom := outputBom.(serialNumber := Some("urn:uuid:" + guid));
    var written := OutputBomHelper(options.outputFormat, options.outputFile);
    return Returned(MergeOutcome(written.exitCode, Some(outputBom), written.emitted));
  }
}
