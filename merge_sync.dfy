/** The merge command of the middle revision (cyclonedx/Commands/MergeCommand.cs). The
    checks and the subject are those of the newer revision; flat mode only touches the
    metadata when a subject is supplied, the serial number is kept, and the component
    count is printed without a null check when writing to a file. */
module MergeSync {
  import opened Wrappers
  import opened Strings
  import opened Formats
  import opened BomModel
  import opened CliUtils
  import opened CliUtilsSync
  import opened Merge

  /** MergeCommand.Options. */
  class Options {
    var inputFiles: seq<string>
    var outputFile: Option<string>
    var inputFormat: StreamFormat
    var outputFormat: StreamFormat
    var hierarchical: bool
    var group: Option<string>
    var name: Option<string>
    var version: Option<string>

    constructor(inputFiles: seq<string>, outputFile: Option<string>, inputFormat: StreamFormat, outputFormat: StreamFormat,
                hierarchical: bool, group: Option<string>, name: Option<string>, version: Option<string>)
      ensures this.inputFiles == inputFiles && this.outputFile == outputFile
      ensures this.inputFormat == inputFormat && this.outputFormat == outputFormat
      ensures this.hierarchical == hierarchical
      ensures this.group == group && this.name == name && this.version == version
    {
      this.inputFiles := inputFiles;
      this.outputFile := outputFile;
      this.inputFormat := inputFormat;
      this.outputFormat := outputFormat;
      this.hierarchical := hierarchical;
      this.group := group;
      this.name := name;
      this.version := version;
    }
  }

  /** Flat mode: only a supplied subject is written, into metadata created if missing. */
  function FlatWithSuppliedSubject(merged: Bom, subject: Option<Component>): Bom {
    if subject.None? then merged
    else
      var metadata := if merged.metadata.Some? then merged.metadata.value else EmptyMetadata;
      merged.(metadata := Some(metadata.(component := subject)))
  }

  /** The merged document before the version is set. */
  function SyncMergedBom(hierarchical: bool, boms: seq<Bom>, subject: Option<Component>,
                         flatMerge: seq<Bom> -> Bom, hierarchicalMerge: (seq<Bom>, Option<Component>) -> Bom): Bom {
    if hierarchical then hierarchicalMerge(boms, subject)
    else FlatWithSuppliedSubject(flatMerge(boms), subject)
  }

  /** Without a supplied subject the flat result is the library's merge unchanged: the
      inputs' subjects are never consulted. With one, it is the output's subject and
      everything else of the merge is kept. */
  lemma NoSubjectFallback(merged: Bom, subject: Option<Component>)
    ensures subject.None? ==> FlatWithSuppliedSubject(merged, subject) == merged
    ensures subject.Some? ==>
      var r := FlatWithSuppliedSubject(merged, subject);
      && MetadataComponent(r) == subject
      && r.(metadata := merged.metadata) == merged
  {
  }

  /** The two revisions agree in flat mode whenever a subject is supplied, or no input has
      a metadata component and the merge produced metadata. */
  lemma FlatModesAgree(merged: Bom, subject: Option<Component>, boms: seq<Bom>)
    requires subject.Some? || (merged.metadata.Some? && forall i :: 0 <= i < |boms| ==> MetadataComponent(boms[i]).None?)
    ensures FlatWithSuppliedSubject(merged, subject) == FlatWithSubject(merged, subject, boms)
  {
    FirstSubjectIsEarliest(boms);
  }

  /** The merge step: the library's hierarchical merge, or its flat merge with the
      supplied subject set, metadata created for it when missing. */
  method SyncMergeInputs(hierarchical: bool, boms: seq<Bom>, bomSubject: Option<Component>,
                         flatMerge: seq<Bom> -> Bom, hierarchicalMerge: (seq<Bom>, Option<Component>) -> Bom)
    returns (outputBom: Bom)
    ensures outputBom == SyncMergedBom(hierarchical, boms, bomSubject, flatMerge, hierarchicalMerge)
  {
    if hierarchical {
      outputBom := hierarchicalMerge(boms, bomSubject);
    } else {
      outputBom := flatMerge(boms);
      if bomSubject.Some? {
        if outputBom.metadata.None? {
          outputBom := outputBom.(metadata := Some(EmptyMetadata));
        }
        outputBom := outputBom.(metadata := Some(outputBom.metadata.value.(component := bomSubject)));
      }
    }
  }

  /** A rejected parameter check: nothing read, nothing written. */
  const SyncRejected := MergeOutcome(Code(ParameterValidationError), None, None)

  /** How the merge command ends: it returns an exit code with what it wrote, or raises an
      exception before writing anything, or raises one after the merged BOM has gone to
      standard output (the console stream's NotSupportedException). */
  datatype SyncMergeEnd =
    | Finished(outcome: MergeOutcome)
    | Failed(error: Exception)
    | FailedAfter(output: Bom, emitted: Emission, error: Exception)

  /** The parameter checks pass: name and version for a hierarchical merge, and an output
      format (the resolved one). */
  predicate Accepted(hierarchical: bool, name: Option<string>, version: Option<string>, outputFormat: StreamFormat) {
    !(hierarchical && (name.None? || version.None?)) && outputFormat != StreamAutodetect
  }

  /** Merge. Once the checks pass and the inputs are read, the merged BOM with version 1 is
      written: to a file the command returns 0, unless the merge has no component list,
      whose count is printed first; to the console it is written and then the helper
      raises NotSupportedException. */
  method SyncMerge(options: Options, decode: Read -> Bom, flatMerge: seq<Bom> -> Bom,
                   hierarchicalMerge: (seq<Bom>, Option<Component>) -> Bom) returns (r: SyncMergeEnd)
    modifies options
    ensures options.inputFiles == old(options.inputFiles) && options.outputFile == old(options.outputFile)
    ensures options.inputFormat == old(options.inputFormat) && options.hierarchical == old(options.hierarchical)
    ensures options.group == old(options.group) && options.name == old(options.name)
    ensures options.version == old(options.version)
    ensures options.hierarchical && (options.name.None? || options.version.None?) ==>
      r == Finished(SyncRejected) && options.outputFormat == old(options.outputFormat)
    ensures !(options.hierarchical && (options.name.None? || options.version.None?)) ==>
      options.outputFormat == Resolved(options.outputFile, old(options.outputFormat))
    ensures r == Finished(SyncRejected) <==> !Accepted(options.hierarchical, options.name, options.version, options.outputFormat)
    ensures Accepted(options.hierarchical, options.name, options.version, options.outputFormat)
      && Decoded(options.inputFiles, options.inputFormat, decode).Thrown?
      ==> r == Failed(Decoded(options.inputFiles, options.inputFormat, decode).error)
    ensures (Accepted(options.hierarchical, options.name, options.version, options.outputFormat)
      && Decoded(options.inputFiles, options.inputFormat, decode).Returned?) ==>
      var boms := Decoded(options.inputFiles, options.inputFormat, decode).value;
      var subject := BomSubject(options.group, options.name, options.version);
      var output := SyncMergedBom(options.hierarchical, boms, subject, flatMerge, hierarchicalMerge).(version := Some(1));
      var serialization := StreamSerialization(options.outputFormat).value;
      && (!IsNullOrEmpty(options.outputFile) && output.components.None? ==> r == Failed(NullReferenceException))
      && (options.outputFile.None? ==> r == FailedAfter(output, Emission(Stdout, serialization), NotSupportedException))
      && (options.outputFile.Some? && (IsNullOrEmpty(options.outputFile) || output.components.Some?) ==>
            r == Finished(MergeOutcome(0, Some(output), Some(Emission(SinkOf(options.outputFile), serialization)))))
    ensures r.Failed? ==> r.error == NullReferenceException
  {
    var outputToConsole := IsNullOrEmpty(options.outputFile);
    if options.hierarchical && (options.name.None? || options.version.None?) {
      return Finished(SyncRejected);
    }
    if options.outputFormat == StreamAutodetect {
      options.outputFormat := AutoDetectBomFormat(options.outputFile);
    }
    if options.outputFormat == StreamAutodetect {
      return Finished(SyncRejected);
    }
    var inputBoms := InputBoms(options.inputFiles, options.inputFormat, decode);
    if inputBoms.Thrown? {
      return Failed(inputBoms.error);
    }
    var boms := inputBoms.value;
    var bomSubject := BomSubject(options.group, options.name, options.version);
    var outputBom := SyncMergeInputs(options.hierarchical, boms, bomSubject, flatMerge, hierarchicalMerge);
    outputBom := outputBom.(version := Some(1));
    if !outputToConsole && outputBom.components.None? {
      return Failed(NullReferenceException);
    }
    var written := SyncOutputBomHelper(options.outputFormat, options.outputFile);
    if written.ThrownAfter? {
      return FailedAfter(outputBom, written.emitted.value, written.error);
    }
    return Finished(MergeOutcome(written.exitCode, Some(outputBom), written.emitted));
  }
}
