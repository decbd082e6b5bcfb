/** The output helpers of the synchronous earlier command-line tool (cyclonedx/CliUtils.cs).
    Detection and input are the same as in CliUtils. The one difference is on the stream
    helper's path: after writing to standard output it calls `SetLength(Position)` on the
    console stream, which cannot seek, so reading `Position` raises NotSupportedException
    after the BOM has been written; the convert helper's own writers never do this. */
module CliUtilsSync {
  import opened Wrappers
  import opened Formats
  import Utils
  import opened CliUtils

  /** OutputBomHelper(Bom, StandardInputOutputBomFormat, string): the same decisions as the
      newer revision for a file; with a null file name and an explicit format, the BOM is
      written to standard output and then NotSupportedException is raised instead of a
      return. (Standard output with autodetect is rejected first.) */
  method SyncOutputBomHelper(format: StreamFormat, filename: Option<string>) returns (r: OutputOutcome)
    ensures r.ThrownAfter? <==> filename.None? && format != StreamAutodetect
    ensures r.ThrownAfter? ==>
      r.error == NotSupportedException
      && r.emitted == Some(Emission(Stdout, StreamSerialization(format).value))
    ensures r.OutputOutcome? ==>
      (r.exitCode == Code(ParameterValidationError) <==>
        format == StreamAutodetect && AutoDetectBomFormat(filename) == StreamAutodetect)
    ensures r.OutputOutcome? ==> r.exitCode in {0, Code(ParameterValidationError)}
    ensures r.emitted.Some? <==> format != StreamAutodetect
    ensures r.emitted.Some? ==>
      r.emitted.value == Emission(SinkOf(filename), StreamSerialization(format).value)
  {
    if filename.None? && format == StreamAutodetect {
      return OutputOutcome(Code(ParameterValidationError), None);
    } else if format == StreamAutodetect {
      var detected := AutoDetectBomFormat(filename);
      if detected == StreamAutodetect {
        return OutputOutcome(Code(ParameterValidationError), None);
      }
    }
    var serialization := StreamSerialization(format);
    var emitted := if serialization.Some? then Some(Emission(SinkOf(filename), serialization.value)) else None;
    if filename.None? {
      r := ThrownAfter(emitted, NotSupportedException);
    } else {
      r := OutputOutcome(0, emitted);
    }
  }

  /** OutputBomHelper(Bom, ConvertCommand.OutputFormat, string): the same dispatch as the
      newer revision (default spdxtag is SPDX 2.2, same downgrade depths, UnsupportedFormat
      for an undeclared value); only the delegated writes to standard output end in
      NotSupportedException. */
  method SyncConvertOutputBomHelper(format: OutputFormat, filename: Option<string>) returns (r: OutputOutcome)
    ensures r.ThrownAfter? <==> Delegated(format) && format != OutAutodetect && filename.None?
    ensures r.ThrownAfter? ==> r.error == NotSupportedException
    ensures r.OutputOutcome? && Delegated(format) ==>
      (r.exitCode == Code(ParameterValidationError) <==>
        format == OutAutodetect && AutoDetectBomFormat(filename) == StreamAutodetect)
    ensures r.OutputOutcome? && !Delegated(format) ==>
      (r.exitCode == Code(UnsupportedFormat) <==> format.Undeclared?)
    ensures r.OutputOutcome? ==> r.exitCode in {0, Code(ParameterValidationError), Code(UnsupportedFormat)}
    ensures r.emitted.Some? <==> format != OutAutodetect && !format.Undeclared?
    ensures r.emitted.Some? ==>
      r.emitted.value.sink == SinkOf(filename)
      && RegistryName(format).Some?
      && Utils.BomSerializer(RegistryName(format).value) == Returned(r.emitted.value.serialization)
  {
    if Delegated(format) {
      r := SyncOutputBomHelper(OutputToStream(format), filename);
    } else {
      var serialization := VersionedSerialization(format);
      if serialization.Some? {
        VersionedSerializationMatchesRegistry(format);
        r := OutputOutcome(0, Some(Emission(SinkOf(filename), serialization.value)));
      } else {
        r := OutputOutcome(Code(UnsupportedFormat), None);
      }
    }
  }
}
