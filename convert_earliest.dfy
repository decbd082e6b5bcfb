/** The convert command of the earliest revision (cyclonedx/Commands/Convert/ConvertCommand.cs).
    Its input-format enum is not part of this model: the option is its ordinal, 0 being
    autodetect (the first value, and the default), and an explicit value is cast to
    BomFormat by ordinal. The registry it calls has the same extension table and dispatch as
    cyclonedx/Utils.cs and is modelled by Utils. */
module ConvertEarliest {
  import opened Wrappers
  import opened Strings
  import opened Formats
  import Utils
  import opened ConvertCommand

  /** The input format as resolved by the command: detection from the input name for
      autodetect, else the BomFormat with that ordinal (None for an ordinal BomFormat does
      not declare, a value the registry's reader rejects). */
  function ResolvedInputFormat(inputFile: Option<string>, inputOrdinal: int): Option<BomFormat> {
    if inputOrdinal == 0 then Some(Utils.DetectFileFormat(inputFile)) else BomFormatWithOrdinal(inputOrdinal)
  }

  /** The output format as resolved by the command. Autodetect looks at the INPUT name. */
  function ResolvedOutputFormat(inputFile: Option<string>, outputFormat: ConvertOutputFormat): BomFormat {
    if outputFormat == autodetect then Utils.DetectFileFormat(inputFile) else CastToBomFormat(outputFormat)
  }

  /** The parameter checks of the command: a detectable input name on autodetect, an output
      name and a detectable input name when the output format is autodetected, and an input
      to read. */
  predicate ParametersAccepted(inputFile: Option<string>, outputFile: Option<string>, inputOrdinal: int,
                               outputFormat: ConvertOutputFormat, stdinRedirected: bool) {
    && (inputOrdinal == 0 ==> !IsNullOrEmpty(inputFile) && Utils.DetectFileFormat(inputFile) != Unsupported)
    && (outputFormat == autodetect ==> !IsNullOrEmpty(outputFile) && Utils.DetectFileFormat(inputFile) != Unsupported)
    && InputSource(inputFile, stdinRedirected).Some?
  }

  /** The resolved input format has a reader in the registry. */
  predicate Readable(inputFile: Option<string>, inputOrdinal: int) {
    ResolvedInputFormat(inputFile, inputOrdinal).Some?
    && Utils.BomDeserializer(ResolvedInputFormat(inputFile, inputOrdinal).value).Returned?
  }

  /** Convert. `stdinRedirected` stands for Console.IsInputRedirected. Once the checks pass,
      the command converts exactly when the resolved input format has a reader. */
  method Convert(inputFile: Option<string>, outputFile: Option<string>, inputOrdinal: int,
                 outputFormat: ConvertOutputFormat, stdinRedirected: bool) returns (r: Result<ConvertOutcome>)
    ensures r == Returned(Rejected) <==> !ParametersAccepted(inputFile, outputFile, inputOrdinal, outputFormat, stdinRedirected)
    ensures ParametersAccepted(inputFile, outputFile, inputOrdinal, outputFormat, stdinRedirected)
      ==> (r.Returned? && r.value.exitCode == Code(Ok) <==> Readable(inputFile, inputOrdinal))
    ensures inputOrdinal == 0 && Utils.DetectFileFormat(inputFile) == Unsupported ==> r == Returned(Rejected)
    ensures outputFormat == autodetect && (IsNullOrEmpty(outputFile) || Utils.DetectFileFormat(inputFile) == Unsupported)
      ==> r == Returned(Rejected)
    ensures InputSource(inputFile, stdinRedirected).None? ==> r == Returned(Rejected)
    ensures r.Returned? ==> r.value.exitCode in {Code(Ok), Code(ParameterValidationError)}
    ensures r.Returned? ==> (r.value.exitCode == Code(Ok) <==> r.value.conversion.Some?)
    ensures r.Returned? && r.value.conversion.Some? ==>
      var c := r.value.conversion.value;
      && Some(c.source) == InputSource(inputFile, stdinRedirected)
      && Some(c.from) == ResolvedInputFormat(inputFile, inputOrdinal)
      && c.to == ResolvedOutputFormat(inputFile, outputFormat)
      && Utils.BomDeserializer(c.from) == Returned(c.decoder)
      && Utils.BomSerializer(c.to) == Returned(c.serialization)
      && c.sink == OutputSink(outputFile)
    ensures r.Returned? && r.value.conversion.Some? && inputOrdinal == 0 && outputFormat == autodetect ==>
      r.value.conversion.value.to == r.value.conversion.value.from
    ensures r.Thrown? ==>
      && r.error == UnsupportedFormatException
      && (ResolvedInputFormat(inputFile, inputOrdinal).None?
          || Utils.BomDeserializer(ResolvedInputFormat(inputFile, inputOrdinal).value).Thrown?)
  {
    var inputBomFormat: Option<BomFormat>;
    if inputOrdinal == 0 {
      if IsNullOrEmpty(inputFile) {
        return Returned(Rejected);
      }
      inputBomFormat := Some(Utils.DetectFileFormat(inputFile));
      if inputBomFormat == Some(Unsupported) {
        return Returned(Rejected);
      }
    } else {
      inputBomFormat := BomFormatWithOrdinal(inputOrdinal);
    }
    var outputBomFormat: BomFormat;
    if outputFormat == autodetect {
      if IsNullOrEmpty(outputFile) {
        return Returned(Rejected);
      }
      outputBomFormat := Utils.DetectFileFormat(inputFile);
      if outputBomFormat == Unsupported {
        return Returned(Rejected);
      }
    } else {
      outputBomFormat := CastToBomFormat(outputFormat);
    }
    var source := InputSource(inputFile, stdinRedirected);
    if source.None? {
      return Returned(Rejected);
    }
    assert ParametersAccepted(inputFile, outputFile, inputOrdinal, outputFormat, stdinRedirected);
    if inputBomFormat.None? {
      return Thrown(UnsupportedFormatException);
    }
    var decoder := Utils.BomDeserializer(inputBomFormat.value);
    if decoder.Thrown? {
      return Thrown(decoder.error);
    }
    // outputBomFormat is never Unsupported here, so the writer does not throw
    var serialization := Utils.BomSerializer(outputBomFormat).value;
    var c := Conversion(source.value, inputBomFormat.value, outputBomFormat, decoder.value, serialization, OutputSink(outputFile));
    return Returned(ConvertOutcome(Code(Ok), Some(c)));
  }

  /** With both formats on autodetect, "a.json" to "b.xml" is converted from JSON to JSON:
      the output format is detected from the input name. */
  lemma AutodetectedOutputFollowsInput()
    ensures ResolvedInputFormat(Some("a.json"), 0) == Some(Json)
    ensures ResolvedOutputFormat(Some("a.json"), autodetect) == Json
    ensures Utils.DetectFileFormat(Some("b.xml")) == Xml
  {
    Utils.DetectBySuffix("a", Json);
    assert "a" + ".json" == "a.json";
    Utils.DetectBySuffix("b", Xml);
    assert "b" + ".xml" == "b.xml";
  }
}
