/** The convert command of the middle revision (cyclonedx/Commands/ConvertCommand.cs): it
    resolves the input and output formats, with early ParameterValidationError returns, then
    reads, converts through the registry and writes. */
module ConvertCommand {
  import opened Wrappers
  import opened Strings
  import opened Formats
  import Utils
  import opened Program

  /** A conversion that ran: where the input came from, the formats it was read and written
      as, the library reader and writer the registry chose, and where the output went. */
  datatype Conversion = Conversion(
    source: Source, from: BomFormat, to: BomFormat,
    decoder: Decoder, serialization: Serialization, sink: Sink)

  /** The exit code and, on success, the conversion that was made. */
  datatype ConvertOutcome = ConvertOutcome(exitCode: int, conversion: Option<Conversion>)

  const Rejected := ConvertOutcome(Code(ParameterValidationError), None)

  /** Input is the named file when a name is given, else redirected standard input, else
      there is none (`InputFileHelper` returns null). */
  function InputSource(inputFile: Option<string>, stdinRedirected: bool): Option<Source> {
    if !IsNullOrEmpty(inputFile) then Some(FileIn(inputFile.value))
    else if stdinRedirected then Some(Stdin)
    else None
  }

  /** Output goes to standard output for a null or empty name. */
  function OutputSink(outputFile: Option<string>): Sink {
    if IsNullOrEmpty(outputFile) then Stdout else FileOut(outputFile.value)
  }

  /** The parameter checks of the command: an input format, an output format (from the
      output name on autodetect) and an input to read. */
  predicate ParametersAccepted(inputFile: Option<string>, outputFile: Option<string>, inputFormat: ProgramInputFormat,
                               outputFormat: ConvertOutputFormat, stdinRedirected: bool) {
    && InputFormatHelper(inputFile, inputFormat) != Unsupported
    && (outputFormat == autodetect ==> !IsNullOrEmpty(outputFile) && Utils.DetectFileFormat(outputFile) != Unsupported)
    && InputSource(inputFile, stdinRedirected).Some?
  }

  /** Convert. `stdinRedirected` stands for Console.IsInputRedirected. A reader or writer that
      throws ends the command with that exception. Once the checks pass, the command converts
      exactly when the input format has a reader. */
  method Convert(inputFile: Option<string>, outputFile: Option<string>, inputFormat: ProgramInputFormat,
                 outputFormat: ConvertOutputFormat, stdinRedirected: bool) returns (r: Result<ConvertOutcome>)
    ensures InputFormatHelper(inputFile, inputFormat) == Unsupported ==> r == Returned(Rejected)
    ensures outputFormat == autodetect && Utils.DetectFileFormat(outputFile) == Unsupported ==> r == Returned(Rejected)
    ensures InputSource(inputFile, stdinRedirected).None? ==> r == Returned(Rejected)
    ensures r == Returned(Rejected) <==> !ParametersAccepted(inputFile, outputFile, inputFormat, outputFormat, stdinRedirected)
    ensures ParametersAccepted(inputFile, outputFile, inputFormat, outputFormat, stdinRedirected)
      && Utils.BomDeserializer(InputFormatHelper(inputFile, inputFormat)).Returned?
      ==> r.Returned? && r.value.exitCode == Code(Ok)
    ensures ParametersAccepted(inputFile, outputFile, inputFormat, outputFormat, stdinRedirected)
      && Utils.BomDeserializer(InputFormatHelper(inputFile, inputFormat)).Thrown?
      ==> r == Thrown(UnsupportedFormatException)
    ensures r.Returned? ==> r.value.exitCode in {Code(Ok), Code(ParameterValidationError)}
    ensures r.Returned? ==> (r.value.exitCode == Code(Ok) <==> r.value.conversion.Some?)
    ensures r.Returned? && r.value.conversion.Some? ==>
      var c := r.value.conversion.value;
      && Some(c.source) == InputSource(inputFile, stdinRedirected)
      && c.from == InputFormatHelper(inputFile, inputFormat)
      && c.to == (if outputFormat == autodetect then Utils.DetectFileFormat(outputFile) else CastToBomFormat(outputFormat))
      && Utils.BomDeserializer(c.from) == Returned(c.decoder)
      && Utils.BomSerializer(c.to) == Returned(c.serialization)
      && c.sink == OutputSink(outputFile)
    ensures r.Thrown? ==> r.error == UnsupportedFormatException && InputFormatHelper(inputFile, inputFormat) == SpdxTag
  {
    var inputBomFormat := InputFormatHelper(inputFile, inputFormat);
    if inputBomFormat == Unsupported {
      return Returned(Rejected);
    }
    var outputBomFormat := Unsupported;
    if outputFormat == autodetect {
      if IsNullOrEmpty(outputFile) {
        return Returned(Rejected);
      }
      outputBomFormat := Utils.DetectFileFormat(outputFile);
      if outputBomFormat == Unsupported {
        return Returned(Rejected);
      }
    } else {
      outputBomFormat := CastToBomFormat(outputFormat);
    }
    var source := InputSource(inputFile, stdinRedirected);
    if source.None? {
      return Returned(Rejected);
    }
    assert ParametersAccepted(inputFile, outputFile, inputFormat, outputFormat, stdinRedirected);
    var decoder := Utils.BomDeserializer(inputBomFormat);
    if decoder.Thrown? {
      return Thrown(decoder.error);
    }
    // outputBomFormat is never Unsupported here, so the writer does not throw
    var serialization := Utils.BomSerializer(outputBomFormat).value;
    var c := Conversion(source.value, inputBomFormat, outputBomFormat, decoder.value, serialization, OutputSink(outputFile));
    return Returned(ConvertOutcome(Code(Ok), Some(c)));
  }

  /** An explicit output format reaches the registry by ordinal: the names up to json_v1_3
      select their own writers, but csv writes Protobuf, spdxtag writes Protobuf too (as
      Protobuf_v1_3), spdxtag_v2_1 writes CSV and spdxtag_v2_2 writes SPDX 2.2. */
  lemma {:induction false} ExplicitOutputWriters()
    ensures Utils.BomSerializer(CastToBomFormat(csv)) == Returned(ProtobufBytes)
    ensures Utils.BomSerializer(CastToBomFormat(spdxtag)) == Returned(ProtobufBytes)
    ensures Utils.BomSerializer(CastToBomFormat(spdxtag_v2_1)) == Returned(CsvText)
    ensures Utils.BomSerializer(CastToBomFormat(spdxtag_v2_2)) == Returned(SpdxTagText(v2_2))
    ensures Utils.BomSerializer(CastToBomFormat(xml_v1_0)) == Returned(XmlText([v1_2, v1_1, v1_0]))
  {
    assert Downgrades(3) == [v1_2, v1_1, v1_0];
  }

  /** A ".spdx" input name passes format detection but cannot be read: the command throws. */
  lemma SpdxInputIsDetectedButUnreadable(prefix: string)
    ensures InputFormatHelper(Some(prefix + ".spdx"), InputAutodetect) == SpdxTag
    ensures Utils.BomDeserializer(SpdxTag).Thrown?
  {
    Utils.DetectBySuffix(prefix, SpdxTag);
  }
}
