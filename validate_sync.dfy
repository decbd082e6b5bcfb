/** The validate command of the middle revision (cyclonedx/Commands/ValidateCommand.cs):
    one validation at a schema version derived from the input format's name, with the
    validator chosen by whether that name starts with "json". */
module ValidateSync {
  import opened Wrappers
  import opened Strings
  import F = Formats
  import opened Validate

  /** ValidateCommand.InputFormat, in declaration order; `Undeclared` is an integer the
      enum declares no name for. */
  datatype InputFormat =
    | autodetect | json | json_v1_3 | json_v1_2 | xml | xml_v1_3 | xml_v1_2 | xml_v1_1 | xml_v1_0
    | Undeclared(ordinal: int)

  /** Enum.ToString(): the declared name, or the decimal ordinal of an undeclared value. */
  function InputFormatName(f: InputFormat): string {
    match f
    case autodetect => "autodetect"
    case json => "json"
    case json_v1_3 => "json_v1_3"
    case json_v1_2 => "json_v1_2"
    case xml => "xml"
    case xml_v1_3 => "xml_v1_3"
    case xml_v1_2 => "xml_v1_2"
    case xml_v1_1 => "xml_v1_1"
    case xml_v1_0 => "xml_v1_0"
    case Undeclared(n) => IntToString(n)
  }

  /** ValidateCommand.Options */
  class Options {
    var inputFile: Option<string>
    var inputFormat: InputFormat
    var failOnErrors: bool

    constructor(inputFile: Option<string>, inputFormat: InputFormat, failOnErrors: bool)
      ensures this.inputFile == inputFile && this.inputFormat == inputFormat && this.failOnErrors == failOnErrors
    {
      this.inputFile := inputFile;
      this.inputFormat := inputFormat;
      this.failOnErrors := failOnErrors;
    }
  }

  /** The format after both rewrites: suffix detection for autodetect, then plain json and
      xml become their v1.3 forms. */
  function ResolvedFormat(format: InputFormat, inputFile: Option<string>): (r: InputFormat)
    ensures r != json && r != xml
  {
    var detected :=
      if format == autodetect && !IsNullOrEmpty(inputFile) then
        if EndsWith(inputFile.value, ".json") then json
        else if EndsWith(inputFile.value, ".xml") then xml
        else format
      else format;
    if detected == json then json_v1_3
    else if detected == xml then xml_v1_3
    else detected
  }

  /** ValidateInputFormatValue: both rewrites of the options' input format. */
  method ValidateInputFormatValue(options: Options)
    modifies options
    ensures options.inputFormat == ResolvedFormat(old(options.inputFormat), options.inputFile)
    ensures options.inputFile == old(options.inputFile) && options.failOnErrors == old(options.failOnErrors)
  {
    if options.inputFormat == autodetect && !IsNullOrEmpty(options.inputFile) {
      if EndsWith(options.inputFile.value, ".json") {
        options.inputFormat := json;
      } else if EndsWith(options.inputFile.value, ".xml") {
        options.inputFormat := xml;
      }
    }
    if options.inputFormat == json {
      options.inputFormat := json_v1_3;
    } else if options.inputFormat == xml {
      options.inputFormat := xml_v1_3;
    }
  }

  /** The schema-version switch: the v1.2 formats give v1.2, xml_v1_1 and xml_v1_0 their
      own versions, everything else v1.3. */
  function SchemaVersionOf(format: InputFormat): F.SpecVersion {
    match format
    case xml_v1_2 => F.v1_2
    case json_v1_2 => F.v1_2
    case xml_v1_1 => F.v1_1
    case xml_v1_0 => F.v1_0
    case _ => F.v1_3
  }

  /** The validator a format is checked with: JSON iff its name starts with "json". */
  function FamilyOf(format: InputFormat): SchemaFamily {
    if StartsWith(InputFormatName(format), "json") then JsonSchemas else XmlSchemas
  }

  /** Exactly the three json formats are checked with the JSON validator; an undeclared
      value, whose name is its decimal ordinal, goes to the XML one. */
  lemma JsonIffJsonNamed(format: InputFormat)
    ensures FamilyOf(format) == JsonSchemas <==> format in {json, json_v1_3, json_v1_2}
  {
    match format
    case Undeclared(n) =>
      if n < 0 {
        assert InputFormatName(format)[0] == '-';
      } else {
        assert '0' <= NatToString(n)[0] <= '9';
      }
    case json => assert InputFormatName(format)[..4] == "json";
    case json_v1_3 => assert InputFormatName(format)[..4] == "json";
    case json_v1_2 => assert InputFormatName(format)[..4] == "json";
    case _ => assert InputFormatName(format)[0] != 'j';
  }

  /** Once resolved, a format that is not autodetect is checked as JSON exactly when it is a
      json format, and at v1.3 unless its name carries another version. */
  lemma FormatNameSelectsValidator(format: InputFormat, inputFile: Option<string>)
    ensures var r := ResolvedFormat(format, inputFile);
      r != autodetect ==>
        && (r in {json_v1_3, json_v1_2} <==> FamilyOf(r) == JsonSchemas)
        && (SchemaVersionOf(r) == F.v1_3 <==> r !in {json_v1_2, xml_v1_2, xml_v1_1, xml_v1_0})
  {
    JsonIffJsonNamed(ResolvedFormat(format, inputFile));
  }

  /** The lines the validation stage prints: the messages, then the success line unless
      the command fails; it is printed for an invalid BOM too. */
  function SyncPrinted(result: ValidationResult, failing: bool): seq<string> {
    (if result.messages.Some? then result.messages.value else [])
    + (if failing then [] else ["BOM validated successfully."])
  }

  /** Validate. `content` is the text of the file or of standard input. */
  method SyncValidate(options: Options, stdinRedirected: bool, content: string, validator: Validator)
    returns (r: ValidateOutcome)
    modifies options
    ensures options.inputFormat == ResolvedFormat(old(options.inputFormat), options.inputFile)
    ensures options.inputFile == old(options.inputFile) && options.failOnErrors == old(options.failOnErrors)
    ensures options.inputFormat == autodetect ==> r == ValidateOutcome(F.Code(F.ParameterValidationError), None, [])
    ensures options.inputFormat != autodetect && ReadInput(options.inputFile, stdinRedirected, content).None? ==>
      r == ValidateOutcome(F.Code(F.IOError), None, [])
    ensures options.inputFormat != autodetect && ReadInput(options.inputFile, stdinRedirected, content).Some? ==>
      var result := validator(FamilyOf(options.inputFormat), content, SchemaVersionOf(options.inputFormat));
      var failing := options.failOnErrors && !result.valid;
      && r.result == Some(result)
      && r.exitCode == (if failing then F.Code(F.OkFail) else F.Code(F.Ok))
      && r.printed == SyncPrinted(result, failing)
  {
    ValidateInputFormatValue(options);
    if options.inputFormat == autodetect {
      return ValidateOutcome(F.Code(F.ParameterValidationError), None, []);
    }
    var inputBom := ReadInput(options.inputFile, stdinRedirected, content);
    if inputBom.None? {
      return ValidateOutcome(F.Code(F.IOError), None, []);
    }
    var schemaVersion := F.v1_3;
    match options.inputFormat {
      case xml_v1_2 => schemaVersion := F.v1_2;
      case json_v1_2 => schemaVersion := F.v1_2;
      case xml_v1_1 => schemaVersion := F.v1_1;
      case xml_v1_0 => schemaVersion := F.v1_0;
      case _ =>
    }
    var validationResult: ValidationResult;
    if StartsWith(InputFormatName(options.inputFormat), "json") {
      validationResult := validator(JsonSchemas, inputBom.value, schemaVersion);
    } else {
      validationResult := validator(XmlSchemas, inputBom.value, schemaVersion);
    }
    var printed := if validationResult.messages.Some? then validationResult.messages.value else [];
    if options.failOnErrors && !validationResult.valid {
      return ValidateOutcome(F.Code(F.OkFail), Some(validationResult), printed);
    }
    printed := printed + ["BOM validated successfully."];
    return ValidateOutcome(F.Code(F.Ok), Some(validationResult), printed);
  }

  /** An invalid BOM validated without failing on errors exits Ok and still reports
      success. */
  lemma InvalidReportedAsSuccess(result: ValidationResult)
    requires !result.valid
    ensures SyncPrinted(result, false)[|SyncPrinted(result, false)| - 1] == "BOM validated successfully."
  {
  }
}
