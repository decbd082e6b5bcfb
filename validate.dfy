/** The validate command of the newest revision (src/cyclonedx/Commands/ValidateCommand.cs):
    autodetection by suffix, the input check, the order in which schema versions are
    probed, and the exit-code policy. The library's XML and JSON schema validators are one
    function parameter. */
module Validate {
  import opened Wrappers
  import opened Strings
  import opened Formats

  /** The command's input-format option: autodetect, json, xml, or any other value of that
      enum (its declaration is not part of this model). */
  datatype ValidationBomFormat = ValAutodetect | ValJson | ValXml | ValOther(ordinal: int)

  /** ValidateCommandOptions */
  class ValidateCommandOptions {
    var inputFile: Option<string>
    var inputFormat: ValidationBomFormat
    var inputVersion: Option<SpecVersion>
    var failOnErrors: bool

    constructor(inputFile: Option<string>, inputFormat: ValidationBomFormat, inputVersion: Option<SpecVersion>, failOnErrors: bool)
      ensures this.inputFile == inputFile && this.inputFormat == inputFormat
      ensures this.inputVersion == inputVersion && this.failOnErrors == failOnErrors
    {
      this.inputFile := inputFile;
      this.inputFormat := inputFormat;
      this.inputVersion := inputVersion;
      this.failOnErrors := failOnErrors;
    }
  }

  /** Which validator checks the text. */
  datatype SchemaFamily = XmlSchemas | JsonSchemas

  /** A validator's verdict and its messages (a null message list is `None`). */
  datatype ValidationResult = ValidationResult(valid: bool, messages: Option<seq<string>>)

  /** The library validators: a verdict for a text against one schema version. */
  type Validator = (SchemaFamily, string, SpecVersion) -> ValidationResult

  /** The format once autodetect has looked at the file name: a ".json" or ".xml" suffix,
      compared case-sensitively; anything else keeps the format as it was. */
  function DetectedFormat(format: ValidationBomFormat, inputFile: Option<string>): ValidationBomFormat {
    if format == ValAutodetect && !IsNullOrEmpty(inputFile) then
      if EndsWith(inputFile.value, ".json") then ValJson
      else if EndsWith(inputFile.value, ".xml") then ValXml
      else format
    else format
  }

  /** An explicit format is never changed; autodetect is resolved exactly for a non-empty
      name with one of the two suffixes; resolving twice changes nothing more. */
  lemma DetectionResolvesOnlySuffixes(format: ValidationBomFormat, inputFile: Option<string>)
    ensures format != ValAutodetect ==> DetectedFormat(format, inputFile) == format
    ensures format == ValAutodetect ==>
      (DetectedFormat(format, inputFile) != ValAutodetect <==>
        inputFile.Some? && (EndsWith(inputFile.value, ".json") || EndsWith(inputFile.value, ".xml")))
    ensures DetectedFormat(DetectedFormat(format, inputFile), inputFile) == DetectedFormat(format, inputFile)
    ensures DetectedFormat(format, inputFile) in {ValAutodetect, ValJson, ValXml} || DetectedFormat(format, inputFile) == format
  {
  }

  /** ValidateInputFormatValue: writes the detected format back into the options. */
  method ValidateInputFormatValue(options: ValidateCommandOptions)
    modifies options
    ensures options.inputFormat == DetectedFormat(old(options.inputFormat), options.inputFile)
    ensures options.inputFile == old(options.inputFile) && options.inputVersion == old(options.inputVersion)
    ensures options.failOnErrors == old(options.failOnErrors)
  {
    if options.inputFormat == ValAutodetect && !IsNullOrEmpty(options.inputFile) {
      if EndsWith(options.inputFile.value, ".json") {
        options.inputFormat := ValJson;
      } else if EndsWith(options.inputFile.value, ".xml") {
        options.inputFormat := ValXml;
      }
    }
  }

  /** ReadInput: the file's text for a non-empty name, else standard input's when it is
      redirected, else null. `content` is what was read. */
  function ReadInput(inputFile: Option<string>, stdinRedirected: bool, content: string): (r: Option<string>)
    ensures r.None? <==> IsNullOrEmpty(inputFile) && !stdinRedirected
  {
    if !IsNullOrEmpty(inputFile) || stdinRedirected then Some(content) else None
  }

  /** The versions probed without an explicit version, newest first. */
  const XmlProbeOrder: seq<SpecVersion> := [v1_5, v1_4, v1_3, v1_2, v1_1, v1_0]
  const JsonProbeOrder: seq<SpecVersion> := [v1_5, v1_4, v1_3, v1_2]

  /** Validate against each version in turn, stopping at the first valid result; when none
      is valid, the last result stands. */
  function Probe(validator: Validator, family: SchemaFamily, input: string, versions: seq<SpecVersion>): (r: ValidationResult)
    requires versions != []
    ensures validator(family, input, versions[0]).valid ==> r == validator(family, input, versions[0])
    ensures !r.valid ==> r == validator(family, input, versions[|versions| - 1])
  {
    var r := validator(family, input, versions[0]);
    if r.valid || |versions| == 1 then r else Probe(validator, family, input, versions[1..])
  }

  /** The probe result is valid exactly when some version validates, and then it is the
      result of the first version that does; otherwise it is the last version's result. */
  lemma {:induction false} ProbeFindsFirstValid(validator: Validator, family: SchemaFamily, input: string, versions: seq<SpecVersion>)
    requires versions != []
    ensures var r := Probe(validator, family, input, versions);
      (r.valid <==> exists i :: 0 <= i < |versions| && validator(family, input, versions[i]).valid)
    ensures var r := Probe(validator, family, input, versions);
      r.valid ==> exists i :: (0 <= i < |versions| && r == validator(family, input, versions[i])
        && forall j :: 0 <= j < i ==> !validator(family, input, versions[j]).valid)
    ensures var r := Probe(validator, family, input, versions);
      !r.valid ==> r == validator(family, input, versions[|versions| - 1])
    decreases |versions|
  {
    var rest := versions[1..];
    if !validator(family, input, versions[0]).valid && |versions| > 1 {
      ProbeFindsFirstValid(validator, family, input, rest);
      assert forall i :: 0 < i < |versions| ==> versions[i] == rest[i - 1];
      var r := Probe(validator, family, input, versions);
      if r.valid {
        var i :| 0 <= i < |rest| && r == validator(family, input, rest[i])
          && forall j :: 0 <= j < i ==> !validator(family, input, rest[j]).valid;
        assert r == validator(family, input, versions[i + 1]);
      }
    }
  }

  /** One step of the chain: the first version's result when it is valid or the last
      one, else the probe of the rest. */
  lemma ProbeStep(validator: Validator, family: SchemaFamily, input: string, versions: seq<SpecVersion>)
    requires versions != []
    ensures Probe(validator, family, input, versions) ==
      if validator(family, input, versions[0]).valid || |versions| == 1 then validator(family, input, versions[0])
      else Probe(validator, family, input, versions[1..])
  {
  }

  /** A failed probe chain keeps the last verdict with one summary message. */
  function Summarised(r: ValidationResult, family: SchemaFamily): ValidationResult {
    if r.valid then r
    else
      r.(messages := Some([if family == XmlSchemas then "Unable to validate against any XML schemas."
                                                   else "Unable to validate against any JSON schemas."]))
  }

  /** The validation a format and an optional version ask for; none when the format is
      neither xml nor json. */
  function ValidationOf(format: ValidationBomFormat, version: Option<SpecVersion>, input: string, validator: Validator): Option<ValidationResult> {
    if version.Some? then
      if format == ValXml then Some(validator(XmlSchemas, input, version.value))
      else if format == ValJson then Some(validator(JsonSchemas, input, version.value))
      else None
    else if format == ValXml then Some(Summarised(Probe(validator, XmlSchemas, input, XmlProbeOrder), XmlSchemas))
    else if format == ValJson then Some(Summarised(Probe(validator, JsonSchemas, input, JsonProbeOrder), JsonSchemas))
    else None
  }

  /** The exit-code policy: no validation is a parameter error; valid is Ok; invalid is
      OkFail when failing on errors was asked for, else Ok. */
  function ExitFor(result: Option<ValidationResult>, failOnErrors: bool): (code: int)
    ensures code in {Code(Ok), Code(OkFail), Code(ParameterValidationError)}
    ensures code == Code(ParameterValidationError) <==> result.None?
    ensures code == Code(OkFail) <==> result.Some? && !result.value.valid && failOnErrors
  {
    if result.None? then Code(ParameterValidationError)
    else if result.value.valid then Code(Ok)
    else if failOnErrors then Code(OkFail)
    else Code(Ok)
  }

  /** The lines the validation stage prints: the messages, then the verdict. */
  function Printed(result: ValidationResult): seq<string> {
    (if result.messages.Some? then result.messages.value else [])
    + [if result.valid then "BOM validated successfully." else "BOM is not valid."]
  }

  /** The XML probe chain as written: six validations, each only after an invalid one. */
  method ProbeXml(validator: Validator, input: string) returns (r: ValidationResult)
    ensures r == Summarised(Probe(validator, XmlSchemas, input, XmlProbeOrder), XmlSchemas)
  {
    ProbeStep(validator, XmlSchemas, input, [v1_5, v1_4, v1_3, v1_2, v1_1, v1_0]);
    assert [v1_5, v1_4, v1_3, v1_2, v1_1, v1_0][1..] == [v1_4, v1_3, v1_2, v1_1, v1_0];
    ProbeStep(validator, XmlSchemas, input, [v1_4, v1_3, v1_2, v1_1, v1_0]);
    assert [v1_4, v1_3, v1_2, v1_1, v1_0][1..] == [v1_3, v1_2, v1_1, v1_0];
    ProbeStep(validator, XmlSchemas, input, [v1_3, v1_2, v1_1, v1_0]);
    assert [v1_3, v1_2, v1_1, v1_0][1..] == [v1_2, v1_1, v1_0];
    ProbeStep(validator, XmlSchemas, input, [v1_2, v1_1, v1_0]);
    assert [v1_2, v1_1, v1_0][1..] == [v1_1, v1_0];
    ProbeStep(validator, XmlSchemas, input, [v1_1, v1_0]);
    assert [v1_1, v1_0][1..] == [v1_0];
    ProbeStep(validator, XmlSchemas, input, [v1_0]);
    r := validator(XmlSchemas, input, v1_5);
    if !r.valid {
      r := validator(XmlSchemas, input, v1_4);
    }
    if !r.valid {
      r := validator(XmlSchemas, input, v1_3);
    }
    if !r.valid {
      r := validator(XmlSchemas, input, v1_2);
    }
    if !r.valid {
      r := validator(XmlSchemas, input, v1_1);
    }
    if !r.valid {
      r := validator(XmlSchemas, input, v1_0);
    }
    if !r.valid {
      r := r.(messages := Some(["Unable to validate against any XML schemas."]));
    }
  }

  /** The JSON probe chain as written: four validations, down to v1.2 only. */
  method ProbeJson(validator: Validator, input: string) returns (r: ValidationResult)
    ensures r == Summarised(Probe(validator, JsonSchemas, input, JsonProbeOrder), JsonSchemas)
  {
    ProbeStep(validator, JsonSchemas, input, [v1_5, v1_4, v1_3, v1_2]);
    assert [v1_5, v1_4, v1_3, v1_2][1..] == [v1_4, v1_3, v1_2];
    ProbeStep(validator, JsonSchemas, input, [v1_4, v1_3, v1_2]);
    assert [v1_4, v1_3, v1_2][1..] == [v1_3, v1_2];
    ProbeStep(validator, JsonSchemas, input, [v1_3, v1_2]);
    assert [v1_3, v1_2][1..] == [v1_2];
    ProbeStep(validator, JsonSchemas, input, [v1_2]);
    r := validator(JsonSchemas, input, v1_5);
    if !r.valid {
      r := validator(JsonSchemas, input, v1_4);
    }
    if !r.valid {
      r := validator(JsonSchemas, input, v1_3);
    }
    if !r.valid {
      r := validator(JsonSchemas, input, v1_2);
    }
    if !r.valid {
      r := r.(messages := Some(["Unable to validate against any JSON schemas."]));
    }
  }

  /** What the validate command did: its exit code, the validation result if any, and the
      lines its validation stage printed. */
  datatype ValidateOutcome = ValidateOutcome(exitCode: int, result: Option<ValidationResult>, printed: seq<string>)

  /** Validate. `content` is the text of the file or of standard input. */
  method Validate(options: ValidateCommandOptions, stdinRedirected: bool, content: string, validator: Validator)
    returns (r: ValidateOutcome)
    modifies options
    ensures options.inputFormat == DetectedFormat(old(options.inputFormat), options.inputFile)
    ensures options.inputFile == old(options.inputFile) && options.inputVersion == old(options.inputVersion)
    ensures options.failOnErrors == old(options.failOnErrors)
    ensures options.inputFormat == ValAutodetect ==> r == ValidateOutcome(Code(ParameterValidationError), None, [])
    ensures options.inputFormat != ValAutodetect && ReadInput(options.inputFile, stdinRedirected, content).None? ==>
      r == ValidateOutcome(Code(IOError), None, [])
    ensures options.inputFormat != ValAutodetect && ReadInput(options.inputFile, stdinRedirected, content).Some? ==>
      var result := ValidationOf(options.inputFormat, options.inputVersion, content, validator);
      && r.result == result
      && r.exitCode == ExitFor(result, options.failOnErrors)
      && r.printed == (if result.Some? then Printed(result.value) else [])
  {
    ValidateInputFormatValue(options);
    if options.inputFormat == ValAutodetect {
      return ValidateOutcome(Code(ParameterValidationError), None, []);
    }
    var inputBom := ReadInput(options.inputFile, stdinRedirected, content);
    if inputBom.None? {
      return ValidateOutcome(Code(IOError), None, []);
    }
    var validationResult: Option<ValidationResult> := None;
    if options.inputVersion.Some? {
      if options.inputFormat == ValXml {
        validationResult := Some(validator(XmlSchemas, inputBom.value, options.inputVersion.value));
      } else if options.inputFormat == ValJson {
        validationResult := Some(validator(JsonSchemas, inputBom.value, options.inputVersion.value));
      }
    } else if options.inputFormat == ValXml {
      var probed := ProbeXml(validator, inputBom.value);
      validationResult := Some(probed);
    } else if options.inputFormat == ValJson {
      var probed := ProbeJson(validator, inputBom.value);
      validationResult := Some(probed);
    }
    if validationResult.None? {
      return ValidateOutcome(Code(ParameterValidationError), None, []);
    }
    var printed := if validationResult.value.messages.Some? then validationResult.value.messages.value else [];
    if validationResult.value.valid {
      printed := printed + ["BOM validated successfully."];
      return ValidateOutcome(Code(Ok), validationResult, printed);
    } else {
      printed := printed + ["BOM is not valid."];
      return ValidateOutcome(if options.failOnErrors then Code(OkFail) else Code(Ok), validationResult, printed);
    }
  }

  /** Without an explicit version an XML document is accepted exactly when some schema from
      v1.5 down to v1.0 accepts it, and a JSON document when one from v1.5 down to v1.2 does:
      a JSON document only valid as v1.0 or v1.1 is rejected. */
  lemma ProbeAcceptsIffSomeVersionDoes(validator: Validator, input: string)
    ensures ValidationOf(ValXml, None, input, validator).value.valid <==>
      exists v :: v in XmlProbeOrder && validator(XmlSchemas, input, v).valid
    ensures ValidationOf(ValJson, None, input, validator).value.valid <==>
      exists v :: v in JsonProbeOrder && validator(JsonSchemas, input, v).valid
  {
    ProbeFindsFirstValid(validator, XmlSchemas, input, XmlProbeOrder);
    ProbeFindsFirstValid(validator, JsonSchemas, input, JsonProbeOrder);
    forall v | v in XmlProbeOrder ensures exists i :: 0 <= i < |XmlProbeOrder| && XmlProbeOrder[i] == v {
      if v == v1_0 { assert XmlProbeOrder[5] == v; }
    }
  }

  /** A document the XML validator accepts against v1.0 only (like the bom-1.0.xml test
      resource): autodetected from its ".xml" name it validates, so the exit code is Ok;
      validated against v1.1 with failing on errors, the exit code is OkFail. */
  lemma OnlyV10DocumentExample(validator: Validator, name: string, content: string)
    requires forall v :: validator(XmlSchemas, content, v).valid <==> v == v1_0
    requires EndsWith(name, ".xml")
    ensures var format := DetectedFormat(ValAutodetect, Some(name));
      format == ValXml && ExitFor(ValidationOf(format, None, content, validator), true) == Code(Ok)
    ensures var format := DetectedFormat(ValAutodetect, Some(name));
      ExitFor(ValidationOf(format, Some(v1_1), content, validator), true) == Code(OkFail)
  {
    assert !EndsWith(name, ".json") by {
      assert name[|name| - 1] == 'l';
    }
    ProbeFindsFirstValid(validator, XmlSchemas, content, XmlProbeOrder);
    assert XmlProbeOrder[5] == v1_0;
  }
}
