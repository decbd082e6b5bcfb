# CycloneDX command-line tool: a Dafny model of its core

This project models the core of the CycloneDX command-line tool, across the three revisions
of it that sit side by side in the repository: the earliest tool (`CycloneDX.CLI/`), the
synchronous middle tool (`cyclonedx/`) and the newest asynchronous tool (`src/cyclonedx/`).
The core is:

- how a file name or an option picks a BOM format, and how the enums are cast to each
  other by ordinal or by name (the format registry, `Utils`, `CliUtils`, `Program`);
- the convert command in its revisions, and the input and output helpers it uses;
- the writers the tool implements itself: the CSV serializer and deserializer, the
  Markdown serializer, and the two SPDX 2.1/2.2 tag-value serializers;
- the analyze, diff, merge, validate and add-files commands.

The CycloneDX library's JSON, XML and Protobuf readers and writers, its validators, its
flat and hierarchical merges and its model constructors that downgrade a v1.3 BOM are not
modelled as code. The model records which of them a command calls and with what: a
`Decoder`, a `Serialization` with its chain of downgrades, a validator name, a merge
result handed in as a parameter. File and console input/output become `Source` and `Sink`
values and text built in a `TextWriters.TextWriter` object. The clock, new GUIDs, file
digests, glob search and HTML encoding become parameters.

The BOM itself is a datatype value (`BomModel.Bom`). Commands that change the BOM in place
are methods that reassign a local value and return the new one. The writers that append
to a `StringBuilder` line by line are methods on a `TextWriter` whose output is specified
by a pure function of the BOM (a list of lines). The properties of that output (which
lines come first, how components are delimited, that the CSV round trip returns the
components) are proved about the function.

## Model

| member | source | states |
|---|---|---|
| Formats.BomFormatWithOrdinal | cyclonedx/BomFormat.cs:19-36 | a BomFormat value exists exactly for ordinals 0 to 14, and its ordinal is the one asked for |
| Formats.CastToBomFormat | cyclonedx/Commands/ConvertOutputFormat.cs:19-34 | the cast keeps the ordinal; the names up to json_v1_3 keep their meaning, while csv becomes Protobuf, spdxtag becomes Protobuf_v1_3, spdxtag_v2_1 becomes Csv and spdxtag_v2_2 becomes SpdxTag |
| Formats.StreamToInput | src/cyclonedx/CliUtils.cs:61 | the cast from a stream format to the convert input format never gives csv and keeps autodetect as autodetect |
| Formats.InputToStream | src/cyclonedx/CliUtils.cs:143 | the cast back from a non-csv input format is undone by the cast forward |
| Formats.InputToOutput | src/cyclonedx/CliUtils.cs:76 | the cast from input to output formats lands on autodetect, json, xml, protobuf or csv and keeps autodetect as autodetect |
| Formats.OutputToStream | src/cyclonedx/CliUtils.cs:184-191 | the four delegated output formats go back to the stream format with the same name |
| Formats.Downgrades | cyclonedx/Utils.cs:88-110 | a chain of n downgrade steps has n steps, taken in order from v1.2 down |
| Formats.DowngradesLowerOneStepAtATime | cyclonedx/Utils.cs:88-110 | after n downgrades the model written is version 1.(3-n), and step i produces version 1.(2-i) |
| Utils.DetectFileFormat | cyclonedx/Utils.cs:26-53 | the detected format is one of Xml, Json, Protobuf, SpdxTag, Csv or Unsupported, and a detected format's extension is the last extension of the name (".bin" also gives Protobuf) |
| Utils.DetectBySuffix | cyclonedx/Utils.cs:28-48 | any name ending in ".xml", ".json", ".cdx", ".spdx" or ".csv" is detected as that format whatever precedes the extension |
| Utils.DetectWithoutExtension | cyclonedx/Utils.cs:49-52 | a name whose last path segment has no '.' is Unsupported |
| Utils.BomDeserializer | cyclonedx/Utils.cs:55-76 | only Json, Csv, Xml and Protobuf can be read, anything else throws UnsupportedFormatException; the CSV reader is chosen exactly for Csv |
| Utils.DetectedFormatsReadable | cyclonedx/Utils.cs:26-76 | every name detected as a format other than SpdxTag can be read back (Unsupported and SpdxTag throw) |
| Utils.BomSerializer | cyclonedx/Utils.cs:78-124 | the writer throws UnsupportedFormatException exactly for Unsupported; SpdxTag and SpdxTag_v2_2 write SPDX 2.2, SpdxTag_v2_1 writes SPDX 2.1, Csv writes CSV, the Protobuf names write Protobuf, and every downgrade chain follows the downgrade order |
| Utils.SerializerWritesNamedVersion | cyclonedx/Utils.cs:84-110 | an Xml or Json format that names a CycloneDX version writes exactly that version |
| Strings.NullIfWhiteSpace | cyclonedx/Utils.cs:126-128 | the result is null exactly when the string is null, empty or white space, and otherwise is the string itself |
| LegacyUtils.FileFormatFromFilename | CycloneDX.CLI/Utils.cs:11-26 | JSON exactly when the last extension is ".json", XML exactly when it is ".xml" |
| LegacyUtils.BomDeserializer | CycloneDX.CLI/Utils.cs:28-39 | the JSON or XML reader for those formats; Unsupported throws UnsupportedFormatException |
| LegacyUtils.BomSerializer | CycloneDX.CLI/Utils.cs:41-52 | the JSON or XML writer with no downgrade; Unsupported throws UnsupportedFormatException |
| LegacyUtils.ConversionThrowsIffUnsupported | CycloneDX.CLI/Utils.cs:11-52 | for every file name, reading and writing each throw exactly when the name's format is not detected |
| LegacyUtils.SuffixDetected | CycloneDX.CLI/Utils.cs:16-23 | any name ending in ".json" or ".xml" is detected as that format |
| Program.InputFormatHelper | cyclonedx/Program.cs:58-90 | autodetect is the registry's detection on the input name (Unsupported for a null or empty name); an undeclared option is Unsupported; an explicit json, xml or csv can always be read |
| CliUtils.AutoDetectBomFormat | src/cyclonedx/CliUtils.cs:29-48 | a null or empty name stays autodetect; otherwise the result is the registry's detection by extension, with Csv, SpdxTag and Unsupported all left as autodetect |
| CliUtils.AutoDetectConvertCommandInputBomFormat | src/cyclonedx/CliUtils.cs:50-63 | ".csv" is detected as csv in addition to the stream formats; a null or empty name stays autodetect |
| CliUtils.AutoDetectConvertCommandOutputBomFormat | src/cyclonedx/CliUtils.cs:65-78 | ".spdx" is detected as SPDX output in addition to the input formats; a null or empty name stays autodetect |
| CliUtils.InputBomHelper | src/cyclonedx/CliUtils.cs:80-113 | nothing is read exactly when the format is autodetect and the name gives no format; otherwise the input is the named file or standard input, read with the decoder of the resolved format |
| CliUtils.ConvertInputBomHelper | src/cyclonedx/CliUtils.cs:115-145 | the same as the stream helper, except that csv (given or detected) is read with the CSV reader and every other format goes to the stream helper by its name |
| CliUtils.OutputBomHelper | src/cyclonedx/CliUtils.cs:147-180 | ParameterValidationError exactly for autodetect on a name with no stream format; output is written exactly when the format is not autodetect, to the named file or standard output, with that format's writer |
| CliUtils.VersionedSerialization | src/cyclonedx/CliUtils.cs:196-251 | every output format the convert helper handles itself has a writer, except an undeclared value |
| CliUtils.VersionedSerializationMatchesRegistry | src/cyclonedx/CliUtils.cs:196-246 | each of those writers is the one the middle revision's registry chooses for the format of the same name, with the same downgrades |
| CliUtils.ConvertOutputBomHelper | src/cyclonedx/CliUtils.cs:182-255 | autodetect, json, protobuf and xml behave as the stream helper; the other formats are written with their versioned writer, and an undeclared value ends with UnsupportedFormat and writes nothing |
| CliUtilsSync.SyncOutputBomHelper | cyclonedx/CliUtils.cs:144-179 | the decisions of the newer stream helper for a file; with a null file name and an explicit format the BOM is written to standard output and then NotSupportedException is raised (the console stream cannot report its position), never a return |
| CliUtilsSync.SyncConvertOutputBomHelper | cyclonedx/CliUtils.cs:181-252 | the dispatch of the newer convert helper, with the same writers; a delegated explicit format written to standard output ends in NotSupportedException after the write, the other writers return |
| ConvertCommand.Convert | cyclonedx/Commands/ConvertCommand.cs:41-87 | the result is ParameterValidationError exactly when a check fails: an input format that cannot be resolved, an undetectable output name, or no input; once the checks pass, the command converts with exit code 0 exactly when the resolved input format has a reader, and otherwise throws UnsupportedFormatException (only SPDX input); a conversion reads with the registry's reader for the input format and writes with the registry's writer for the detected or cast output format |
| ConvertCommand.ExplicitOutputWriters | cyclonedx/Commands/ConvertCommand.cs:67 | because the output option is cast by ordinal, csv and spdxtag write Protobuf, spdxtag_v2_1 writes CSV and spdxtag_v2_2 writes SPDX 2.2 |
| ConvertCommand.SpdxInputIsDetectedButUnreadable | cyclonedx/Program.cs:60-72 | a ".spdx" input name is detected as SPDX, which the registry cannot read |
| ConvertEarliest.Convert | cyclonedx/Commands/Convert/ConvertCommand.cs:25-106 | the result is ParameterValidationError exactly when a check fails: autodetect without an input name or with an undetectable one, output autodetect without an output name or with an undetectable input name, or no input; once the checks pass, the command converts with exit code 0 exactly when the resolved input format has a reader; output autodetect uses the INPUT name, so two autodetected formats are the same format; explicit formats are cast by ordinal, and an ordinal with no BomFormat or an unreadable format throws |
| ConvertEarliest.AutodetectedOutputFollowsInput | cyclonedx/Commands/Convert/ConvertCommand.cs:52-64 | converting "a.json" to "b.xml" with both formats on autodetect writes JSON, because the output format is detected from the input name |
| SpdxTagEarlier.DocumentHead | cyclonedx/SpdxTagSerializer.cs:61-79 | the document opens with the SPDX version, the data licence, the document identifier, the document name and the namespace made from the name and the serial number |
| SpdxTagEarlier.DocumentRefWithoutGroup | cyclonedx/SpdxTagSerializer.cs:71-79 | the document name ignores the component's group; without a name it is the fallback sentence, with a name it begins with the name, and it is the name alone when there is no version |
| SpdxTagEarlier.CreatorsWithoutTools | cyclonedx/SpdxTagSerializer.cs:80-85 | one creator line per metadata author, in order, then this program's tool line once; metadata tools add no line |
| SpdxTagEarlier.ComponentsPrefix | cyclonedx/SpdxTagSerializer.cs:88-208 | the blocks of the first k components are a prefix of the blocks of all components |
| SpdxTagEarlier.ComponentIdentity | cyclonedx/SpdxTagSerializer.cs:92-105 | the i-th component's block opens with a blank line, the package name (the name alone) and an SPDX identifier that is non-empty and made only of identifier characters |
| SpdxTagEarlier.SameChecksumsAsNewerWithoutMd5 | cyclonedx/SpdxTagSerializer.cs:117-146 | the checksum lines are the newer writer's lines for the same hashes with every MD5 hash dropped |
| SpdxTagEarlier.ReferenceSpellings | cyclonedx/SpdxTagSerializer.cs:192-207 | a purl reference line exists exactly when the purl is not null or empty and is spelled "External-Ref: ", while CPE lines are spelled "ExternalRef: SECURITY " |
| SpdxTagEarlier.DefinitionInDocument | cyclonedx/SpdxTagSerializer.cs:148-181 | the n-th licence without an id collected from the packages is defined after them with the identifier LicenseRef-(n+1) |
| SpdxTagEarlier.Serialize | cyclonedx/SpdxTagSerializer.cs:40-223 | the text written is the document: preamble, one block per component, one block per collected licence |
| SpdxTagEarlier.WritePackages | cyclonedx/SpdxTagSerializer.cs:88-208 | the component loop appends each component's block in order and returns every collected licence without an id, in order |
| SpdxTagEarlier.WritePreamble | cyclonedx/SpdxTagSerializer.cs:61-86 | appends the header, the name lines, the creators and the creation time |
| SpdxTagEarlier.WritePackage | cyclonedx/SpdxTagSerializer.cs:90-207 | appends one component's block and adds that component's licences without an id to the collected list |
| Spdx.WriteHeader | cyclonedx/Serializers/SpdxTagSerializer.cs:73-81 | appends the SPDX version line (2.1 or 2.2), the CC0-1.0 data licence and the document identifier |
| Spdx.SerialNumberKept | cyclonedx/Serializers/SpdxTagSerializer.cs:59-71 | the namespace reference is the new GUID only for a null or empty serial number, is the serial number with exactly the leading "urn:uuid:" removed when it has one, and is the serial number itself otherwise |
| Spdx.SpdxIdString | cyclonedx/Serializers/SpdxTagSerializer.cs:285-290 | the sanitised identifier has the length of the input |
| Spdx.SpdxIdStringAt | cyclonedx/Serializers/SpdxTagSerializer.cs:285-290 | each character is kept when it is a letter, digit, '.' or '-', and replaced by '-' otherwise |
| Spdx.SpdxIdStringIsId | cyclonedx/Serializers/SpdxTagSerializer.cs:285-290 | the result is always made of identifier characters only |
| Spdx.SpdxIdStringKeepsIds | cyclonedx/Serializers/SpdxTagSerializer.cs:285-290 | a string already made of identifier characters is left unchanged |
| Spdx.SpdxIdStringIdempotent | cyclonedx/Serializers/SpdxTagSerializer.cs:285-290 | sanitising twice gives what sanitising once gives |
| Spdx.ComponentSpdxRefIsId | cyclonedx/Serializers/SpdxTagSerializer.cs:150-158 | a component's identifier (the sanitised bom-ref, or its position counted from 1) is never empty and is a valid identifier |
| Spdx.ChecksumSupport | cyclonedx/Serializers/SpdxTagSerializer.cs:178-210 | a hash gets a checksum line exactly for SHA-1 and SHA-256, MD5 where the revision has that case, and SHA-384 and SHA-512 for SPDX 2.2 only |
| Spdx.ChecksumLinesAppend | cyclonedx/Serializers/SpdxTagSerializer.cs:178-210 | the checksum lines follow the hashes' order: the lines of a joined list are the lines of each part, joined |
| Spdx.NoMd5Lines | cyclonedx/SpdxTagSerializer.cs:117-146 | a switch without the MD5 case writes for a list what the switch with it writes for the list with the MD5 hashes removed |
| Spdx.WriteChecksums | cyclonedx/Serializers/SpdxTagSerializer.cs:178-210 | the hash loop appends exactly the checksum lines of the hashes |
| Spdx.IdLessAppend | cyclonedx/Serializers/SpdxTagSerializer.cs:217-248 | the licences without an id collected from a joined list are those of each part, in order, duplicates kept |
| Spdx.WriteDeclaredLicenses | cyclonedx/Serializers/SpdxTagSerializer.cs:217-248 | appends the declared-licence line (NOASSERTION for a null or empty list) and adds each licence without an id to the collected list, in order |
| Spdx.WriteLicenseList | cyclonedx/Serializers/SpdxTagSerializer.cs:217-244 | for a non-empty list, appends the declared-licence line with the joined terms, in parentheses only when there are several, and adds the licences without an id to the collected list |
| Spdx.WriteLicenseLines | cyclonedx/Serializers/SpdxTagSerializer.cs:215-248 | appends the NOASSERTION concluded-licence line and the declared-licence line, and collects the licences without an id |
| Spdx.WriteTerms | cyclonedx/Serializers/SpdxTagSerializer.cs:222-246 | the licence loop appends the terms joined by " AND " and collects the licences without an id |
| Spdx.WriteTerm | cyclonedx/Serializers/SpdxTagSerializer.cs:224-245 | one pass appends the separator (none the first time) and the term: the SPDX id, or LicenseRef- numbered after the licences already collected, which it then joins |
| Spdx.TermsStep | cyclonedx/Serializers/SpdxTagSerializer.cs:222-246 | one more pass of the licence loop extends the written terms by that pass's text and the collected list by that licence when it has no id |
| Spdx.TermReference | cyclonedx/Serializers/SpdxTagSerializer.cs:224-245 | the reference written for a licence without an id is numbered by its place among the licences collected |
| Spdx.NonSpdxOfAppend | cyclonedx/Serializers/SpdxTagSerializer.cs:117-129 | the licences collected over joined component lists are those of each list, in order |
| Spdx.ReferenceDefined | cyclonedx/Serializers/SpdxTagSerializer.cs:131-141 | the LicenseRef-(n+1) written for a licence without an id is the n-th entry (from 0) of the collected list, so the trailing block numbered n+1 defines that very licence |
| Spdx.LicenseBlockLines | cyclonedx/Serializers/SpdxTagSerializer.cs:133-140 | a licence definition block has at least three lines and opens with a blank line and the identifier line carrying its own number |
| Spdx.LicenseBlocksLength | cyclonedx/Serializers/SpdxTagSerializer.cs:131-141 | one block per collected licence, duplicates not removed |
| Spdx.LicenseBlocksPrefix | cyclonedx/Serializers/SpdxTagSerializer.cs:131-141 | the blocks of the first k licences are a prefix of the blocks of all |
| Spdx.LicenseBlockAt | cyclonedx/Serializers/SpdxTagSerializer.cs:131-141 | the k-th collected licence (from 0) gets its block right after the earlier blocks, with the line LicenseID: LicenseRef-(k+1) |
| Spdx.WriteLicenseBlock | cyclonedx/Serializers/SpdxTagSerializer.cs:133-140 | appends one licence's definition block |
| Spdx.WriteLicenseBlocks | cyclonedx/Serializers/SpdxTagSerializer.cs:131-141 | the trailing loop appends the blocks of all collected licences, numbered from 1 in list order |
| Spdx.CpeLineWhenVersioned | cyclonedx/Serializers/SpdxTagSerializer.cs:262-274 | at most one CPE line, written exactly when the CPE begins with "cpe:2.2:" or "cpe:2.3:" ignoring case, and carrying the CPE as given |
| Spdx.WriteCpe | cyclonedx/Serializers/SpdxTagSerializer.cs:262-274 | appends the CPE reference line, if any |
| Spdx.WriteReference | cyclonedx/Serializers/SpdxTagSerializer.cs:266-272 | appends one line made of the reference kind followed by the value |
| Spdx.AuthorLinesEach | cyclonedx/Serializers/SpdxTagSerializer.cs:99-103 | one creator line per author, in order |
| Spdx.AuthorLineNotTool | cyclonedx/Serializers/SpdxTagSerializer.cs:99-111 | an author line names a person and is never the tool's creator line |
| Spdx.WriteAuthors | cyclonedx/Serializers/SpdxTagSerializer.cs:99-103 | the author loop appends one line per author; a null list appends nothing |
| SpdxTag.DocumentHead | cyclonedx/Serializers/SpdxTagSerializer.cs:73-94 | the document opens with the header lines, the document name and the namespace made from the name and the serial number |
| SpdxTag.ToolLinesEach | cyclonedx/Serializers/SpdxTagSerializer.cs:106-110 | one line per metadata tool, in order |
| SpdxTag.CreatorsOneTool | cyclonedx/Serializers/SpdxTagSerializer.cs:99-111 | one creator line per author and per metadata tool, then this program's creator line, which appears exactly once, last |
| SpdxTag.FirstWebsite | cyclonedx/Serializers/SpdxTagSerializer.cs:212-213 | no home page exactly when no reference is a website; otherwise the first website reference |
| SpdxTag.ComponentsPrefix | cyclonedx/Serializers/SpdxTagSerializer.cs:117-129 | the blocks of the first k components are a prefix of the blocks of all |
| SpdxTag.ComponentBlock | cyclonedx/Serializers/SpdxTagSerializer.cs:117-129 | the i-th component's block comes right after the blocks of the components before it, numbering its references after theirs |
| SpdxTag.ComponentIdentity | cyclonedx/Serializers/SpdxTagSerializer.cs:150-165 | the i-th component's block opens with a blank line, the package name with its group, and an identifier that is non-empty and valid |
| SpdxTag.DefinitionInDocument | cyclonedx/Serializers/SpdxTagSerializer.cs:131-141 | the n-th licence without an id collected from the packages is defined after them with the identifier LicenseRef-(n+1) |
| SpdxTag.WritePreamble | cyclonedx/Serializers/SpdxTagSerializer.cs:73-115 | appends the header, the name lines, the licence list version, the creators, the creation time and the two comments |
| SpdxTag.WriteCreators | cyclonedx/Serializers/SpdxTagSerializer.cs:99-111 | appends the author lines, the tool lines and this program's creator line |
| SpdxTag.WritePackageHead | cyclonedx/Serializers/SpdxTagSerializer.cs:150-175 | appends a component's opening lines up to FilesAnalyzed |
| SpdxTag.WritePackageTail | cyclonedx/Serializers/SpdxTagSerializer.cs:215-274 | appends the licence, copyright, purl and CPE lines and collects the licences without an id |
| SpdxTag.WriteCopyrightAndReferences | cyclonedx/Serializers/SpdxTagSerializer.cs:250-274 | appends the copyright line, then the purl line if any, then the CPE line if any |
| SpdxTag.SpdxTagSerializer.constructor | cyclonedx/Serializers/SpdxTagSerializer.cs:48-52 | the serializer keeps the BOM and the SPDX version it is given |
| SpdxTag.SpdxTagSerializer.Serialize | cyclonedx/Serializers/SpdxTagSerializer.cs:54-144 | the buffer and the licence list are reset, the text is the whole document, and the licence list ends as the licences without an id of all components |
| SpdxTag.SpdxTagSerializer.WriteComponents | cyclonedx/Serializers/SpdxTagSerializer.cs:117-129 | the component loop appends each component's block in order and collects their licences without an id |
| SpdxTag.SpdxTagSerializer.WritePackageInformation | cyclonedx/Serializers/SpdxTagSerializer.cs:146-277 | appends the component's block, numbering its references after the licences already collected, and adds its licences without an id to the list |
| SpdxTag.SpdxTagSerializer.WriteComponent | cyclonedx/Serializers/SpdxTagSerializer.cs:121-128 | whichever branch the component type takes, the component's package block is appended and its licences without an id are collected |
| SpdxTag.SpdxTagSerializer.WriteFileInformation | cyclonedx/Serializers/SpdxTagSerializer.cs:279-283 | a file component is written exactly as a package |
| Csv.HashColumnAt | src/cyclonedx/Serialization/CsvSerializer.cs:64-69 | the hash columns are the hash algorithms in enum order with Null (the first) left out, each named with '_' written as '-' |
| Csv.ColumnIndex | src/cyclonedx/Serialization/CsvSerializer.cs:140 | a column found by name is a column of the header |
| Csv.ColumnIndexIsFirstMatch | src/cyclonedx/Serialization/CsvSerializer.cs:140 | the column found is the first whose lower-cased name equals the lower-cased request, and none is found when no column matches |
| Csv.FirstMatchIsColumn | src/cyclonedx/Serialization/CsvSerializer.cs:140 | the first column whose lower-cased name matches is the one found |
| Csv.HeaderLookup | src/cyclonedx/Serialization/CsvSerializer.cs:40-70 | every column of the written header is found by its own name, so no header name shadows another |
| Csv.ExpressionCell | src/cyclonedx/Serialization/CsvSerializer.cs:90-99 | an entry of the LicenseExpressions column is never empty (an expression, else an id) |
| Csv.NameCell | src/cyclonedx/Serialization/CsvSerializer.cs:100-103 | a LicenseNames entry is written only for a licence with neither expression nor id, is never empty and holds no ',' |
| Csv.ExpressionCells | src/cyclonedx/Serialization/CsvSerializer.cs:85-105 | at most one expression entry per licence, none empty |
| Csv.NameCells | src/cyclonedx/Serialization/CsvSerializer.cs:85-105 | at most one name entry per licence, none empty, none holding ',' |
| Csv.SwidCells | src/cyclonedx/Serialization/CsvSerializer.cs:112-120 | exactly nine Swid fields |
| Csv.FirstHashIndex | src/cyclonedx/Serialization/CsvSerializer.cs:124 | the first hash with the algorithm, or none when no hash has it |
| Csv.HashCells | src/cyclonedx/Serialization/CsvSerializer.cs:121-125 | one field per hash column, holding the first hash of that column's algorithm |
| Csv.DescriptionCell | src/cyclonedx/Serialization/CsvSerializer.cs:126 | the Description field holds no carriage return or line feed, and a description without them is written as it is |
| Csv.Row | src/cyclonedx/Serialization/CsvSerializer.cs:76-126 | one field per header column |
| Csv.Rows | src/cyclonedx/Serialization/CsvSerializer.cs:74-129 | one record per component |
| Csv.RowsAt | src/cyclonedx/Serialization/CsvSerializer.cs:74-129 | the k-th record after the header is the k-th component's |
| Csv.CsvWriter.constructor | src/cyclonedx/Serialization/CsvSerializer.cs:38 | a new writer has no records and an empty current record |
| Csv.CsvWriter.WriteField | src/cyclonedx/Serialization/CsvSerializer.cs:40 | a field is added to the current record |
| Csv.CsvWriter.NextRecord | src/cyclonedx/Serialization/CsvSerializer.cs:72 | the current record is finished and a new one begins |
| Csv.WriteHeader | src/cyclonedx/Serialization/CsvSerializer.cs:40-72 | appends exactly the header record: 24 named columns, the hash columns, Description |
| Csv.WriteLicenses | src/cyclonedx/Serialization/CsvSerializer.cs:85-107 | appends the LicenseExpressions and LicenseNames fields, each licence going to at most one of the two lists |
| Csv.WriteHashes | src/cyclonedx/Serialization/CsvSerializer.cs:121-125 | the hash loop appends one field per algorithm except Null |
| Csv.WriteComponent | src/cyclonedx/Serialization/CsvSerializer.cs:76-128 | appends exactly the component's record |
| Csv.WriteRows | src/cyclonedx/Serialization/CsvSerializer.cs:74-129 | the component loop appends one record per component, in order |
| Csv.Serialize | src/cyclonedx/Serialization/CsvSerializer.cs:32-133 | the table is the header record then each component's record in order; a BOM without a component list throws in the loop |
| Csv.ParseScope | src/cyclonedx/Serialization/CsvSerializer.cs:197-206 | a scope is parsed exactly when the text, with surrounding white space removed and ignoring case, names one |
| Csv.ReadHashes | src/cyclonedx/Serialization/CsvSerializer.cs:208-220 | at most one hash per algorithm, never Null, never with empty content |
| Csv.ReadHashesStep | src/cyclonedx/Serialization/CsvSerializer.cs:210-219 | one pass of the hash loop adds a hash exactly when the algorithm is not Null and its field is not null or empty |
| Csv.ExpressionLicenses | src/cyclonedx/Serialization/CsvSerializer.cs:223-246 | at most one licence per piece of the LicenseExpressions field |
| Csv.NameLicenses | src/cyclonedx/Serialization/CsvSerializer.cs:247-259 | at most one licence per piece of the LicenseNames field |
| Csv.ReadSwid | src/cyclonedx/Serialization/CsvSerializer.cs:173-195 | the Swid is kept exactly when the tag id is not null or white space, and its text exactly when the SwidTextContent field is present (the field is read without the white-space check) |
| Csv.NonEmpty | src/cyclonedx/Serialization/CsvSerializer.cs:220 | a list is assigned exactly when it is not empty |
| Csv.RowComponent | src/cyclonedx/Serialization/CsvSerializer.cs:154-260 | a read component never has a bom-ref or external references, and never an empty hash or licence list |
| Csv.ReadRecords | src/cyclonedx/Serialization/CsvSerializer.cs:152-263 | a successful read gives one component per data record |
| Csv.ReadRecordsEach | src/cyclonedx/Serialization/CsvSerializer.cs:152-263 | when the read succeeds, the k-th component is the k-th record's |
| Csv.ReadRecordsFails | src/cyclonedx/Serialization/CsvSerializer.cs:152-263 | when the read fails, some record fails with that exception |
| Csv.ReadRecordsAll | src/cyclonedx/Serialization/CsvSerializer.cs:152-263 | when every record can be read, the whole table is read |
| Csv.ReadRecordsThrownExtends | src/cyclonedx/Serialization/CsvSerializer.cs:152-263 | once a prefix of the records fails, the whole read fails with the same exception |
| Csv.ReadStep | src/cyclonedx/Serialization/CsvSerializer.cs:152-263 | one more record either extends the components read so far or ends the whole read with its exception |
| Csv.Deserialized | src/cyclonedx/Serialization/CsvSerializer.cs:135-266 | an empty table throws (no header record); a read BOM has version 1 and exactly one component per data record |
| Csv.ReadComponent | src/cyclonedx/Serialization/CsvSerializer.cs:154-262 | the read loop's body gives the component of the record |
| Csv.InitializeComponent | src/cyclonedx/Serialization/CsvSerializer.cs:154-195 | the initializer and the null-outs of the supplier, the Swid text and the Swid give the component of the string fields |
| Csv.ReadHashList | src/cyclonedx/Serialization/CsvSerializer.cs:208-220 | the hash loop reads the hashes of the record |
| Csv.ReadLicenseList | src/cyclonedx/Serialization/CsvSerializer.cs:222-260 | the two licence loops read the expression pieces first, then the names |
| Csv.ReadExpressionLicenses | src/cyclonedx/Serialization/CsvSerializer.cs:223-246 | a piece with a space becomes an expression, another non-empty piece an id |
| Csv.ReadNameLicenses | src/cyclonedx/Serialization/CsvSerializer.cs:247-259 | every non-empty piece becomes a named licence |
| Csv.Deserialize | src/cyclonedx/Serialization/CsvSerializer.cs:135-266 | the read loop gives the BOM of the table, or the exception of the first record that fails |
| CsvRoundTrip.ReadKeptHashes | src/cyclonedx/Serialization/CsvSerializer.cs:121-125 | reading back the hash columns gives, per algorithm in enum order, the first hash with non-empty content |
| CsvRoundTrip.ReadJoined | src/cyclonedx/Serialization/CsvSerializer.cs:106-107 | splitting a joined column gives its entries back when none holds ',' |
| CsvRoundTrip.ReadKeptLicenses | src/cyclonedx/Serialization/CsvSerializer.cs:85-107 | the licences read back are the expressions and ids (an expression exactly when it holds a space), then the names |
| CsvRoundTrip.ReadScope | src/cyclonedx/Serialization/CsvSerializer.cs:84 | the scope text written reads back as the scope |
| CsvRoundTrip.ScopeParsesBack | src/cyclonedx/Serialization/CsvSerializer.cs:197-206 | the lower-case name written for each scope parses back to that scope |
| CsvRoundTrip.ReadKeptSwid | src/cyclonedx/Serialization/CsvSerializer.cs:112-120 | the Swid fields read back as the Swid without white-space strings, dropped without a tag id |
| CsvRoundTrip.ReadKind | src/cyclonedx/Serialization/CsvSerializer.cs:76 | the written component type converts back to the type |
| CsvRoundTrip.ReadModified | src/cyclonedx/Serialization/CsvSerializer.cs:111 | the written Modified flag converts back to the flag |
| CsvRoundTrip.ReadSwidTyped | src/cyclonedx/Serialization/CsvSerializer.cs:115-116 | the written tag version and patch flag convert back |
| CsvRoundTrip.ReadInitialized | src/cyclonedx/Serialization/CsvSerializer.cs:77-126 | the string fields, the supplier and the Swid of a written record are read back as the round-trip component's |
| CsvRoundTrip.ReadRecordParts | src/cyclonedx/Serialization/CsvSerializer.cs:76-128 | a record made of the component's cells reads back as the round-trip component |
| CsvRoundTrip.ReadFields | src/cyclonedx/Serialization/CsvSerializer.cs:154-260 | once the typed fields are converted back, the string fields, scope, hashes and licences of a written record read back as `ReadBack` |
| CsvRoundTrip.RowRoundTrip | src/cyclonedx/Serialization/CsvSerializer.cs:76-128 | serializing a component and reading its record under the written header gives the round-trip component: white-space strings become null, the supplier keeps only its name, each algorithm keeps its first hash, licences are re-sorted |
| CsvRoundTrip.TableRoundTrip | src/cyclonedx/Serialization/CsvSerializer.cs:32-266 | serializing a component list and deserializing the table gives a version-1 BOM holding the round trip of every component, in order |
| CsvRoundTrip.ExpressionComesBackAsId | src/cyclonedx/Serialization/CsvSerializer.cs:227-245 | a licence expression without a space comes back as a licence id, not as the expression written |
| CsvRoundTrip.NameComesBackWithUnderscores | src/cyclonedx/Serialization/CsvSerializer.cs:102 | a licence name comes back with every ',' replaced by '_' |
| CsvRoundTrip.SwidTextComesBack | src/cyclonedx/Serialization/CsvSerializer.cs:180-195 | a Swid written without text comes back with an empty text rather than none |
| Markdown.NodeLineCount | src/cyclonedx/Serialization/MarkdownSerializer.cs:181-190 | a dependency writes one line for itself and one for every dependency nested under it |
| Markdown.DependencyLines | src/cyclonedx/Serialization/MarkdownSerializer.cs:181-190 | at least one line per dependency, the first being the first dependency's own line at the given indentation |
| Markdown.ListLineCount | src/cyclonedx/Serialization/MarkdownSerializer.cs:181-190 | a dependency list writes one line per dependency of the whole tree |
| Markdown.NodeLinesIndented | src/cyclonedx/Serialization/MarkdownSerializer.cs:185-187 | a dependency's line is its indentation, "- " and its reference, and every nested line is indented two spaces deeper |
| Markdown.ListLinesIndented | src/cyclonedx/Serialization/MarkdownSerializer.cs:181-190 | every line of a dependency list starts with the list's indentation |
| Markdown.WriteDependencies | src/cyclonedx/Serialization/MarkdownSerializer.cs:181-190 | the recursive writer appends the lines of the dependency tree in pre-order |
| Markdown.WriteDependency | src/cyclonedx/Serialization/MarkdownSerializer.cs:185-188 | one pass appends the dependency's line and then its children's lines |
| Markdown.WriteToolsOrAuthors | src/cyclonedx/Serialization/MarkdownSerializer.cs:45-63 | appends the tools line, else the authors line, else nothing |
| Markdown.WriteFragment | src/cyclonedx/Serialization/MarkdownSerializer.cs:73 | a labelled value is appended only when it is not null |
| Markdown.WriteSummaryLine | src/cyclonedx/Serialization/MarkdownSerializer.cs:70-91 | appends the quoted summary of the metadata component: group, name, version, the purl only without a name, the CPE |
| Markdown.WriteComponentSummary | src/cyclonedx/Serialization/MarkdownSerializer.cs:66-107 | appends the summary, the quoted description, a blank line and the references line |
| Markdown.WriteDescription | src/cyclonedx/Serialization/MarkdownSerializer.cs:92-96 | the quoted description lines are appended only when there is a description |
| Markdown.WriteReferences | src/cyclonedx/Serialization/MarkdownSerializer.cs:101-106 | appends every external reference as a link, in order, on one line |
| Markdown.WriteComponentItem | src/cyclonedx/Serialization/MarkdownSerializer.cs:122-144 | appends one numbered item with its labelled values, the purl on a continuation line |
| Markdown.WriteItemHead | src/cyclonedx/Serialization/MarkdownSerializer.cs:122-138 | appends the item's type and its group, name, version and scope where present |
| Markdown.WritePurl | src/cyclonedx/Serialization/MarkdownSerializer.cs:139-143 | the purl's continuation line is appended only when there is a purl |
| Markdown.WriteComponentList | src/cyclonedx/Serialization/MarkdownSerializer.cs:117-147 | appends the Components heading, one item per component in order, and a blank line |
| Markdown.WritePlaceholder | src/cyclonedx/Serialization/MarkdownSerializer.cs:110-115 | appends a section heading with "not supported yet" and a blank line |
| Markdown.WriteDependencySection | src/cyclonedx/Serialization/MarkdownSerializer.cs:156-160 | appends the Dependencies heading, the dependency tree and a blank line |
| Markdown.WritePlaceholderIf | src/cyclonedx/Serialization/MarkdownSerializer.cs:149-154 | a placeholder section is appended exactly when its list is present |
| Markdown.WriteSections | src/cyclonedx/Serialization/MarkdownSerializer.cs:43-174 | appends everything of the metadata branch, in order |
| Markdown.WriteMetadataSections | src/cyclonedx/Serialization/MarkdownSerializer.cs:45-147 | appends tools or authors, the component summary, the references placeholder and the component list |
| Markdown.WriteContentSections | src/cyclonedx/Serialization/MarkdownSerializer.cs:149-174 | appends the services, dependencies, compositions and vulnerabilities sections where present |
| Markdown.Serialize | src/cyclonedx/Serialization/MarkdownSerializer.cs:28-179 | the text written is the Markdown document of the BOM |
| Markdown.MarkdownText | src/cyclonedx/Serialization/MarkdownSerializer.cs:28-179 | the document opens with the heading, the line naming the BOM and a blank line, and is only that without metadata |
| Markdown.HeadingWhenComponent | src/cyclonedx/Serialization/MarkdownSerializer.cs:34-38 | the document opens with "# " exactly when the metadata has a component, and otherwise with "BOM " |
| Markdown.WithoutMetadata | src/cyclonedx/Serialization/MarkdownSerializer.cs:38-41 | a BOM without metadata renders as the line naming the BOM and a blank line, nothing else |
| Markdown.ToolsBeforeAuthors | src/cyclonedx/Serialization/MarkdownSerializer.cs:45-63 | the tools line is written exactly when there are tools, the authors line exactly when there are authors and no tools, and nothing when there are neither |
| Markdown.ToolsTextAppend | src/cyclonedx/Serialization/MarkdownSerializer.cs:49-52 | every tool is written, in order |
| Markdown.ComponentItemsAppend | src/cyclonedx/Serialization/MarkdownSerializer.cs:120-145 | every component is listed, in order |
| Markdown.ComponentItemLines | src/cyclonedx/Serialization/MarkdownSerializer.cs:122-144 | an item takes two lines when the component has a purl and one otherwise |
| Markdown.NodeLinesSingle | src/cyclonedx/Serialization/MarkdownSerializer.cs:181-190 | with references and indentation free of line ends, no dependency line holds one |
| Markdown.DependencySectionLines | src/cyclonedx/Serialization/MarkdownSerializer.cs:156-160 | the dependency section has one line per dependency of the whole tree, plus the heading and the blank line |
| Markdown.Deserialize | src/cyclonedx/Serialization/MarkdownSerializer.cs:192-195 | reading Markdown always gives null |
| Diff.WithoutKeysMembers | cyclonedx/Commands/Convert/DiffCommand.cs:64-65 | removing by (name, version) keeps exactly the components whose pair is not removed |
| Diff.WithNamesMembers | cyclonedx/Commands/Convert/DiffCommand.cs:73 | the components kept by a name filter are exactly those whose name is accepted |
| Diff.WithoutNamesMembers | cyclonedx/Commands/Convert/DiffCommand.cs:84 | the components dropped by a name filter are exactly those whose name is rejected |
| Diff.WithoutAbsentKeys | cyclonedx/Commands/Convert/DiffCommand.cs:64-65 | removing pairs that no component has leaves the list unchanged |
| Diff.WithoutAllKeys | cyclonedx/Commands/Convert/DiffCommand.cs:64-65 | removing every pair a list holds leaves it empty |
| Diff.NameFiltersOnAbsentNames | cyclonedx/Commands/Convert/DiffCommand.cs:73-84 | a name filter that no component passes selects nothing and drops nothing |
| Diff.FirstNamed | cyclonedx/Commands/Convert/DiffCommand.cs:109 | there is no match exactly when the name is absent; otherwise the match is the earliest component with the name |
| Diff.Pairing | cyclonedx/Commands/Convert/DiffCommand.cs:107-121 | the pairing loop either throws InvalidOperationException or adds one modified pair per pending from-component |
| Diff.DiffSpec | cyclonedx/Commands/Convert/DiffCommand.cs:56-124 | the only exception the component diff can throw is InvalidOperationException, from First |
| Diff.KeysAppend | cyclonedx/Commands/Convert/DiffCommand.cs:60-67 | the pairs of a list with one more component are the old pairs and the new component's |
| Diff.WithoutKeysTwice | cyclonedx/Commands/Convert/DiffCommand.cs:60-67 | removing one set of pairs and then another is removing their union |
| Diff.KeyFilterIsNameFilter | cyclonedx/Commands/Convert/DiffCommand.cs:71-89 | removing by pair exactly the components whose names are rejected keeps exactly the accepted names |
| Diff.RemovingRejectedKeys | cyclonedx/Commands/Convert/DiffCommand.cs:71-78 | removing the pairs of the components a name filter rejects leaves exactly the components it accepts |
| Diff.DropCommon | cyclonedx/Commands/Convert/DiffCommand.cs:56-67 | the first loop removes from both working copies every (name, version) pair present on both sides, and nothing else |
| Diff.TakeUnmatched | cyclonedx/Commands/Convert/DiffCommand.cs:71-89 | the added (or removed) loop takes the components whose name has no counterpart, and leaves the others |
| Diff.PairRemaining | cyclonedx/Commands/Convert/DiffCommand.cs:107-121 | the pairing loop over the remaining from-components computes the pairing function, exception included |
| Diff.ComponentVersions | cyclonedx/Commands/Convert/DiffCommand.cs:50-124 | the command's four loops and the leftovers compute the diff function |
| Diff.PairingKeepsSides | cyclonedx/Commands/Convert/DiffCommand.cs:107-121 | every pair matches a from-component with a to-component of the same name, and the leftovers come from their own side |
| Diff.SharedKeysShareNames | cyclonedx/Commands/Convert/DiffCommand.cs:60-67 | a (name, version) pair present on both sides has its name on both sides |
| Diff.DiffReportsOnlyChanges | cyclonedx/Commands/Convert/DiffCommand.cs:56-124 | no pair present on both sides is reported; additions come from the to-side, removals from the from-side, and every modified pair shares a name and differs in version |
| Diff.DiffOfIdenticalIsEmpty | cyclonedx/Commands/Convert/DiffCommand.cs:56-124 | a list diffed against itself has no addition, removal or modification |
| Diff.DiffOfDisjointNames | cyclonedx/Commands/Convert/DiffCommand.cs:56-124 | when the sides share no name, everything on the to-side is added and everything on the from-side removed, in order |
| Diff.FirstThrowsWhenToSideRunsOut | cyclonedx/Commands/Convert/DiffCommand.cs:107-121 | from {A@1, A@2} to {A@3}, the second First finds no A left and throws InvalidOperationException |
| Diff.AddedLineAt | cyclonedx/Commands/Convert/DiffCommand.cs:164-168 | the i-th addition is printed as "+ name@version" followed by a blank line |
| Diff.ModifiedLinesAt | cyclonedx/Commands/Convert/DiffCommand.cs:169-174 | the i-th modified pair is printed as the old version's "- " line, then the new version's "+ " line, then a blank line |
| Diff.RemovedLineAt | cyclonedx/Commands/Convert/DiffCommand.cs:175-179 | the i-th removal is printed as "- name@version" followed by a blank line |
| Diff.AdditionReportedAsNone | cyclonedx/Commands/Convert/DiffCommand.cs:154-160 | as written, a diff whose only change is an addition prints "None" and not the addition; with the intended test it prints "+ A@1" |
| Diff.TextReportSaysNone | cyclonedx/Commands/Convert/DiffCommand.cs:150-182 | with the intended test, the report prints "None" exactly when there is no addition, modification or removal; otherwise the heading and blank line are followed by every change line and a final blank line |
| Diff.ChangeLineInReport | cyclonedx/Commands/Convert/DiffCommand.cs:162-181 | the k-th change line is the (k+2)-th line of the report |
| Diff.ReportListsAdded | cyclonedx/Commands/Convert/DiffCommand.cs:164-168 | every addition is printed, in order, on its own line after the heading |
| Diff.ReportListsModified | cyclonedx/Commands/Convert/DiffCommand.cs:169-174 | every modified pair is printed, old then new, after the additions |
| Diff.ModifiedLineInReport | cyclonedx/Commands/Convert/DiffCommand.cs:169-174 | each line of the modified pairs is printed after the heading, the blank line and the additions' lines |
| Diff.ModifiedFromInReport | cyclonedx/Commands/Convert/DiffCommand.cs:171 | the old side of each modified pair is printed as "- name@version" at its place |
| Diff.ModifiedToInReport | cyclonedx/Commands/Convert/DiffCommand.cs:172 | the new side of each modified pair is printed as "+ name@version" right after the old side |
| Diff.ReportListsRemoved | cyclonedx/Commands/Convert/DiffCommand.cs:175-179 | every removal is printed after the modified pairs |
| Diff.Diff | cyclonedx/Commands/Convert/DiffCommand.cs:32-186 | ParameterValidationError exactly when either format cannot be resolved; a resolved format without a reader throws UnsupportedFormatException; once both readers exist the command returns 0 without --component-versions, and with it returns exactly when both component lists are present and the diff of the two lists does not throw, its InvalidOperationException being passed on; the component diff is present exactly when asked for and equals the diff of the two lists, and unless the output is json the report printed is the one the code writes (`Diff.TextReportAsWritten`, whose "None" test ignores additions); a null component list throws ArgumentNullException |
| Analyze.NamesInOrder | cyclonedx/Commands/Convert/AnalyzeCommand.cs:47-55 | the dictionary's keys are distinct and are exactly the names that occur, in first-seen order |
| Analyze.Report | cyclonedx/Commands/Convert/AnalyzeCommand.cs:57-71 | at most one reported list per name, and every reported list has more than one member and a differing version |
| Analyze.MultipleComponentVersions | cyclonedx/Commands/Convert/AnalyzeCommand.cs:45-71 | at most one reported list per distinct name, each with more than one member and some version different from the first member's |
| Analyze.GroupMembers | cyclonedx/Commands/Convert/AnalyzeCommand.cs:52-54 | a name's list holds exactly the components with that name, and is empty exactly when no component has it |
| Analyze.GroupAppend | cyclonedx/Commands/Convert/AnalyzeCommand.cs:54 | adding a component extends its own name's list by it and leaves other lists alone |
| Analyze.ReportMembers | cyclonedx/Commands/Convert/AnalyzeCommand.cs:57-71 | a list is reported exactly when it is some name's whole list and has more than one member, with a version differing from the first |
| Analyze.NothingReported | cyclonedx/Commands/Convert/AnalyzeCommand.cs:57-71 | when no name's list qualifies, nothing is reported |
| Analyze.ReportIsExact | cyclonedx/Commands/Convert/AnalyzeCommand.cs:47-71 | every reported list has several members, a differing version and one shared name; every qualifying name's list is reported |
| Analyze.DistinctNamesReportNothing | cyclonedx/Commands/Convert/AnalyzeCommand.cs:47-71 | components with pairwise distinct names report nothing |
| Analyze.CountedGroup | cyclonedx/Commands/Convert/AnalyzeCommand.cs:47-55 | with distinct names, each list has at most one member |
| Analyze.CacheStep | cyclonedx/Commands/Convert/AnalyzeCommand.cs:50-54 | one pass of the first loop keeps the dictionary equal to the lists of the components seen so far, in first-seen key order |
| Analyze.FillCache | cyclonedx/Commands/Convert/AnalyzeCommand.cs:47-55 | the first loop throws ArgumentNullException exactly when some name is null; otherwise it builds each name's list in key order |
| Analyze.FindDifferentVersion | cyclonedx/Commands/Convert/AnalyzeCommand.cs:61-69 | the inner loop finds a member exactly when some version differs from the first member's |
| Analyze.CollectReported | cyclonedx/Commands/Convert/AnalyzeCommand.cs:57-71 | the second loop collects exactly the reported lists, in key order |
| Analyze.NamedGroupsNonEmpty | cyclonedx/Commands/Convert/AnalyzeCommand.cs:52-54 | every name that occurs has a non-empty list |
| Analyze.MultipleVersions | cyclonedx/Commands/Convert/AnalyzeCommand.cs:45-71 | a null component list throws NullReferenceException, a null name ArgumentNullException; otherwise the result is the analysis of the list |
| Analyze.Analyze | cyclonedx/Commands/Convert/AnalyzeCommand.cs:29-114 | ParameterValidationError exactly for an unresolvable format or missing input; once those checks pass the command returns 0 exactly when the format has a reader and, when the analysis is asked for, the component list is present and every component has a name; the analysis is present exactly when asked for and equals the analysis of the components, and unless the output is json the text printed is the one the code writes (`Analyze.ReportTextAsWritten`, all entries on one line) |
| Analyze.GroupText | cyclonedx/Commands/Convert/AnalyzeCommand.cs:94-100 | an entry is at least the " versions:" label long |
| Analyze.VersionsText | cyclonedx/Commands/Convert/AnalyzeCommand.cs:97-101 | each member adds at least its separating space |
| Analyze.EntryLines | cyclonedx/Commands/Convert/AnalyzeCommand.cs:92-102 | with a line per entry there is one line per reported list |
| Analyze.EntriesRunTogether | cyclonedx/Commands/Convert/AnalyzeCommand.cs:92-101 | the entries appended with nothing in between: empty exactly when nothing is reported, otherwise starting with the first group's entry |
| Analyze.ReportTextAsWritten | cyclonedx/Commands/Convert/AnalyzeCommand.cs:83-104 | the text as written always opens with the heading line and a blank line |
| Analyze.ReportLines | cyclonedx/Commands/Convert/AnalyzeCommand.cs:83-104 | the intended report opens with the heading and a blank line and closes with a blank line, at least four lines in all |
| Analyze.TextOutput | cyclonedx/Commands/Convert/AnalyzeCommand.cs:80-107 | the text is empty exactly when the analysis was not asked for |
| Analyze.EntryTextLength | cyclonedx/Commands/Convert/AnalyzeCommand.cs:92-102 | with a line per entry, the entries take exactly one line end per entry more than as written |
| Analyze.AsWrittenIsIntendedOnlyForNone | cyclonedx/Commands/Convert/AnalyzeCommand.cs:83-104 | the text as written equals the intended line-per-entry report exactly when nothing is reported |
| Analyze.EntryLineAt | cyclonedx/Commands/Convert/AnalyzeCommand.cs:92-102 | the k-th line is the k-th reported list's entry |
| Analyze.ReportListsGroups | cyclonedx/Commands/Convert/AnalyzeCommand.cs:83-104 | with a line per entry, the report prints "None" exactly when nothing is reported, and otherwise gives the k-th list's entry on line k + 2 |
| Analyze.EntriesShareOneLine | cyclonedx/Commands/Convert/AnalyzeCommand.cs:83-104 | as written, a non-empty report is three lines: the heading, a blank line, and one line carrying every entry |
| Analyze.TwoGroupsReported | cyclonedx/Commands/Convert/AnalyzeCommand.cs:47-71 | components A@1, B@1, A@2, B@2 report the two lists [A@1, A@2] and [B@1, B@2] |
| Analyze.GroupsRunTogether | cyclonedx/Commands/Convert/AnalyzeCommand.cs:92-103 | as written, those two entries are printed as the single line "A versions: 1 2B versions: 1 2" |
| Analyze.GroupsOnOwnLines | cyclonedx/Commands/Convert/AnalyzeCommand.cs:92-103 | with a line per entry, the two entries are printed on lines of their own |
| Merge.MergeCommandOptions.constructor | src/cyclonedx/Commands/MergeCommand.cs:34-42 | the options object binds the eight merge options to the values given |
| Merge.ReadOf | src/cyclonedx/Commands/MergeCommand.cs:122 | an input file is unreadable exactly when its format is autodetect and its name gives no format; otherwise it is read from that file |
| Merge.Decoded | src/cyclonedx/Commands/MergeCommand.cs:116-129 | reading the inputs can only throw NullReferenceException |
| Merge.DecodedReadsEveryFile | src/cyclonedx/Commands/MergeCommand.cs:116-129 | reading throws exactly when some input is unreadable; otherwise there is one BOM per file, each file's own, in order |
| Merge.InputBoms | src/cyclonedx/Commands/MergeCommand.cs:116-129 | the read loop computes the reading function, exception included |
| Merge.BomSubject | src/cyclonedx/Commands/MergeCommand.cs:66-74 | a subject exists exactly when a group, name or version is given, and it is an application carrying exactly those three |
| Merge.FirstSubjectIsEarliest | src/cyclonedx/Commands/MergeCommand.cs:93-100 | the fallback subject is absent exactly when no input has a metadata component, and otherwise is that of the earliest input having one |
| Merge.FindFirstSubject | src/cyclonedx/Commands/MergeCommand.cs:93-100 | the loop with its break finds the earliest input's metadata component |
| Merge.WithNewIdentity | src/cyclonedx/Commands/MergeCommand.cs:104-105 | the output has version 1 and the serial number "urn:uuid:" followed by the new GUID, and nothing else changes |
| Merge.FlatSubjectChoice | src/cyclonedx/Commands/MergeCommand.cs:83-101 | a flat merge always has metadata; its subject is the supplied one, else the earliest input's, else the merge's own; components and dependencies are untouched |
| Merge.FlatWithSubject | src/cyclonedx/Commands/MergeCommand.cs:83-101 | the merged BOM changes only in its metadata, which now exists and keeps its other fields; the subject is the supplied one, else the earliest input's, else the merge's own |
| Merge.Merge | src/cyclonedx/Commands/MergeCommand.cs:46-114 | a hierarchical merge without name and version, or an output format that cannot be detected, is ParameterValidationError; otherwise an unreadable input throws, and when every input reads the command returns 0 with the merge, given a new identity, written by the output helper; only the output format option changes |
| Merge.MergeInputs | src/cyclonedx/Commands/MergeCommand.cs:76-102 | hierarchical merging keeps the library merge as is; a flat merge gets metadata and, as its component, the given subject or else the first input component that is set |
| MergeSync.Options.constructor | cyclonedx/Commands/MergeCommand.cs:29-39 | the options object binds the eight merge options to the values given |
| MergeSync.NoSubjectFallback | cyclonedx/Commands/MergeCommand.cs:90-98 | without a supplied subject a flat merge is the library's result unchanged; with one, only the metadata component changes |
| MergeSync.FlatModesAgree | cyclonedx/Commands/MergeCommand.cs:90-98 | the two revisions' flat results agree when a subject is supplied, or when no input has a subject and the merge has metadata |
| MergeSync.SyncMerge | cyclonedx/Commands/MergeCommand.cs:56-109 | ParameterValidationError exactly when the checks of the newer revision fail; an unreadable input throws; once every input reads, the merge with version 1 and its own serial number is written: to a named file the command returns 0, unless the merge has no component list, which throws NullReferenceException before writing; with no output name the BOM is written to standard output and then NotSupportedException is raised, the outcome keeping both the BOM and where it went |
| MergeSync.SyncMergeInputs | cyclonedx/Commands/MergeCommand.cs:85-98 | hierarchical merging keeps the library merge as is; a flat merge takes the given subject as its component only when one is given |
| Validate.ValidateCommandOptions.constructor | src/cyclonedx/Commands/ValidateCommand.cs:36-40 | the options object binds the four validate options to the values given |
| Validate.DetectionResolvesOnlySuffixes | src/cyclonedx/Commands/ValidateCommand.cs:157-170 | an explicit format is never changed; autodetect is resolved exactly for a name ending in ".json" or ".xml"; resolving again changes nothing |
| Validate.ValidateInputFormatValue | src/cyclonedx/Commands/ValidateCommand.cs:157-170 | the options' format becomes the detected format, and no other option changes |
| Validate.ReadInput | src/cyclonedx/Commands/ValidateCommand.cs:172-191 | there is no input exactly when the name is null or empty and standard input is not redirected |
| Validate.ProbeFindsFirstValid | src/cyclonedx/Commands/ValidateCommand.cs:76-129 | probing is valid exactly when some version validates, and then gives the first valid version's result; otherwise the last version's result |
| Validate.Probe | src/cyclonedx/Commands/ValidateCommand.cs:78-98 | a valid first version ends the probe with its result; an invalid result is the last version's |
| Validate.ProbeStep | src/cyclonedx/Commands/ValidateCommand.cs:78-82 | each probe step keeps a valid result or the last version's, and otherwise moves to the next version |
| Validate.ExitFor | src/cyclonedx/Commands/ValidateCommand.cs:131-154 | ParameterValidationError exactly when nothing was validated, OkFail exactly for an invalid result when failing on errors, Ok otherwise |
| Validate.ProbeXml | src/cyclonedx/Commands/ValidateCommand.cs:76-106 | the XML chain validates from v1.5 down to v1.0, stops at the first valid version, and replaces the messages of a failure with one summary line |
| Validate.ProbeJson | src/cyclonedx/Commands/ValidateCommand.cs:107-129 | the JSON chain validates from v1.5 down to v1.2 only, with the same stopping rule and summary line |
| Validate.Validate | src/cyclonedx/Commands/ValidateCommand.cs:44-155 | autodetect that stays unresolved is ParameterValidationError, missing input is IOError; otherwise the result is the validation the format and version ask for, with its exit code and printed lines |
| Validate.ProbeAcceptsIffSomeVersionDoes | src/cyclonedx/Commands/ValidateCommand.cs:76-129 | without a version, an XML document is accepted exactly when a schema from v1.5 to v1.0 accepts it, a JSON document exactly when one from v1.5 to v1.2 does |
| Validate.OnlyV10DocumentExample | tests/cyclonedx.tests/ValidateTests.cs:29-30 | a document valid only as v1.0 and named ".xml" validates with exit code Ok, and validated as v1.1 with failing on errors exits OkFail |
| ValidateSync.Options.constructor | cyclonedx/Commands/ValidateCommand.cs:43-48 | the options object binds the three validate options to the values given |
| ValidateSync.ResolvedFormat | cyclonedx/Commands/ValidateCommand.cs:121-143 | after both rewrites the format is never plain json or plain xml |
| ValidateSync.ValidateInputFormatValue | cyclonedx/Commands/ValidateCommand.cs:121-143 | the options' format becomes the resolved format, and no other option changes |
| ValidateSync.JsonIffJsonNamed | cyclonedx/Commands/ValidateCommand.cs:94-103 | exactly the three json formats are checked with the JSON validator; an undeclared value goes to the XML one |
| ValidateSync.FormatNameSelectsValidator | cyclonedx/Commands/ValidateCommand.cs:76-103 | a resolved format is checked as JSON exactly when it is a json format, and at v1.3 unless its name carries v1.2, v1.1 or v1.0 |
| ValidateSync.SyncValidate | cyclonedx/Commands/ValidateCommand.cs:60-119 | the same parameter and input checks; one validation at the format's version; OkFail exactly for an invalid result when failing on errors, otherwise Ok with the success line |
| ValidateSync.InvalidReportedAsSuccess | cyclonedx/Commands/ValidateCommand.cs:111-118 | an invalid BOM validated without failing on errors still ends with "BOM validated successfully." |
| Hex.DigitValue | src/cyclonedx/Commands/Add/AddFilesCommand.cs:178 | a character read as a hexadecimal digit is a nibble whose lower-case digit is that character |
| Hex.UpperHex | src/cyclonedx/Commands/Add/AddFilesCommand.cs:171-174 | the "X2" text of some bytes has two characters per byte |
| Hex.Base16 | src/cyclonedx/Commands/Add/AddFilesCommand.cs:170-178 | the lower-case text of a digest has two characters per byte |
| Hex.Base16Alphabet | src/cyclonedx/Commands/Add/AddFilesCommand.cs:170-178 | every character of a digest's text is a lower-case hexadecimal digit |
| Hex.Nibbles | src/cyclonedx/Commands/Add/AddFilesCommand.cs:173 | a byte is its high and low nibble, and each nibble's digit reads back as the nibble |
| Hex.DecodeBase16 | src/cyclonedx/Commands/Add/AddFilesCommand.cs:170-178 | decoding a digest's text gives the digest back |
| Hex.Base16Decode | src/cyclonedx/Commands/Add/AddFilesCommand.cs:170-178 | encoding a decodable text gives the text back, so the encoding is a bijection onto well-formed lower-case texts |
| Hex.LowerOfUpperHex | src/cyclonedx/Commands/Add/AddFilesCommand.cs:170-178 | lower-casing the "X2" text gives the lower-case base 16 text |
| Hex.FormatDigest | src/cyclonedx/Commands/Add/AddFilesCommand.cs:169-178 | the formatting loop and the final lower-casing produce the lower-case base 16 text of the digest |
| AddFiles.AddFilesCommandOptions.constructor | src/cyclonedx/Commands/Add/AddFilesCommand.cs:41-49 | the options object binds the eight add-files options to the values given |
| AddFiles.Registered | src/cyclonedx/Commands/Add/AddFilesCommand.cs:72-73 | afterwards the tool is present; the old list is kept as a prefix, and one entry is added exactly when no tool with the same name and version was there |
| AddFiles.RegisteredIdempotent | src/cyclonedx/Commands/Add/AddFilesCommand.cs:72-73 | registering the tool twice is registering it once |
| AddFiles.Stamped | src/cyclonedx/Commands/Add/AddFilesCommand.cs:67-73 | a serial number "urn:uuid:" plus the GUID only when there was none, metadata with the new timestamp, the tool registered, and nothing else changed |
| AddFiles.StampedTwice | src/cyclonedx/Commands/Add/AddFilesCommand.cs:67-73 | stamping a stamped BOM again keeps its serial number and single tool entry; only the timestamp moves on |
| AddFiles.Stamp | src/cyclonedx/Commands/Add/AddFilesCommand.cs:67-73 | the stamping steps, one field at a time, give the stamped BOM |
| AddFiles.ThisTool | src/cyclonedx/Commands/Add/AddFilesCommand.cs:58-62 | the tool is an application component named "CycloneDX CLI" with the running version and no group |
| AddFiles.StampMetadata | src/cyclonedx/Commands/Add/AddFilesCommand.cs:68-73 | the metadata (empty if absent) gets the given time and a tool-component list that contains this tool exactly once it is registered |
| AddFiles.BasePath | src/cyclonedx/Commands/Add/AddFilesCommand.cs:82-88 | the base path is the full path of the given path or of the working directory, ending in exactly one added '/' when it had none |
| AddFiles.ResolveBasePath | src/cyclonedx/Commands/Add/AddFilesCommand.cs:82-88 | the options' base path becomes the resolved base path and no other option changes |
| AddFiles.Combine | src/cyclonedx/Commands/Add/AddFilesCommand.cs:128 | a rooted second path replaces the first; the result always ends with the second path |
| AddFiles.SelectFiles | src/cyclonedx/Commands/Add/AddFilesCommand.cs:95-114 | the include loop and the exclude loop leave exactly the paths some include pattern finds and no exclude pattern matches |
| AddFiles.FileHashes | src/cyclonedx/Commands/Add/AddFilesCommand.cs:151-159 | four hashes, SHA-1, SHA-256, SHA-384 and SHA-512 in that order, each with a text of two characters per digest byte |
| AddFiles.FileHashesDecode | src/cyclonedx/Commands/Add/AddFilesCommand.cs:151-248 | each hash text decodes back to its digest |
| AddFiles.GetFileHashes | src/cyclonedx/Commands/Add/AddFilesCommand.cs:151-159 | the four formatted digests, in that order |
| AddFiles.FileComponent | src/cyclonedx/Commands/Add/AddFilesCommand.cs:129-136 | a File component with the file's base name and hashes, versioned "0.0.0-" plus the first 12 characters of the SHA-1 text; a SHA-1 digest under 6 bytes throws ArgumentOutOfRangeException |
| AddFiles.Base16Prefix | src/cyclonedx/Commands/Add/AddFilesCommand.cs:135 | the first 2n characters of a digest's text are the text of its first n bytes |
| AddFiles.HasFileNamedAppend | src/cyclonedx/Commands/Add/AddFilesCommand.cs:120-125 | after appending a component, a File component has a name exactly when one had it before or the new one is a File with that name |
| AddFiles.ExtendsAppend | src/cyclonedx/Commands/Add/AddFilesCommand.cs:122-138 | appending a selected file whose name is not yet present keeps the list's invariant, makes the name present, and keeps every name already present |
| AddFiles.AddFileComponents | src/cyclonedx/Commands/Add/AddFilesCommand.cs:118-143 | the file loop keeps the existing components, appends File components only for selected files whose names are not yet present, leaves every selected name present, and throws only for a too-short digest |
| AddFiles.AppendedNamesDistinct | src/cyclonedx/Commands/Add/AddFilesCommand.cs:122-138 | no appended File component shares its name with an earlier File component |
| AddFiles.AddSelectedFiles | src/cyclonedx/Commands/Add/AddFilesCommand.cs:116-144 | an empty file set changes nothing; otherwise only the component list changes, created if null and extended by the file loop; when every file has a component the step returns, and it throws only when some file's SHA-1 text is too short |
| AddFiles.DefaultPatterns | src/cyclonedx/Commands/Add/AddFilesCommand.cs:92-93 | an absent include list becomes "**/**" and an absent exclude list becomes empty; given lists and every other option are kept |
| AddFiles.PatternFilesAddableIs | src/cyclonedx/Commands/Add/AddFilesCommand.cs:92-114 | when the file set is the one the defaulted patterns select, every selected file has a component exactly when every file of the set has one |
| AddFiles.InputBomHelperReads | src/cyclonedx/CliUtils.cs:80-113 | no read exactly when the format is autodetect and the name gives no format |
| AddFiles.InputBom | src/cyclonedx/Commands/Add/AddFilesCommand.cs:64-65 | a new BOM without input; otherwise no BOM exactly when the input cannot be read |
| AddFiles.AddFilesToBom | src/cyclonedx/Commands/Add/AddFilesCommand.cs:82-148 | the base path and default patterns are written back into the options; when every selected file has a component the command returns 0, and it throws only when some selected file has none; the output is the BOM with the selected files added, written by the output helper |
| AddFiles.AddFiles | src/cyclonedx/Commands/Add/AddFilesCommand.cs:53-149 | the result is ParameterValidationError exactly when the input cannot be read (options unchanged) or the output format cannot be detected; past those checks the command returns 0 whenever every selected file has a component, and throws only when some selected file has none; the output is the stamped BOM with the selected files added |
| AddFilesSync.SyncRegistered | cyclonedx/Commands/Add/AddFilesCommand.cs:71-73 | afterwards the tool is listed; the old list is kept as a prefix, and one entry is added exactly when no tool with the same name and version was listed |
| AddFilesSync.SyncRegisteredIdempotent | cyclonedx/Commands/Add/AddFilesCommand.cs:71-73 | registering the tool twice is registering it once |
| AddFilesSync.SyncStamped | cyclonedx/Commands/Add/AddFilesCommand.cs:68-73 | a serial number only when there was none, metadata with the new timestamp, the tool registered in the tool list, and nothing else changed |
| AddFilesSync.SyncStampedTwice | cyclonedx/Commands/Add/AddFilesCommand.cs:68-73 | stamping again keeps the serial number and the single tool entry; only the timestamp moves on |
| AddFilesSync.SyncStamp | cyclonedx/Commands/Add/AddFilesCommand.cs:68-73 | the stamping steps give the stamped BOM |
| AddFilesSync.SyncThisTool | cyclonedx/Commands/Add/AddFilesCommand.cs:58-63 | the tool is vendor "CycloneDX", name "CycloneDX CLI" and the running version |
| AddFilesSync.SyncStampMetadata | cyclonedx/Commands/Add/AddFilesCommand.cs:69-73 | the metadata (empty if absent) gets the given time and a tool list with this tool registered |
| AddFilesSync.StripLeadingSlash | cyclonedx/Commands/Add/AddFilesCommand.cs:123 | a path starting with '/' loses exactly that character; any other path is kept |
| AddFilesSync.NameKeepsDirectories | cyclonedx/Commands/Add/AddFilesCommand.cs:122-131 | a matched path "/dir/name" is added under the name "dir/name", directories included |
| AddFilesSync.SyncResolveBasePath | cyclonedx/Commands/Add/AddFilesCommand.cs:82-86 | the options' base path becomes the full path of the given path or of the working directory, with no separator added, and no other option changes |
| AddFilesSync.SyncAddFilesToBom | cyclonedx/Commands/Add/AddFilesCommand.cs:82-147 | the base path and default patterns are written back; when every selected file has a component the command returns 0, and it throws only when some selected file has none; the output is the BOM with the selected files added under their stripped paths, written by the awaited stream helper of CliUtils |
| AddFilesSync.SyncAddFiles | cyclonedx/Commands/Add/AddFilesCommand.cs:53-148 | the result is ParameterValidationError exactly when the checks of the newer revision fail; past them the command returns 0 whenever every selected file has a component, and throws only when some selected file has none; the stamped BOM with the selected files added is written, unchanged and untruncated, by the awaited stream helper of CliUtils |
| BomModel.NewComponent | src/cyclonedx/Commands/MergeCommand.cs:68-74 | a new component carries exactly the type, group, name and version given, with no hashes, licences, purl or bom-ref |
| SpdxTag.WriteNameLines | cyclonedx/Serializers/SpdxTagSerializer.cs:84-94 | appends the document name and namespace lines built from the metadata component's group, name and version |
| SpdxTag.WriteTools | cyclonedx/Serializers/SpdxTagSerializer.cs:106-110 | the tool loop appends one "Tool:" line per metadata tool, in order |
| SpdxTag.WritePackageName | cyclonedx/Serializers/SpdxTagSerializer.cs:161-163 | the name line written in pieces is one line: "PackageName:", the group when present, then the name |
| SpdxTag.WriteSupplier | cyclonedx/Serializers/SpdxTagSerializer.cs:167 | a supplier line is appended only when there is a supplier |
| SpdxTag.WriteOriginator | cyclonedx/Serializers/SpdxTagSerializer.cs:169-172 | appends the author as originator, else the publisher, else nothing |
| SpdxTag.WriteSupplierAndOriginator | cyclonedx/Serializers/SpdxTagSerializer.cs:167-172 | appends the supplier lines, then the originator lines |
| SpdxTag.WriteHomePage | cyclonedx/Serializers/SpdxTagSerializer.cs:212-213 | appends the home page line for the first website reference, if any |
| SpdxTag.WriteCopyright | cyclonedx/Serializers/SpdxTagSerializer.cs:250-257 | appends NOASSERTION for a null or empty copyright, else the HTML-encoded copyright between text tags |
| SpdxTag.WritePurl | cyclonedx/Serializers/SpdxTagSerializer.cs:259-260 | appends the package-manager purl reference only when the purl is not null or empty |
| SpdxTagEarlier.WriteNameLines | cyclonedx/SpdxTagSerializer.cs:71-79 | appends the document name and namespace lines built from the metadata component's name and version |
| SpdxTagEarlier.WritePackageHead | cyclonedx/SpdxTagSerializer.cs:92-115 | appends a component's opening lines up to FilesAnalyzed |
| SpdxTagEarlier.WriteTail | cyclonedx/SpdxTagSerializer.cs:148-207 | appends the licence, copyright, purl and CPE lines and adds the component's licences without an id to the collected list |
| SpdxTagEarlier.WriteCopyrightAndReferences | cyclonedx/SpdxTagSerializer.cs:183-207 | appends the copyright line, then the purl line if any, then the CPE line if any |
| SpdxTagEarlier.WritePurl | cyclonedx/SpdxTagSerializer.cs:192-193 | appends the "External-Ref:" purl line only when the purl is not null or empty |
| Csv.WriteFixedColumns | src/cyclonedx/Serialization/CsvSerializer.cs:40-63 | appends the 24 named header fields, in order, and no record is finished |
| Csv.WriteFixedColumns0 | src/cyclonedx/Serialization/CsvSerializer.cs:40-45 | appends the header fields Type to Group |
| Csv.WriteFixedColumns1 | src/cyclonedx/Serialization/CsvSerializer.cs:46-51 | appends the header fields Name to Copyright |
| Csv.WriteFixedColumns2 | src/cyclonedx/Serialization/CsvSerializer.cs:52-57 | appends the header fields Cpe to SwidVersion |
| Csv.WriteFixedColumns3 | src/cyclonedx/Serialization/CsvSerializer.cs:58-63 | appends the header fields SwidTagVersion to SwidUrl |
| Csv.WriteIdentity | src/cyclonedx/Serialization/CsvSerializer.cs:76-84 | appends the component's first nine fields, Type to Scope |
| Csv.WriteParties | src/cyclonedx/Serialization/CsvSerializer.cs:76-80 | appends Type, MimeType, the supplier's name, Author and Publisher, a null written as an empty field |
| Csv.WriteNaming | src/cyclonedx/Serialization/CsvSerializer.cs:81-84 | appends Group, Name, Version and the lower-cased scope |
| Csv.WriteSwid | src/cyclonedx/Serialization/CsvSerializer.cs:112-120 | appends the nine Swid fields, empty where the Swid or its text is null |
| Csv.WriteSwidTag | src/cyclonedx/Serialization/CsvSerializer.cs:112-116 | appends the Swid's tag id, name, version, tag version and patch |
| Csv.WriteSwidText | src/cyclonedx/Serialization/CsvSerializer.cs:117-120 | appends the Swid text's content type, encoding and content, and the Swid's URL |
| Markdown.WriteScope | src/cyclonedx/Serialization/MarkdownSerializer.cs:135-138 | the scope label is appended only when there is a scope |
| Diff.AddedLines | cyclonedx/Commands/Convert/DiffCommand.cs:164-168 | two lines per added component |
| Diff.ModifiedLines | cyclonedx/Commands/Convert/DiffCommand.cs:169-174 | three lines per modified pair |
| Diff.RemovedLines | cyclonedx/Commands/Convert/DiffCommand.cs:175-179 | two lines per removed component |
| Diff.ChangeLines | cyclonedx/Commands/Convert/DiffCommand.cs:162-181 | two lines per added and per removed component and three per modified pair; no lines exactly when the diff has no change |
| Diff.TextReportAsWritten | cyclonedx/Commands/Convert/DiffCommand.cs:150-182 | as written, a diff whose only changes are additions prints the heading, a blank line, "None" and a blank line; every other diff prints the intended report |
| Diff.TextReport | cyclonedx/Commands/Convert/DiffCommand.cs:150-182 | the intended report opens with the heading and a blank line and closes with a blank line, at least four lines in all |
| Diff.TextOutput | cyclonedx/Commands/Convert/DiffCommand.cs:148-183 | nothing is printed exactly when the diff was not asked for; otherwise the first line is the heading |
| Strings.ToLower | src/cyclonedx/Serialization/CsvSerializer.cs:84 | the lower-cased string has the same length, and each character is that character lower-cased |
| Strings.ReplaceChar | src/cyclonedx/Serialization/CsvSerializer.cs:102 | the same length, each occurrence of the character replaced and every other character kept |
| Strings.RemoveChar | src/cyclonedx/Serialization/CsvSerializer.cs:126 | every occurrence of the character is dropped and every other character kept with its count; a string without it is unchanged |
| Strings.RemoveCharAppend | src/cyclonedx/Serialization/CsvSerializer.cs:126 | removal distributes over concatenation, so the other characters keep their order |
| Strings.TrimStart | src/cyclonedx/Serialization/CsvSerializer.cs:201 | a suffix of the text whose first character is not white space, only white space being dropped |
| Strings.TrimEnd | src/cyclonedx/Serialization/CsvSerializer.cs:201 | a prefix of the text whose last character is not white space, only white space being dropped |
| Strings.Trim | src/cyclonedx/Serialization/CsvSerializer.cs:201 | the trimmed text is empty or starts and ends with a character that is not white space |
| Strings.TrimKeeps | src/cyclonedx/Serialization/CsvSerializer.cs:201 | text that starts and ends with a non-white character is left as it is |
| Strings.Split | src/cyclonedx/Serialization/CsvSerializer.cs:223 | splitting always gives at least one piece |
| Strings.SplitNoSep | src/cyclonedx/Serialization/CsvSerializer.cs:223 | a string without the separator splits into itself alone |
| Strings.SplitAfterPiece | src/cyclonedx/Serialization/CsvSerializer.cs:223 | a piece followed by the separator is split off as the first piece |
| Strings.SplitJoin | src/cyclonedx/Serialization/CsvSerializer.cs:106-107 | splitting a joined list gives the list back when no piece holds the separator |
| Strings.NatToString | cyclonedx/Serializers/SpdxTagSerializer.cs:153 | the decimal text of a position is non-empty and made of digits only |
| Strings.DecimalRoundTrip | cyclonedx/Serializers/SpdxTagSerializer.cs:153 | reading the decimal text back gives the number |
| Strings.NatToStringInjective | cyclonedx/Serializers/SpdxTagSerializer.cs:153 | two positions with the same text are the same position |
| Strings.ExtensionOfSuffix | cyclonedx/Utils.cs:28 | the extension of a name ending in ".x" (no '.' or '/' after the dot) is ".x", whatever comes before |
| Strings.FileName | src/cyclonedx/Commands/Add/AddFilesCommand.cs:124 | a file name never holds '/' |
| TextWriters.TextWriter.constructor | cyclonedx/Serializers/SpdxTagSerializer.cs:57 | a new writer holds no text |
| TextWriters.TextWriter.Write | cyclonedx/Serializers/SpdxTagSerializer.cs:73 | the text is appended |
| TextWriters.TextWriter.EndLine | cyclonedx/Serializers/SpdxTagSerializer.cs:78 | a line end is appended |
| TextWriters.TextWriter.WriteLine | cyclonedx/Serializers/SpdxTagSerializer.cs:80 | the text and a line end are appended |
| TextWriters.TextAppend | cyclonedx/Serializers/SpdxTagSerializer.cs:73-143 | lines appended in two runs are the text of the joined list of lines |

## Left out

- Console, file and standard input/output: reads and writes are recorded as `Read` and `Emission` values naming the source or sink. Progress and error messages are not modelled, and neither is the stdin line assembly of the earliest convert command or of `ReadInput`: the content read is a parameter.
- The CycloneDX library is not modelled as code, because only its calls are visible here. This covers the JSON, XML and Protobuf readers and writers, the XML and JSON validators, `FlatMerge` and `HierarchicalMerge`, and the v1.2/v1.1/v1.0 model constructors. A command records which of them it calls, with what and in which order (a `Decoder`, a `Serialization` with its downgrade chain, a validator name), or receives their result as a function parameter.
- The JSON output of the diff and analyze commands goes through the library's JSON serializer and is not modelled: with the JSON flag no text lines are recorded.
- CsvHelper's quoting and escaping are not modelled, because the record layout is the part the tool decides. A CSV table is modelled as its records, each a list of fields.
- `WebUtility.HtmlEncode`, `DateTime.UtcNow`, `Guid.NewGuid`, the SHA-1/256/384/512 digests and the Ant glob search and match are parameters, because they are library or clock behaviour.
- Windows paths are not modelled: paths use '/' only and a line ends with "\n", as on Unix.
- `char.ToLowerInvariant` is modelled on ASCII letters only (`Strings.ToLower`), because Unicode case mapping is outside the model.
- The enum declarations of the newest revision's formats, of the middle revision's standard input/output format and of the earliest convert command's input format are not part of this model. Their values are modelled by the names the code uses; the earliest input format is modelled by its ordinal.
- The HashAlgorithm enum is not part of this model. Its order is taken as the CycloneDX library's: Null, MD5, SHA-1, SHA-256, SHA-384, SHA-512, SHA3-256, SHA3-384, SHA3-512, BLAKE2b-256, BLAKE2b-384, BLAKE2b-512, BLAKE3.
- Markdown.WriteDependencies: dependencies are a finite tree (a datatype), so the non-termination on a cyclic dependency graph, which object references allow, is not modelled.
- MergeSync.SyncMerge: the middle revision's inputs come from a lazy iterator that the library merge enumerates; the model reads them all before the merge. The order is the same; the interleaving of reads with merging is not captured.
- The BOM is a value, and commands that change it in place reassign a local copy, so aliasing between the BOM and the objects read from it is not modelled.
- Signing, verification, key generation and the rename command are not part of this model (cryptography and library delegation). The same holds for the thin command wrappers that only call the library and print (the newest convert, analyze and diff commands, `Program.Main`, the `Configure` methods).
- Analyze.GroupText and Analyze.VersionsText state only a lower bound on the length of an entry; the entry's exact text is given by their definitions and checked on the example in `Analyze.TwoGroupsEntries`.
- Csv.ParseScope: numeric text such as "1" and comma-joined names, which `Enum.TryParse` also accepts, are read as no scope, because the scope datatype holds only its three named values.
- Diff.AddedLines, Diff.ModifiedLines and Diff.RemovedLines state only the number of lines (two per component, three per pair); `Diff.TextReportSaysNone` relates these lines to the report.
- The BOM's metadata timestamp, a `DateTime?` that the Markdown summary line prints in the current culture, is kept as its rendered text (`Option<string>`); date formatting is outside the model.
- AddFiles.AddFiles, AddFiles.AddFilesToBom, AddFilesSync.SyncAddFiles and AddFilesSync.SyncAddFilesToBom: success is promised when every selected file has a component, and a throw implies some selected file has none, but not the converse. A file whose name is already present is skipped, so whether a file with a too-short SHA-1 text throws depends on the order in which the loop takes the files, and that order (the HashSet's) is not modelled.
- Diff.DiffReportsOnlyChanges: states that every reported entry is a real change; that every change is reported is proved only for identical inputs (`Diff.DiffOfIdenticalIsEmpty`) and for inputs with no names in common (`Diff.DiffOfDisjointNames`).

## Findings

| source | as written | input that shows it | evidently intended | confidence | as-written member | corrected member |
|---|---|---|---|---|---|---|
| cyclonedx/Commands/Convert/DiffCommand.cs:154-158 | the "None" test checks the removed count twice and never the added count | a diff whose only change is one added component A@1 | "None" exactly when nothing was added, modified or removed, so the addition "+ A@1" is listed | not executed | Diff.AdditionReportedAsNone | Diff.TextReportSaysNone |
| cyclonedx/Commands/Convert/AnalyzeCommand.cs:92-103 | each group's entry is appended with no line end, so all entries run together on one line | components A@1, B@1, A@2, B@2 give "A versions: 1 2B versions: 1 2" | one line per group, "A versions: 1 2" then "B versions: 1 2" | not executed | Analyze.GroupsRunTogether | Analyze.ReportListsGroups |

The commands print the text as written (`Diff.TextOutput`, `Analyze.TextOutput`). The
intended reports (`Diff.TextReport`, `Analyze.ReportLines`) are defined beside them, and
`Diff.TextReportAsWritten` and `Analyze.AsWrittenIsIntendedOnlyForNone` state exactly
where the two differ.
