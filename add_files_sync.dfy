/** The add-files command of the middle revision (cyclonedx/Commands/Add/AddFilesCommand.cs).
    The file set, the file loop, the hashes and the version are those of the newer
    revision. The differences: the tool is a `Tool` with a vendor in the metadata's tool
    list; the base path is made absolute but not ended with a separator; a component is
    named by the matched path with one leading '/' removed, so directories stay in the
    name. Input and output go through the awaited helpers of the newer revision
    (CliUtils), whose output is never truncated. */
module AddFilesSync {
  import opened Wrappers
  import opened Strings
  import opened Formats
  import opened BomModel
  import opened CliUtils
  import opened AddFiles

  /** The tool the command registers: vendor, name and version all set. */
  function SyncThisTool(toolVersion: string): (r: Tool)
    ensures r.vendor == Some("CycloneDX") && r.name == Some("CycloneDX CLI") && r.version == Some(toolVersion)
  {
    Tool(Some("CycloneDX"), Some("CycloneDX CLI"), Some(toolVersion))
  }

  /** A tool with the same name and version as `tool` is listed. */
  predicate HasSyncTool(tools: seq<Tool>, tool: Tool) {
    exists k :: 0 <= k < |tools| && tools[k].name == tool.name && tools[k].version == tool.version
  }

  /** The tool list after registration: `tool` is appended unless one with its name and
      version is already listed. */
  function SyncRegistered(tools: seq<Tool>, tool: Tool): (r: seq<Tool>)
    ensures HasSyncTool(r, tool)
    ensures |tools| <= |r| <= |tools| + 1 && r[..|tools|] == tools
    ensures |r| == |tools| + 1 <==> !HasSyncTool(tools, tool)
  {
    if HasSyncTool(tools, tool) then tools
    else
      assert (tools + [tool])[|tools|] == tool;
      tools + [tool]
  }

  /** Registering the same tool twice is registering it once. */
  lemma SyncRegisteredIdempotent(tools: seq<Tool>, tool: Tool)
    ensures SyncRegistered(SyncRegistered(tools, tool), tool) == SyncRegistered(tools, tool)
  {
  }

  /** The metadata's tool list, empty where null. */
  function ToolList(bom: Bom): seq<Tool> {
    if bom.metadata.Some? && bom.metadata.value.tools.Some? then bom.metadata.value.tools.value else []
  }

  /** The BOM after the stamping steps: a serial number only if it had none, metadata and
      the tool list created where null, the timestamp always overwritten, the tool
      registered. */
  function SyncStamped(bom: Bom, guid: string, now: string, tool: Tool): (r: Bom)
    ensures r.serialNumber == (if bom.serialNumber.None? then Some("urn:uuid:" + guid) else bom.serialNumber)
    ensures r.metadata.Some? && r.metadata.value.timestamp == Some(now)
    ensures ToolList(r) == SyncRegistered(ToolList(bom), tool)
    ensures r.(serialNumber := bom.serialNumber, metadata := bom.metadata) == bom
    ensures bom.metadata.Some? ==>
      r.metadata.value.(timestamp := bom.metadata.value.timestamp, tools := bom.metadata.value.tools)
        == bom.metadata.value
  {
    var serial := if bom.serialNumber.None? then Some("urn:uuid:" + guid) else bom.serialNumber;
    var metadata := if bom.metadata.Some? then bom.metadata.value else EmptyMetadata;
    bom.(serialNumber := serial,
         metadata := Some(metadata.(timestamp := Some(now), tools := Some(SyncRegistered(ToolList(bom), tool)))))
  }

  /** Running the stamping again keeps the first serial number and the single tool entry;
      only the timestamp moves on. */
  lemma SyncStampedTwice(bom: Bom, guid1: string, now1: string, guid2: string, now2: string, tool: Tool)
    ensures SyncStamped(SyncStamped(bom, guid1, now1, tool), guid2, now2, tool) == SyncStamped(bom, guid1, now2, tool)
  {
    SyncRegisteredIdempotent(ToolList(bom), tool);
  }

  /** The stamping steps, one field at a time. */
  method SyncStamp(bom: Bom, guid: string, now: string, thisTool: Tool) returns (r: Bom)
    ensures r == SyncStamped(bom, guid, now, thisTool)
  {
    r := bom;
    if r.serialNumber.None? {
      r := r.(serialNumber := Some("urn:uuid:" + guid));
    }
    var metadata := SyncStampMetadata(bom, now, thisTool);
    r := r.(metadata := Some(metadata));
  }

  /** The metadata steps of the stamping: metadata created when null, the timestamp
      overwritten, the tool list created when null, this tool added when no tool has its
      name and version. */
  method SyncStampMetadata(bom: Bom, now: string, thisTool: Tool) returns (m: Metadata)
    ensures m == (if bom.metadata.Some? then bom.metadata.value else EmptyMetadata)
      .(timestamp := Some(now), tools := Some(SyncRegistered(ToolList(bom), thisTool)))
  {
    m := if bom.metadata.Some? then bom.metadata.value else EmptyMetadata;
    m := m.(timestamp := Some(now));
    if m.tools.None? {
      m := m.(tools := Some([]));
    }
    var tools := m.tools.value;
    assert tools == ToolList(bom);
    if !HasSyncTool(tools, thisTool) {
      m := m.(tools := Some(tools + [thisTool]));
    }
  }

  /** The base path: the working directory when none is given, made absolute; no separator
      is added. */
  function SyncBasePath(basePath: Option<string>, host: Host): string {
    host.fullPath(if IsNullOrEmpty(basePath) then host.currentDirectory else basePath.value)
  }

  /** A matched path with one leading '/' removed: the name of its component. */
  function StripLeadingSlash(file: string): (r: string)
    ensures StartsWith(file, "/") ==> "/" + r == file
    ensures !StartsWith(file, "/") ==> r == file
  {
    if StartsWith(file, "/") then
      assert file == [file[0]] + file[1..];
      file[1..]
    else file
  }

  /** The name a matched path is added under. */
  function SyncNameOf(): string -> string {
    f => StripLeadingSlash(f)
  }

  /** The full path of a matched file: the base path combined with its name. */
  function StrippedPath(basePath: string, file: string): string {
    Combine(basePath, StripLeadingSlash(file))
  }

  /** `StrippedPath` for one base path, as the file step takes it. */
  function SyncPathOf(basePath: string): string -> string {
    f => StrippedPath(basePath, f)
  }

  /** Unlike the newer revision's base name, the name keeps every directory of the path:
      only one leading separator goes. */
  lemma NameKeepsDirectories(dir: string, name: string)
    requires dir != [] && '/' !in dir
    ensures SyncNameOf()("/" + dir + "/" + name) == dir + "/" + name
  {
    var p := "/" + dir + "/" + name;
    assert p[0] == '/' && p[..1] == "/";
    assert p[1..] == dir + "/" + name;
  }

  /** The base-path step on the options. */
  method SyncResolveBasePath(options: AddFilesCommandOptions, host: Host)
    modifies options
    ensures options.basePath == Some(SyncBasePath(old(options.basePath), host))
    ensures options.inputFile == old(options.inputFile) && options.noInput == old(options.noInput)
    ensures options.outputFile == old(options.outputFile) && options.inputFormat == old(options.inputFormat)
    ensures options.outputFormat == old(options.outputFormat)
    ensures options.includePatterns == old(options.includePatterns) && options.excludePatterns == old(options.excludePatterns)
  {
    if IsNullOrEmpty(options.basePath) {
      options.basePath := Some(host.currentDirectory);
    }
    options.basePath := Some(host.fullPath(options.basePath.value));
  }

  /** The steps after the output format is settled: base path, default patterns, file set,
      file step, write. */
  method SyncAddFilesToBom(options: AddFilesCommandOptions, bom: Bom, host: Host) returns (r: Result<AddFilesOutcome>)
    requires options.outputFormat != StreamAutodetect
    modifies options
    ensures options.inputFile == old(options.inputFile) && options.noInput == old(options.noInput)
    ensures options.outputFile == old(options.outputFile) && options.inputFormat == old(options.inputFormat)
    ensures options.outputFormat == old(options.outputFormat)
    ensures r.Thrown? ==> r.error == ArgumentOutOfRangeException
    ensures r.Thrown? ==>
      !PatternFilesAddable(old(options.includePatterns), old(options.excludePatterns), SyncBasePath(old(options.basePath), host), host,
                           SyncNameOf(), SyncPathOf(SyncBasePath(old(options.basePath), host)))
    ensures (PatternFilesAddable(old(options.includePatterns), old(options.excludePatterns), SyncBasePath(old(options.basePath), host), host,
                                 SyncNameOf(), SyncPathOf(SyncBasePath(old(options.basePath), host)))) ==> r.Returned?
    ensures r.Returned? ==>
      var basePath := SyncBasePath(old(options.basePath), host);
      var includePatterns := if old(options.includePatterns).Some? then old(options.includePatterns).value else DefaultInclude;
      var excludePatterns := if old(options.excludePatterns).Some? then old(options.excludePatterns).value else [];
      && options.basePath == Some(basePath)
      && options.includePatterns == Some(includePatterns) && options.excludePatterns == Some(excludePatterns)
      && r.value.exitCode == 0
      && r.value.output.Some?
      && r.value.output.value.(components := bom.components) == bom
      && FilesAdded(bom.components, r.value.output.value.components,
                    SelectedFiles(includePatterns, excludePatterns, basePath, host),
                    SyncNameOf(), SyncPathOf(basePath), host.digests)
      && r.value.emitted == Some(Emission(SinkOf(options.outputFile), StreamSerialization(options.outputFormat).value))
  {
    ghost var include0, exclude0 := options.includePatterns, options.excludePatterns;
    SyncResolveBasePath(options, host);
    var basePath := options.basePath.value;
    DefaultPatterns(options);

    var files := SelectFiles(options.includePatterns.value, options.excludePatterns.value, basePath, host);
    SelectedFilesAre(files, options.includePatterns.value, options.excludePatterns.value, basePath, host);
    PatternFilesAddableIs(files, include0, exclude0, basePath, host, SyncNameOf(), SyncPathOf(basePath));
    var added := AddSelectedFiles(bom, files, SyncNameOf(), SyncPathOf(basePath), host.digests);
    if added.Thrown? {
      return Thrown(added.error);
    }

    var written := OutputBomHelper(options.outputFormat, options.outputFile);
    return Returned(AddFilesOutcome(written.exitCode, Some(added.value), written.emitted));
  }

  /** AddFiles. */
  method SyncAddFiles(options: AddFilesCommandOptions, decode: Read -> Bom, host: Host) returns (r: Result<AddFilesOutcome>)
    modifies options
    ensures options.inputFile == old(options.inputFile) && options.noInput == old(options.noInput)
    ensures options.outputFile == old(options.outputFile) && options.inputFormat == old(options.inputFormat)
    ensures InputBom(options.noInput, options.inputFile, options.inputFormat, decode).None? ==>
      r == Returned(AddFilesRejected) && unchanged(options)
    ensures InputBom(options.noInput, options.inputFile, options.inputFormat, decode).Some? ==>
      options.outputFormat == Resolved(options.outputFile, old(options.outputFormat))
    ensures (InputBom(options.noInput, options.inputFile, options.inputFormat, decode).Some?
      && options.outputFormat == StreamAutodetect) ==>
      r == Returned(AddFilesRejected) && options.basePath == old(options.basePath)
      && options.includePatterns == old(options.includePatterns) && options.excludePatterns == old(options.excludePatterns)
    ensures r.Thrown? ==> r.error == ArgumentOutOfRangeException
    ensures r == Returned(AddFilesRejected) <==>
      InputBom(options.noInput, options.inputFile, options.inputFormat, decode).None? || options.outputFormat == StreamAutodetect
    ensures (InputBom(options.noInput, options.inputFile, options.inputFormat, decode).Some? && options.outputFormat != StreamAutodetect
      && PatternFilesAddable(old(options.includePatterns), old(options.excludePatterns), SyncBasePath(old(options.basePath), host), host,
                             SyncNameOf(), SyncPathOf(SyncBasePath(old(options.basePath), host)))) ==> r.Returned?
    ensures r.Thrown? ==>
      !PatternFilesAddable(old(options.includePatterns), old(options.excludePatterns), SyncBasePath(old(options.basePath), host), host,
                           SyncNameOf(), SyncPathOf(SyncBasePath(old(options.basePath), host)))
    ensures r.Returned? && r.value != AddFilesRejected ==>
      var stamped := SyncStamped(InputBom(options.noInput, options.inputFile, options.inputFormat, decode).value,
                                 host.guid, host.now, SyncThisTool(host.toolVersion));
      var basePath := SyncBasePath(old(options.basePath), host);
      var includePatterns := if old(options.includePatterns).Some? then old(options.includePatterns).value else DefaultInclude;
      var excludePatterns := if old(options.excludePatterns).Some? then old(options.excludePatterns).value else [];
      && options.basePath == Some(basePath)
      && options.includePatterns == Some(includePatterns) && options.excludePatterns == Some(excludePatterns)
      && r.value.exitCode == 0
      && r.value.output.Some?
      && r.value.output.value.(components := stamped.components) == stamped
      && FilesAdded(stamped.components, r.value.output.value.components,
                    SelectedFiles(includePatterns, excludePatterns, basePath, host),
                    SyncNameOf(), SyncPathOf(basePath), host.digests)
      && r.value.emitted == Some(Emission(SinkOf(options.outputFile), StreamSerialization(options.outputFormat).value))
  {
    var thisTool := SyncThisTool(host.toolVersion);
    var bom: Bom;
    if options.noInput {
      bom := NewBom;
    } else {
      var read := InputBomHelper(options.inputFile, options.inputFormat);
      if read.None? {
        return Returned(AddFilesRejected);
      }
      bom := decode(read.value);
    }
    assert InputBom(options.noInput, options.inputFile, options.inputFormat, decode) == Some(bom);
    bom := SyncStamp(bom, host.guid, host.now, thisTool);

    if options.outputFormat == StreamAutodetect {
      options.outputFormat := AutoDetectBomFormat(options.outputFile);
    }
    if options.outputFormat == StreamAutodetect {
      return Returned(AddFilesRejected);
    }

    r := SyncAddFilesToBom(options, bom, host);
  }
}
