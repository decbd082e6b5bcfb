/** The add-files command of the newer revision (src/cyclonedx/Commands/Add/AddFilesCommand.cs):
    stamp the BOM with a serial number, a timestamp and the tool, collect the files the
    include patterns find and no exclude pattern matches, and append one File component per
    new base name, versioned by its SHA-1 prefix. The clock, the GUID, the working
    directory, path resolution, Ant glob search and matching, and the digests are the
    `Host`'s. */
module AddFiles {
  import opened Wrappers
  import opened Strings
  import opened Formats
  import opened BomModel
  import opened CliUtils
  import opened Hex

  /** The four digests of one file's content. */
  datatype Digests = Digests(sha1: seq<Byte>, sha256: seq<Byte>, sha384: seq<Byte>, sha512: seq<Byte>)

  /** What the command takes from its surroundings. `search(pattern, basePath)` is the set of
      paths an Ant pattern finds below the base path, `isMatch(pattern, path)` whether one
      matches; `fullPath` is Path.GetFullPath and `digests` hashes a file's content. */
  datatype Host = Host(
    guid: string,
    now: string,
    toolVersion: string,
    currentDirectory: string,
    fullPath: string -> string,
    search: (string, string) -> set<string>,
    isMatch: (string, string) -> bool,
    digests: string -> Digests)

  /** AddFilesCommandOptions. */
  class AddFilesCommandOptions {
    var inputFile: Option<string>
    var noInput: bool
    var outputFile: Option<string>
    var inputFormat: StreamFormat
    var outputFormat: StreamFormat
    var basePath: Option<string>
    var includePatterns: Option<seq<string>>
    var excludePatterns: Option<seq<string>>

    constructor(inputFile: Option<string>, noInput: bool, outputFile: Option<string>,
                inputFormat: StreamFormat, outputFormat: StreamFormat, basePath: Option<string>,
                includePatterns: Option<seq<string>>, excludePatterns: Option<seq<string>>)
      ensures this.inputFile == inputFile && this.noInput == noInput && this.outputFile == outputFile
      ensures this.inputFormat == inputFormat && this.outputFormat == outputFormat
      ensures this.basePath == basePath && this.includePatterns == includePatterns && this.excludePatterns == excludePatterns
    {
      this.inputFile := inputFile;
      this.noInput := noInput;
      this.outputFile := outputFile;
      this.inputFormat := inputFormat;
      this.outputFormat := outputFormat;
      this.basePath := basePath;
      this.includePatterns := includePatterns;
      this.excludePatterns := excludePatterns;
    }
  }

  /** The tool component the command registers: only the name and the version are set,
      so the type keeps the enum's default, its first member Application. */
  function ThisTool(toolVersion: string): (r: Component)
    ensures r.kind == Application && r.group.None?
    ensures r.name == Some("CycloneDX CLI") && r.version == Some(toolVersion)
  {
    NewComponent(Application, None, Some("CycloneDX CLI"), Some(toolVersion))
  }

  /** A tool with the same name and version as `tool` is present. */
  predicate HasTool(tools: seq<Component>, tool: Component) {
    exists k :: 0 <= k < |tools| && tools[k].name == tool.name && tools[k].version == tool.version
  }

  /** The tool list after registration: `tool` is appended unless one with its name and
      version is already there. */
  function Registered(tools: seq<Component>, tool: Component): (r: seq<Component>)
    ensures HasTool(r, tool)
    ensures |tools| <= |r| <= |tools| + 1 && r[..|tools|] == tools
    ensures |r| == |tools| + 1 <==> !HasTool(tools, tool)
  {
    if HasTool(tools, tool) then tools
    else
      assert (tools + [tool])[|tools|] == tool;
      tools + [tool]
  }

  /** Registering the same tool twice is registering it once. */
  lemma RegisteredIdempotent(tools: seq<Component>, tool: Component)
    ensures Registered(Registered(tools, tool), tool) == Registered(tools, tool)
  {
  }

  /** The tool components of a BOM's metadata, empty where a link of the chain is null. */
  function ToolComponents(bom: Bom): seq<Component> {
    if bom.metadata.Some? && bom.metadata.value.toolChoices.Some?
       && bom.metadata.value.toolChoices.value.components.Some?
    then bom.metadata.value.toolChoices.value.components.value
    else []
  }

  /** The BOM after the stamping steps: a serial number only if it had none, metadata and
      the tools object created where null, the timestamp always overwritten, the tool
      registered. */
  function Stamped(bom: Bom, guid: string, now: string, tool: Component): (r: Bom)
    ensures r.serialNumber == (if bom.serialNumber.None? then Some("urn:uuid:" + guid) else bom.serialNumber)
    ensures r.metadata.Some? && r.metadata.value.timestamp == Some(now)
    ensures ToolComponents(r) == Registered(ToolComponents(bom), tool)
    ensures r.(serialNumber := bom.serialNumber, metadata := bom.metadata) == bom
    ensures bom.metadata.Some? ==>
      r.metadata.value.(timestamp := bom.metadata.value.timestamp, toolChoices := bom.metadata.value.toolChoices)
        == bom.metadata.value
  {
    var serial := if bom.serialNumber.None? then Some("urn:uuid:" + guid) else bom.serialNumber;
    var metadata := if bom.metadata.Some? then bom.metadata.value else EmptyMetadata;
    var tools := Registered(ToolComponents(bom), tool);
    bom.(serialNumber := serial,
         metadata := Some(metadata.(timestamp := Some(now), toolChoices := Some(ToolChoices(Some(tools))))))
  }

  /** Running the stamping again keeps the first serial number and the single tool entry;
      only the timestamp moves on. */
  lemma StampedTwice(bom: Bom, guid1: string, now1: string, guid2: string, now2: string, tool: Component)
    ensures Stamped(Stamped(bom, guid1, now1, tool), guid2, now2, tool) == Stamped(bom, guid1, now2, tool)
  {
    RegisteredIdempotent(ToolComponents(bom), tool);
  }

  /** The base path: the working directory when none is given, made absolute, then ended
      with a directory separator. */
  function BasePath(basePath: Option<string>, host: Host): (r: string)
    ensures EndsWith(r, "/")
    ensures var full := host.fullPath(if IsNullOrEmpty(basePath) then host.currentDirectory else basePath.value);
      r == full || r == full + "/"
  {
    var full := host.fullPath(if IsNullOrEmpty(basePath) then host.currentDirectory else basePath.value);
    if EndsWith(full, "/") then full
    else
      assert (full + "/")[|full + "/"| - 1..] == "/";
      full + "/"
  }

  /** Path.Combine on Unix: a rooted second path replaces the first; otherwise the two are
      joined with one separator. */
  function Combine(first: string, second: string): (r: string)
    ensures StartsWith(second, "/") ==> r == second
    ensures EndsWith(r, second)
  {
    if StartsWith(second, "/") || first == [] then second
    else if EndsWith(first, "/") then
      assert (first + second)[|first|..] == second;
      first + second
    else
      assert (first + "/" + second)[|first| + 1..] == second;
      first + "/" + second
  }

  /** The full path of a matched file: the base path combined with it. */
  function CombineWith(basePath: string): string -> string {
    f => Combine(basePath, f)
  }

  /** The default patterns: everything included, nothing excluded. */
  const DefaultInclude: seq<string> := ["**/**"]

  /** A path is in the file set: some include pattern finds it and no exclude pattern
      matches it. */
  predicate Selected(f: string, includePatterns: seq<string>, excludePatterns: seq<string>, basePath: string, host: Host) {
    && (exists k :: 0 <= k < |includePatterns| && f in host.search(includePatterns[k], basePath))
    && (forall k :: 0 <= k < |excludePatterns| ==> !host.isMatch(excludePatterns[k], f))
  }

  /** The include loop adds every match to the set; the exclude loop then removes every
      path a pattern matches. */
  method SelectFiles(includePatterns: seq<string>, excludePatterns: seq<string>, basePath: string, host: Host) returns (files: set<string>)
    ensures forall f :: f in files <==> Selected(f, includePatterns, excludePatterns, basePath, host)
  {
    files := {};
    for i := 0 to |includePatterns|
      invariant forall f :: f in files <==> exists k :: 0 <= k < i && f in host.search(includePatterns[k], basePath)
    {
      files := files + host.search(includePatterns[i], basePath);
    }
    ghost var included := files;
    for j := 0 to |excludePatterns|
      invariant forall f :: f in files <==> f in included && forall k :: 0 <= k < j ==> !host.isMatch(excludePatterns[k], f)
    {
      files := set s | s in files && !host.isMatch(excludePatterns[j], s);
    }
  }

  /** The four hashes of a file, SHA-1 first, each its digest's text of two characters per
      byte. */
  function FileHashes(d: Digests): (r: seq<Hash>)
    ensures |r| == 4 && r[0].alg == SHA_1 && r[1].alg == SHA_256 && r[2].alg == SHA_384 && r[3].alg == SHA_512
    ensures forall i :: 0 <= i < 4 ==> r[i].content.Some?
    ensures |r[0].content.value| == 2 * |d.sha1| && |r[1].content.value| == 2 * |d.sha256|
    ensures |r[2].content.value| == 2 * |d.sha384| && |r[3].content.value| == 2 * |d.sha512|
  {
    [Hash(SHA_1, Some(Base16(d.sha1))), Hash(SHA_256, Some(Base16(d.sha256))),
     Hash(SHA_384, Some(Base16(d.sha384))), Hash(SHA_512, Some(Base16(d.sha512)))]
  }

  /** Each hash text decodes to its digest: no information is lost by the formatting. */
  lemma FileHashesDecode(d: Digests)
    ensures Decode(FileHashes(d)[0].content.value) == Some(d.sha1)
    ensures Decode(FileHashes(d)[1].content.value) == Some(d.sha256)
    ensures Decode(FileHashes(d)[2].content.value) == Some(d.sha384)
    ensures Decode(FileHashes(d)[3].content.value) == Some(d.sha512)
  {
    DecodeBase16(d.sha1);
    DecodeBase16(d.sha256);
    DecodeBase16(d.sha384);
    DecodeBase16(d.sha512);
  }

  /** GetFileHashes: SHA-1, SHA-256, SHA-384 and SHA-512 in that order. */
  method GetFileHashes(d: Digests) returns (hashes: seq<Hash>)
    ensures hashes == FileHashes(d)
  {
    var sha1 := FormatDigest(d.sha1);
    var sha256 := FormatDigest(d.sha256);
    var sha384 := FormatDigest(d.sha384);
    var sha512 := FormatDigest(d.sha512);
    hashes := [Hash(SHA_1, Some(sha1)), Hash(SHA_256, Some(sha256)), Hash(SHA_384, Some(sha384)), Hash(SHA_512, Some(sha512))];
  }

  /** The File component for a file of the given name and digests: its hashes, and version
      "0.0.0-" followed by the first 12 characters of the SHA-1 text. Taking 12 characters
      of a shorter text throws. */
  function FileComponent(name: string, d: Digests): (r: Result<Component>)
    ensures r.Thrown? <==> |d.sha1| < 6
    ensures r.Thrown? ==> r.error == ArgumentOutOfRangeException
    ensures r.Returned? ==>
      && r.value.kind == File && r.value.name == Some(name) && r.value.hashes == Some(FileHashes(d))
      && r.value.version == Some("0.0.0-" + Base16(d.sha1[..6]))
  {
    var hashes := FileHashes(d);
    var content := hashes[0].content.value;
    if |content| < 12 then Thrown(ArgumentOutOfRangeException)
    else
      assert content[..12] == Base16(d.sha1[..6]) by { Base16Prefix(d.sha1, 6); }
      Returned(NewComponent(File, None, Some(name), Some("0.0.0-" + content[..12])).(hashes := Some(hashes)))
  }

  /** The encoding of a prefix is the prefix of the encoding. */
  lemma {:induction false} Base16Prefix(bytes: seq<Byte>, n: nat)
    requires n <= |bytes|
    ensures Base16(bytes)[..2 * n] == Base16(bytes[..n])
    decreases |bytes|
  {
    if n < |bytes| {
      var init := bytes[..|bytes| - 1];
      Base16Prefix(init, n);
      assert init[..n] == bytes[..n];
      var s := Base16(bytes);
      assert s[..|s| - 2] == Base16(init);
      assert s[..2 * n] == s[..|s| - 2][..2 * n];
    } else {
      assert bytes[..n] == bytes;
    }
  }

  /** A File component with that name is present. */
  predicate HasFileNamed(components: seq<Component>, name: string) {
    exists k :: 0 <= k < |components| && components[k].kind == File && components[k].name == Some(name)
  }

  lemma HasFileNamedAppend(components: seq<Component>, c: Component, name: string)
    ensures HasFileNamed(components + [c], name) <==>
      HasFileNamed(components, name) || (c.kind == File && c.name == Some(name))
  {
    if HasFileNamed(components + [c], name) && !(c.kind == File && c.name == Some(name)) {
      var k :| 0 <= k < |components + [c]| && (components + [c])[k].kind == File && (components + [c])[k].name == Some(name);
      assert components[k] == (components + [c])[k];
    }
    if HasFileNamed(components, name) {
      var k :| 0 <= k < |components| && components[k].kind == File && components[k].name == Some(name);
      assert (components + [c])[k] == components[k];
    }
    if c.kind == File && c.name == Some(name) {
      assert (components + [c])[|components|] == c;
    }
  }

  /** The component a file would be added as. */
  function FileComponentOf(f: string, nameOf: string -> string, pathOf: string -> string, digests: string -> Digests): Result<Component> {
    FileComponent(nameOf(f), digests(pathOf(f)))
  }

  /** `all` is `existing` followed by File components of files of the set, each with a name
      no File component before it has. */
  ghost predicate Extends(existing: seq<Component>, all: seq<Component>, files: iset<string>,
                          nameOf: string -> string, pathOf: string -> string, digests: string -> Digests) {
    && |all| >= |existing| && all[..|existing|] == existing
    && (forall k :: |existing| <= k < |all| ==>
          exists f :: f in files && FileComponentOf(f, nameOf, pathOf, digests) == Returned(all[k]))
    && (forall k :: |existing| <= k < |all| ==> all[k].name.Some? && !HasFileNamed(all[..k], all[k].name.value))
  }

  /** Appending the component of a file of the set whose name is not yet present keeps the
      extension, and every name present stays present. */
  lemma ExtendsAppend(existing: seq<Component>, acc: seq<Component>, files: iset<string>, f: string, c: Component,
                      nameOf: string -> string, pathOf: string -> string, digests: string -> Digests)
    requires Extends(existing, acc, files, nameOf, pathOf, digests)
    requires f in files && FileComponentOf(f, nameOf, pathOf, digests) == Returned(c)
    requires !HasFileNamed(acc, nameOf(f))
    ensures Extends(existing, acc + [c], files, nameOf, pathOf, digests)
    ensures HasFileNamed(acc + [c], nameOf(f))
    ensures forall g :: HasFileNamed(acc, g) ==> HasFileNamed(acc + [c], g)
  {
    AppendKeepsPrefix(existing, acc, c);
    AppendKeepsOrigins(existing, acc, files, f, c, nameOf, pathOf, digests);
    AppendKeepsNewNames(existing, acc, c);
    HasFileNamedAppend(acc, c, nameOf(f));
    forall g | HasFileNamed(acc, g)
      ensures HasFileNamed(acc + [c], g)
    {
      HasFileNamedAppend(acc, c, g);
    }
  }

  lemma AppendKeepsPrefix(existing: seq<Component>, acc: seq<Component>, c: Component)
    requires |acc| >= |existing| && acc[..|existing|] == existing
    ensures (acc + [c])[..|existing|] == existing
  {
    assert (acc + [c])[..|existing|] == acc[..|existing|];
  }

  lemma AppendKeepsOrigins(existing: seq<Component>, acc: seq<Component>, files: iset<string>, f: string, c: Component,
                           nameOf: string -> string, pathOf: string -> string, digests: string -> Digests)
    requires |acc| >= |existing|
    requires forall k :: |existing| <= k < |acc| ==>
      exists g :: g in files && FileComponentOf(g, nameOf, pathOf, digests) == Returned(acc[k])
    requires f in files && FileComponentOf(f, nameOf, pathOf, digests) == Returned(c)
    ensures forall k :: |existing| <= k < |acc + [c]| ==>
      exists g :: g in files && FileComponentOf(g, nameOf, pathOf, digests) == Returned((acc + [c])[k])
  {
    forall k | |existing| <= k < |acc + [c]|
      ensures exists g :: g in files && FileComponentOf(g, nameOf, pathOf, digests) == Returned((acc + [c])[k])
    {
      if k < |acc| {
        var g :| g in files && FileComponentOf(g, nameOf, pathOf, digests) == Returned(acc[k]);
        assert (acc + [c])[k] == acc[k];
      } else {
        assert (acc + [c])[k] == c;
      }
    }
  }

  lemma AppendKeepsNewNames(existing: seq<Component>, acc: seq<Component>, c: Component)
    requires |acc| >= |existing|
    requires forall k :: |existing| <= k < |acc| ==> acc[k].name.Some? && !HasFileNamed(acc[..k], acc[k].name.value)
    requires c.name.Some? && !HasFileNamed(acc, c.name.value)
    ensures forall k :: |existing| <= k < |acc + [c]| ==>
      (acc + [c])[k].name.Some? && !HasFileNamed((acc + [c])[..k], (acc + [c])[k].name.value)
  {
    forall k | |existing| <= k < |acc + [c]|
      ensures (acc + [c])[k].name.Some? && !HasFileNamed((acc + [c])[..k], (acc + [c])[k].name.value)
    {
      if k < |acc| {
        assert (acc + [c])[k] == acc[k];
        assert (acc + [c])[..k] == acc[..k];
      } else {
        assert (acc + [c])[..k] == acc;
      }
    }
  }

  /** The file loop: each file, in the set's own order, is appended as a File component
      unless a File component of its name is present, counting those appended earlier in
      the loop. Existing components are kept as they are; the appended ones are files of
      the set with names no File component before them has; every file's name ends up
      present. */
  method AddFileComponents(components: seq<Component>, files: set<string>,
                           nameOf: string -> string, pathOf: string -> string, digests: string -> Digests)
    returns (r: Result<seq<Component>>)
    ensures r.Thrown? ==>
      r.error == ArgumentOutOfRangeException && exists f :: f in files && FileComponentOf(f, nameOf, pathOf, digests).Thrown?
    ensures (forall f :: f in files ==> FileComponentOf(f, nameOf, pathOf, digests).Returned?) ==> r.Returned?
    ensures r.Returned? ==> Extends(components, r.value, (iset f | f in files), nameOf, pathOf, digests)
    ensures r.Returned? ==> forall f :: f in files ==> HasFileNamed(r.value, nameOf(f))
  {
    ghost var chosen := iset f | f in files;
    var acc := components;
    var remaining := files;
    assert acc[..|components|] == components;
    while remaining != {}
      decreases |remaining|
      invariant remaining <= files
      invariant Extends(components, acc, chosen, nameOf, pathOf, digests)
      invariant forall f :: f in files && f !in remaining ==> HasFileNamed(acc, nameOf(f))
    {
      var file :| file in remaining;
      remaining := remaining - {file};
      var baseFilename := nameOf(file);
      if !HasFileNamed(acc, baseFilename) {
        var hashes := GetFileHashes(digests(pathOf(file)));
        var content := hashes[0].content.value;
        if |content| < 12 {
          return Thrown(ArgumentOutOfRangeException);
        }
        var fileComponent := NewComponent(File, None, Some(baseFilename), Some("0.0.0-" + content[..12])).(hashes := Some(hashes));
        assert FileComponentOf(file, nameOf, pathOf, digests) == Returned(fileComponent);
        ExtendsAppend(components, acc, chosen, file, fileComponent, nameOf, pathOf, digests);
        acc := acc + [fileComponent];
      }
    }
    return Returned(acc);
  }

  /** No two File components the loop appends share a name, and none shares a name with a
      File component that was there before. */
  lemma AppendedNamesDistinct(existing: seq<Component>, all: seq<Component>, files: iset<string>,
                              nameOf: string -> string, pathOf: string -> string, digests: string -> Digests, j: int, k: int)
    requires Extends(existing, all, files, nameOf, pathOf, digests)
    requires 0 <= j < k < |all| && |existing| <= k && all[j].kind == File
    ensures all[j].name != all[k].name
  {
    if all[j].name.Some? {
      assert all[..k][j] == all[j];
      assert HasFileNamed(all[..k], all[j].name.value);
    }
  }

  /** The tool-stamping steps, one field at a time. */
  method Stamp(bom: Bom, guid: string, now: string, thisTool: Component) returns (r: Bom)
    ensures r == Stamped(bom, guid, now, thisTool)
  {
    r := bom;
    if r.serialNumber.None? {
      r := r.(serialNumber := Some("urn:uuid:" + guid));
    }
    var metadata := StampMetadata(bom, now, thisTool);
    r := r.(metadata := Some(metadata));
  }

  /** The metadata steps of the stamping: metadata created when null, the timestamp
      overwritten, the tools object and its component list created when null, this tool
      added when no tool has its name and version. */
  method StampMetadata(bom: Bom, now: string, thisTool: Component) returns (m: Metadata)
    ensures m == (if bom.metadata.Some? then bom.metadata.value else EmptyMetadata)
      .(timestamp := Some(now), toolChoices := Some(ToolChoices(Some(Registered(ToolComponents(bom), thisTool)))))
  {
    m := if bom.metadata.Some? then bom.metadata.value else EmptyMetadata;
    m := m.(timestamp := Some(now));
    if m.toolChoices.None? {
      m := m.(toolChoices := Some(ToolChoices(None)));
    }
    if m.toolChoices.value.components.None? {
      m := m.(toolChoices := Some(ToolChoices(Some([]))));
    }
    var tools := m.toolChoices.value.components.value;
    assert tools == ToolComponents(bom);
    if !HasTool(tools, thisTool) {
      m := m.(toolChoices := Some(ToolChoices(Some(tools + [thisTool]))));
    }
  }

  /** The base-path steps on the options. */
  method ResolveBasePath(options: AddFilesCommandOptions, host: Host)
    modifies options
    ensures options.basePath == Some(BasePath(old(options.basePath), host))
    ensures options.inputFile == old(options.inputFile) && options.noInput == old(options.noInput)
    ensures options.outputFile == old(options.outputFile) && options.inputFormat == old(options.inputFormat)
    ensures options.outputFormat == old(options.outputFormat)
    ensures options.includePatterns == old(options.includePatterns) && options.excludePatterns == old(options.excludePatterns)
  {
    if IsNullOrEmpty(options.basePath) {
      options.basePath := Some(host.currentDirectory);
    }
    options.basePath := Some(host.fullPath(options.basePath.value));
    if !EndsWith(options.basePath.value, "/") {
      options.basePath := Some(options.basePath.value + "/");
    }
  }

  /** What the command produced: its exit code, the BOM it handed to the writer, and the
      write the output helper made. */
  datatype AddFilesOutcome = AddFilesOutcome(exitCode: int, output: Option<Bom>, emitted: Option<Emission>)

  const AddFilesRejected := AddFilesOutcome(Code(ParameterValidationError), None, None)

  /** The components after the file step: untouched when the file set is empty, otherwise
      the existing list (created if null) extended by the loop, with every file's name
      present. */
  ghost predicate FilesAdded(before: Option<seq<Component>>, after: Option<seq<Component>>, files: iset<string>,
                             nameOf: string -> string, pathOf: string -> string, digests: string -> Digests) {
    if forall f :: f !in files then after == before
    else
      var existing := if before.Some? then before.value else [];
      && after.Some?
      && Extends(existing, after.value, files, nameOf, pathOf, digests)
      && (forall f :: f in files ==> HasFileNamed(after.value, nameOf(f)))
  }

  /** The files the patterns select. */
  ghost function SelectedFiles(includePatterns: seq<string>, excludePatterns: seq<string>, basePath: string, host: Host): iset<string> {
    iset f | Selected(f, includePatterns, excludePatterns, basePath, host)
  }

  lemma SelectedFilesAre(files: set<string>, includePatterns: seq<string>, excludePatterns: seq<string>, basePath: string, host: Host)
    requires forall f :: f in files <==> Selected(f, includePatterns, excludePatterns, basePath, host)
    ensures SelectedFiles(includePatterns, excludePatterns, basePath, host) == iset f | f in files
  {
  }

  /** The read InputBomHelper makes, as a function: None exactly when the format is
      autodetect and the name gives nothing. */
  function InputBomHelperReads(filename: Option<string>, format: StreamFormat): (r: Option<Read>)
    ensures r.None? <==> format == StreamAutodetect && AutoDetectBomFormat(filename) == StreamAutodetect
  {
    var fmt := Resolved(filename, format);
    if fmt == StreamAutodetect then None
    else Some(Read(SourceOf(filename), StreamDecoder(fmt).value))
  }

  /** Every file of the set has a component: its SHA-1 text is long enough for the version. */
  ghost predicate Addable(files: iset<string>, nameOf: string -> string, pathOf: string -> string, digests: string -> Digests) {
    forall f :: f in files ==> FileComponentOf(f, nameOf, pathOf, digests).Returned?
  }

  /** Every file the patterns select, with the command's defaults for absent patterns, has
      a component. */
  ghost predicate PatternFilesAddable(includePatterns: Option<seq<string>>, excludePatterns: Option<seq<string>>, basePath: string,
                                      host: Host, nameOf: string -> string, pathOf: string -> string) {
    var included := if includePatterns.Some? then includePatterns.value else DefaultInclude;
    var excluded := if excludePatterns.Some? then excludePatterns.value else [];
    Addable(SelectedFiles(included, excluded, basePath, host), nameOf, pathOf, host.digests)
  }

  /** Once the file set is the one the defaulted patterns select, the two ways of saying every
      file has a component agree. */
  lemma PatternFilesAddableIs(files: set<string>, includePatterns: Option<seq<string>>, excludePatterns: Option<seq<string>>,
                              basePath: string, host: Host, nameOf: string -> string, pathOf: string -> string)
    requires forall f :: f in files <==>
      Selected(f, if includePatterns.Some? then includePatterns.value else DefaultInclude,
               if excludePatterns.Some? then excludePatterns.value else [], basePath, host)
    ensures PatternFilesAddable(includePatterns, excludePatterns, basePath, host, nameOf, pathOf)
        <==> Addable((iset f | f in files), nameOf, pathOf, host.digests)
  {
    var included := if includePatterns.Some? then includePatterns.value else DefaultInclude;
    var excluded := if excludePatterns.Some? then excludePatterns.value else [];
    SelectedFilesAre(files, included, excluded, basePath, host);
  }

  /** The file step: nothing happens for an empty file set; otherwise the component list is
      created if null and the file loop runs on it. */
  method AddSelectedFiles(bom: Bom, files: set<string>, nameOf: string -> string, pathOf: string -> string,
                          digests: string -> Digests) returns (r: Result<Bom>)
    ensures r.Thrown? ==> r.error == ArgumentOutOfRangeException
    ensures r.Thrown? ==> !Addable((iset f | f in files), nameOf, pathOf, digests)
    ensures Addable((iset f | f in files), nameOf, pathOf, digests) ==> r.Returned?
    ensures r.Returned? ==> r.value.(components := bom.components) == bom
    ensures r.Returned? ==> FilesAdded(bom.components, r.value.components, (iset f | f in files), nameOf, pathOf, digests)
  {
    if |files| > 0 {
      var components := if bom.components.None? then [] else bom.components.value;
      var added := AddFileComponents(components, files, nameOf, pathOf, digests);
      if added.Thrown? {
        return Thrown(added.error);
      }
      var w :| w in files;
      FilesAddedNonEmpty(bom.components, added.value, files, w, nameOf, pathOf, digests);
      return Returned(bom.(components := Some(added.value)));
    }
    return Returned(bom);
  }

  lemma FilesAddedNonEmpty(before: Option<seq<Component>>, after: seq<Component>, files: set<string>, w: string,
                           nameOf: string -> string, pathOf: string -> string, digests: string -> Digests)
    requires w in files
    requires Extends(if before.Some? then before.value else [], after, (iset f | f in files), nameOf, pathOf, digests)
    requires forall f :: f in files ==> HasFileNamed(after, nameOf(f))
    ensures FilesAdded(before, Some(after), (iset f | f in files), nameOf, pathOf, digests)
  {
    var chosen := iset f | f in files;
    assert w in chosen;
    assert !(forall f :: f !in chosen);
    forall f | f in chosen
      ensures HasFileNamed(after, nameOf(f))
    {
      assert f in files;
    }
  }

  /** The BOM the command starts from: a new one without input, otherwise what the input
      helper reads, or none. */
  function InputBom(noInput: bool, inputFile: Option<string>, inputFormat: StreamFormat, decode: Read -> Bom): (r: Option<Bom>)
    ensures r.None? <==> !noInput && inputFormat == StreamAutodetect && AutoDetectBomFormat(inputFile) == StreamAutodetect
  {
    if noInput then Some(NewBom)
    else
      var read := InputBomHelperReads(inputFile, inputFormat);
      if read.None? then None else Some(decode(read.value))
  }

  /** The pattern defaults: every file when no include pattern is given, nothing excluded
      when no exclude pattern is given. */
  method DefaultPatterns(options: AddFilesCommandOptions)
    modifies options
    ensures options.includePatterns == Some(if old(options.includePatterns).Some? then old(options.includePatterns).value else DefaultInclude)
    ensures options.excludePatterns == Some(if old(options.excludePatterns).Some? then old(options.excludePatterns).value else [])
    ensures options.inputFile == old(options.inputFile) && options.noInput == old(options.noInput)
    ensures options.outputFile == old(options.outputFile) && options.inputFormat == old(options.inputFormat)
    ensures options.outputFormat == old(options.outputFormat) && options.basePath == old(options.basePath)
  {
    if options.includePatterns.None? {
      options.includePatterns := Some(DefaultInclude);
    }
    if options.excludePatterns.None? {
      options.excludePatterns := Some([]);
    }
  }

  /** The steps after the output format is settled: base path, default patterns, file set,
      file step, write. */
  method AddFilesToBom(options: AddFilesCommandOptions, bom: Bom, host: Host) returns (r: Result<AddFilesOutcome>)
    requires options.outputFormat != StreamAutodetect
    modifies options
    ensures options.inputFile == old(options.inputFile) && options.noInput == old(options.noInput)
    ensures options.outputFile == old(options.outputFile) && options.inputFormat == old(options.inputFormat)
    ensures options.outputFormat == old(options.outputFormat)
    ensures r.Thrown? ==> r.error == ArgumentOutOfRangeException
    ensures r.Thrown? ==>
      !PatternFilesAddable(old(options.includePatterns), old(options.excludePatterns), BasePath(old(options.basePath), host), host,
                           FileName, CombineWith(BasePath(old(options.basePath), host)))
    ensures (PatternFilesAddable(old(options.includePatterns), old(options.excludePatterns), BasePath(old(options.basePath), host), host,
                                 FileName, CombineWith(BasePath(old(options.basePath), host)))) ==> r.Returned?
    ensures r.Returned? ==>
      var basePath := BasePath(old(options.basePath), host);
      var includePatterns := if old(options.includePatterns).Some? then old(options.includePatterns).value else DefaultInclude;
      var excludePatterns := if old(options.excludePatterns).Some? then old(options.excludePatterns).value else [];
      && options.basePath == Some(basePath)
      && options.includePatterns == Some(includePatterns) && options.excludePatterns == Some(excludePatterns)
      && r.value.exitCode == 0
      && r.value.output.Some?
      && r.value.output.value.(components := bom.components) == bom
      && FilesAdded(bom.components, r.value.output.value.components,
                    SelectedFiles(includePatterns, excludePatterns, basePath, host),
                    FileName, CombineWith(basePath), host.digests)
      && r.value.emitted == Some(Emission(SinkOf(options.outputFile), StreamSerialization(options.outputFormat).value))
  {
    ghost var include0, exclude0 := options.includePatterns, options.excludePatterns;
    ResolveBasePath(options, host);
    var basePath := options.basePath.value;
    DefaultPatterns(options);

    var files := SelectFiles(options.includePatterns.value, options.excludePatterns.value, basePath, host);
    SelectedFilesAre(files, options.includePatterns.value, options.excludePatterns.value, basePath, host);
    PatternFilesAddableIs(files, include0, exclude0, basePath, host, FileName, CombineWith(basePath));
    var added := AddSelectedFiles(bom, files, FileName, CombineWith(basePath), host.digests);
    if added.Thrown? {
      return Thrown(added.error);
    }

    var written := OutputBomHelper(options.outputFormat, options.outputFile);
    return Returned(AddFilesOutcome(written.exitCode, Some(added.value), written.emitted));
  }

  /** AddFiles. */
  method AddFiles(options: AddFilesCommandOptions, decode: Read -> Bom, host: Host) returns (r: Result<AddFilesOutcome>)
    modifies options
    ensures options.inputFile == old(options.inputFile) && options.noInput == old(options.noInput)
    ensures options.outputFile == old(options.outputFile) && options.inputFormat == old(options.inputFormat)
    ensures InputBom(options.noInput, options.inputFile, options.inputFormat, decode).None? ==>
      r == Returned(AddFilesRejected) && unchanged(options)
    ensures InputBom(options.noInput, options.inputFile, options.inputFormat, decode).Some? ==>
      options.outputFormat == Resolved(options.outputFile, old(options.outputFormat))
    ensures (InputBom(options.noInput, options.inputFile, options.inputFormat, decode).Some?
      && options.outputFormat == StreamAutodetect) ==>
      r == Returned(AddFilesRejected) && options.basePath == old(options.basePath)
      && options.includePatterns == old(options.includePatterns) && options.excludePatterns == old(options.excludePatterns)
    ensures r.Thrown? ==> r.error == ArgumentOutOfRangeException
    ensures r == Returned(AddFilesRejected) <==>
      InputBom(options.noInput, options.inputFile, options.inputFormat, decode).None? || options.outputFormat == StreamAutodetect
    ensures (InputBom(options.noInput, options.inputFile, options.inputFormat, decode).Some? && options.outputFormat != StreamAutodetect
      && PatternFilesAddable(old(options.includePatterns), old(options.excludePatterns), BasePath(old(options.basePath), host), host,
                             FileName, CombineWith(BasePath(old(options.basePath), host)))) ==> r.Returned?
    ensures r.Thrown? ==>
      !PatternFilesAddable(old(options.includePatterns), old(options.excludePatterns), BasePath(old(options.basePath), host), host,
                           FileName, CombineWith(BasePath(old(options.basePath), host)))
    ensures r.Returned? && r.value != AddFilesRejected ==>
      var stamped := Stamped(InputBom(options.noInput, options.inputFile, options.inputFormat, decode).value,
                             host.guid, host.now, ThisTool(host.toolVersion));
      var basePath := BasePath(old(options.basePath), host);
      var includePatterns := if old(options.includePatterns).Some? then old(options.includePatterns).value else DefaultInclude;
      var excludePatterns := if old(options.excludePatterns).Some? then old(options.excludePatterns).value else [];
      && options.basePath == Some(basePath)
      && options.includePatterns == Some(includePatterns) && options.excludePatterns == Some(excludePatterns)
      && r.value.exitCode == 0
      && r.value.output.Some?
      && r.value.output.value.(components := stamped.components) == stamped
      && FilesAdded(stamped.components, r.value.output.value.components,
                    SelectedFiles(includePatterns, excludePatterns, basePath, host),
                    FileName, CombineWith(basePath), host.digests)
      && r.value.emitted == Some(Emission(SinkOf(options.outputFile), StreamSerialization(options.outputFormat).value))
  {
    var thisTool := ThisTool(host.toolVersion);
    var bom: Bom;
    if options.noInput {
      bom := NewBom;
    } else {
      var read := InputBomHelper(options.inputFile, options.inputFormat);
      if read.None? {
        return Returned(AddFilesRejected);
      }
      bom := decode(read.value);
    }
    assert InputBom(options.noInput, options.inputFile, options.inputFormat, decode) == Some(bom);
    bom := Stamp(bom, host.guid, host.now, thisTool);
    ghost var stamped := bom;

    if options.outputFormat == StreamAutodetect {
      options.outputFormat := AutoDetectBomFormat(options.outputFile);
    }
    if options.outputFormat == StreamAutodetect {
      return Returned(AddFilesRejected);
    }

    r := AddFilesToBom(options, bom, host);
  }
}
