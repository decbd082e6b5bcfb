/** The newer SPDX tag-value writer (cyclonedx/Serializers/SpdxTagSerializer.cs): an object
    holding the BOM and the SPDX version, whose `Serialize` resets its list of non-SPDX
    licences and its text buffer, then writes the document creation information, one
    package block per component and one block per non-SPDX licence. The GUID used for a
    BOM without a serial number, the creation time (already formatted) and HTML encoding
    are parameters. */
module SpdxTag {
  import opened Wrappers
  import opened Strings
  import opened BomModel
  import opened TextWriters
  import opened Formats
  import opened Spdx

  // ---------------------------------------------------------------- document creation

  const NoComponentRef := "Generated from CycloneDX BOM without metadata component specified"

  /** The document name: the metadata component's name, then `-version` when it has one,
      the whole prefixed with `group.` when it has a group; a fixed sentence when there is
      no named metadata component. */
  function DocumentRef(bom: Bom): string {
    var c := MetadataComponent(bom);
    if c.Some? && c.value.name.Some? then
      var named := c.value.name.value + (if c.value.version.Some? then "-" + c.value.version.value else "");
      if c.value.group.Some? then c.value.group.value + "." + named else named
    else NoComponentRef
  }

  /** The document name, the namespace built from it and the licence list version. */
  function NameLines(bom: Bom, guid: string): seq<string> {
    ["DocumentName: " + DocumentRef(bom),
     NamespaceLine(DocumentRef(bom), BomSpdxRef(bom.serialNumber, guid)),
     "LicenseListVersion: 3.14"]
  }

  function ToolLine(t: Tool): string {
    "Tool: " + Str(t.name) + "-" + Str(t.version)
  }

  /** One line per metadata tool, in order. */
  function ToolLines(tools: seq<Tool>): seq<string> {
    if tools == [] then [] else ToolLines(tools[..|tools| - 1]) + [ToolLine(tools[|tools| - 1])]
  }

  function ToolsOf(bom: Bom): seq<Tool> {
    if bom.metadata.Some? && bom.metadata.value.tools.Some? then bom.metadata.value.tools.value else []
  }

  function AuthorListOf(bom: Bom): seq<OrganizationalContact> {
    var a := AuthorsOf(bom);
    if a.Some? then a.value else []
  }

  /** The creators: the authors, the metadata tools, then this program. */
  function CreatorLines(bom: Bom): seq<string> {
    AuthorLines(AuthorListOf(bom)) + ToolLines(ToolsOf(bom)) + [ToolCreatorLine]
  }

  const CreatorComment := "CreatorComment: <text>This SPDX document was created by conversion from a CycloneDX BOM.</text>"
  const DocumentComment := "DocumentComment: <text>SPDX does not support all features of CycloneDX. Some information is missing from the original CycloneDX BOM.</text>"

  function ClosingLines(created: string): seq<string> {
    ["Created: " + created, CreatorComment, DocumentComment]
  }

  /** Everything before the first package. */
  function PreambleLines(bom: Bom, version: SpdxVersion, guid: string, created: string): seq<string> {
    HeaderLines(version) + NameLines(bom, guid) + CreatorLines(bom) + ClosingLines(created)
  }

  // ---------------------------------------------------------------- packages

  /** The package name: the group when there is one, then the name. */
  function PackageNameLine(c: Component): string {
    "PackageName:" + (if c.group.Some? then " " + c.group.value else "") + " " + Str(c.name)
  }

  /** The package lines before the checksums. */
  function PackageHeadLines(c: Component, index: nat): seq<string> {
    ["", PackageNameLine(c), "SPDXID: SPDXRef-" + ComponentSpdxRef(c, index), "PackageVersion: " + Str(c.version)]
    + SupplierLines(c) + OriginatorLines(c)
    + ["PackageDownloadLocation: NOASSERTION", "FilesAnalyzed: false"]
  }

  function HashesOf(c: Component): seq<Hash> {
    if c.hashes.Some? then c.hashes.value else []
  }

  /** The first website reference (`FirstOrDefault`). */
  function FirstWebsite(refs: seq<ExternalReference>): (r: Option<ExternalReference>)
    ensures r.None? <==> forall i :: 0 <= i < |refs| ==> refs[i].kind != Website
    ensures r.Some? ==> exists i :: (0 <= i < |refs| && refs[i] == r.value && r.value.kind == Website
      && forall j :: 0 <= j < i ==> refs[j].kind != Website)
  {
    if refs == [] then None
    else if refs[0].kind == Website then Some(refs[0])
    else
      var r := FirstWebsite(refs[1..]);
      assert forall i :: 1 <= i < |refs| ==> refs[i] == refs[1..][i - 1];
      r
  }

  /** The home page line, from the first website reference. */
  function HomePageLines(c: Component): seq<string> {
    var home := if c.externalReferences.Some? then FirstWebsite(c.externalReferences.value) else None;
    if home.Some? then ["PackageHomePage: " + Str(home.value.url)] else []
  }

  function PurlLines(c: Component): seq<string> {
    if IsNullOrEmpty(c.purl) then [] else ["ExternalRef: PACKAGE-MANAGER purl " + c.purl.value]
  }

  /** The package lines from the concluded licence on; `before` id-less licences were
      listed before this component. */
  function PackageTailLines(c: Component, before: nat, enc: string -> string): seq<string> {
    ["PackageLicenseConcluded: NOASSERTION", DeclaredLine(c.licenses, before), CopyrightLine(c, enc)]
    + PurlLines(c) + CpeLines(c.cpe)
  }

  /** The block of one component. */
  function PackageLines(c: Component, index: nat, version: SpdxVersion, before: nat, enc: string -> string): seq<string> {
    PackageHeadLines(c, index) + ChecksumLines(HashesOf(c), version, true) + HomePageLines(c)
    + PackageTailLines(c, before, enc)
  }

  /** The blocks of the components, in order, each numbering its references after those
      of the components before it. */
  function ComponentsLines(cs: seq<Component>, version: SpdxVersion, enc: string -> string): seq<string> {
    if cs == [] then []
    else
      var init := cs[..|cs| - 1];
      ComponentsLines(init, version, enc) + PackageLines(cs[|cs| - 1], |init|, version, |NonSpdxOf(init)|, enc)
  }

  /** The blocks of a longer prefix of the components add the block of the next one. */
  lemma ComponentsLinesStep(cs: seq<Component>, i: nat, version: SpdxVersion, enc: string -> string)
    requires i < |cs|
    ensures ComponentsLines(cs[..i + 1], version, enc)
      == ComponentsLines(cs[..i], version, enc) + PackageLines(cs[i], i, version, |NonSpdxOf(cs[..i])|, enc)
  {
    assert cs[..i + 1][..i] == cs[..i];
  }

  /** The id-less licences of a longer prefix add those of the next component. */
  lemma NonSpdxOfStep(cs: seq<Component>, i: nat)
    requires i < |cs|
    ensures NonSpdxOf(cs[..i + 1]) == NonSpdxOf(cs[..i]) + IdLess(LicensesOf(cs[i]))
  {
    assert cs[..i + 1][..i] == cs[..i];
  }

  /** One more pass of the component loop: the text gains the component's block and the
      list its id-less licences. */
  lemma WrittenStep(start: string, cs: seq<Component>, i: nat, version: SpdxVersion, enc: string -> string)
    requires i < |cs|
    ensures start + Text(ComponentsLines(cs[..i], version, enc))
        + Text(PackageLines(cs[i], i, version, |NonSpdxOf(cs[..i])|, enc))
      == start + Text(ComponentsLines(cs[..i + 1], version, enc))
    ensures NonSpdxOf(cs[..i]) + IdLess(LicensesOf(cs[i])) == NonSpdxOf(cs[..i + 1])
  {
    ComponentsLinesStep(cs, i, version, enc);
    NonSpdxOfStep(cs, i);
    Lines(start, ComponentsLines(cs[..i], version, enc), PackageLines(cs[i], i, version, |NonSpdxOf(cs[..i])|, enc));
  }

  /** The preamble, the component blocks and the licence blocks, written one after the
      other from an empty writer, make the whole document. */
  lemma DocumentText(bom: Bom, version: SpdxVersion, guid: string, created: string, enc: string -> string, text: string)
    requires text == "" + Text(PreambleLines(bom, version, guid, created))
      + Text(ComponentsLines(ComponentsOf(bom), version, enc))
      + Text(LicenseBlocks(NonSpdxOf(ComponentsOf(bom)), enc))
    ensures text == Text(DocumentLines(bom, version, guid, created, enc))
  {
    var p := PreambleLines(bom, version, guid, created);
    var c := ComponentsLines(ComponentsOf(bom), version, enc);
    var l := LicenseBlocks(NonSpdxOf(ComponentsOf(bom)), enc);
    assert "" + Text(p) == Text(p);
    TextAppend(p, c);
    TextAppend(p + c, l);
  }

  /** The whole document. */
  function DocumentLines(bom: Bom, version: SpdxVersion, guid: string, created: string, enc: string -> string): seq<string> {
    PreambleLines(bom, version, guid, created)
    + ComponentsLines(ComponentsOf(bom), version, enc)
    + LicenseBlocks(NonSpdxOf(ComponentsOf(bom)), enc)
  }

  // ---------------------------------------------------------------- properties

  /** The document opens with the version header, then names itself and gives its
      namespace, which is made from the name and the BOM's serial number. */
  lemma DocumentHead(bom: Bom, version: SpdxVersion, guid: string, created: string, enc: string -> string)
    ensures var lines := DocumentLines(bom, version, guid, created, enc);
      && |lines| >= 5
      && lines[..3] == HeaderLines(version)
      && lines[3] == "DocumentName: " + DocumentRef(bom)
      && lines[4] == NamespaceLine(DocumentRef(bom), BomSpdxRef(bom.serialNumber, guid))
  {
    var lines := DocumentLines(bom, version, guid, created, enc);
    var head := HeaderLines(version) + NameLines(bom, guid);
    assert head <= PreambleLines(bom, version, guid, created);
    assert head <= lines;
  }

  /** One line per tool, each naming that tool. */
  lemma {:induction false} ToolLinesEach(tools: seq<Tool>)
    ensures |ToolLines(tools)| == |tools|
    ensures forall i :: 0 <= i < |tools| ==> ToolLines(tools)[i] == ToolLine(tools[i])
  {
    if tools != [] {
      ToolLinesEach(tools[..|tools| - 1]);
    }
  }

  /** The creators: one line per author, one per metadata tool, and this program last,
      named exactly once. */
  lemma CreatorsOneTool(bom: Bom)
    ensures var lines := CreatorLines(bom);
      && |lines| == |AuthorListOf(bom)| + |ToolsOf(bom)| + 1
      && lines[|lines| - 1] == ToolCreatorLine
      && forall i :: 0 <= i < |lines| - 1 ==> lines[i] != ToolCreatorLine
  {
    var authors := AuthorListOf(bom);
    var tools := ToolsOf(bom);
    AuthorLinesEach(authors);
    ToolLinesEach(tools);
    var lines := CreatorLines(bom);
    forall i | 0 <= i < |lines| - 1
      ensures lines[i] != ToolCreatorLine
    {
      if i < |authors| {
        assert lines[i] == AuthorLine(authors[i]);
        AuthorLineNotTool(authors[i]);
        assert AuthorLine(authors[i])[9] != ToolCreatorLine[9];
      } else {
        assert lines[i] == ToolLine(tools[i - |authors|]);
        assert ToolLine(tools[i - |authors|])[0] != ToolCreatorLine[0];
      }
    }
  }

  /** The blocks of a prefix of the components are a prefix of the blocks of all. */
  lemma {:induction false} ComponentsPrefix(cs: seq<Component>, k: nat, version: SpdxVersion, enc: string -> string)
    requires k <= |cs|
    ensures ComponentsLines(cs[..k], version, enc) <= ComponentsLines(cs, version, enc)
    decreases |cs|
  {
    if k < |cs| {
      var init := cs[..|cs| - 1];
      assert init[..k] == cs[..k];
      ComponentsPrefix(init, k, version, enc);
    } else {
      assert cs[..k] == cs;
    }
  }

  /** A package block opens with a blank line, the package name and its identifier. */
  lemma PackageLinesStart(c: Component, index: nat, version: SpdxVersion, before: nat, enc: string -> string)
    ensures var block := PackageLines(c, index, version, before, enc);
      && |block| >= 3
      && block[0] == ""
      && block[1] == PackageNameLine(c)
      && block[2] == "SPDXID: SPDXRef-" + ComponentSpdxRef(c, index)
  {
    var head := PackageHeadLines(c, index);
    assert head[..3] == ["", PackageNameLine(c), "SPDXID: SPDXRef-" + ComponentSpdxRef(c, index)];
    assert head <= PackageLines(c, index, version, before, enc);
  }

  /** The i-th component's block comes right after the blocks of the components before
      it, with its licence references numbered after theirs. */
  lemma ComponentBlock(cs: seq<Component>, i: nat, version: SpdxVersion, enc: string -> string)
    requires i < |cs|
    ensures ComponentsLines(cs[..i], version, enc) + PackageLines(cs[i], i, version, |NonSpdxOf(cs[..i])|, enc)
      <= ComponentsLines(cs, version, enc)
  {
    ComponentsLinesStep(cs, i, version, enc);
    ComponentsPrefix(cs, i + 1, version, enc);
  }

  /** In the i-th component's block, the second line names the package and the third
      gives a well-formed SPDX identifier: `SPDXRef-` then the bom-ref made safe, or the
      position counted from 1. */
  lemma ComponentIdentity(cs: seq<Component>, i: nat, version: SpdxVersion, enc: string -> string)
    requires i < |cs|
    ensures var all := ComponentsLines(cs, version, enc);
      var off := |ComponentsLines(cs[..i], version, enc)|;
      && off + 2 < |all|
      && all[off] == ""
      && all[off + 1] == PackageNameLine(cs[i])
      && all[off + 2] == "SPDXID: SPDXRef-" + ComponentSpdxRef(cs[i], i)
      && ComponentSpdxRef(cs[i], i) != "" && IsIdString(ComponentSpdxRef(cs[i], i))
  {
    var all := ComponentsLines(cs, version, enc);
    var front := ComponentsLines(cs[..i], version, enc);
    var block := PackageLines(cs[i], i, version, |NonSpdxOf(cs[..i])|, enc);
    ComponentBlock(cs, i, version, enc);
    PackageLinesStart(cs[i], i, version, |NonSpdxOf(cs[..i])|, enc);
    PrefixIndex(all, front, block, 0);
    PrefixIndex(all, front, block, 1);
    PrefixIndex(all, front, block, 2);
    ComponentSpdxRefIsId(cs[i], i);
  }

  /** A line of the second of two runs that begin a document, seen in the document. */
  lemma PrefixIndex(all: seq<string>, front: seq<string>, block: seq<string>, k: nat)
    requires front + block <= all && k < |block|
    ensures |front| + k < |all| && all[|front| + k] == block[k]
  {
    assert (front + block)[|front| + k] == block[k];
  }

  /** Every id-less licence collected from the packages is defined in the document:
      the n-th (from 0) gets the line `LicenseID: LicenseRef-(n+1)` in the (n+1)-th
      licence block after the packages. With `ReferenceDefined`, every `LicenseRef-n`
      a package cites is defined, by the block of the very licence cited. */
  lemma DefinitionInDocument(bom: Bom, version: SpdxVersion, guid: string, created: string, enc: string -> string, n: nat)
    requires n < |NonSpdxOf(ComponentsOf(bom))|
    ensures var cs := ComponentsOf(bom);
      var front := PreambleLines(bom, version, guid, created) + ComponentsLines(cs, version, enc);
      var at := |front| + |LicenseBlocks(NonSpdxOf(cs)[..n], enc)| + 1;
      var lines := DocumentLines(bom, version, guid, created, enc);
      at < |lines| && lines[at] == "LicenseID: LicenseRef-" + IntToString(n + 1)
  {
    var cs := ComponentsOf(bom);
    var front := PreambleLines(bom, version, guid, created) + ComponentsLines(cs, version, enc);
    var back := LicenseBlocks(NonSpdxOf(cs), enc);
    LicenseBlockAt(NonSpdxOf(cs), n, enc);
    ElementAfter(front, back, |LicenseBlocks(NonSpdxOf(cs)[..n], enc)| + 1);
  }

  /** An element of the second of two joined sequences, seen in the join. */
  lemma ElementAfter<T>(front: seq<T>, back: seq<T>, k: nat)
    requires k < |back|
    ensures |front| + k < |front + back| && (front + back)[|front| + k] == back[k]
  {
  }

  // ---------------------------------------------------------------- writing

  method WriteNameLines(writer: TextWriter, bom: Bom, guid: string)
    modifies writer
    ensures writer.text == old(writer.text) + Text(NameLines(bom, guid))
  {
    var documentRef := NoComponentRef;
    var c := MetadataComponent(bom);
    if c.Some? && c.value.name.Some? {
      documentRef := c.value.name.value;
      if c.value.version.Some? {
        documentRef := documentRef + "-" + c.value.version.value;
      }
      if c.value.group.Some? {
        documentRef := c.value.group.value + "." + documentRef;
      }
    }
    assert documentRef == DocumentRef(bom);
    WriteLines(writer, ["DocumentName: " + documentRef, NamespaceLine(documentRef, BomSpdxRef(bom.serialNumber, guid)),
                        "LicenseListVersion: 3.14"]);
  }

  /** The tool loop. */
  method WriteTools(writer: TextWriter, tools: seq<Tool>)
    modifies writer
    ensures writer.text == old(writer.text) + Text(ToolLines(tools))
  {
    var start := writer.text;
    for i := 0 to |tools|
      invariant writer.text == start + Text(ToolLines(tools[..i]))
    {
      assert tools[..i + 1][..i] == tools[..i];
      writer.WriteLine(ToolLine(tools[i]));
      Line(start, ToolLines(tools[..i]), ToolLine(tools[i]));
    }
    assert tools[..|tools|] == tools;
  }

  method WriteCreators(writer: TextWriter, bom: Bom)
    modifies writer
    ensures writer.text == old(writer.text) + Text(CreatorLines(bom))
  {
    var start := writer.text;
    WriteAuthors(writer, AuthorsOf(bom));
    var tools := if bom.metadata.Some? && bom.metadata.value.tools.Some? then bom.metadata.value.tools.value else [];
    WriteTools(writer, tools);
    Lines(start, AuthorLines(AuthorListOf(bom)), ToolLines(ToolsOf(bom)));
    writer.WriteLine(ToolCreatorLine);
    Line(start, AuthorLines(AuthorListOf(bom)) + ToolLines(ToolsOf(bom)), ToolCreatorLine);
  }

  method WritePreamble(writer: TextWriter, bom: Bom, version: SpdxVersion, guid: string, created: string)
    modifies writer
    ensures writer.text == old(writer.text) + Text(PreambleLines(bom, version, guid, created))
  {
    var start := writer.text;
    WriteHeader(writer, version);
    WriteNameLines(writer, bom, guid);
    Lines(start, HeaderLines(version), NameLines(bom, guid));
    WriteCreators(writer, bom);
    Lines(start, HeaderLines(version) + NameLines(bom, guid), CreatorLines(bom));
    WriteLines(writer, ["Created: " + created, CreatorComment, DocumentComment]);
    Lines(start, HeaderLines(version) + NameLines(bom, guid) + CreatorLines(bom), ClosingLines(created));
  }

  method WritePackageHead(writer: TextWriter, c: Component, index: nat)
    modifies writer
    ensures writer.text == old(writer.text) + Text(PackageHeadLines(c, index))
  {
    var start := writer.text;
    writer.EndLine();
    assert writer.text == start + Text([""]) by {
      OneLine(start, "", "");
    }
    WritePackageName(writer, c);
    assert writer.text == start + Text([""] + [PackageNameLine(c)]) by {
      Lines(start, [""], [PackageNameLine(c)]);
    }
    ghost var lines := ["", PackageNameLine(c)];
    assert [""] + [PackageNameLine(c)] == lines;
    var more := ["SPDXID: SPDXRef-" + ComponentSpdxRef(c, index), "PackageVersion: " + Str(c.version)];
    WriteLines(writer, more);
    assert writer.text == start + Text(lines + more) by {
      Lines(start, lines, more);
    }
    lines := lines + more;
    WriteSupplierAndOriginator(writer, c);
    assert writer.text == start + Text(lines + (SupplierLines(c) + OriginatorLines(c))) by {
      Lines(start, lines, SupplierLines(c) + OriginatorLines(c));
    }
    lines := lines + (SupplierLines(c) + OriginatorLines(c));
    more := ["PackageDownloadLocation: NOASSERTION", "FilesAnalyzed: false"];
    WriteLines(writer, more);
    assert writer.text == start + Text(lines + more) by {
      Lines(start, lines, more);
    }
    PackageHeadParts(c, index);
    assert lines + more == PackageHeadLines(c, index);
  }

  /** The package head as the writer builds it, four runs one after the other. */
  lemma PackageHeadParts(c: Component, index: nat)
    ensures PackageHeadLines(c, index)
      == ["", PackageNameLine(c)]
         + ["SPDXID: SPDXRef-" + ComponentSpdxRef(c, index), "PackageVersion: " + Str(c.version)]
         + (SupplierLines(c) + OriginatorLines(c))
         + ["PackageDownloadLocation: NOASSERTION", "FilesAnalyzed: false"]
  {
    var a := ["", PackageNameLine(c), "SPDXID: SPDXRef-" + ComponentSpdxRef(c, index), "PackageVersion: " + Str(c.version)];
    assert a == ["", PackageNameLine(c)] + ["SPDXID: SPDXRef-" + ComponentSpdxRef(c, index), "PackageVersion: " + Str(c.version)];
    Assoc(a, SupplierLines(c), OriginatorLines(c));
  }

  /** The package name line, written in pieces. */
  method WritePackageName(writer: TextWriter, c: Component)
    modifies writer
    ensures writer.text == old(writer.text) + Text([PackageNameLine(c)])
  {
    var start := writer.text;
    var group := if c.group.Some? then " " + c.group.value else "";
    writer.Write("PackageName:");
    if c.group.Some? {
      writer.Write(" " + c.group.value);
    } else {
      assert writer.text == start + "PackageName:" + group;
    }
    writer.WriteLine(" " + Str(c.name));
    assert writer.text == start + Text(["PackageName:" + group + " " + Str(c.name)]) by {
      Assoc(start + "PackageName:" + group, " " + Str(c.name), "\n");
      OneLine(start + "PackageName:", group, " " + Str(c.name));
      Assoc(start, "PackageName:", group);
      Assoc(start, "PackageName:" + group, " " + Str(c.name));
      OneLine(start, "PackageName:" + group, " " + Str(c.name));
    }
  }

  method WriteSupplierAndOriginator(writer: TextWriter, c: Component)
    modifies writer
    ensures writer.text == old(writer.text) + Text(SupplierLines(c) + OriginatorLines(c))
  {
    var start := writer.text;
    WriteSupplier(writer, c);
    WriteOriginator(writer, c);
    Lines(start, SupplierLines(c), OriginatorLines(c));
  }

  method WriteSupplier(writer: TextWriter, c: Component)
    modifies writer
    ensures writer.text == old(writer.text) + Text(SupplierLines(c))
  {
    if c.supplier.Some? {
      writer.WriteLine("PackageSupplier: Organization: " + Str(c.supplier.value.name) + " ()");
      Line(old(writer.text), [], "PackageSupplier: Organization: " + Str(c.supplier.value.name) + " ()");
    } else {
      assert writer.text == old(writer.text) + Text([]);
    }
  }

  /** The author, else the publisher. */
  method WriteOriginator(writer: TextWriter, c: Component)
    modifies writer
    ensures writer.text == old(writer.text) + Text(OriginatorLines(c))
  {
    if c.author.Some? {
      writer.WriteLine("PackageOriginator: Person: " + c.author.value + " ()");
      Line(old(writer.text), [], "PackageOriginator: Person: " + c.author.value + " ()");
    } else if c.publisher.Some? {
      writer.WriteLine("PackageOriginator: Person: " + c.publisher.value + " ()");
      Line(old(writer.text), [], "PackageOriginator: Person: " + c.publisher.value + " ()");
    } else {
      assert writer.text == old(writer.text) + Text([]);
    }
  }

  method WriteHomePage(writer: TextWriter, c: Component)
    modifies writer
    ensures writer.text == old(writer.text) + Text(HomePageLines(c))
  {
    var home := if c.externalReferences.Some? then FirstWebsite(c.externalReferences.value) else None;
    if home.Some? {
      writer.WriteLine("PackageHomePage: " + Str(home.value.url));
      Line(old(writer.text), [], "PackageHomePage: " + Str(home.value.url));
    } else {
      assert writer.text == old(writer.text) + Text([]);
    }
  }

  method WritePurl(writer: TextWriter, c: Component)
    modifies writer
    ensures writer.text == old(writer.text) + Text(PurlLines(c))
  {
    if !IsNullOrEmpty(c.purl) {
      writer.WriteLine("ExternalRef: PACKAGE-MANAGER purl " + c.purl.value);
      Line(old(writer.text), [], "ExternalRef: PACKAGE-MANAGER purl " + c.purl.value);
    } else {
      assert writer.text == old(writer.text) + Text([]);
    }
  }

  method WriteCopyright(writer: TextWriter, c: Component, enc: string -> string)
    modifies writer
    ensures writer.text == old(writer.text) + Text([CopyrightLine(c, enc)])
  {
    if IsNullOrEmpty(c.copyright) {
      writer.WriteLine("PackageCopyrightText: NOASSERTION");
    } else {
      writer.WriteLine("PackageCopyrightText: <text>" + enc(c.copyright.value) + "</text>");
    }
    Line(old(writer.text), [], CopyrightLine(c, enc));
  }

  /** The package lines from the concluded licence on. It returns the non-SPDX list with
      the component's id-less licences added. */
  method WritePackageTail(writer: TextWriter, c: Component, nonSpdx: seq<License>, enc: string -> string)
    returns (updated: seq<License>)
    modifies writer
    ensures writer.text == old(writer.text) + Text(PackageTailLines(c, |nonSpdx|, enc))
    ensures updated == nonSpdx + IdLess(LicensesOf(c))
  {
    var start := writer.text;
    updated := WriteLicenseLines(writer, c, nonSpdx);
    WriteCopyrightAndReferences(writer, c, enc);
    TailParts(c, |nonSpdx|, enc);
    Lines(start, ["PackageLicenseConcluded: NOASSERTION", DeclaredLine(c.licenses, |nonSpdx|)],
          [CopyrightLine(c, enc)] + PurlLines(c) + CpeLines(c.cpe));
  }

  /** The tail lines are the two licence lines followed by the copyright and reference lines. */
  lemma TailParts(c: Component, before: nat, enc: string -> string)
    ensures PackageTailLines(c, before, enc)
      == ["PackageLicenseConcluded: NOASSERTION", DeclaredLine(c.licenses, before)]
         + ([CopyrightLine(c, enc)] + PurlLines(c) + CpeLines(c.cpe))
  {
  }

  /** The copyright line, then the purl and CPE reference lines. */
  method WriteCopyrightAndReferences(writer: TextWriter, c: Component, enc: string -> string)
    modifies writer
    ensures writer.text == old(writer.text) + Text([CopyrightLine(c, enc)] + PurlLines(c) + CpeLines(c.cpe))
  {
    var start := writer.text;
    WriteCopyright(writer, c, enc);
    WritePurl(writer, c);
    Lines(start, [CopyrightLine(c, enc)], PurlLines(c));
    WriteCpe(writer, c.cpe);
    Lines(start, [CopyrightLine(c, enc)] + PurlLines(c), CpeLines(c.cpe));
  }

  /** The serializer object. `sb` is the text buffer and `nonSpdxLicenses` the licences
      cited by `LicenseRef-n`; both are replaced on every call of `Serialize`. */
  class SpdxTagSerializer {
    const originalBom: Bom
    const version: SpdxVersion
    var nonSpdxLicenses: seq<License>
    var sb: TextWriter

    constructor(bom: Bom, version: SpdxVersion)
      ensures originalBom == bom && this.version == version
    {
      originalBom := bom;
      this.version := version;
      nonSpdxLicenses := [];
      sb := new TextWriter();
    }

    /** The document; the buffer and the licence list start empty whatever an earlier
        call left in them. */
    method Serialize(guid: string, created: string, enc: string -> string) returns (text: string)
      modifies this
      ensures text == Text(DocumentLines(originalBom, version, guid, created, enc))
      ensures nonSpdxLicenses == NonSpdxOf(ComponentsOf(originalBom))
      ensures fresh(sb) && sb.text == text
    {
      nonSpdxLicenses := [];
      sb := new TextWriter();
      WritePreamble(sb, originalBom, version, guid, created);
      var cs := if originalBom.components.Some? then originalBom.components.value else [];
      WriteComponents(cs, enc);
      WriteLicenseBlocks(sb, nonSpdxLicenses, enc);
      text := sb.text;
      DocumentText(originalBom, version, guid, created, enc, text);
    }

    /** The blocks of the components, in order, numbering id-less licences from the
        first; the list ends up holding the id-less licences of all of them. */
    method WriteComponents(cs: seq<Component>, enc: string -> string)
      requires nonSpdxLicenses == []
      modifies this, sb
      ensures sb == old(sb)
      ensures sb.text == old(sb.text) + Text(ComponentsLines(cs, version, enc))
      ensures nonSpdxLicenses == NonSpdxOf(cs)
    {
      var start := sb.text;
      for i := 0 to |cs|
        invariant sb == old(sb)
        invariant sb.text == start + Text(ComponentsLines(cs[..i], version, enc))
        invariant nonSpdxLicenses == NonSpdxOf(cs[..i])
      {
        WriteComponent(cs[i], i, enc);
        WrittenStep(start, cs, i, version, enc);
      }
      assert cs[..|cs|] == cs;
    }

    /** The loop body: a file component goes to the file writer, any other to the
        package writer. */
    method WriteComponent(component: Component, componentIndex: nat, enc: string -> string)
      modifies this, sb
      ensures sb == old(sb)
      ensures sb.text == old(sb.text) + Text(PackageLines(component, componentIndex, version, |old(nonSpdxLicenses)|, enc))
      ensures nonSpdxLicenses == old(nonSpdxLicenses) + IdLess(LicensesOf(component))
    {
      if component.kind == File {
        WriteFileInformation(component, componentIndex, enc);
      } else {
        WritePackageInformation(component, componentIndex, enc);
      }
    }

    /** One component's block; its id-less licences join the list. */
    method WritePackageInformation(component: Component, componentIndex: nat, enc: string -> string)
      modifies this, sb
      ensures sb == old(sb)
      ensures sb.text == old(sb.text) + Text(PackageLines(component, componentIndex, version, |old(nonSpdxLicenses)|, enc))
      ensures nonSpdxLicenses == old(nonSpdxLicenses) + IdLess(LicensesOf(component))
    {
      var start := sb.text;
      var before := |nonSpdxLicenses|;
      WritePackageHead(sb, component, componentIndex);
      var lines := PackageHeadLines(component, componentIndex);
      var hashes := if component.hashes.Some? then component.hashes.value else [];
      WriteChecksums(sb, hashes, version, true);
      assert sb.text == start + Text(lines + ChecksumLines(HashesOf(component), version, true)) by {
        Lines(start, lines, ChecksumLines(HashesOf(component), version, true));
      }
      lines := lines + ChecksumLines(HashesOf(component), version, true);
      WriteHomePage(sb, component);
      assert sb.text == start + Text(lines + HomePageLines(component)) by {
        Lines(start, lines, HomePageLines(component));
      }
      lines := lines + HomePageLines(component);
      var tailStart := sb.text;
      nonSpdxLicenses := WritePackageTail(sb, component, nonSpdxLicenses, enc);
      assert sb.text == start + Text(lines + PackageTailLines(component, before, enc)) by {
        Lines(start, lines, PackageTailLines(component, before, enc));
      }
    }

    /** A file component: written as a package. */
    method WriteFileInformation(component: Component, componentIndex: nat, enc: string -> string)
      modifies this, sb
      ensures sb == old(sb)
      ensures sb.text == old(sb.text) + Text(PackageLines(component, componentIndex, version, |old(nonSpdxLicenses)|, enc))
      ensures nonSpdxLicenses == old(nonSpdxLicenses) + IdLess(LicensesOf(component))
    {
      WritePackageInformation(component, componentIndex, enc);
    }
  }
}
