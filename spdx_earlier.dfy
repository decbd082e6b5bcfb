/** The earlier SPDX tag-value writer (cyclonedx/SpdxTagSerializer.cs): one static
    `Serialize` with a local text buffer and a local list of non-SPDX licences. Against
    the newer writer it has no licence list version, no tool lines from the metadata, no
    comments, no group in the document or package name, no MD5 checksum, no home page,
    and it spells the purl reference `External-Ref`. The GUID for a BOM without a serial
    number, the creation time (already formatted) and HTML encoding are parameters. */
module SpdxTagEarlier {
  import opened Wrappers
  import opened Strings
  import opened BomModel
  import opened TextWriters
  import opened Formats
  import opened Spdx
  import SpdxTag

  // ---------------------------------------------------------------- document creation

  const NoComponentRef := "Generated from CycloneDX BOM without top level component metadata"

  /** The document name: the metadata component's name, then `-version` when it has one;
      a fixed sentence when there is no named metadata component. */
  function DocumentRef(bom: Bom): string {
    var c := MetadataComponent(bom);
    if c.Some? && c.value.name.Some? then
      c.value.name.value + (if c.value.version.Some? then "-" + c.value.version.value else "")
    else NoComponentRef
  }

  function NameLines(bom: Bom, guid: string): seq<string> {
    ["DocumentName: " + DocumentRef(bom),
     NamespaceLine(DocumentRef(bom), BomSpdxRef(bom.serialNumber, guid))]
  }

  /** The creators: one line per author, then this program; the metadata tools are not
      written. */
  function CreatorLines(bom: Bom): seq<string> {
    AuthorLines(SpdxTag.AuthorListOf(bom)) + [ToolCreatorLine]
  }

  function PreambleLines(bom: Bom, version: SpdxVersion, guid: string, created: string): seq<string> {
    HeaderLines(version) + NameLines(bom, guid) + CreatorLines(bom) + ["Created: " + created]
  }

  // ---------------------------------------------------------------- packages

  /** The package lines before the checksums; the name is the component's name alone. */
  function PackageHeadLines(c: Component, index: nat): seq<string> {
    ["", "PackageName: " + Str(c.name), "SPDXID: SPDXRef-" + ComponentSpdxRef(c, index), "PackageVersion: " + Str(c.version)]
    + SupplierLines(c) + OriginatorLines(c)
    + ["PackageDownloadLocation: NOASSERTION", "FilesAnalyzed: false"]
  }

  const PurlPrefix := "External-Ref: PACKAGE-MANAGER purl "

  function PurlLines(c: Component): seq<string> {
    if IsNullOrEmpty(c.purl) then [] else [PurlPrefix + c.purl.value]
  }

  function PackageTailLines(c: Component, before: nat, enc: string -> string): seq<string> {
    ["PackageLicenseConcluded: NOASSERTION", DeclaredLine(c.licenses, before), CopyrightLine(c, enc)]
    + PurlLines(c) + CpeLines(c.cpe)
  }

  /** The block of one component; the checksum switch has no MD5 case. */
  function PackageLines(c: Component, index: nat, version: SpdxVersion, before: nat, enc: string -> string): seq<string> {
    PackageHeadLines(c, index) + ChecksumLines(SpdxTag.HashesOf(c), version, false) + PackageTailLines(c, before, enc)
  }

  function ComponentsLines(cs: seq<Component>, version: SpdxVersion, enc: string -> string): seq<string> {
    if cs == [] then []
    else
      var init := cs[..|cs| - 1];
      ComponentsLines(init, version, enc) + PackageLines(cs[|cs| - 1], |init|, version, |NonSpdxOf(init)|, enc)
  }

  /** The whole document: preamble, one block per component, one block per id-less
      licence. */
  function DocumentLines(bom: Bom, version: SpdxVersion, guid: string, created: string, enc: string -> string): seq<string> {
    PreambleLines(bom, version, guid, created)
    + ComponentsLines(ComponentsOf(bom), version, enc)
    + LicenseBlocks(NonSpdxOf(ComponentsOf(bom)), enc)
  }

  // ---------------------------------------------------------------- properties

  /** The document opens like the newer one: the version header, the name and the
      namespace made from the name and the BOM's serial number. */
  lemma DocumentHead(bom: Bom, version: SpdxVersion, guid: string, created: string, enc: string -> string)
    ensures var lines := DocumentLines(bom, version, guid, created, enc);
      && |lines| >= 5
      && lines[0] == "SPDXVersion: SPDX-" + (if version == v2_1 then "2.1" else "2.2")
      && lines[1] == "DataLicense: CC0-1.0"
      && lines[2] == "SPDXID: SPDXRef-DOCUMENT"
      && lines[3] == "DocumentName: " + DocumentRef(bom)
      && lines[4] == NamespaceLine(DocumentRef(bom), BomSpdxRef(bom.serialNumber, guid))
  {
    var lines := DocumentLines(bom, version, guid, created, enc);
    var head := HeaderLines(version) + NameLines(bom, guid);
    assert head <= PreambleLines(bom, version, guid, created);
    assert head <= lines;
  }

  /** The document name never uses the group: changing the metadata component's group
      leaves it as it is. Without a name it is the fallback sentence; with one it begins
      with the name, and is the name alone when there is no version. */
  lemma DocumentRefWithoutGroup(bom: Bom, group: Option<string>)
    requires bom.metadata.Some? && bom.metadata.value.component.Some?
    ensures var c := bom.metadata.value.component.value;
      var regrouped := bom.(metadata := Some(bom.metadata.value.(component := Some(c.(group := group)))));
      DocumentRef(regrouped) == DocumentRef(bom)
    ensures var c := bom.metadata.value.component.value;
      && (c.name.None? ==> DocumentRef(bom) == NoComponentRef)
      && (c.name.Some? ==> StartsWith(DocumentRef(bom), c.name.value))
      && (c.name.Some? && c.version.None? ==> DocumentRef(bom) == c.name.value)
  {
    var c := bom.metadata.value.component.value;
    if c.name.Some? {
      assert DocumentRef(bom)[..|c.name.value|] == c.name.value;
    }
  }

  /** The creators: one line per author and then this program, exactly once; the
      metadata tools add no line. */
  lemma CreatorsWithoutTools(bom: Bom)
    ensures var lines := CreatorLines(bom);
      && |lines| == |SpdxTag.AuthorListOf(bom)| + 1
      && lines[|lines| - 1] == ToolCreatorLine
      && forall i :: 0 <= i < |lines| - 1 ==> lines[i] == AuthorLine(SpdxTag.AuthorListOf(bom)[i]) && lines[i] != ToolCreatorLine
  {
    var authors := SpdxTag.AuthorListOf(bom);
    AuthorLinesEach(authors);
    var lines := CreatorLines(bom);
    forall i | 0 <= i < |lines| - 1
      ensures lines[i] == AuthorLine(authors[i]) && lines[i] != ToolCreatorLine
    {
      assert lines[i] == AuthorLine(authors[i]);
      AuthorLineNotTool(authors[i]);
    }
  }

  /** The blocks of a prefix of the components are a prefix of the blocks of all. */
  lemma {:induction false} ComponentsPrefix(cs: seq<Component>, k: nat, version: SpdxVersion, enc: string -> string)
    requires k <= |cs|
    ensures ComponentsLines(cs[..k], version, enc) <= ComponentsLines(cs, version, enc)
    decreases |cs|
  {
    if k < |cs| {
      var init := cs[..|cs| - 1];
      assert init[..k] == cs[..k];
      ComponentsPrefix(init, k, version, enc);
    } else {
      assert cs[..k] == cs;
    }
  }

  lemma ComponentsLinesStep(cs: seq<Component>, i: nat, version: SpdxVersion, enc: string -> string)
    requires i < |cs|
    ensures ComponentsLines(cs[..i + 1], version, enc)
      == ComponentsLines(cs[..i], version, enc) + PackageLines(cs[i], i, version, |NonSpdxOf(cs[..i])|, enc)
  {
    assert cs[..i + 1][..i] == cs[..i];
  }

  /** One more pass of the component loop: the text gains the component's block and the
      list its id-less licences. */
  lemma WrittenStep(start: string, cs: seq<Component>, i: nat, version: SpdxVersion, enc: string -> string)
    requires i < |cs|
    ensures start + Text(ComponentsLines(cs[..i], version, enc))
        + Text(PackageLines(cs[i], i, version, |NonSpdxOf(cs[..i])|, enc))
      == start + Text(ComponentsLines(cs[..i + 1], version, enc))
    ensures NonSpdxOf(cs[..i]) + IdLess(LicensesOf(cs[i])) == NonSpdxOf(cs[..i + 1])
  {
    ComponentsLinesStep(cs, i, version, enc);
    SpdxTag.NonSpdxOfStep(cs, i);
    Lines(start, ComponentsLines(cs[..i], version, enc), PackageLines(cs[i], i, version, |NonSpdxOf(cs[..i])|, enc));
  }

  /** A package block opens with a blank line, the name line and the identifier line. */
  lemma PackageLinesStart(c: Component, index: nat, version: SpdxVersion, before: nat, enc: string -> string)
    ensures var block := PackageLines(c, index, version, before, enc);
      && |block| >= 3
      && block[0] == ""
      && block[1] == "PackageName: " + Str(c.name)
      && block[2] == "SPDXID: SPDXRef-" + ComponentSpdxRef(c, index)
  {
    var head := PackageHeadLines(c, index);
    assert head[..3] == ["", "PackageName: " + Str(c.name), "SPDXID: SPDXRef-" + ComponentSpdxRef(c, index)];
    assert head <= PackageLines(c, index, version, before, enc);
  }

  /** In the i-th component's block, the second line is `PackageName: ` and the name
      alone, and the third gives a well-formed SPDX identifier: the bom-ref made safe, or
      the position counted from 1. */
  lemma ComponentIdentity(cs: seq<Component>, i: nat, version: SpdxVersion, enc: string -> string)
    requires i < |cs|
    ensures var all := ComponentsLines(cs, version, enc);
      var off := |ComponentsLines(cs[..i], version, enc)|;
      && off + 2 < |all|
      && all[off] == ""
      && all[off + 1] == "PackageName: " + Str(cs[i].name)
      && all[off + 2] == "SPDXID: SPDXRef-" + ComponentSpdxRef(cs[i], i)
      && ComponentSpdxRef(cs[i], i) != "" && IsIdString(ComponentSpdxRef(cs[i], i))
  {
    var all := ComponentsLines(cs, version, enc);
    var front := ComponentsLines(cs[..i], version, enc);
    var block := PackageLines(cs[i], i, version, |NonSpdxOf(cs[..i])|, enc);
    assert front + block <= all by {
      ComponentsLinesStep(cs, i, version, enc);
      ComponentsPrefix(cs, i + 1, version, enc);
    }
    PackageLinesStart(cs[i], i, version, |NonSpdxOf(cs[..i])|, enc);
    SpdxTag.PrefixIndex(all, front, block, 0);
    SpdxTag.PrefixIndex(all, front, block, 1);
    SpdxTag.PrefixIndex(all, front, block, 2);
    ComponentSpdxRefIsId(cs[i], i);
  }

  /** The earlier checksum switch has no MD5 case: its checksum lines are the newer
      writer's lines for the same hashes with the MD5 hashes dropped. */
  lemma SameChecksumsAsNewerWithoutMd5(c: Component, version: SpdxVersion)
    ensures ChecksumLines(SpdxTag.HashesOf(c), version, false)
      == ChecksumLines(WithoutMd5(SpdxTag.HashesOf(c)), version, true)
    ensures forall i :: 0 <= i < |WithoutMd5(SpdxTag.HashesOf(c))| ==> WithoutMd5(SpdxTag.HashesOf(c))[i].alg != MD5
  {
    NoMd5Lines(SpdxTag.HashesOf(c), version);
  }

  /** The purl reference is spelled `External-Ref`, the CPE reference `ExternalRef`. */
  lemma ReferenceSpellings(c: Component)
    ensures PurlLines(c) != [] <==> !IsNullOrEmpty(c.purl)
    ensures PurlLines(c) != [] ==> StartsWith(PurlLines(c)[0], "External-Ref: ")
    ensures forall l :: l in CpeLines(c.cpe) ==> StartsWith(l, "ExternalRef: SECURITY ")
  {
    if PurlLines(c) != [] {
      assert PurlLines(c)[0][..|"External-Ref: "|] == "External-Ref: ";
    }
    forall l | l in CpeLines(c.cpe)
      ensures StartsWith(l, "ExternalRef: SECURITY ")
    {
      assert l[..|"ExternalRef: SECURITY "|] == "ExternalRef: SECURITY ";
    }
  }

  /** Every id-less licence collected from the packages is defined after them: the n-th
      (from 0) gets the line `LicenseID: LicenseRef-(n+1)`. With `Spdx.ReferenceDefined`,
      every `LicenseRef-n` a package cites is defined by the block of that licence. */
  lemma DefinitionInDocument(bom: Bom, version: SpdxVersion, guid: string, created: string, enc: string -> string, n: nat)
    requires n < |NonSpdxOf(ComponentsOf(bom))|
    ensures var cs := ComponentsOf(bom);
      var front := PreambleLines(bom, version, guid, created) + ComponentsLines(cs, version, enc);
      var at := |front| + |LicenseBlocks(NonSpdxOf(cs)[..n], enc)| + 1;
      var lines := DocumentLines(bom, version, guid, created, enc);
      at < |lines| && lines[at] == "LicenseID: LicenseRef-" + IntToString(n + 1)
  {
    var cs := ComponentsOf(bom);
    var front := PreambleLines(bom, version, guid, created) + ComponentsLines(cs, version, enc);
    var back := LicenseBlocks(NonSpdxOf(cs), enc);
    LicenseBlockAt(NonSpdxOf(cs), n, enc);
    SpdxTag.ElementAfter(front, back, |LicenseBlocks(NonSpdxOf(cs)[..n], enc)| + 1);
  }

  // ---------------------------------------------------------------- writing

  /** Serialize: the header, the name lines, the creators, then each component in turn,
      collecting the id-less licences in a local list, then one block per collected
      licence. */
  method Serialize(bom: Bom, version: SpdxVersion, guid: string, created: string, enc: string -> string)
    returns (text: string)
    ensures text == Text(DocumentLines(bom, version, guid, created, enc))
  {
    var sb := new TextWriter();
    WritePreamble(sb, bom, version, guid, created);
    var cs := ComponentsOf(bom);
    var nonSpdxLicenses := WritePackages(sb, cs, version, enc);
    WriteLicenseBlocks(sb, nonSpdxLicenses, enc);
    text := sb.text;
    DocumentText(bom, version, guid, created, enc, text);
  }

  /** The three runs written one after the other from an empty buffer. */
  lemma DocumentText(bom: Bom, version: SpdxVersion, guid: string, created: string, enc: string -> string, text: string)
    requires text == "" + Text(PreambleLines(bom, version, guid, created))
      + Text(ComponentsLines(ComponentsOf(bom), version, enc))
      + Text(LicenseBlocks(NonSpdxOf(ComponentsOf(bom)), enc))
    ensures text == Text(DocumentLines(bom, version, guid, created, enc))
  {
    var p := PreambleLines(bom, version, guid, created);
    var c := ComponentsLines(ComponentsOf(bom), version, enc);
    var l := LicenseBlocks(NonSpdxOf(ComponentsOf(bom)), enc);
    assert "" + Text(p) == Text(p);
    TextAppend(p, c);
    TextAppend(p + c, l);
  }

  /** The component loop; the returned list holds the id-less licences of all the
      components, in order. */
  method WritePackages(sb: TextWriter, cs: seq<Component>, version: SpdxVersion, enc: string -> string)
    returns (nonSpdxLicenses: seq<License>)
    modifies sb
    ensures sb.text == old(sb.text) + Text(ComponentsLines(cs, version, enc))
    ensures nonSpdxLicenses == NonSpdxOf(cs)
  {
    nonSpdxLicenses := [];
    var start := sb.text;
    assert cs[..0] == [] && start + Text([]) == start;
    for componentIndex := 0 to |cs|
      invariant sb.text == start + Text(ComponentsLines(cs[..componentIndex], version, enc))
      invariant nonSpdxLicenses == NonSpdxOf(cs[..componentIndex])
    {
      nonSpdxLicenses := WritePackage(sb, cs[componentIndex], componentIndex, version, nonSpdxLicenses, enc);
      WrittenStep(start, cs, componentIndex, version, enc);
    }
    assert cs[..|cs|] == cs;
  }

  method WritePreamble(writer: TextWriter, bom: Bom, version: SpdxVersion, guid: string, created: string)
    modifies writer
    ensures writer.text == old(writer.text) + Text(PreambleLines(bom, version, guid, created))
  {
    var start := writer.text;
    WriteHeader(writer, version);
    WriteNameLines(writer, bom, guid);
    ghost var front := HeaderLines(version) + NameLines(bom, guid);
    assert writer.text == start + Text(front) by {
      Lines(start, HeaderLines(version), NameLines(bom, guid));
    }
    var authors := AuthorsOf(bom);
    ghost var written := AuthorLines(SpdxTag.AuthorListOf(bom));
    WriteAuthors(writer, authors);
    assert writer.text == start + Text(front + written) by {
      Lines(start, front, written);
    }
    var closing := [ToolCreatorLine, "Created: " + created];
    WriteLines(writer, closing);
    assert writer.text == start + Text(front + written + closing) by {
      Lines(start, front + written, closing);
    }
    PreambleParts(bom, version, guid, created);
  }

  /** The preamble as the writer builds it, three runs one after the other. */
  lemma PreambleParts(bom: Bom, version: SpdxVersion, guid: string, created: string)
    ensures PreambleLines(bom, version, guid, created)
      == HeaderLines(version) + NameLines(bom, guid) + AuthorLines(SpdxTag.AuthorListOf(bom))
         + [ToolCreatorLine, "Created: " + created]
  {
    var front := HeaderLines(version) + NameLines(bom, guid);
    var a := AuthorLines(SpdxTag.AuthorListOf(bom));
    assert front + (a + [ToolCreatorLine]) + ["Created: " + created] == front + a + [ToolCreatorLine, "Created: " + created];
  }

  method WriteNameLines(writer: TextWriter, bom: Bom, guid: string)
    modifies writer
    ensures writer.text == old(writer.text) + Text(NameLines(bom, guid))
  {
    var documentRef := NoComponentRef;
    var c := MetadataComponent(bom);
    if c.Some? && c.value.name.Some? {
      documentRef := c.value.name.value;
      if c.value.version.Some? {
        documentRef := documentRef + "-" + c.value.version.value;
      }
    }
    assert documentRef == DocumentRef(bom);
    WriteLines(writer, ["DocumentName: " + documentRef, NamespaceLine(documentRef, BomSpdxRef(bom.serialNumber, guid))]);
  }

  /** One pass of the component loop. It returns the non-SPDX list with this component's
      id-less licences added. */
  method WritePackage(writer: TextWriter, c: Component, index: nat, version: SpdxVersion, nonSpdx: seq<License>, enc: string -> string)
    returns (updated: seq<License>)
    modifies writer
    ensures writer.text == old(writer.text) + Text(PackageLines(c, index, version, |nonSpdx|, enc))
    ensures updated == nonSpdx + IdLess(LicensesOf(c))
  {
    var start := writer.text;
    WritePackageHead(writer, c, index);
    var hashes := if c.hashes.Some? then c.hashes.value else [];
    WriteChecksums(writer, hashes, version, false);
    assert writer.text == start + Text(PackageHeadLines(c, index) + ChecksumLines(hashes, version, false)) by {
      Lines(start, PackageHeadLines(c, index), ChecksumLines(hashes, version, false));
    }
    ghost var lines := PackageHeadLines(c, index) + ChecksumLines(hashes, version, false);
    updated := WriteTail(writer, c, nonSpdx, enc);
    assert writer.text == start + Text(lines + PackageTailLines(c, |nonSpdx|, enc)) by {
      Lines(start, lines, PackageTailLines(c, |nonSpdx|, enc));
    }
  }

  method WritePackageHead(writer: TextWriter, c: Component, index: nat)
    modifies writer
    ensures writer.text == old(writer.text) + Text(PackageHeadLines(c, index))
  {
    var start := writer.text;
    var first := ["", "PackageName: " + Str(c.name), "SPDXID: SPDXRef-" + ComponentSpdxRef(c, index),
                  "PackageVersion: " + Str(c.version)];
    WriteLines(writer, first);
    SpdxTag.WriteSupplierAndOriginator(writer, c);
    assert writer.text == start + Text(first + (SupplierLines(c) + OriginatorLines(c))) by {
      Lines(start, first, SupplierLines(c) + OriginatorLines(c));
    }
    ghost var lines := first + (SupplierLines(c) + OriginatorLines(c));
    var last := ["PackageDownloadLocation: NOASSERTION", "FilesAnalyzed: false"];
    WriteLines(writer, last);
    assert writer.text == start + Text(lines + last) by {
      Lines(start, lines, last);
    }
    assert lines + last == PackageHeadLines(c, index) by {
      Assoc(first, SupplierLines(c), OriginatorLines(c));
    }
  }

  /** The package lines from the concluded licence on. */
  method WriteTail(writer: TextWriter, c: Component, nonSpdx: seq<License>, enc: string -> string)
    returns (updated: seq<License>)
    modifies writer
    ensures writer.text == old(writer.text) + Text(PackageTailLines(c, |nonSpdx|, enc))
    ensures updated == nonSpdx + IdLess(LicensesOf(c))
  {
    var start := writer.text;
    updated := WriteLicenseLines(writer, c, nonSpdx);
    WriteCopyrightAndReferences(writer, c, enc);
    TailParts(c, |nonSpdx|, enc);
    Lines(start, ["PackageLicenseConcluded: NOASSERTION", DeclaredLine(c.licenses, |nonSpdx|)],
          [CopyrightLine(c, enc)] + PurlLines(c) + CpeLines(c.cpe));
  }

  /** The tail lines are the two licence lines followed by the copyright and reference lines. */
  lemma TailParts(c: Component, before: nat, enc: string -> string)
    ensures PackageTailLines(c, before, enc)
      == ["PackageLicenseConcluded: NOASSERTION", DeclaredLine(c.licenses, before)]
         + ([CopyrightLine(c, enc)] + PurlLines(c) + CpeLines(c.cpe))
  {
  }

  /** The copyright line, then the purl and CPE reference lines. */
  method WriteCopyrightAndReferences(writer: TextWriter, c: Component, enc: string -> string)
    modifies writer
    ensures writer.text == old(writer.text) + Text([CopyrightLine(c, enc)] + PurlLines(c) + CpeLines(c.cpe))
  {
    var start := writer.text;
    SpdxTag.WriteCopyright(writer, c, enc);
    WritePurl(writer, c);
    Lines(start, [CopyrightLine(c, enc)], PurlLines(c));
    WriteCpe(writer, c.cpe);
    Lines(start, [CopyrightLine(c, enc)] + PurlLines(c), CpeLines(c.cpe));
  }

  method WritePurl(writer: TextWriter, c: Component)
    modifies writer
    ensures writer.text == old(writer.text) + Text(PurlLines(c))
  {
    if !IsNullOrEmpty(c.purl) {
      writer.WriteLine(PurlPrefix + c.purl.value);
      Line(old(writer.text), [], PurlPrefix + c.purl.value);
    } else {
      assert writer.text == old(writer.text) + Text([]);
    }
  }
}
