/** The Markdown rendering of a BOM (src/cyclonedx/Serialization/MarkdownSerializer.cs):
    a heading for the metadata component, a line naming the BOM, and, when the BOM has
    metadata, the tools or authors, the metadata component, the component list, the
    dependency tree and placeholders for the parts not rendered. */
module Markdown {
  import opened Wrappers
  import opened Strings
  import opened BomModel
  import opened TextWriters

  // ---------------------------------------------------------------- the dependency tree

  /** The lines of one dependency: its own, then its children's one level deeper. */
  function NodeLines(d: Dependency, indent: string): seq<string>
    decreases d
  {
    [indent + "- " + Str(d.ref)]
    + (if d.dependencies.DependencyList? then DependencyLines(d.dependencies.items, indent + "  ") else [])
  }

  /** The lines of a dependency list, in pre-order. */
  function DependencyLines(deps: seq<Dependency>, indent: string): (r: seq<string>)
    ensures |r| >= |deps|
    ensures deps != [] ==> r[0] == indent + "- " + Str(deps[0].ref)
    decreases deps
  {
    if deps == [] then []
    else
      var p := deps[..|deps| - 1];
      assert p != [] ==> p[0] == deps[0];
      DependencyLines(p, indent) + NodeLines(deps[|deps| - 1], indent)
  }

  /** The number of dependencies in a list, nested ones included. */
  function NodeCount(d: Dependency): nat
    decreases d
  {
    1 + (if d.dependencies.DependencyList? then ListCount(d.dependencies.items) else 0)
  }

  function ListCount(deps: seq<Dependency>): nat
    decreases deps
  {
    if deps == [] then 0 else ListCount(deps[..|deps| - 1]) + NodeCount(deps[|deps| - 1])
  }

  /** One line per dependency, nested ones included. */
  lemma {:induction false} NodeLineCount(d: Dependency, indent: string)
    ensures |NodeLines(d, indent)| == NodeCount(d)
    decreases d
  {
    if d.dependencies.DependencyList? {
      ListLineCount(d.dependencies.items, indent + "  ");
    }
  }

  lemma {:induction false} ListLineCount(deps: seq<Dependency>, indent: string)
    ensures |DependencyLines(deps, indent)| == ListCount(deps)
    decreases deps
  {
    if deps != [] {
      ListLineCount(deps[..|deps| - 1], indent);
      NodeLineCount(deps[|deps| - 1], indent);
    }
  }

  /** Every line of a node starts with its indentation: first the node's own line, then
      its descendants' lines, each indented two more spaces. */
  lemma {:induction false} NodeLinesIndented(d: Dependency, indent: string)
    ensures NodeLines(d, indent)[0] == indent + "- " + Str(d.ref)
    ensures forall i :: 1 <= i < |NodeLines(d, indent)| ==> StartsWith(NodeLines(d, indent)[i], indent + "  ")
    decreases d
  {
    if d.dependencies.DependencyList? {
      var inner := indent + "  ";
      ListLinesIndented(d.dependencies.items, inner);
      forall i | 1 <= i < |NodeLines(d, indent)|
        ensures StartsWith(NodeLines(d, indent)[i], inner)
      {
        var l := NodeLines(d, indent)[i];
        assert l == DependencyLines(d.dependencies.items, inner)[i - 1];
      }
    }
  }

  lemma {:induction false} ListLinesIndented(deps: seq<Dependency>, indent: string)
    ensures forall i :: 0 <= i < |DependencyLines(deps, indent)| ==> StartsWith(DependencyLines(deps, indent)[i], indent)
    decreases deps
  {
    if deps != [] {
      var init := deps[..|deps| - 1];
      var last := deps[|deps| - 1];
      ListLinesIndented(init, indent);
      NodeLinesIndented(last, indent);
      var a := DependencyLines(init, indent);
      var b := NodeLines(last, indent);
      forall i | 0 <= i < |a + b|
        ensures StartsWith((a + b)[i], indent)
      {
        if i >= |a| && i > |a| {
          var l := b[i - |a|];
          assert StartsWith(l, indent + "  ");
          assert l[..|indent|] == (indent + "  ")[..|indent|];
        } else if i == |a| {
          assert b[0][..|indent|] == indent;
        }
      }
    }
  }

  /** A dependency counts no more than the list that holds it. */
  lemma {:induction false} ElementCount(deps: seq<Dependency>, i: nat)
    requires i < |deps|
    ensures NodeCount(deps[i]) <= ListCount(deps)
  {
    if i < |deps| - 1 {
      ElementCount(deps[..|deps| - 1], i);
    }
  }

  /** WriteDependencies: one line per dependency, then its children two spaces deeper. */
  method WriteDependencies(writer: TextWriter, dependencies: seq<Dependency>, indent: string)
    modifies writer
    ensures writer.text == old(writer.text) + Text(DependencyLines(dependencies, indent))
    decreases ListCount(dependencies), 1
  {
    for i := 0 to |dependencies|
      invariant writer.text == old(writer.text) + Text(DependencyLines(dependencies[..i], indent))
    {
      ElementCount(dependencies, i);
      ghost var before := writer.text;
      WriteDependency(writer, dependencies[i], indent);
      DependenciesStep(old(writer.text), dependencies, i, indent, before, writer.text);
    }
    assert dependencies[..|dependencies|] == dependencies;
  }

  /** One more dependency written after those before it. */
  lemma DependenciesStep(start: string, deps: seq<Dependency>, i: nat, indent: string, before: string, after: string)
    requires i < |deps|
    requires before == start + Text(DependencyLines(deps[..i], indent))
    requires after == before + Text(NodeLines(deps[i], indent))
    ensures after == start + Text(DependencyLines(deps[..i + 1], indent))
  {
    assert deps[..i + 1][..i] == deps[..i];
    Lines(start, DependencyLines(deps[..i], indent), NodeLines(deps[i], indent));
  }

  /** The body of the WriteDependencies loop for one dependency. */
  method WriteDependency(writer: TextWriter, d: Dependency, indent: string)
    modifies writer
    ensures writer.text == old(writer.text) + Text(NodeLines(d, indent))
    decreases NodeCount(d), 0
  {
    var line := indent + "- " + Str(d.ref);
    writer.WriteLine(line);
    assert Text([line]) == line + "\n" by {
      assert [line][..0] == [];
    }
    if d.dependencies.DependencyList? {
      WriteDependencies(writer, d.dependencies.items, indent + "  ");
      TextAppend([line], DependencyLines(d.dependencies.items, indent + "  "));
    }
  }

  // ---------------------------------------------------------------- the document

  /** The heading: the metadata component's name and type, only when there is one. */
  function Heading(bom: Bom): string {
    var c := MetadataComponent(bom);
    if c.Some? then "# " + Str(c.value.name) + " (" + ClassificationName(c.value.kind) + ")\n" else ""
  }

  /** The line naming the BOM: serial number, format, spec version, version, timestamp. */
  function SerialLine(bom: Bom): string {
    "BOM " + Str(bom.serialNumber) + " " + bom.bomFormat + " " + bom.specVersionString + " "
    + (if bom.version.Some? then IntToString(bom.version.value) else "") + " "
    + (if bom.metadata.Some? then Str(bom.metadata.value.timestamp) else "")
  }

  /** A tool as `name version (vendor), `. */
  function ToolText(t: Tool): string {
    Str(t.name) + " " + Str(t.version) + " (" + Str(t.vendor) + "), "
  }

  function ToolsText(tools: seq<Tool>): string {
    if tools == [] then "" else ToolsText(tools[..|tools| - 1]) + ToolText(tools[|tools| - 1])
  }

  function AuthorText(a: OrganizationalContact): string {
    Str(a.name) + ", "
  }

  function AuthorsText(authors: seq<OrganizationalContact>): string {
    if authors == [] then "" else AuthorsText(authors[..|authors| - 1]) + AuthorText(authors[|authors| - 1])
  }

  const ToolsPrefix := "BOM done with tools: "
  const AuthorsPrefix := "BOM authored by: "

  /** The tools line when there are tools, else the authors line when there are authors. */
  function ToolsOrAuthors(m: Metadata): string {
    if m.tools.Some? then ToolsPrefix + ToolsText(m.tools.value) + "\n"
    else if m.authors.Some? then AuthorsPrefix + AuthorsText(m.authors.value) + "\n"
    else ""
  }

  /** A labelled value: ` _key:_ **value**`, nothing for null. */
  function Fragment(key: string, value: Option<string>): string {
    if value.Some? then " _" + key + ":_ **" + value.value + "**" else ""
  }

  /** The summary line of the metadata component. */
  function SummaryLine(c: Component): string {
    ">" + Fragment("group", c.group) + Fragment("name", c.name) + Fragment("version", c.version)
    + MetadataPurl(c) + Fragment("CPE", c.cpe) + "\n"
  }

  /** The purl of the metadata component is shown only when it has no name. */
  function MetadataPurl(c: Component): string {
    if c.name.None? then Fragment("purl", c.purl) else ""
  }

  /** A reference as a Markdown link followed by ", ". */
  function ReferenceText(er: ExternalReference): string {
    "[" + ExternalReferenceTypeName(er.kind) + "](" + Str(er.url) + "), "
  }

  function ReferencesText(refs: seq<ExternalReference>): string {
    if refs == [] then "" else ReferencesText(refs[..|refs| - 1]) + ReferenceText(refs[|refs| - 1])
  }

  /** The metadata component: a quoted summary line, its description, a blank line and its
      external references. */
  function ComponentSummary(c: Component): string {
    SummaryLine(c) + DescriptionLines(c.description) + "\n" + ReferencesLine(c.externalReferences)
  }

  function DescriptionLines(d: Option<string>): string {
    if d.Some? then ">\n" + ("> " + d.value + "\n") else ""
  }

  function ReferencesLine(refs: Option<seq<ExternalReference>>): string {
    if refs.Some? then "Component external references: " + ReferencesText(refs.value) + "\n" else ""
  }

  /** A section whose content is not rendered. */
  function Placeholder(title: string): string {
    "## " + title + "\n" + "not supported yet\n" + "\n"
  }

  /** One numbered item of the component list; the purl goes on a continuation line. */
  function ComponentItem(c: Component): string {
    ItemHead(c) + PurlLine(c.purl) + "\n"
  }

  /** The item's first line up to the purl: number, type, labelled values and scope. */
  function ItemHead(c: Component): string {
    "1. " + ClassificationName(c.kind) + Fragment("group", c.group) + Fragment("name", c.name)
    + Fragment("version", c.version) + ScopeText(c.scope)
  }

  function ScopeText(scope: Option<Scope>): string {
    if scope.Some? then " _scope:_ " + ScopeName(scope.value) else ""
  }

  /** The purl on a continuation line: the item's line ends with a backslash. */
  function PurlLine(purl: Option<string>): string {
    if purl.Some? then " \\\n" + ("   _purl:_ " + purl.value) else ""
  }

  function ComponentItems(cs: seq<Component>): string {
    if cs == [] then "" else ComponentItems(cs[..|cs| - 1]) + ComponentItem(cs[|cs| - 1])
  }

  /** Everything written inside the metadata branch. */
  function Sections(bom: Bom, m: Metadata): string {
    MetadataSections(bom, m) + ContentSections(bom)
  }

  /** The sections drawn from the metadata, the external references and the components. */
  function MetadataSections(bom: Bom, m: Metadata): string {
    ToolsOrAuthors(m)
    + (if m.component.Some? then ComponentSummary(m.component.value) else "")
    + PlaceholderIf(bom.externalReferences.Some?, "ExternalReferences")
    + ComponentsSection(bom.components)
  }

  /** The sections after the components. */
  function ContentSections(bom: Bom): string {
    PlaceholderIf(bom.services, "Services")
    + DependenciesSection(bom.dependencies)
    + PlaceholderIf(bom.compositions, "Compositions")
    + PlaceholderIf(bom.vulnerabilities, "Vulnerabilities")
  }

  function PlaceholderIf(present: bool, title: string): string {
    if present then Placeholder(title) else ""
  }

  function ComponentsSection(components: Option<seq<Component>>): string {
    if components.Some? then "## Components\n" + ComponentItems(components.value) + "\n" else ""
  }

  function DependenciesSection(dependencies: Option<seq<Dependency>>): string {
    if dependencies.Some? then "## Dependencies\n" + Text(DependencyLines(dependencies.value, "")) + "\n" else ""
  }

  /** The whole document. */
  function MarkdownText(bom: Bom): (r: string)
    ensures StartsWith(r, Heading(bom) + SerialLine(bom) + "\n\n")
    ensures bom.metadata.None? ==> r == Heading(bom) + SerialLine(bom) + "\n\n"
  {
    var front := Heading(bom) + SerialLine(bom) + "\n" + "\n";
    var r := front + (if bom.metadata.Some? then Sections(bom, bom.metadata.value) else "");
    assert front == Heading(bom) + SerialLine(bom) + "\n\n";
    assert r[..|front|] == front;
    r
  }

  // ---------------------------------------------------------------- the writer

  method WriteToolsOrAuthors(writer: TextWriter, m: Metadata)
    modifies writer
    ensures writer.text == old(writer.text) + ToolsOrAuthors(m)
  {
    var start := writer.text;
    if m.tools.Some? {
      var tools := m.tools.value;
      writer.Write(ToolsPrefix);
      for i := 0 to |tools|
        invariant writer.text == start + (ToolsPrefix + ToolsText(tools[..i]))
      {
        assert tools[..i + 1][..i] == tools[..i];
        writer.Write(ToolText(tools[i]));
        Assoc(start, ToolsPrefix + ToolsText(tools[..i]), ToolText(tools[i]));
        Assoc(ToolsPrefix, ToolsText(tools[..i]), ToolText(tools[i]));
      }
      assert tools[..|tools|] == tools;
      writer.WriteLine("");
      Assoc(start, ToolsPrefix + ToolsText(tools), "\n");
    } else if m.authors.Some? {
      var authors := m.authors.value;
      writer.Write(AuthorsPrefix);
      for i := 0 to |authors|
        invariant writer.text == start + (AuthorsPrefix + AuthorsText(authors[..i]))
      {
        assert authors[..i + 1][..i] == authors[..i];
        writer.Write(AuthorText(authors[i]));
        Assoc(start, AuthorsPrefix + AuthorsText(authors[..i]), AuthorText(authors[i]));
        Assoc(AuthorsPrefix, AuthorsText(authors[..i]), AuthorText(authors[i]));
      }
      assert authors[..|authors|] == authors;
      writer.WriteLine("");
      Assoc(start, AuthorsPrefix + AuthorsText(authors), "\n");
    } else {
      assert writer.text == start + "";
    }
  }

  /** A labelled value is written only when it is not null. */
  method WriteFragment(writer: TextWriter, key: string, value: Option<string>)
    modifies writer
    ensures writer.text == old(writer.text) + Fragment(key, value)
  {
    if value.Some? {
      writer.Write(" _" + key + ":_ **" + value.value + "**");
    } else {
      assert writer.text == old(writer.text) + "";
    }
  }

  method WriteSummaryLine(writer: TextWriter, c: Component)
    modifies writer
    ensures writer.text == old(writer.text) + SummaryLine(c)
  {
    var start := writer.text;
    writer.Write(">");
    WriteFragment(writer, "group", c.group);
    Assoc(start, ">", Fragment("group", c.group));
    var acc := ">" + Fragment("group", c.group);
    WriteFragment(writer, "name", c.name);
    Assoc(start, acc, Fragment("name", c.name));
    acc := acc + Fragment("name", c.name);
    WriteFragment(writer, "version", c.version);
    Assoc(start, acc, Fragment("version", c.version));
    acc := acc + Fragment("version", c.version);
    if c.name.None? {
      WriteFragment(writer, "purl", c.purl);
    } else {
      assert writer.text == start + acc + "";
    }
    Assoc(start, acc, MetadataPurl(c));
    acc := acc + MetadataPurl(c);
    WriteFragment(writer, "CPE", c.cpe);
    Assoc(start, acc, Fragment("CPE", c.cpe));
    acc := acc + Fragment("CPE", c.cpe);
    writer.WriteLine("");
    Assoc(start, acc, "\n");
  }

  method WriteComponentSummary(writer: TextWriter, c: Component)
    modifies writer
    ensures writer.text == old(writer.text) + ComponentSummary(c)
  {
    var start := writer.text;
    WriteSummaryLine(writer, c);
    var acc := SummaryLine(c);
    WriteDescription(writer, c.description);
    Assoc(start, acc, DescriptionLines(c.description));
    acc := acc + DescriptionLines(c.description);
    writer.WriteLine("");
    Assoc(start, acc, "\n");
    acc := acc + "\n";
    assert writer.text == start + acc;
    if c.externalReferences.Some? {
      WriteReferences(writer, c.externalReferences.value);
    } else {
      assert writer.text == start + acc + "";
    }
    Assoc(start, acc, ReferencesLine(c.externalReferences));
  }

  method WriteDescription(writer: TextWriter, description: Option<string>)
    modifies writer
    ensures writer.text == old(writer.text) + DescriptionLines(description)
  {
    if description.Some? {
      var start := writer.text;
      writer.WriteLine(">");
      writer.WriteLine("> " + description.value);
      Assoc(start, ">" + "\n", "> " + description.value + "\n");
      assert ">" + "\n" == ">\n";
    } else {
      assert writer.text == old(writer.text) + "";
    }
  }

  method WriteReferences(writer: TextWriter, refs: seq<ExternalReference>)
    modifies writer
    ensures writer.text == old(writer.text) + ("Component external references: " + ReferencesText(refs) + "\n")
  {
    var start := writer.text;
    var prefix := "Component external references: ";
    writer.Write(prefix);
    for i := 0 to |refs|
      invariant writer.text == start + (prefix + ReferencesText(refs[..i]))
    {
      assert refs[..i + 1][..i] == refs[..i];
      writer.Write(ReferenceText(refs[i]));
      Assoc(start, prefix + ReferencesText(refs[..i]), ReferenceText(refs[i]));
      Assoc(prefix, ReferencesText(refs[..i]), ReferenceText(refs[i]));
    }
    assert refs[..|refs|] == refs;
    writer.WriteLine("");
    Assoc(start, prefix + ReferencesText(refs), "\n");
  }

  method WriteComponentItem(writer: TextWriter, c: Component)
    modifies writer
    ensures writer.text == old(writer.text) + ComponentItem(c)
  {
    var start := writer.text;
    WriteItemHead(writer, c);
    WritePurl(writer, c.purl);
    assert writer.text == start + (ItemHead(c) + PurlLine(c.purl)) by {
      Assoc(start, ItemHead(c), PurlLine(c.purl));
    }
    writer.EndLine();
    Assoc(start, ItemHead(c) + PurlLine(c.purl), "\n");
  }

  /** The item's first line up to the purl. */
  method WriteItemHead(writer: TextWriter, c: Component)
    modifies writer
    ensures writer.text == old(writer.text) + ItemHead(c)
  {
    var start := writer.text;
    var acc := "1. " + ClassificationName(c.kind);
    writer.Write(acc);
    WriteFragment(writer, "group", c.group);
    assert writer.text == start + (acc + Fragment("group", c.group)) by {
      Assoc(start, acc, Fragment("group", c.group));
    }
    acc := acc + Fragment("group", c.group);
    WriteFragment(writer, "name", c.name);
    assert writer.text == start + (acc + Fragment("name", c.name)) by {
      Assoc(start, acc, Fragment("name", c.name));
    }
    acc := acc + Fragment("name", c.name);
    WriteFragment(writer, "version", c.version);
    assert writer.text == start + (acc + Fragment("version", c.version)) by {
      Assoc(start, acc, Fragment("version", c.version));
    }
    acc := acc + Fragment("version", c.version);
    WriteScope(writer, c.scope);
    Assoc(start, acc, ScopeText(c.scope));
  }

  method WriteScope(writer: TextWriter, scope: Option<Scope>)
    modifies writer
    ensures writer.text == old(writer.text) + ScopeText(scope)
  {
    if scope.Some? {
      writer.Write(" _scope:_ " + ScopeName(scope.value));
    } else {
      assert writer.text == old(writer.text) + "";
    }
  }

  /** The purl's continuation line, when there is a purl. */
  method WritePurl(writer: TextWriter, purl: Option<string>)
    modifies writer
    ensures writer.text == old(writer.text) + PurlLine(purl)
  {
    var start := writer.text;
    if purl.Some? {
      writer.WriteLine(" \\");
      writer.Write("   _purl:_ " + purl.value);
      Assoc(start, " \\\n", "   _purl:_ " + purl.value);
    } else {
      assert writer.text == start + "";
    }
  }

  method WriteComponentList(writer: TextWriter, components: seq<Component>)
    modifies writer
    ensures writer.text == old(writer.text) + ComponentsSection(Some(components))
  {
    var start := writer.text;
    var heading := "## Components\n";
    writer.WriteLine("## Components");
    for i := 0 to |components|
      invariant writer.text == start + (heading + ComponentItems(components[..i]))
    {
      ghost var before := writer.text;
      WriteComponentItem(writer, components[i]);
      ItemsStep(start, heading, components, i, before, writer.text);
    }
    assert components[..|components|] == components;
    writer.WriteLine("");
    Assoc(start, heading + ComponentItems(components), "\n");
  }

  /** One more item written after the heading and the items before it. */
  lemma ItemsStep(start: string, heading: string, cs: seq<Component>, i: nat, before: string, after: string)
    requires i < |cs|
    requires before == start + (heading + ComponentItems(cs[..i]))
    requires after == before + ComponentItem(cs[i])
    ensures after == start + (heading + ComponentItems(cs[..i + 1]))
  {
    assert cs[..i + 1][..i] == cs[..i];
    Assoc(start, heading + ComponentItems(cs[..i]), ComponentItem(cs[i]));
    Assoc(heading, ComponentItems(cs[..i]), ComponentItem(cs[i]));
  }

  method WritePlaceholder(writer: TextWriter, title: string)
    modifies writer
    ensures writer.text == old(writer.text) + Placeholder(title)
  {
    var start := writer.text;
    writer.WriteLine("## " + title);
    writer.WriteLine("not supported yet");
    Assoc(start, "## " + title + "\n", "not supported yet\n");
    writer.WriteLine("");
    Assoc(start, "## " + title + "\n" + "not supported yet\n", "\n");
  }

  method WriteDependencySection(writer: TextWriter, dependencies: seq<Dependency>)
    modifies writer
    ensures writer.text == old(writer.text) + DependenciesSection(Some(dependencies))
  {
    var start := writer.text;
    writer.WriteLine("## Dependencies");
    ghost var mid := writer.text;
    WriteDependencies(writer, dependencies, "");
    ghost var body := writer.text;
    writer.EndLine();
    SectionAround(start, "## Dependencies", "## Dependencies\n", Text(DependencyLines(dependencies, "")),
      mid, body, writer.text);
  }

  /** A heading line, a body and an empty line, written one after the other. */
  lemma SectionAround(start: string, title: string, heading: string, t: string, mid: string, body: string, after: string)
    requires heading == title + "\n"
    requires mid == start + (title + "\n") && body == mid + t && after == body + "\n"
    ensures after == start + (heading + t + "\n")
  {
    Assoc(start, heading, t);
    Assoc(start, heading + t, "\n");
  }

  /** An optional placeholder section. */
  method WritePlaceholderIf(writer: TextWriter, present: bool, title: string)
    modifies writer
    ensures writer.text == old(writer.text) + PlaceholderIf(present, title)
  {
    if present {
      WritePlaceholder(writer, title);
    } else {
      assert writer.text == old(writer.text) + "";
    }
  }

  /** The metadata branch. */
  method WriteSections(writer: TextWriter, bom: Bom, m: Metadata)
    modifies writer
    ensures writer.text == old(writer.text) + Sections(bom, m)
  {
    var start := writer.text;
    WriteMetadataSections(writer, bom, m);
    WriteContentSections(writer, bom);
    Assoc(start, MetadataSections(bom, m), ContentSections(bom));
  }

  method WriteMetadataSections(writer: TextWriter, bom: Bom, m: Metadata)
    modifies writer
    ensures writer.text == old(writer.text) + MetadataSections(bom, m)
  {
    var start := writer.text;
    WriteToolsOrAuthors(writer, m);
    var acc := ToolsOrAuthors(m);
    var part := if m.component.Some? then ComponentSummary(m.component.value) else "";
    if m.component.Some? {
      WriteComponentSummary(writer, m.component.value);
    } else {
      assert writer.text == start + acc + "";
    }
    Assoc(start, acc, part);
    acc := acc + part;
    WritePlaceholderIf(writer, bom.externalReferences.Some?, "ExternalReferences");
    Assoc(start, acc, PlaceholderIf(bom.externalReferences.Some?, "ExternalReferences"));
    acc := acc + PlaceholderIf(bom.externalReferences.Some?, "ExternalReferences");
    if bom.components.Some? {
      WriteComponentList(writer, bom.components.value);
    } else {
      assert writer.text == start + acc + "";
    }
    Assoc(start, acc, ComponentsSection(bom.components));
  }

  method WriteContentSections(writer: TextWriter, bom: Bom)
    modifies writer
    ensures writer.text == old(writer.text) + ContentSections(bom)
  {
    var start := writer.text;
    WritePlaceholderIf(writer, bom.services, "Services");
    var acc := PlaceholderIf(bom.services, "Services");
    if bom.dependencies.Some? {
      WriteDependencySection(writer, bom.dependencies.value);
    } else {
      assert writer.text == start + acc + "";
    }
    Assoc(start, acc, DependenciesSection(bom.dependencies));
    acc := acc + DependenciesSection(bom.dependencies);
    WritePlaceholderIf(writer, bom.compositions, "Compositions");
    Assoc(start, acc, PlaceholderIf(bom.compositions, "Compositions"));
    acc := acc + PlaceholderIf(bom.compositions, "Compositions");
    WritePlaceholderIf(writer, bom.vulnerabilities, "Vulnerabilities");
    Assoc(start, acc, PlaceholderIf(bom.vulnerabilities, "Vulnerabilities"));
  }

  /** Serialize: the document, written in order into one writer. */
  method Serialize(bom: Bom) returns (text: string)
    ensures text == MarkdownText(bom)
  {
    var writer := new TextWriter();
    var c := MetadataComponent(bom);
    if c.Some? {
      writer.WriteLine("# " + Str(c.value.name) + " (" + ClassificationName(c.value.kind) + ")");
    }
    assert writer.text == Heading(bom);
    writer.WriteLine(SerialLine(bom));
    writer.WriteLine("");
    Assoc(Heading(bom), SerialLine(bom) + "\n", "\n");
    Assoc(Heading(bom), SerialLine(bom), "\n");
    var head := Heading(bom) + SerialLine(bom) + "\n" + "\n";
    assert writer.text == head;
    if bom.metadata.Some? {
      WriteSections(writer, bom, bom.metadata.value);
    } else {
      assert writer.text == head + "";
    }
    text := writer.text;
  }

  // ---------------------------------------------------------------- properties

  /** The document opens with a heading exactly when the metadata has a component;
      otherwise it opens with the line naming the BOM. */
  lemma HeadingWhenComponent(bom: Bom)
    ensures StartsWith(MarkdownText(bom), "# ") <==> MetadataComponent(bom).Some?
    ensures MetadataComponent(bom).None? ==> StartsWith(MarkdownText(bom), "BOM ")
  {
    var p := if MetadataComponent(bom).Some? then "# " else "BOM ";
    FrontOpens(bom, p);
    var tail := if bom.metadata.Some? then Sections(bom, bom.metadata.value) else "";
    OpensWith(MarkdownText(bom), Heading(bom), SerialLine(bom), tail, p);
    if MetadataComponent(bom).None? {
      assert MarkdownText(bom)[0] == 'B';
    }
  }

  /** The heading, when there is one, comes before the line naming the BOM. */
  lemma FrontOpens(bom: Bom, p: string)
    requires p == if MetadataComponent(bom).Some? then "# " else "BOM "
    ensures StartsWith(Heading(bom) + SerialLine(bom), p)
  {
    var h, l := Heading(bom), SerialLine(bom);
    if MetadataComponent(bom).Some? {
      PrefixOfAppend(h, l, p);
    } else {
      assert h + l == l;
    }
  }

  /** A text made of a front, two line ends and a tail opens as its front does. */
  lemma OpensWith(text: string, h: string, l: string, tail: string, p: string)
    requires text == h + l + "\n" + "\n" + tail && StartsWith(h + l, p)
    ensures StartsWith(text, p)
  {
    PrefixOfAppend(h + l, "\n", p);
    PrefixOfAppend(h + l + "\n", "\n", p);
    PrefixOfAppend(h + l + "\n" + "\n", tail, p);
  }

  lemma PrefixOfAppend(x: string, y: string, p: string)
    requires StartsWith(x, p)
    ensures StartsWith(x + y, p)
  {
    assert (x + y)[..|p|] == x[..|p|];
  }

  /** Without metadata the document is the line naming the BOM and a blank line. */
  lemma WithoutMetadata(bom: Bom)
    requires bom.metadata.None?
    ensures MarkdownText(bom) == SerialLine(bom) + "\n\n"
    ensures LineEnds(MarkdownText(bom)) == LineEnds(SerialLine(bom)) + 2
  {
    assert MarkdownText(bom) == SerialLine(bom) + "\n" + "\n" + "";
    LineEndsAppend(SerialLine(bom), "\n\n");
  }

  /** The tools line and the authors line exclude each other: tools win when both are
      present, and neither is written when both are null. */
  lemma ToolsBeforeAuthors(m: Metadata)
    ensures StartsWith(ToolsOrAuthors(m), ToolsPrefix) <==> m.tools.Some?
    ensures StartsWith(ToolsOrAuthors(m), AuthorsPrefix) <==> m.tools.None? && m.authors.Some?
    ensures ToolsOrAuthors(m) == "" <==> m.tools.None? && m.authors.None?
  {
    var t := ToolsOrAuthors(m);
    if m.tools.Some? {
      assert t == ToolsPrefix + (ToolsText(m.tools.value) + "\n");
      assert t[..|ToolsPrefix|] == ToolsPrefix;
      assert t[4] == 'd' != AuthorsPrefix[4];
    } else if m.authors.Some? {
      assert t == AuthorsPrefix + (AuthorsText(m.authors.value) + "\n");
      assert t[..|AuthorsPrefix|] == AuthorsPrefix;
      assert t[4] == 'a' != ToolsPrefix[4];
    }
  }

  /** Every tool is written, in order: the tools text of a list is the concatenation of
      the texts of its parts. */
  lemma {:induction false} ToolsTextAppend(a: seq<Tool>, b: seq<Tool>)
    ensures ToolsText(a + b) == ToolsText(a) + ToolsText(b)
    decreases |b|
  {
    if b == [] {
      assert a + b == a;
    } else {
      var b' := b[..|b| - 1];
      assert (a + b)[..|a + b| - 1] == a + b';
      ToolsTextAppend(a, b');
      Assoc(ToolsText(a), ToolsText(b'), ToolText(b[|b| - 1]));
    }
  }

  /** Every component is listed, in order. */
  lemma {:induction false} ComponentItemsAppend(a: seq<Component>, b: seq<Component>)
    ensures ComponentItems(a + b) == ComponentItems(a) + ComponentItems(b)
    decreases |b|
  {
    if b == [] {
      assert a + b == a;
    } else {
      var b' := b[..|b| - 1];
      assert (a + b)[..|a + b| - 1] == a + b';
      ComponentItemsAppend(a, b');
      Assoc(ComponentItems(a), ComponentItems(b'), ComponentItem(b[|b| - 1]));
    }
  }

  /** A component takes two lines when it has a purl and one otherwise. */
  lemma ComponentItemLines(c: Component)
    requires '\n' !in ItemHead(c)
    requires c.purl.Some? ==> '\n' !in c.purl.value
    ensures LineEnds(ComponentItem(c)) == if c.purl.Some? then 2 else 1
  {
    var head := ItemHead(c);
    NoLineEnds(head);
    LineEndsAppend(head, PurlLine(c.purl));
    LineEndsAppend(head + PurlLine(c.purl), "\n");
    OneLineEnd("");
    assert "" + "\n" == "\n";
    if c.purl.Some? {
      NoLineEnds("   _purl:_ " + c.purl.value);
      OneLineEnd(" \\");
      assert " \\" + "\n" == " \\\n";
      LineEndsAppend(" \\\n", "   _purl:_ " + c.purl.value);
    } else {
      NoLineEnds("");
    }
  }

  /** A line without line ends, ended. */
  lemma OneLineEnd(s: string)
    requires '\n' !in s
    ensures LineEnds(s + "\n") == 1
  {
    NoLineEnds(s);
    LineEndsAppend(s, "\n");
  }

  /** No reference in a dependency tree holds a line end. */
  predicate SingleLineRef(d: Dependency)
    decreases d
  {
    '\n' !in Str(d.ref)
    && (d.dependencies.DependencyList? ==> SingleLineRefs(d.dependencies.items))
  }

  predicate SingleLineRefs(deps: seq<Dependency>)
    decreases deps
  {
    deps != [] ==> SingleLineRefs(deps[..|deps| - 1]) && SingleLineRef(deps[|deps| - 1])
  }

  /** With single-line references and indentation, no dependency line holds a line end. */
  lemma {:induction false} NodeLinesSingle(d: Dependency, indent: string)
    requires SingleLineRef(d) && '\n' !in indent
    ensures forall i :: 0 <= i < |NodeLines(d, indent)| ==> '\n' !in NodeLines(d, indent)[i]
    decreases d
  {
    if d.dependencies.DependencyList? {
      ListLinesSingle(d.dependencies.items, indent + "  ");
    }
  }

  lemma {:induction false} ListLinesSingle(deps: seq<Dependency>, indent: string)
    requires SingleLineRefs(deps) && '\n' !in indent
    ensures forall i :: 0 <= i < |DependencyLines(deps, indent)| ==> '\n' !in DependencyLines(deps, indent)[i]
    decreases deps
  {
    if deps != [] {
      ListLinesSingle(deps[..|deps| - 1], indent);
      NodeLinesSingle(deps[|deps| - 1], indent);
    }
  }

  /** The dependency section is a heading, one line per dependency of the whole tree and a
      blank line. */
  lemma DependencySectionLines(deps: seq<Dependency>)
    requires SingleLineRefs(deps)
    ensures LineEnds(DependenciesSection(Some(deps))) == ListCount(deps) + 2
  {
    var lines := DependencyLines(deps, "");
    ListLinesSingle(deps, "");
    TextLineEnds(lines);
    ListLineCount(deps, "");
    var heading := "## Dependencies\n";
    OneLineEnd("## Dependencies");
    assert "## Dependencies" + "\n" == heading;
    LinesAround(heading, Text(lines));
  }

  /** A text between a heading and a line end has the line ends of both and its own. */
  lemma LinesAround(heading: string, body: string)
    ensures LineEnds(heading + body + "\n") == LineEnds(heading) + LineEnds(body) + 1
  {
    LineEndsAppend(heading, body);
    LineEndsAppend(heading + body, "\n");
    OneLineEnd("");
    assert "" + "\n" == "\n";
  }

  /** Deserialize: reading Markdown is not supported; the result is always null. */
  function Deserialize(text: string): (r: Option<Bom>)
    ensures r.None?
  {
    None
  }
}
