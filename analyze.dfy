/** The "multiple component versions" analysis of the middle revision's analyze command
    (cyclonedx/Commands/Convert/AnalyzeCommand.cs). Components are grouped by name in a
    dictionary; a group is reported when it has more than one member and some member's
    version differs from its first member's. A dictionary that is only ever added to
    enumerates its entries in insertion order, so the cache is modelled as a map together
    with the sequence of its keys in first-seen order. */
module Analyze {
  import opened Wrappers
  import opened Strings
  import opened Formats
  import opened BomModel
  import Utils
  import opened Program
  import opened TextWriters

  /** The distinct names of a list, in order of first occurrence. */
  function NamesInOrder(xs: seq<Component>): (r: seq<Option<string>>)
    ensures forall i, j :: 0 <= i < j < |r| ==> r[i] != r[j]
    ensures forall n :: n in r <==> exists k :: 0 <= k < |xs| && xs[k].name == n
  {
    if xs == [] then []
    else
      var prefix := NamesInOrder(xs[..|xs| - 1]);
      var last := xs[|xs| - 1];
      assert forall k :: 0 <= k < |xs| - 1 ==> xs[..|xs| - 1][k] == xs[k];
      if last.name in prefix then prefix else prefix + [last.name]
  }

  /** The members of a list with a given name, in order: one dictionary entry's list. */
  function Group(xs: seq<Component>, name: Option<string>): seq<Component> {
    if xs == [] then []
    else
      var last := xs[|xs| - 1];
      Group(xs[..|xs| - 1], name) + (if last.name == name then [last] else [])
  }

  /** The loop over one group with its early `break`: whether some member's version
      differs from the first member's. */
  predicate VersionsDiffer(g: seq<Component>)
    requires g != []
  {
    exists k :: 0 <= k < |g| && g[k].version != g[0].version
  }

  /** Whether a group is reported. */
  predicate Reported(g: seq<Component>) {
    |g| > 1 && VersionsDiffer(g)
  }

  /** The report: the reported groups, taken in the order of the names. */
  function Report(names: seq<Option<string>>, xs: seq<Component>): (r: seq<seq<Component>>)
    ensures |r| <= |names|
    ensures forall g :: g in r ==> Reported(g)
  {
    if names == [] then []
    else
      var g := Group(xs, names[|names| - 1]);
      Report(names[..|names| - 1], xs) + (if Reported(g) then [g] else [])
  }

  /** The whole analysis of a component list without null names. */
  function MultipleComponentVersions(xs: seq<Component>): (r: seq<seq<Component>>)
    ensures |r| <= |NamesInOrder(xs)|
    ensures forall g :: g in r ==> |g| > 1 && VersionsDiffer(g)
  {
    Report(NamesInOrder(xs), xs)
  }

  /** A group holds exactly the members with its name, in input order. */
  lemma {:induction false} GroupMembers(xs: seq<Component>, name: Option<string>)
    ensures forall c :: c in Group(xs, name) <==> c in xs && c.name == name
    ensures |Group(xs, name)| <= |xs|
    ensures Group(xs, name) == [] <==> forall k :: 0 <= k < |xs| ==> xs[k].name != name
  {
    if xs != [] {
      GroupMembers(xs[..|xs| - 1], name);
      assert xs == xs[..|xs| - 1] + [xs[|xs| - 1]];
    }
  }

  /** A group's size is the number of components with that name. */
  lemma {:induction false} GroupAppend(xs: seq<Component>, c: Component, name: Option<string>)
    ensures Group(xs + [c], name) == Group(xs, name) + (if c.name == name then [c] else [])
  {
    assert (xs + [c])[..|xs + [c]| - 1] == xs;
  }

  /** The report lists a group iff its name occurs among the names and the group is
      reported; each listed group is one name's whole group. */
  lemma {:induction false} ReportMembers(names: seq<Option<string>>, xs: seq<Component>)
    ensures forall g :: g in Report(names, xs) <==> exists n :: n in names && g == Group(xs, n) && Reported(g)
  {
    if names != [] {
      var p, last := names[..|names| - 1], names[|names| - 1];
      ReportMembers(p, xs);
      assert names == p + [last];
      forall g | g in Report(names, xs)
        ensures exists n :: n in names && g == Group(xs, n) && Reported(g)
      {
        if g in Report(p, xs) {
          var n :| n in p && g == Group(xs, n) && Reported(g);
          assert n in names;
        } else {
          assert last in names;
        }
      }
    }
  }

  /** When no name's group is reported, the report is empty. */
  lemma {:induction false} NothingReported(names: seq<Option<string>>, xs: seq<Component>)
    requires forall n :: n in names ==> !Reported(Group(xs, n))
    ensures Report(names, xs) == []
  {
    if names != [] {
      NothingReported(names[..|names| - 1], xs);
    }
  }

  /** What is reported: exactly the groups with more than one member and a differing
      version, each with all its members, all sharing one name. */
  lemma ReportIsExact(xs: seq<Component>)
    ensures forall g :: g in MultipleComponentVersions(xs) ==>
      |g| > 1 && VersionsDiffer(g) && (forall c :: c in g ==> c in xs && c.name == g[0].name)
    ensures forall c :: c in xs && Reported(Group(xs, c.name)) ==>
      Group(xs, c.name) in MultipleComponentVersions(xs)
  {
    var names := NamesInOrder(xs);
    ReportMembers(names, xs);
    forall g | g in MultipleComponentVersions(xs)
      ensures forall c :: c in g ==> c in xs && c.name == g[0].name
    {
      var n :| n in names && g == Group(xs, n) && Reported(g);
      GroupMembers(xs, n);
      assert g[0] in g;
    }
    forall c | c in xs && Reported(Group(xs, c.name))
      ensures Group(xs, c.name) in MultipleComponentVersions(xs)
    {
      var k :| 0 <= k < |xs| && xs[k] == c;
      assert c.name in names;
    }
  }

  /** A list whose components all carry different names reports nothing. */
  lemma DistinctNamesReportNothing(xs: seq<Component>)
    requires forall i, j :: 0 <= i < j < |xs| ==> xs[i].name != xs[j].name
    ensures MultipleComponentVersions(xs) == []
  {
    var names := NamesInOrder(xs);
    forall n | n in names ensures !Reported(Group(xs, n)) {
      CountedGroup(xs, n);
    }
    NothingReported(names, xs);
  }

  /** With distinct names, a group has at most one member. */
  lemma {:induction false} CountedGroup(xs: seq<Component>, n: Option<string>)
    requires forall a, b :: 0 <= a < b < |xs| ==> xs[a].name != xs[b].name
    ensures |Group(xs, n)| <= 1
  {
    if xs != [] {
      var p := xs[..|xs| - 1];
      CountedGroup(p, n);
      GroupMembers(p, n);
      if xs[|xs| - 1].name == n {
        assert forall k :: 0 <= k < |p| ==> p[k].name != n by {
          forall k | 0 <= k < |p| ensures p[k].name != n {
            assert p[k] == xs[k];
          }
        }
        assert Group(p, n) == [];
      }
      assert Group(xs, n) == Group(p, n) + (if xs[|xs| - 1].name == n then [xs[|xs| - 1]] else []);
    }
  }

  /** The cache and its key order after the components of `prefix` were added. */
  ghost predicate CacheOf(prefix: seq<Component>, order: seq<Option<string>>, cache: map<Option<string>, seq<Component>>) {
    && order == NamesInOrder(prefix)
    && (forall n :: n in cache <==> n in order)
    && (forall n :: n in cache ==> cache[n] == Group(prefix, n))
  }

  /** One step of the first loop: a new name gets an empty list and a place in the key
      order, then the component is appended to its name's list. */
  lemma CacheStep(prefix: seq<Component>, c: Component, order: seq<Option<string>>, cache: map<Option<string>, seq<Component>>,
                  order': seq<Option<string>>, cache': map<Option<string>, seq<Component>>)
    requires CacheOf(prefix, order, cache)
    requires order' == if c.name in cache then order else order + [c.name]
    requires cache' == cache[c.name := (if c.name in cache then cache[c.name] else []) + [c]]
    ensures CacheOf(prefix + [c], order', cache')
  {
    var xs := prefix + [c];
    assert xs[..|xs| - 1] == prefix;
    GroupMembers(prefix, c.name);
    forall n | n in cache' ensures cache'[n] == Group(xs, n) {
      GroupAppend(prefix, c, n);
    }
  }

  /** The first loop: fill the cache name by name; a null name is a null dictionary key,
      which throws. */
  method FillCache(xs: seq<Component>) returns (r: Result<(seq<Option<string>>, map<Option<string>, seq<Component>>)>)
    ensures r.Thrown? <==> exists k :: 0 <= k < |xs| && xs[k].name.None?
    ensures r.Thrown? ==> r.error == ArgumentNullException
    ensures r.Returned? ==> CacheOf(xs, r.value.0, r.value.1)
  {
    var order: seq<Option<string>> := [];
    var cache: map<Option<string>, seq<Component>> := map[];
    var i := 0;
    while i < |xs|
      invariant 0 <= i <= |xs|
      invariant forall k :: 0 <= k < i ==> xs[k].name.Some?
      invariant CacheOf(xs[..i], order, cache)
    {
      var c := xs[i];
      if c.name.None? {
        return Thrown(ArgumentNullException);
      }
      ghost var (order0, cache0) := (order, cache);
      if c.name !in cache {
        cache := cache[c.name := []];
        order := order + [c.name];
      }
      cache := cache[c.name := cache[c.name] + [c]];
      CacheStep(xs[..i], c, order0, cache0, order, cache);
      assert xs[..i + 1] == xs[..i] + [c];
      i := i + 1;
    }
    assert xs[..i] == xs;
    return Returned((order, cache));
  }

  /** The inner loop: scan the group until a version differs from the first, then break. */
  method FindDifferentVersion(g: seq<Component>) returns (found: bool)
    requires g != []
    ensures found <==> VersionsDiffer(g)
  {
    var firstVersion := g[0].version;
    found := false;
    var k := 0;
    while k < |g|
      invariant 0 <= k <= |g|
      invariant !found
      invariant forall j :: 0 <= j < k ==> g[j].version == firstVersion
    {
      if g[k].version != firstVersion {
        found := true;
        break;
      }
      k := k + 1;
    }
  }

  /** The second loop: walk the cache in key order and collect the reported groups. */
  method CollectReported(order: seq<Option<string>>, cache: map<Option<string>, seq<Component>>, ghost xs: seq<Component>)
    returns (result: seq<seq<Component>>)
    requires forall n :: n in order ==> n in cache && cache[n] == Group(xs, n) && cache[n] != []
    ensures result == Report(order, xs)
  {
    result := [];
    var i := 0;
    while i < |order|
      invariant 0 <= i <= |order|
      invariant result == Report(order[..i], xs)
    {
      assert order[..i + 1][..i] == order[..i];
      var group := cache[order[i]];
      if |group| > 1 {
        var found := FindDifferentVersion(group);
        if found {
          result := result + [group];
        }
      }
      i := i + 1;
    }
    assert order[..i] == order;
  }

  /** Every name that occurs in a list has a non-empty group. */
  lemma NamedGroupsNonEmpty(xs: seq<Component>)
    ensures forall n :: n in NamesInOrder(xs) ==> Group(xs, n) != []
  {
    forall n | n in NamesInOrder(xs) ensures Group(xs, n) != [] {
      GroupMembers(xs, n);
      var k :| 0 <= k < |xs| && xs[k].name == n;
      assert xs[k] in Group(xs, n);
    }
  }

  /** The analysis of a component list: null list and null names throw, otherwise the
      report of the specification function. */
  method MultipleVersions(components: Option<seq<Component>>) returns (r: Result<seq<seq<Component>>>)
    ensures components.None? ==> r == Thrown(NullReferenceException)
    ensures components.Some? ==>
      (r.Thrown? <==> exists k :: 0 <= k < |components.value| && components.value[k].name.None?)
    ensures r.Thrown? ==> r.error in {NullReferenceException, ArgumentNullException}
    ensures r.Returned? ==> components.Some? && r.value == MultipleComponentVersions(components.value)
  {
    if components.None? {
      return Thrown(NullReferenceException);
    }
    var xs := components.value;
    var filled := FillCache(xs);
    if filled.Thrown? {
      return Thrown(filled.error);
    }
    var order, cache := filled.value.0, filled.value.1;
    NamedGroupsNonEmpty(xs);
    var result := CollectReported(order, cache, xs);
    return Returned(result);
  }

  /** What the analyze command produced: its exit code, when the flag is set the list of
      groups (possibly empty), and the lines of its text report. */
  datatype AnalyzeOutcome = AnalyzeOutcome(exitCode: int, multipleComponentVersions: Option<seq<seq<Component>>>,
                                           report: string)

  /** `InputFileHelper`: no text when there is no file name and standard input is not
      redirected. */
  function InputAvailable(inputFile: Option<string>, stdinRedirected: bool): bool {
    !IsNullOrEmpty(inputFile) || stdinRedirected
  }

  /** Analyze: format and input checks, the reader, then the analysis when asked for.
      `inputBom` is what the library reader returns for the input text; `jsonOutput` is
      whether the output format is json, whose printing is the library's. */
  method Analyze(inputFile: Option<string>, inputFormat: ProgramInputFormat, stdinRedirected: bool,
                 multipleComponentVersions: bool, jsonOutput: bool, inputBom: Bom) returns (r: Result<AnalyzeOutcome>)
    ensures InputFormatHelper(inputFile, inputFormat) == Unsupported || !InputAvailable(inputFile, stdinRedirected)
      ==> r == Returned(AnalyzeOutcome(Code(ParameterValidationError), None, ""))
    ensures InputFormatHelper(inputFile, inputFormat) != Unsupported && InputAvailable(inputFile, stdinRedirected) ==>
      (r.Returned? <==>
        && Utils.BomDeserializer(InputFormatHelper(inputFile, inputFormat)).Returned?
        && (multipleComponentVersions ==> inputBom.components.Some? && AllNamed(inputBom.components.value)))
    ensures r.Returned? && r.value.exitCode == Code(ParameterValidationError) ==>
      InputFormatHelper(inputFile, inputFormat) == Unsupported || !InputAvailable(inputFile, stdinRedirected)
    ensures r.Returned? ==> r.value.exitCode in {Code(Ok), Code(ParameterValidationError)}
    ensures r.Returned? && r.value.exitCode == Code(Ok) ==>
      && Utils.BomDeserializer(InputFormatHelper(inputFile, inputFormat)).Returned?
      && (r.value.multipleComponentVersions.Some? <==> multipleComponentVersions)
      && (multipleComponentVersions ==>
            inputBom.components.Some?
            && r.value.multipleComponentVersions.value == MultipleComponentVersions(inputBom.components.value))
    ensures r.Returned? && r.value.multipleComponentVersions.Some? ==> AllNonEmpty(r.value.multipleComponentVersions.value)
    ensures r.Returned? ==>
      r.value.report == (if r.value.exitCode == Code(Ok) && !jsonOutput then TextOutput(r.value.multipleComponentVersions) else "")
    ensures r.Thrown? ==> r.error in {UnsupportedFormatException, NullReferenceException, ArgumentNullException}
    ensures r.Thrown? && r.error == UnsupportedFormatException ==> InputFormatHelper(inputFile, inputFormat) == SpdxTag
  {
    var inputBomFormat := InputFormatHelper(inputFile, inputFormat);
    if inputBomFormat == Unsupported {
      return Returned(AnalyzeOutcome(Code(ParameterValidationError), None, ""));
    }
    if !InputAvailable(inputFile, stdinRedirected) {
      return Returned(AnalyzeOutcome(Code(ParameterValidationError), None, ""));
    }
    var reader := Utils.BomDeserializer(inputBomFormat);
    if reader.Thrown? {
      return Thrown(reader.error);
    }
    var result: Option<seq<seq<Component>>> := None;
    if multipleComponentVersions {
      var groups := MultipleVersions(inputBom.components);
      if groups.Thrown? {
        return Thrown(groups.error);
      }
      ReportIsExact(inputBom.components.value);
      result := Some(groups.value);
    }
    return Returned(AnalyzeOutcome(Code(Ok), result, if jsonOutput then "" else TextOutput(result)));
  }

  /** Every component has a name, so the name cache can be filled. */
  predicate AllNamed(xs: seq<Component>) {
    forall k :: 0 <= k < |xs| ==> xs[k].name.Some?
  }

  /** Every group holds a member, so its first member's name can be printed. */
  predicate AllNonEmpty(gs: seq<seq<Component>>) {
    forall i :: 0 <= i < |gs| ==> gs[i] != []
  }

  /** One group's entry in the text report: the first member's name, then each member's
      version after a space. A null name or version prints as nothing. */
  function GroupText(g: seq<Component>): (r: string)
    requires g != []
    ensures |r| >= |" versions:"|
  {
    Str(g[0].name) + " versions:" + VersionsText(g)
  }

  /** Each version after a space, in the group's order. */
  function VersionsText(g: seq<Component>): (r: string)
    ensures |r| >= |g|
  {
    if g == [] then "" else VersionsText(g[..|g| - 1]) + " " + Str(g[|g| - 1].version)
  }

  /** The entries as the text report writes them: one after the other, with nothing in
      between. */
  function EntriesRunTogether(gs: seq<seq<Component>>): (r: string)
    requires AllNonEmpty(gs)
    ensures r == "" <==> gs == []
    ensures gs != [] ==> StartsWith(r, GroupText(gs[0]))
  {
    if gs == [] then ""
    else
      var p := gs[..|gs| - 1];
      var e := EntriesRunTogether(p) + GroupText(gs[|gs| - 1]);
      assert p != [] ==> p[0] == gs[0] && e[..|GroupText(gs[0])|] == EntriesRunTogether(p)[..|GroupText(gs[0])|];
      e
  }

  /** The text report as written: heading, blank line, "None" and its line end or all
      entries on a single line, and the closing line end. */
  function ReportTextAsWritten(gs: seq<seq<Component>>): (r: string)
    requires AllNonEmpty(gs)
    ensures StartsWith(r, Text(["Components with multiple versions:", ""]))
  {
    Text(["Components with multiple versions:", ""])
      + (if gs == [] then "None\n\n" else EntriesRunTogether(gs) + "\n")
  }

  /** One line per entry. */
  function EntryLines(gs: seq<seq<Component>>): (r: seq<string>)
    requires AllNonEmpty(gs)
    ensures |r| == |gs|
  {
    if gs == [] then [] else EntryLines(gs[..|gs| - 1]) + [GroupText(gs[|gs| - 1])]
  }

  /** The text report with each entry on its own line, closed by a blank line as the
      "None" report is. */
  function ReportLines(gs: seq<seq<Component>>): (r: seq<string>)
    requires AllNonEmpty(gs)
    ensures |r| >= 4
    ensures r[0] == "Components with multiple versions:" && r[1] == "" && r[|r| - 1] == ""
  {
    ["Components with multiple versions:", ""] + (if gs == [] then ["None"] else EntryLines(gs)) + [""]
  }

  /** The text the command writes: the report as written when the analysis ran, the
      empty string otherwise. */
  function TextOutput(multipleComponentVersions: Option<seq<seq<Component>>>): (r: string)
    requires multipleComponentVersions.Some? ==> AllNonEmpty(multipleComponentVersions.value)
    ensures r == "" <==> multipleComponentVersions.None?
  {
    if multipleComponentVersions.Some? then ReportTextAsWritten(multipleComponentVersions.value) else ""
  }

  /** The entry for a group is on line 2 + k of the report, after the heading and the
      blank line. */
  lemma {:induction false} EntryLineAt(gs: seq<seq<Component>>, k: int)
    requires AllNonEmpty(gs)
    requires 0 <= k < |gs|
    ensures EntryLines(gs)[k] == GroupText(gs[k])
  {
    if k < |gs| - 1 {
      var p := gs[..|gs| - 1];
      assert p[k] == gs[k];
      EntryLineAt(p, k);
    }
  }

  /** The report says "None" exactly when nothing is reported, and otherwise gives the k-th
      reported group's entry on a line of its own. */
  lemma ReportListsGroups(gs: seq<seq<Component>>)
    requires AllNonEmpty(gs)
    ensures ReportLines(gs)[2] == "None" <==> gs == []
    ensures gs == [] ==> |ReportLines(gs)| == 4
    ensures gs != [] ==>
      && |ReportLines(gs)| == 3 + |gs|
      && (forall k :: 0 <= k < |gs| ==> ReportLines(gs)[2 + k] == GroupText(gs[k]))
  {
    if gs != [] {
      forall k | 0 <= k < |gs| ensures ReportLines(gs)[2 + k] == GroupText(gs[k]) {
        EntryLineAt(gs, k);
      }
      assert ReportLines(gs)[2] == GroupText(gs[0]);
    }
  }

  /** With a line per entry, the entries' text is one line end per entry longer than
      the entries run together. */
  lemma {:induction false} EntryTextLength(gs: seq<seq<Component>>)
    requires AllNonEmpty(gs)
    ensures |Text(EntryLines(gs))| == |EntriesRunTogether(gs)| + |gs|
  {
    if gs != [] {
      var p := gs[..|gs| - 1];
      EntryTextLength(p);
      assert EntryLines(gs)[..|gs| - 1] == EntryLines(p);
    }
  }

  /** The report as written is the intended one exactly when nothing is reported: for any
      reported group, it lacks one line end per entry. */
  lemma AsWrittenIsIntendedOnlyForNone(gs: seq<seq<Component>>)
    requires AllNonEmpty(gs)
    ensures ReportTextAsWritten(gs) == Text(ReportLines(gs)) <==> gs == []
  {
    var head := ["Components with multiple versions:", ""];
    TextAppend(head, ["None"]);
    TextAppend(head + ["None"], [""]);
    TextLine("None");
    TextLine("");
    if gs == [] {
      assert ReportLines(gs) == head + ["None"] + [""];
      assert Text(ReportLines(gs)) == Text(head) + ("None" + "\n") + ("" + "\n");
      assert ReportTextAsWritten(gs) == Text(head) + "None\n\n";
    } else {
      EntryTextLength(gs);
      TextAppend(head, EntryLines(gs));
      TextAppend(head + EntryLines(gs), [""]);
      assert ReportLines(gs) == head + EntryLines(gs) + [""];
      assert |Text(ReportLines(gs))| == |Text(head)| + |EntriesRunTogether(gs)| + |gs| + 1;
      assert |ReportTextAsWritten(gs)| == |Text(head)| + |EntriesRunTogether(gs)| + 1;
    }
  }

  /** As written, a non-empty report holds three lines: the heading, a blank line and
      one line carrying every entry. */
  lemma EntriesShareOneLine(gs: seq<seq<Component>>)
    requires AllNonEmpty(gs)
    requires gs != []
    ensures ReportTextAsWritten(gs) == Text(["Components with multiple versions:", "", EntriesRunTogether(gs)])
  {
    var lines := ["Components with multiple versions:", "", EntriesRunTogether(gs)];
    assert lines[..2] == ["Components with multiple versions:", ""];
  }

  /** Two components named A and two named B, each pair with versions 1 and 2. */
  const A1: Component := NewComponent(Library, None, Some("A"), Some("1"))
  const A2: Component := NewComponent(Library, None, Some("A"), Some("2"))
  const B1: Component := NewComponent(Library, None, Some("B"), Some("1"))
  const B2: Component := NewComponent(Library, None, Some("B"), Some("2"))

  /** The names of the four components, in first-seen order. */
  lemma ExampleNames()
    ensures NamesInOrder([A1, B1, A2, B2]) == [Some("A"), Some("B")]
  {
    var xs := [A1, B1, A2, B2];
    var x1, x2, x3 := [A1], [A1, B1], [A1, B1, A2];
    assert xs[..3] == x3 && x3[..2] == x2 && x2[..1] == x1 && x1[..0] == [];
    assert NamesInOrder(x1) == [Some("A")];
    assert NamesInOrder(x2) == [Some("A"), Some("B")];
    assert NamesInOrder(x3) == [Some("A"), Some("B")];
  }

  /** The two groups of the four components. */
  lemma ExampleGroups()
    ensures Group([A1, B1, A2, B2], Some("A")) == [A1, A2]
    ensures Group([A1, B1, A2, B2], Some("B")) == [B1, B2]
  {
    var xs := [A1, B1, A2, B2];
    var x1, x2, x3 := [A1], [A1, B1], [A1, B1, A2];
    assert xs[..3] == x3 && x3[..2] == x2 && x2[..1] == x1 && x1[..0] == [];
    assert A1.name == Some("A") && A2.name == Some("A");
    assert B1.name == Some("B") && B2.name == Some("B");
    assert Group(x1, Some("A")) == [A1];
    assert Group(x1, Some("B")) == [];
    assert Group(x2, Some("A")) == [A1];
    assert Group(x2, Some("B")) == [B1];
    assert Group(x3, Some("A")) == [A1, A2];
    assert Group(x3, Some("B")) == [B1];
  }

  /** Interleaved, the four components give two reported groups. */
  lemma TwoGroupsReported()
    ensures MultipleComponentVersions([A1, B1, A2, B2]) == [[A1, A2], [B1, B2]]
  {
    var xs := [A1, B1, A2, B2];
    ExampleNames();
    ExampleGroups();
    assert Reported([A1, A2]) && Reported([B1, B2]) by {
      assert [A1, A2][1].version != [A1, A2][0].version;
      assert [B1, B2][1].version != [B1, B2][0].version;
    }
    var names := [Some("A"), Some("B")];
    assert names[..1] == [Some("A")] && names[..1][..0] == [];
    assert Report(names[..1], xs) == [[A1, A2]];
  }

  /** The entries of the two groups. */
  lemma TwoGroupsEntries()
    ensures GroupText([A1, A2]) == "A versions: 1 2"
    ensures GroupText([B1, B2]) == "B versions: 1 2"
  {
    assert [A1, A2][..1] == [A1] && [A1][..0] == [];
    assert VersionsText([A1]) == " 1";
    assert [B1, B2][..1] == [B1] && [B1][..0] == [];
    assert VersionsText([B1]) == " 1";
  }

  /** The two groups reported for the four components (`TwoGroupsReported`): as written
      their entries share one line of the report and run into each other. */
  lemma GroupsRunTogether()
    ensures ReportTextAsWritten([[A1, A2], [B1, B2]])
      == Text(["Components with multiple versions:", "", "A versions: 1 2" + "B versions: 1 2"])
  {
    TwoGroupsEntries();
    var gs := [[A1, A2], [B1, B2]];
    assert EntriesRunTogether(gs[..1]) == "A versions: 1 2" by {
      assert gs[..1] == [[A1, A2]] && gs[..1][..0] == [];
      assert EntriesRunTogether(gs[..1][..0]) == "";
    }
    var entries := "A versions: 1 2" + "B versions: 1 2";
    assert EntriesRunTogether(gs) == entries;
    var lines := ["Components with multiple versions:", "", entries];
    assert lines[..2] == ["Components with multiple versions:", ""];
  }

  /** With a line per entry, each of the two groups stands on a line of its own. */
  lemma GroupsOnOwnLines()
    ensures ReportLines([[A1, A2], [B1, B2]])
      == ["Components with multiple versions:", "", "A versions: 1 2", "B versions: 1 2", ""]
  {
    TwoGroupsEntries();
    var gs := [[A1, A2], [B1, B2]];
    assert EntryLines(gs) == ["A versions: 1 2", "B versions: 1 2"] by {
      assert gs[..1] == [[A1, A2]] && gs[..1][..0] == [];
    }
  }
}
