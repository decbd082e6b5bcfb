/** What both revisions of the SPDX tag-value writer (cyclonedx/SpdxTagSerializer.cs and
    cyclonedx/Serializers/SpdxTagSerializer.cs) write alike: the three opening lines of
    section 2 of the SPDX 2.2 specification, the document reference taken from the serial
    number, the SPDX identifier alphabet of section 3.2, checksum lines, the declared
    licence expression with `LicenseRef-n` for licences without an SPDX id, the trailing
    blocks of section 6 that define those references, CPE references and author lines.
    A document is a sequence of lines; `Text` of TextWriters gives the characters. */
module Spdx {
  import opened Wrappers
  import opened Strings
  import opened BomModel
  import opened TextWriters
  import opened Formats

  // ---------------------------------------------------------------- document header

  /** The version line, the data licence required by the specification and the
      document's own identifier. */
  function HeaderLines(version: SpdxVersion): seq<string> {
    ["SPDXVersion: SPDX-" + (if version == v2_1 then "2.1" else "2.2"),
     "DataLicense: CC0-1.0",
     "SPDXID: SPDXRef-DOCUMENT"]
  }

  method WriteHeader(writer: TextWriter, version: SpdxVersion)
    modifies writer
    ensures writer.text == old(writer.text) + Text(HeaderLines(version))
  {
    var start := writer.text;
    var number := if version == v2_1 then "2.1" else "2.2";
    writer.Write("SPDXVersion: SPDX-");
    writer.Write(number);
    writer.EndLine();
    var lines := ["SPDXVersion: SPDX-" + number];
    assert writer.text == start + Text(lines) by {
      Pieces(start, [], "SPDXVersion: SPDX-", number);
    }
    writer.WriteLine("DataLicense: CC0-1.0");
    assert writer.text == start + Text(lines + ["DataLicense: CC0-1.0"]) by {
      Line(start, lines, "DataLicense: CC0-1.0");
    }
    lines := lines + ["DataLicense: CC0-1.0"];
    writer.WriteLine("SPDXID: SPDXRef-DOCUMENT");
    assert writer.text == start + Text(lines + ["SPDXID: SPDXRef-DOCUMENT"]) by {
      Line(start, lines, "SPDXID: SPDXRef-DOCUMENT");
    }
    lines := lines + ["SPDXID: SPDXRef-DOCUMENT"];
    assert lines == HeaderLines(version);
  }

  const UrnPrefix := "urn:uuid:"

  /** The reference that ends the document namespace: a fresh GUID (a parameter here) for
      a null or empty serial number, the serial number without "urn:uuid:" when it starts
      with it, else the serial number as it is. */
  function BomSpdxRef(serialNumber: Option<string>, guid: string): string {
    if IsNullOrEmpty(serialNumber) then guid
    else if StartsWith(serialNumber.value, UrnPrefix) then serialNumber.value[|UrnPrefix|..]
    else serialNumber.value
  }

  /** The serial number is recovered from the reference: the GUID stands in only for a
      missing serial number, and only a leading "urn:uuid:" is dropped. */
  lemma SerialNumberKept(serialNumber: Option<string>, guid: string)
    ensures IsNullOrEmpty(serialNumber) ==> BomSpdxRef(serialNumber, guid) == guid
    ensures !IsNullOrEmpty(serialNumber) && StartsWith(serialNumber.value, UrnPrefix) ==>
      UrnPrefix + BomSpdxRef(serialNumber, guid) == serialNumber.value
    ensures !IsNullOrEmpty(serialNumber) && !StartsWith(serialNumber.value, UrnPrefix) ==>
      BomSpdxRef(serialNumber, guid) == serialNumber.value
  {
    if !IsNullOrEmpty(serialNumber) && StartsWith(serialNumber.value, UrnPrefix) {
      var s := serialNumber.value;
      assert s == s[..|UrnPrefix|] + s[|UrnPrefix|..];
    }
  }

  /** The namespace line: the fixed host, the document name and the BOM's reference. */
  function NamespaceLine(documentRef: string, bomSpdxRef: string): string {
    "DocumentNamespace: http://spdx.org/spdxdocs/" + documentRef + "-" + bomSpdxRef
  }

  // ---------------------------------------------------------------- identifiers

  /** The characters an SPDX identifier may hold (section 3.2 of the SPDX 2.2
      specification): letters, digits, '.' and '-'. */
  predicate IdChar(c: char) {
    'a' <= c <= 'z' || 'A' <= c <= 'Z' || '0' <= c <= '9' || c == '.' || c == '-'
  }

  predicate IsIdString(s: string) {
    forall i :: 0 <= i < |s| ==> IdChar(s[i])
  }

  /** SpdxIdString: every character outside the identifier alphabet replaced by '-'. */
  function SpdxIdString(value: string): (r: string)
    ensures |r| == |value|
  {
    if value == [] then []
    else
      var c := value[|value| - 1];
      SpdxIdString(value[..|value| - 1]) + [if IdChar(c) then c else '-']
  }

  /** Each character is kept when it may appear in an identifier and replaced by '-'
      otherwise. */
  lemma {:induction false} SpdxIdStringAt(value: string)
    ensures forall i :: 0 <= i < |value| ==>
      SpdxIdString(value)[i] == if IdChar(value[i]) then value[i] else '-'
  {
    if value != [] {
      var init := value[..|value| - 1];
      SpdxIdStringAt(init);
      assert SpdxIdString(value)[..|init|] == SpdxIdString(init);
    }
  }

  /** The result is always a well-formed identifier string. */
  lemma SpdxIdStringIsId(value: string)
    ensures IsIdString(SpdxIdString(value))
  {
    SpdxIdStringAt(value);
  }

  /** A well-formed identifier string is left as it is. */
  lemma SpdxIdStringKeepsIds(value: string)
    requires IsIdString(value)
    ensures SpdxIdString(value) == value
  {
    SpdxIdStringAt(value);
  }

  /** Sanitising twice is sanitising once. */
  lemma SpdxIdStringIdempotent(value: string)
    ensures SpdxIdString(SpdxIdString(value)) == SpdxIdString(value)
  {
    SpdxIdStringIsId(value);
    SpdxIdStringKeepsIds(SpdxIdString(value));
  }

  /** A component's identifier: its position counted from 1 when it has no bom-ref, else
      the sanitised bom-ref. */
  function ComponentSpdxRef(c: Component, index: nat): string {
    if IsNullOrEmpty(c.bomRef) then IntToString(index + 1) else SpdxIdString(c.bomRef.value)
  }

  /** `SPDXRef-` followed by a component's identifier is a valid SPDX identifier: the
      identifier is never empty and uses only the identifier alphabet. */
  lemma ComponentSpdxRefIsId(c: Component, index: nat)
    ensures ComponentSpdxRef(c, index) != ""
    ensures IsIdString(ComponentSpdxRef(c, index))
  {
    if !IsNullOrEmpty(c.bomRef) {
      SpdxIdStringIsId(c.bomRef.value);
    }
  }

  // ---------------------------------------------------------------- checksums

  /** The SPDX name of a hash algorithm, or None for one that gets no checksum line.
      `md5` is whether the revision has the MD5 case: the newer one does, the earlier one
      does not. SHA-384 and SHA-512 are written only for SPDX 2.2. */
  function ChecksumName(alg: HashAlgorithm, version: SpdxVersion, md5: bool): Option<string> {
    match alg
    case MD5 => if md5 then Some("MD5") else None
    case SHA_1 => Some("SHA1")
    case SHA_256 => Some("SHA256")
    case SHA_384 => if version == v2_2 then Some("SHA384") else None
    case SHA_512 => if version == v2_2 then Some("SHA512") else None
    case _ => None
  }

  /** Which algorithms get a line: SHA-1 and SHA-256 always, MD5 where the revision has it,
      SHA-384 and SHA-512 for version 2.2, no other. */
  lemma ChecksumSupport(alg: HashAlgorithm, version: SpdxVersion, md5: bool)
    ensures ChecksumName(alg, version, md5).Some? <==>
      alg == SHA_1 || alg == SHA_256 || (md5 && alg == MD5)
      || (version == v2_2 && (alg == SHA_384 || alg == SHA_512))
  {
  }

  function ChecksumLine(name: string, h: Hash): string {
    "PackageChecksum: " + name + ": " + Str(h.content)
  }

  /** One line per hash whose algorithm has an SPDX name, in the hashes' order. */
  function ChecksumLines(hashes: seq<Hash>, version: SpdxVersion, md5: bool): seq<string> {
    if hashes == [] then []
    else
      var h := hashes[|hashes| - 1];
      var name := ChecksumName(h.alg, version, md5);
      ChecksumLines(hashes[..|hashes| - 1], version, md5)
      + (if name.Some? then [ChecksumLine(name.value, h)] else [])
  }

  /** The lines follow the hashes' order: the lines of a list are those of its first part
      followed by those of the rest. */
  lemma {:induction false} ChecksumLinesAppend(a: seq<Hash>, b: seq<Hash>, version: SpdxVersion, md5: bool)
    ensures ChecksumLines(a + b, version, md5) == ChecksumLines(a, version, md5) + ChecksumLines(b, version, md5)
    decreases |b|
  {
    if b == [] {
      assert a + b == a;
    } else {
      var b' := b[..|b| - 1];
      assert (a + b)[..|a + b| - 1] == a + b';
      ChecksumLinesAppend(a, b', version, md5);
    }
  }

  /** The hashes other than MD5, in order. */
  function WithoutMd5(hashes: seq<Hash>): (r: seq<Hash>)
    ensures forall i :: 0 <= i < |r| ==> r[i].alg != MD5
  {
    if hashes == [] then []
    else
      var h := hashes[|hashes| - 1];
      WithoutMd5(hashes[..|hashes| - 1]) + (if h.alg == MD5 then [] else [h])
  }

  /** Without the MD5 case a revision writes what the other writes for the hashes other
      than MD5. */
  lemma {:induction false} NoMd5Lines(hashes: seq<Hash>, version: SpdxVersion)
    ensures ChecksumLines(hashes, version, false) == ChecksumLines(WithoutMd5(hashes), version, true)
  {
    if hashes != [] {
      var init := hashes[..|hashes| - 1];
      var h := hashes[|hashes| - 1];
      NoMd5Lines(init, version);
      ChecksumLinesAppend(WithoutMd5(init), if h.alg == MD5 then [] else [h], version, true);
      if h.alg != MD5 {
        assert [h][..0] == [];
      }
    }
  }

  /** The hash loop: the name from the switches, a line when there is one. */
  method WriteChecksums(writer: TextWriter, hashes: seq<Hash>, version: SpdxVersion, md5: bool)
    modifies writer
    ensures writer.text == old(writer.text) + Text(ChecksumLines(hashes, version, md5))
  {
    var start := writer.text;
    for i := 0 to |hashes|
      invariant writer.text == start + Text(ChecksumLines(hashes[..i], version, md5))
    {
      assert hashes[..i + 1][..i] == hashes[..i];
      var name := ChecksumName(hashes[i].alg, version, md5);
      if name.Some? {
        writer.WriteLine(ChecksumLine(name.value, hashes[i]));
        Line(start, ChecksumLines(hashes[..i], version, md5), ChecksumLine(name.value, hashes[i]));
      } else {
        assert ChecksumLines(hashes[..i + 1], version, md5) == ChecksumLines(hashes[..i], version, md5);
      }
    }
    assert hashes[..|hashes|] == hashes;
  }

  // ---------------------------------------------------------------- licences

  function LicensesOf(c: Component): seq<LicenseChoice> {
    if c.licenses.Some? then c.licenses.value else []
  }

  /** A licence object without an SPDX id: it is cited as `LicenseRef-n` and defined in a
      trailing block. */
  predicate NeedsRef(l: LicenseChoice) {
    l.license.Some? && IsNullOrEmpty(l.license.value.id)
  }

  /** The licences added to the non-SPDX list, in order, duplicates included. */
  function IdLess(ls: seq<LicenseChoice>): (r: seq<License>)
    ensures |r| <= |ls|
  {
    if ls == [] then []
    else
      var l := ls[|ls| - 1];
      IdLess(ls[..|ls| - 1]) + (if NeedsRef(l) then [l.license.value] else [])
  }

  lemma {:induction false} IdLessAppend(a: seq<LicenseChoice>, b: seq<LicenseChoice>)
    ensures IdLess(a + b) == IdLess(a) + IdLess(b)
    decreases |b|
  {
    if b == [] {
      assert a + b == a;
    } else {
      var b' := b[..|b| - 1];
      assert (a + b)[..|a + b| - 1] == a + b';
      IdLessAppend(a, b');
    }
  }

  /** One term of the declared licence: the SPDX id, a reference numbered after the
      `count` id-less licences before it, or the expression in parentheses. */
  function LicenseTerm(l: LicenseChoice, count: nat): string {
    if l.license.Some? then
      if !IsNullOrEmpty(l.license.value.id) then l.license.value.id.value
      else "LicenseRef-" + IntToString(count + 1)
    else "(" + Str(l.expression) + ")"
  }

  /** The terms joined by " AND "; `before` id-less licences precede the list. */
  function Terms(ls: seq<LicenseChoice>, before: nat): string {
    if ls == [] then ""
    else
      var init := ls[..|ls| - 1];
      Terms(init, before) + (if init != [] then " AND " else "")
      + LicenseTerm(ls[|ls| - 1], before + |IdLess(init)|)
  }

  /** The declared licence: NOASSERTION for a null or empty list, else the terms,
      parenthesised when there is more than one. */
  function DeclaredLine(licenses: Option<seq<LicenseChoice>>, before: nat): string {
    if licenses.Some? && |licenses.value| > 0 then
      var ls := licenses.value;
      "PackageLicenseDeclared: " + (if |ls| > 1 then "(" else "") + Terms(ls, before) + (if |ls| > 1 then ")" else "")
    else "PackageLicenseDeclared: NOASSERTION"
  }

  /** The declared licence line. It returns the non-SPDX list with this component's
      id-less licences added, so that the caller, which owns the list, keeps it. */
  method WriteDeclaredLicenses(writer: TextWriter, licenses: Option<seq<LicenseChoice>>, nonSpdx: seq<License>)
    returns (updated: seq<License>)
    modifies writer
    ensures writer.text == old(writer.text) + Text([DeclaredLine(licenses, |nonSpdx|)])
    ensures updated == nonSpdx + IdLess(if licenses.Some? then licenses.value else [])
  {
    if licenses.Some? && |licenses.value| > 0 {
      updated := WriteLicenseList(writer, licenses.value, nonSpdx);
    } else {
      writer.WriteLine("PackageLicenseDeclared: NOASSERTION");
      TextLine("PackageLicenseDeclared: NOASSERTION");
      updated := nonSpdx;
      assert IdLess(if licenses.Some? then licenses.value else []) == [];
    }
  }

  /** The declared licence line for a non-empty list: the terms, in parentheses when
      there are several. */
  method WriteLicenseList(writer: TextWriter, ls: seq<LicenseChoice>, nonSpdx: seq<License>)
    returns (updated: seq<License>)
    requires |ls| > 0
    modifies writer
    ensures writer.text == old(writer.text) + Text([DeclaredLine(Some(ls), |nonSpdx|)])
    ensures updated == nonSpdx + IdLess(ls)
  {
    var start := writer.text;
    var open := if |ls| > 1 then "(" else "";
    var close := if |ls| > 1 then ")" else "";
    writer.Write("PackageLicenseDeclared: ");
    if |ls| > 1 {
      writer.Write("(");
    } else {
      assert writer.text == start + "PackageLicenseDeclared: " + open;
    }
    updated := WriteTerms(writer, ls, nonSpdx);
    var mid := writer.text;
    if |ls| > 1 {
      writer.Write(")");
    } else {
      assert writer.text == mid + close;
    }
    writer.EndLine();
    PiecesLine(start, "PackageLicenseDeclared: ", open, Terms(ls, |nonSpdx|), close);
  }

  /** A line written in four pieces and ended. */
  lemma PiecesLine(start: string, a: string, b: string, c: string, d: string)
    ensures start + a + b + c + d + "\n" == start + Text([a + b + c + d])
  {
    Assoc(start, a, b);
    Assoc(start, a + b, c);
    OneLine(start, a + b + c, d);
  }

  /** The licence loop: the terms of a non-empty list, separated by " AND ". */
  method WriteTerms(writer: TextWriter, ls: seq<LicenseChoice>, nonSpdx: seq<License>)
    returns (updated: seq<License>)
    modifies writer
    ensures writer.text == old(writer.text) + Terms(ls, |nonSpdx|)
    ensures updated == nonSpdx + IdLess(ls)
  {
    var start := writer.text;
    updated := nonSpdx;
    for i := 0 to |ls|
      invariant writer.text == start + Terms(ls[..i], |nonSpdx|)
      invariant updated == nonSpdx + IdLess(ls[..i])
    {
      updated := WriteTerm(writer, ls[i], i == 0, updated);
      TermsStep(ls, i, |nonSpdx|);
      Assoc(start, Terms(ls[..i], |nonSpdx|), TermText(ls, i, |nonSpdx|));
      Assoc(nonSpdx, IdLess(ls[..i]), if NeedsRef(ls[i]) then [ls[i].license.value] else []);
    }
    assert ls[..|ls|] == ls;
  }

  /** What the i-th pass of the licence loop writes. */
  function TermText(ls: seq<LicenseChoice>, i: nat, before: nat): string
    requires i < |ls|
  {
    (if i == 0 then "" else " AND ") + LicenseTerm(ls[i], before + |IdLess(ls[..i])|)
  }

  /** One more pass of the licence loop extends the terms and the id-less list. */
  lemma TermsStep(ls: seq<LicenseChoice>, i: nat, before: nat)
    requires i < |ls|
    ensures Terms(ls[..i + 1], before) == Terms(ls[..i], before) + TermText(ls, i, before)
    ensures IdLess(ls[..i + 1]) == IdLess(ls[..i]) + (if NeedsRef(ls[i]) then [ls[i].license.value] else [])
  {
    var s := ls[..i + 1];
    assert s[..|s| - 1] == ls[..i] && s[|s| - 1] == ls[i];
    TermsSnoc(ls[..i], ls[i], before);
  }

  /** The terms of a list with one more licence: the separator, unless the list was
      empty, and that licence's term. */
  lemma TermsSnoc(init: seq<LicenseChoice>, l: LicenseChoice, before: nat)
    ensures Terms(init + [l], before)
      == Terms(init, before) + ((if init == [] then "" else " AND ") + LicenseTerm(l, before + |IdLess(init)|))
  {
    var s := init + [l];
    assert s[..|s| - 1] == init && s[|s| - 1] == l;
    Assoc(Terms(init, before), if init == [] then "" else " AND ", LicenseTerm(l, before + |IdLess(init)|));
  }

  /** One pass of the licence loop: the separator, then the term; an id-less licence is
      added to the list and cited by the list's new length. */
  method WriteTerm(writer: TextWriter, l: LicenseChoice, first: bool, nonSpdx: seq<License>)
    returns (updated: seq<License>)
    modifies writer
    ensures writer.text == old(writer.text) + ((if first then "" else " AND ") + LicenseTerm(l, |nonSpdx|))
    ensures updated == nonSpdx + (if NeedsRef(l) then [l.license.value] else [])
  {
    var start := writer.text;
    var sep := if first then "" else " AND ";
    if !first {
      writer.Write(" AND ");
    } else {
      assert writer.text == start + "";
    }
    updated := nonSpdx;
    if l.license.Some? {
      if !IsNullOrEmpty(l.license.value.id) {
        writer.Write(l.license.value.id.value);
      } else {
        updated := updated + [l.license.value];
        writer.Write("LicenseRef-" + IntToString(|updated|));
      }
    } else {
      writer.Write("(" + Str(l.expression) + ")");
    }
    Assoc(start, sep, LicenseTerm(l, |nonSpdx|));
  }

  /** The concluded-licence line, always NOASSERTION, then the declared-licence line. */
  method WriteLicenseLines(writer: TextWriter, c: Component, nonSpdx: seq<License>)
    returns (updated: seq<License>)
    modifies writer
    ensures writer.text == old(writer.text)
      + Text(["PackageLicenseConcluded: NOASSERTION", DeclaredLine(c.licenses, |nonSpdx|)])
    ensures updated == nonSpdx + IdLess(LicensesOf(c))
  {
    var start := writer.text;
    var concluded := "PackageLicenseConcluded: NOASSERTION";
    writer.WriteLine(concluded);
    TextLine(concluded);
    assert writer.text == start + Text([concluded]);
    var declared := DeclaredLine(c.licenses, |nonSpdx|);
    updated := WriteDeclaredLicenses(writer, c.licenses, nonSpdx);
    Lines(start, [concluded], [declared]);
    assert [concluded] + [declared] == [concluded, declared];
  }

  /** The position of an id-less licence among those of its list is the number of id-less
      licences before it, and the reference written for it carries that number plus one. */
  lemma {:induction false} TermReference(ls: seq<LicenseChoice>, j: nat, before: nat)
    requires j < |ls| && NeedsRef(ls[j])
    ensures |IdLess(ls[..j])| < |IdLess(ls)|
    ensures IdLess(ls)[|IdLess(ls[..j])|] == ls[j].license.value
    ensures LicenseTerm(ls[j], before + |IdLess(ls[..j])|)
      == "LicenseRef-" + IntToString(before + |IdLess(ls[..j])| + 1)
  {
    assert ls == ls[..j + 1] + ls[j + 1..];
    IdLessAppend(ls[..j + 1], ls[j + 1..]);
    assert ls[..j + 1][..j] == ls[..j];
  }

  /** The non-SPDX list after the components: each component's id-less licences in turn. */
  function NonSpdxOf(cs: seq<Component>): seq<License> {
    if cs == [] then [] else NonSpdxOf(cs[..|cs| - 1]) + IdLess(LicensesOf(cs[|cs| - 1]))
  }

  lemma {:induction false} NonSpdxOfAppend(a: seq<Component>, b: seq<Component>)
    ensures NonSpdxOf(a + b) == NonSpdxOf(a) + NonSpdxOf(b)
    decreases |b|
  {
    if b == [] {
      assert a + b == a;
    } else {
      var b', last := b[..|b| - 1], b[|b| - 1];
      assert (a + b)[..|a + b| - 1] == a + b' && (a + b)[|a + b| - 1] == last;
      NonSpdxOfAppend(a, b');
      calc {
        NonSpdxOf(a + b);
        NonSpdxOf(a + b') + IdLess(LicensesOf(last));
        NonSpdxOf(a) + NonSpdxOf(b') + IdLess(LicensesOf(last));
        { Assoc(NonSpdxOf(a), NonSpdxOf(b'), IdLess(LicensesOf(last))); }
        NonSpdxOf(a) + NonSpdxOf(b);
      }
    }
  }

  /** The numbering across the document: the reference written for the j-th licence of
      the i-th component is `LicenseRef-(n+1)`, where n counts the id-less licences
      before it, and the n-th entry (from 0) of the collected list, whose trailing block
      `LicenseBlockLines` numbers n+1, is exactly that licence. */
  lemma ReferenceDefined(cs: seq<Component>, i: nat, j: nat)
    requires i < |cs| && j < |LicensesOf(cs[i])| && NeedsRef(LicensesOf(cs[i])[j])
    ensures var n := |NonSpdxOf(cs[..i])| + |IdLess(LicensesOf(cs[i])[..j])|;
      && LicenseTerm(LicensesOf(cs[i])[j], n) == "LicenseRef-" + IntToString(n + 1)
      && n < |NonSpdxOf(cs)|
      && NonSpdxOf(cs)[n] == LicensesOf(cs[i])[j].license.value
  {
    var ls, front := LicensesOf(cs[i]), NonSpdxOf(cs[..i]);
    var k := |IdLess(ls[..j])|;
    TermReference(ls, j, |front|);
    NonSpdxAround(cs, i);
    var all := NonSpdxOf(cs);
    assert all[|front| + k] == IdLess(ls)[k] by {
      assert all == front + IdLess(ls) + NonSpdxOf(cs[i + 1..]);
    }
  }

  /** The non-SPDX list splits around any one component. */
  lemma NonSpdxAround(cs: seq<Component>, i: nat)
    requires i < |cs|
    ensures NonSpdxOf(cs) == NonSpdxOf(cs[..i]) + IdLess(LicensesOf(cs[i])) + NonSpdxOf(cs[i + 1..])
  {
    NonSpdxOfSplit(cs, i + 1);
    assert cs[..i + 1][..i] == cs[..i];
  }

  lemma NonSpdxOfSplit(cs: seq<Component>, k: nat)
    requires k <= |cs|
    ensures NonSpdxOf(cs) == NonSpdxOf(cs[..k]) + NonSpdxOf(cs[k..])
  {
    assert cs[..k] + cs[k..] == cs;
    NonSpdxOfAppend(cs[..k], cs[k..]);
  }

  /** The block defining the n-th non-SPDX licence: a blank line, its reference, the
      extracted text when there is some, its name and its URL when there is one. */
  function LicenseBlockLines(n: nat, l: License, enc: string -> string): (r: seq<string>)
    ensures |r| >= 3
    ensures r[0] == "" && r[1] == "LicenseID: LicenseRef-" + IntToString(n)
  {
    [""]
    + ["LicenseID: LicenseRef-" + IntToString(n)]
    + (if l.text.Some? && !IsNullOrEmpty(l.text.value.content)
       then ["ExtractedText: <text>\"" + Str(l.name) + "\": " + enc(l.text.value.content.value) + "</text>"]
       else [])
    + ["LicenseName: " + Str(l.name)]
    + (if !IsNullOrEmpty(l.url) then ["LicenseCrossReference: " + l.url.value] else [])
  }

  /** The trailing blocks, numbered from 1 in list order. */
  function LicenseBlocks(ls: seq<License>, enc: string -> string): seq<string> {
    if ls == [] then []
    else LicenseBlocks(ls[..|ls| - 1], enc) + LicenseBlockLines(|ls|, ls[|ls| - 1], enc)
  }

  /** There is one block per listed licence, no fewer: never deduplicated. */
  lemma {:induction false} LicenseBlocksLength(ls: seq<License>, enc: string -> string)
    ensures |LicenseBlocks(ls, enc)| >= 3 * |ls|
  {
    if ls != [] {
      LicenseBlocksLength(ls[..|ls| - 1], enc);
    }
  }

  /** The blocks of a prefix of the list are a prefix of the blocks of the list. */
  lemma {:induction false} LicenseBlocksPrefix(ls: seq<License>, k: nat, enc: string -> string)
    requires k <= |ls|
    ensures LicenseBlocks(ls[..k], enc) <= LicenseBlocks(ls, enc)
    decreases |ls|
  {
    if k < |ls| {
      var init := ls[..|ls| - 1];
      assert init[..k] == ls[..k];
      LicenseBlocksPrefix(init, k, enc);
    } else {
      assert ls[..k] == ls;
    }
  }

  /** The k-th licence of the list (from 0) gets the block defining `LicenseRef-(k+1)`,
      right after the blocks of the licences before it. */
  lemma LicenseBlockAt(ls: seq<License>, k: nat, enc: string -> string)
    requires k < |ls|
    ensures var off := |LicenseBlocks(ls[..k], enc)|;
      && off + |LicenseBlockLines(k + 1, ls[k], enc)| <= |LicenseBlocks(ls, enc)|
      && LicenseBlocks(ls, enc)[off..off + |LicenseBlockLines(k + 1, ls[k], enc)|] == LicenseBlockLines(k + 1, ls[k], enc)
      && LicenseBlocks(ls, enc)[off + 1] == "LicenseID: LicenseRef-" + IntToString(k + 1)
  {
    var prefix := ls[..k + 1];
    assert prefix[..k] == ls[..k];
    LicenseBlocksPrefix(ls, k + 1, enc);
  }

  method WriteLicenseBlock(writer: TextWriter, n: nat, l: License, enc: string -> string)
    modifies writer
    ensures writer.text == old(writer.text) + Text(LicenseBlockLines(n, l, enc))
  {
    var start := writer.text;
    writer.WriteLine("");
    Line(start, [], "");
    var lines := [""];
    writer.WriteLine("LicenseID: LicenseRef-" + IntToString(n));
    Line(start, lines, "LicenseID: LicenseRef-" + IntToString(n));
    lines := lines + ["LicenseID: LicenseRef-" + IntToString(n)];
    var extracted: seq<string> := [];
    if l.text.Some? && !IsNullOrEmpty(l.text.value.content) {
      var line := "ExtractedText: <text>\"" + Str(l.name) + "\": " + enc(l.text.value.content.value) + "</text>";
      writer.WriteLine(line);
      Line(start, lines, line);
      extracted := [line];
    } else {
      assert lines + extracted == lines;
    }
    lines := lines + extracted;
    writer.WriteLine("LicenseName: " + Str(l.name));
    Line(start, lines, "LicenseName: " + Str(l.name));
    lines := lines + ["LicenseName: " + Str(l.name)];
    if !IsNullOrEmpty(l.url) {
      writer.WriteLine("LicenseCrossReference: " + l.url.value);
      Line(start, lines, "LicenseCrossReference: " + l.url.value);
      lines := lines + ["LicenseCrossReference: " + l.url.value];
    }
    assert lines == LicenseBlockLines(n, l, enc);
  }

  /** The final loop over the non-SPDX list. */
  method WriteLicenseBlocks(writer: TextWriter, ls: seq<License>, enc: string -> string)
    modifies writer
    ensures writer.text == old(writer.text) + Text(LicenseBlocks(ls, enc))
  {
    var start := writer.text;
    for i := 0 to |ls|
      invariant writer.text == start + Text(LicenseBlocks(ls[..i], enc))
    {
      assert ls[..i + 1][..i] == ls[..i];
      WriteLicenseBlock(writer, i + 1, ls[i], enc);
      Lines(start, LicenseBlocks(ls[..i], enc), LicenseBlockLines(i + 1, ls[i], enc));
    }
    assert ls[..|ls|] == ls;
  }

  // ---------------------------------------------------------------- other package lines

  /** The supplier line, when there is a supplier. */
  function SupplierLines(c: Component): seq<string> {
    if c.supplier.Some? then ["PackageSupplier: Organization: " + Str(c.supplier.value.name) + " ()"] else []
  }

  /** The originator: the author, else the publisher, else no line. */
  function OriginatorLines(c: Component): seq<string> {
    if c.author.Some? then ["PackageOriginator: Person: " + c.author.value + " ()"]
    else if c.publisher.Some? then ["PackageOriginator: Person: " + c.publisher.value + " ()"]
    else []
  }

  /** The copyright line: NOASSERTION when empty, else the HTML-encoded text. */
  function CopyrightLine(c: Component, enc: string -> string): string {
    if IsNullOrEmpty(c.copyright) then "PackageCopyrightText: NOASSERTION"
    else "PackageCopyrightText: <text>" + enc(c.copyright.value) + "</text>"
  }

  /** A CPE reference, typed by its prefix compared without regard to case; a CPE of
      neither version gives no line. */
  function CpeLines(cpe: Option<string>): seq<string> {
    if IsNullOrEmpty(cpe) then []
    else if StartsWith(ToLower(cpe.value), "cpe:2.2:") then ["ExternalRef: SECURITY cpe22Type " + cpe.value]
    else if StartsWith(ToLower(cpe.value), "cpe:2.3:") then ["ExternalRef: SECURITY cpe23Type " + cpe.value]
    else []
  }

  /** A CPE line is written exactly for a CPE of version 2.2 or 2.3, and it carries the
      CPE as given, not lower-cased. */
  lemma CpeLineWhenVersioned(cpe: Option<string>)
    ensures |CpeLines(cpe)| <= 1
    ensures CpeLines(cpe) != [] <==>
      cpe.Some? && (StartsWith(ToLower(cpe.value), "cpe:2.2:") || StartsWith(ToLower(cpe.value), "cpe:2.3:"))
    ensures CpeLines(cpe) != [] ==> EndsWith(CpeLines(cpe)[0], cpe.value)
  {
    if CpeLines(cpe) != [] {
      var l := CpeLines(cpe)[0];
      assert l[|l| - |cpe.value|..] == cpe.value;
    }
  }

  method WriteCpe(writer: TextWriter, cpe: Option<string>)
    modifies writer
    ensures writer.text == old(writer.text) + Text(CpeLines(cpe))
  {
    if !IsNullOrEmpty(cpe) {
      if StartsWith(ToLower(cpe.value), "cpe:2.2:") {
        WriteReference(writer, "ExternalRef: SECURITY cpe22Type ", cpe.value);
      } else if StartsWith(ToLower(cpe.value), "cpe:2.3:") {
        WriteReference(writer, "ExternalRef: SECURITY cpe23Type ", cpe.value);
      } else {
        assert writer.text == old(writer.text) + Text([]);
      }
    } else {
      assert writer.text == old(writer.text) + Text([]);
    }
  }

  /** A reference line written as its kind, then the value and the line end. */
  method WriteReference(writer: TextWriter, kind: string, value: string)
    modifies writer
    ensures writer.text == old(writer.text) + Text([kind + value])
  {
    var start := writer.text;
    writer.Write(kind);
    writer.WriteLine(value);
    Assoc(start + kind, value, "\n");
    OneLine(start, kind, value);
  }

  // ---------------------------------------------------------------- creators

  function AuthorLine(a: OrganizationalContact): string {
    "Creator: Person: " + Str(a.name) + " (" + Str(a.email) + ")"
  }

  /** One creator line per author, in order. */
  function AuthorLines(authors: seq<OrganizationalContact>): seq<string> {
    if authors == [] then []
    else AuthorLines(authors[..|authors| - 1]) + [AuthorLine(authors[|authors| - 1])]
  }

  /** Exactly one line per author, each naming a person. */
  lemma {:induction false} AuthorLinesEach(authors: seq<OrganizationalContact>)
    ensures |AuthorLines(authors)| == |authors|
    ensures forall i :: 0 <= i < |authors| ==> AuthorLines(authors)[i] == AuthorLine(authors[i])
  {
    if authors != [] {
      AuthorLinesEach(authors[..|authors| - 1]);
    }
  }

  /** No author line is a tool line. */
  lemma AuthorLineNotTool(a: OrganizationalContact)
    ensures StartsWith(AuthorLine(a), "Creator: Person: ")
    ensures !StartsWith(AuthorLine(a), ToolCreatorLine)
  {
    assert AuthorLine(a)[9] == 'P';
  }

  /** The one creator line for this program. */
  const ToolCreatorLine := "Creator: Tool: CycloneDX-CLI"

  /** The author loop; a null list writes nothing. */
  method WriteAuthors(writer: TextWriter, authors: Option<seq<OrganizationalContact>>)
    modifies writer
    ensures writer.text == old(writer.text) + Text(AuthorLines(if authors.Some? then authors.value else []))
  {
    var start := writer.text;
    var list := if authors.Some? then authors.value else [];
    for i := 0 to |list|
      invariant writer.text == start + Text(AuthorLines(list[..i]))
    {
      AuthorLinesStep(list, i);
      writer.WriteLine(AuthorLine(list[i]));
      Line(start, AuthorLines(list[..i]), AuthorLine(list[i]));
    }
    assert list[..|list|] == list;
  }

  /** The author lines of a longer prefix add one line. */
  lemma AuthorLinesStep(list: seq<OrganizationalContact>, i: nat)
    requires i < |list|
    ensures AuthorLines(list[..i + 1]) == AuthorLines(list[..i]) + [AuthorLine(list[i])]
  {
    assert list[..i + 1][..i] == list[..i];
  }

  /** Writes lines already known, one after the other: the fixed lines of a document. */
  method WriteLines(writer: TextWriter, lines: seq<string>)
    modifies writer
    ensures writer.text == old(writer.text) + Text(lines)
  {
    var start := writer.text;
    for i := 0 to |lines|
      invariant writer.text == start + Text(lines[..i])
    {
      assert lines[..i + 1] == lines[..i] + [lines[i]];
      writer.WriteLine(lines[i]);
      Line(start, lines[..i], lines[i]);
    }
    assert lines[..|lines|] == lines;
  }

  /** The metadata of a BOM, when there is some; an absent list is null. */
  function AuthorsOf(bom: Bom): Option<seq<OrganizationalContact>> {
    if bom.metadata.Some? then bom.metadata.value.authors else None
  }

  function ComponentsOf(bom: Bom): seq<Component> {
    if bom.components.Some? then bom.components.value else []
  }
}
