/** The CSV projection of a BOM (src/cyclonedx/Serialization/CsvSerializer.cs): a header
    record, then one record per component, and back. The text encoding of records
    (separators, quoting, line ends) is the CsvHelper library's and is not part of this
    model: a table is a sequence of records and a record a sequence of fields. */
module Csv {
  import opened Wrappers
  import opened Strings
  import opened BomModel

  type Record = seq<string>
  type Table = seq<Record>

  // ---------------------------------------------------------------- the header

  /** The 24 columns written by name before the hash columns. */
  const FixedColumns: seq<string> :=
    ["Type", "MimeType", "Supplier", "Author", "Publisher", "Group", "Name", "Version", "Scope",
     "LicenseExpressions", "LicenseNames", "Copyright", "Cpe", "Purl", "Modified", "SwidTagId",
     "SwidName", "SwidVersion", "SwidTagVersion", "SwidPatch", "SwidTextContentType",
     "SwidTextEncoding", "SwidTextContent", "SwidUrl"]

  /** The column of a hash algorithm: its enum name with '_' written as '-'. */
  function HashColumn(a: HashAlgorithm): string {
    ReplaceChar(HashAlgorithmName(a), '_', '-')
  }

  /** The twelve hash columns, in enum order. */
  const HashColumnNames: seq<string> :=
    ["MD5", "SHA-1", "SHA-256", "SHA-384", "SHA-512", "SHA3-256", "SHA3-384", "SHA3-512",
     "BLAKE2b-256", "BLAKE2b-384", "BLAKE2b-512", "BLAKE3"]

  /** The header record: 24 named columns, the hash columns, Description; 37 in all. */
  const Header: seq<string> := FixedColumns + HashColumnNames + ["Description"]

  /** The hash columns are the enum's values in order with Null (the first) left out,
      each spelled with '-' for '_'. */
  lemma HashColumnAt(i: nat)
    requires 1 <= i < |HashAlgorithms|
    ensures HashAlgorithms[0] == Null && HashAlgorithms[i] != Null
    ensures HashColumnNames[i - 1] == HashColumn(HashAlgorithms[i])
  {
    if i == 1 {} else if i == 2 {} else if i == 3 {} else if i == 4 {} else if i == 5 {}
    else if i == 6 {} else if i == 7 {} else if i == 8 {} else if i == 9 {} else if i == 10 {}
    else if i == 11 {} else {}
  }

  // ---------------------------------------------------------------- column lookup

  /** CsvHelper's lookup of a named field with headers prepared by lower-casing. */
  function ColumnIndex(header: seq<string>, name: string): (r: Option<nat>)
    ensures r.Some? ==> r.value < |header|
  {
    if header == [] then None
    else if ToLower(header[0]) == ToLower(name) then Some(0)
    else
      var rest := ColumnIndex(header[1..], name);
      if rest.Some? then Some(rest.value + 1) else None
  }

  /** The column found is the first whose lower-cased name equals the lower-cased
      request; none is found when no column matches. */
  lemma {:induction false} ColumnIndexIsFirstMatch(header: seq<string>, name: string)
    ensures var r := ColumnIndex(header, name);
      && (r.Some? ==> ToLower(header[r.value]) == ToLower(name))
      && (r.Some? ==> forall j :: 0 <= j < r.value ==> ToLower(header[j]) != ToLower(name))
      && (r.None? ==> forall j :: 0 <= j < |header| ==> ToLower(header[j]) != ToLower(name))
  {
    if header != [] && ToLower(header[0]) != ToLower(name) {
      ColumnIndexIsFirstMatch(header[1..], name);
      assert forall j :: 1 <= j < |header| ==> header[j] == header[1..][j - 1];
    }
  }

  /** The first match is the column. */
  lemma FirstMatchIsColumn(header: seq<string>, name: string, k: nat)
    requires k < |header| && ToLower(header[k]) == ToLower(name)
    requires forall j :: 0 <= j < k ==> ToLower(header[j]) != ToLower(name)
    ensures ColumnIndex(header, name) == Some(k)
  {
    ColumnIndexIsFirstMatch(header, name);
  }

  /** GetField(name): the field of the named column, or null (no exception: a missing
      field is configured to be ignored) when no column has the name or the record is
      shorter than the header. */
  function Field(header: seq<string>, record: Record, name: string): Option<string> {
    var k := ColumnIndex(header, name);
    if k.Some? && k.value < |record| then Some(record[k.value]) else None
  }

  /** A cheap fingerprint of a lower-cased name: its length and its first and last
      characters. */
  function Key(s: string): (int, char, char) {
    if s == [] then (0, ' ', ' ') else (|s|, ToLowerChar(s[0]), ToLowerChar(s[|s| - 1]))
  }

  lemma KeyOfLower(a: string, b: string)
    requires ToLower(a) == ToLower(b)
    ensures Key(a) == Key(b)
  {
    if a != [] {
      assert ToLower(a)[0] == ToLowerChar(a[0]) && ToLower(b)[0] == ToLowerChar(b[0]);
      assert ToLower(a)[|a| - 1] == ToLowerChar(a[|a| - 1]) && ToLower(b)[|b| - 1] == ToLowerChar(b[|b| - 1]);
    }
  }

  /** No column name repeats an earlier one's fingerprint (checked a few columns at a time:
      the later the column, the more earlier ones to compare). */
  lemma KeysFresh0To5(k: nat)
    requires 0 <= k < 6
    ensures forall j :: 0 <= j < k ==> Key(Header[j]) != Key(Header[k])
  {
    if k == 0 {} else if k == 1 {} else if k == 2 {} else if k == 3 {} else if k == 4 {} else {}
  }

  lemma KeysFresh6To9(k: nat)
    requires 6 <= k < 10
    ensures forall j :: 0 <= j < k ==> Key(Header[j]) != Key(Header[k])
  {
    if k == 6 {} else if k == 7 {} else if k == 8 {} else {}
  }

  lemma KeysFresh10To13(k: nat)
    requires 10 <= k < 14
    ensures forall j :: 0 <= j < k ==> Key(Header[j]) != Key(Header[k])
  {
    if k == 10 {} else if k == 11 {} else if k == 12 {} else {}
  }

  lemma KeysFresh14To16(k: nat)
    requires 14 <= k < 17
    ensures forall j :: 0 <= j < k ==> Key(Header[j]) != Key(Header[k])
  {
    if k == 14 {} else if k == 15 {} else {}
  }

  lemma KeysFresh17To19(k: nat)
    requires 17 <= k < 20
    ensures forall j :: 0 <= j < k ==> Key(Header[j]) != Key(Header[k])
  {
    if k == 17 {} else if k == 18 {} else {}
  }

  lemma KeysFresh20To21(k: nat)
    requires 20 <= k < 22
    ensures forall j :: 0 <= j < k ==> Key(Header[j]) != Key(Header[k])
  {
    if k == 20 {} else {}
  }

  lemma KeysFresh22To23(k: nat)
    requires 22 <= k < 24
    ensures forall j :: 0 <= j < k ==> Key(Header[j]) != Key(Header[k])
  {
    if k == 22 {} else {}
  }

  lemma KeysFresh24To25(k: nat)
    requires 24 <= k < 26
    ensures forall j :: 0 <= j < k ==> Key(Header[j]) != Key(Header[k])
  {
    if k == 24 {} else {}
  }

  lemma KeysFresh26To27(k: nat)
    requires 26 <= k < 28
    ensures forall j :: 0 <= j < k ==> Key(Header[j]) != Key(Header[k])
  {
    if k == 26 {} else {}
  }

  lemma KeysFresh28To29(k: nat)
    requires 28 <= k < 30
    ensures forall j :: 0 <= j < k ==> Key(Header[j]) != Key(Header[k])
  {
    if k == 28 {} else {}
  }

  lemma KeysFresh30To31(k: nat)
    requires 30 <= k < 32
    ensures forall j :: 0 <= j < k ==> Key(Header[j]) != Key(Header[k])
  {
    if k == 30 {} else {}
  }

  lemma KeysFresh32To33(k: nat)
    requires 32 <= k < 34
    ensures forall j :: 0 <= j < k ==> Key(Header[j]) != Key(Header[k])
  {
    if k == 32 {} else {}
  }

  lemma KeysFresh34To35(k: nat)
    requires 34 <= k < 36
    ensures forall j :: 0 <= j < k ==> Key(Header[j]) != Key(Header[k])
  {
    if k == 34 {} else {}
  }

  lemma KeysFresh36To36(k: nat)
    requires 36 <= k < 37
    ensures forall j :: 0 <= j < k ==> Key(Header[j]) != Key(Header[k])
  {
  }

  /** Every column of the header is found by its own name: the lookup the deserializer
      does on a serialized table lands on the column the serializer wrote. */
  lemma HeaderLookup(k: nat)
    requires k < |Header|
    ensures ColumnIndex(Header, Header[k]) == Some(k)
  {
    var H := Header;
    if k < 6 { KeysFresh0To5(k); } else if k < 10 { KeysFresh6To9(k); }
    else if k < 14 { KeysFresh10To13(k); } else if k < 17 { KeysFresh14To16(k); }
    else if k < 20 { KeysFresh17To19(k); } else if k < 22 { KeysFresh20To21(k); }
    else if k < 24 { KeysFresh22To23(k); } else if k < 26 { KeysFresh24To25(k); }
    else if k < 28 { KeysFresh26To27(k); } else if k < 30 { KeysFresh28To29(k); }
    else if k < 32 { KeysFresh30To31(k); } else if k < 34 { KeysFresh32To33(k); }
    else if k < 36 { KeysFresh34To35(k); }
    else { KeysFresh36To36(k); }
    forall j | 0 <= j < k
      ensures ToLower(H[j]) != ToLower(H[k])
    {
      if ToLower(H[j]) == ToLower(H[k]) {
        KeyOfLower(H[j], H[k]);
      }
    }
    FirstMatchIsColumn(H, H[k], k);
  }

  // ---------------------------------------------------------------- the records written

  /** A nullable boolean or integer field as CsvHelper writes it: the .NET text of the
      value, empty for null. */
  function BoolText(b: bool): string {
    if b then "True" else "False"
  }

  function OptionalBoolText(b: Option<bool>): string {
    if b.Some? then BoolText(b.value) else ""
  }

  /** `Scope.ToString().ToLowerInvariant()`: empty for a null scope. */
  function ScopeText(s: Option<Scope>): string {
    if s.Some? then ToLower(ScopeName(s.value)) else ""
  }

  function SupplierName(c: Component): Option<string> {
    if c.supplier.Some? then c.supplier.value.name else None
  }

  /** The nine fields from Type to Scope. */
  function IdentityCells(c: Component): seq<string> {
    [ClassificationName(c.kind), Str(c.mimeType), Str(SupplierName(c)), Str(c.author), Str(c.publisher),
     Str(c.group), Str(c.name), Str(c.version), ScopeText(c.scope)]
  }

  function LicensesOf(c: Component): seq<LicenseChoice> {
    if c.licenses.Some? then c.licenses.value else []
  }

  /** The LicenseExpressions entry of a licence: its expression, else its id. */
  function ExpressionCell(l: LicenseChoice): (r: Option<string>)
    ensures r.Some? ==> r.value != ""
  {
    if !IsNullOrEmpty(l.expression) then l.expression
    else if l.license.Some? && !IsNullOrEmpty(l.license.value.id) then l.license.value.id
    else None
  }

  /** The LicenseNames entry of a licence with neither expression nor id: its name with
      every ',' written as '_'. */
  function NameCell(l: LicenseChoice): (r: Option<string>)
    ensures r.Some? ==> r.value != "" && ',' !in r.value
    ensures r.Some? ==> ExpressionCell(l).None?
  {
    if ExpressionCell(l).Some? then None
    else if l.license.Some? && !IsNullOrEmpty(l.license.value.name) then
      Some(ReplaceChar(l.license.value.name.value, ',', '_'))
    else None
  }

  /** The entries of the LicenseExpressions column, in licence order. */
  function ExpressionCells(ls: seq<LicenseChoice>): (r: seq<string>)
    ensures |r| <= |ls|
    ensures forall i :: 0 <= i < |r| ==> r[i] != ""
  {
    if ls == [] then []
    else
      var l := ls[|ls| - 1];
      ExpressionCells(ls[..|ls| - 1]) + (if ExpressionCell(l).Some? then [ExpressionCell(l).value] else [])
  }

  /** The entries of the LicenseNames column, in licence order. */
  function NameCells(ls: seq<LicenseChoice>): (r: seq<string>)
    ensures |r| <= |ls|
    ensures forall i :: 0 <= i < |r| ==> r[i] != "" && ',' !in r[i]
  {
    if ls == [] then []
    else
      var l := ls[|ls| - 1];
      NameCells(ls[..|ls| - 1]) + (if NameCell(l).Some? then [NameCell(l).value] else [])
  }

  function LicenseCells(c: Component): seq<string> {
    [Join(ExpressionCells(LicensesOf(c)), ','), Join(NameCells(LicensesOf(c)), ',')]
  }

  /** Copyright, Cpe, Purl and Modified. */
  function OtherCells(c: Component): seq<string> {
    [Str(c.copyright), Str(c.cpe), Str(c.purl), OptionalBoolText(c.modified)]
  }

  /** The nine Swid fields; all empty when there is no Swid. */
  function SwidCells(swid: Option<Swid>): (r: seq<string>)
    ensures |r| == 9
  {
    if swid.None? then ["", "", "", "", "", "", "", "", ""]
    else
      var s := swid.value;
      [Str(s.tagId), Str(s.name), Str(s.version), IntToString(s.tagVersion), BoolText(s.patch),
       if s.text.Some? then Str(s.text.value.contentType) else "",
       if s.text.Some? then Str(s.text.value.encoding) else "",
       if s.text.Some? then Str(s.text.value.content) else "",
       Str(s.url)]
  }

  /** The position of the first hash with algorithm `a`. */
  function FirstHashIndex(hashes: seq<Hash>, a: HashAlgorithm): (r: Option<nat>)
    ensures r.Some? ==> r.value < |hashes| && hashes[r.value].alg == a
    ensures r.Some? ==> forall j :: 0 <= j < r.value ==> hashes[j].alg != a
    ensures r.None? ==> forall j :: 0 <= j < |hashes| ==> hashes[j].alg != a
  {
    if hashes == [] then None
    else if hashes[0].alg == a then Some(0)
    else
      var rest := FirstHashIndex(hashes[1..], a);
      assert forall j :: 1 <= j < |hashes| ==> hashes[j] == hashes[1..][j - 1];
      if rest.Some? then Some(rest.value + 1) else None
  }

  /** The hash field of algorithm `a`: the content of the component's first hash with
      that algorithm, empty when there is none. */
  function HashCell(hashes: Option<seq<Hash>>, a: HashAlgorithm): string {
    if hashes.None? then ""
    else
      var k := FirstHashIndex(hashes.value, a);
      if k.Some? then Str(hashes.value[k.value].content) else ""
  }

  /** The twelve hash fields, in the order of the hash columns. */
  function HashCells(hashes: Option<seq<Hash>>): (r: seq<string>)
    ensures |r| == |HashColumnNames|
    ensures forall i :: 1 <= i < |HashAlgorithms| ==> r[i - 1] == HashCell(hashes, HashAlgorithms[i])
  {
    seq(12, j requires 0 <= j < 12 => HashCell(hashes, HashAlgorithms[j + 1]))
  }

  /** The Description field: the description with every carriage return and line feed
      removed, so a record stays on one line. */
  function DescriptionCell(d: Option<string>): (r: string)
    ensures '\r' !in r && '\n' !in r
    ensures d.Some? && '\r' !in d.value && '\n' !in d.value ==> r == d.value
  {
    if d.None? then "" else RemoveChar(RemoveChar(d.value, '\r'), '\n')
  }

  /** The record of a component: one field per header column, in header order. */
  function Row(c: Component): (r: Record)
    ensures |r| == |Header|
  {
    IdentityCells(c) + LicenseCells(c) + OtherCells(c) + SwidCells(c.swid) + HashCells(c.hashes)
    + [DescriptionCell(c.description)]
  }

  function Rows(cs: seq<Component>): (r: seq<Record>)
    ensures |r| == |cs|
  {
    MapSeq(cs, Row)
  }

  /** `f` applied to each element, in order. */
  function MapSeq<A, B>(xs: seq<A>, f: A -> B): (r: seq<B>)
    ensures |r| == |xs|
  {
    if xs == [] then [] else MapSeq(xs[..|xs| - 1], f) + [f(xs[|xs| - 1])]
  }

  lemma {:induction false} MapSeqAt<A, B>(xs: seq<A>, f: A -> B, k: nat)
    requires k < |xs|
    ensures MapSeq(xs, f)[k] == f(xs[k])
  {
    var init := xs[..|xs| - 1];
    if k < |init| {
      MapSeqAt(init, f, k);
      assert init[k] == xs[k];
    }
  }

  lemma MapSeqStep<A, B>(xs: seq<A>, f: A -> B, k: nat)
    requires k < |xs|
    ensures MapSeq(xs[..k + 1], f) == MapSeq(xs[..k], f) + [f(xs[k])]
  {
    assert xs[..k + 1][..k] == xs[..k];
  }

  /** The k-th record after the header is the k-th component's. */
  lemma RowsAt(cs: seq<Component>, k: nat)
    requires k < |cs|
    ensures Rows(cs)[k] == Row(cs[k])
  {
    MapSeqAt(cs, Row, k);
  }

  /** The rows of a longer prefix add the next component's row. */
  lemma RowsStep(cs: seq<Component>, k: nat)
    requires k < |cs|
    ensures Rows(cs[..k + 1]) == Rows(cs[..k]) + [Row(cs[k])]
  {
    MapSeqStep(cs, Row, k);
  }

  // ---------------------------------------------------------------- the writer

  /** CsvHelper's CsvWriter as the serializer uses it: fields are added to the current
      record, NextRecord closes it. */
  class CsvWriter {
    var records: seq<Record>
    var record: Record

    constructor()
      ensures records == [] && record == []
    {
      records := [];
      record := [];
    }

    method WriteField(field: string)
      modifies this
      ensures records == old(records) && record == old(record) + [field]
    {
      record := record + [field];
    }

    method NextRecord()
      modifies this
      ensures records == old(records) + [old(record)] && record == []
    {
      records := records + [record];
      record := [];
    }
  }

  method WriteFixedColumns0(csv: CsvWriter)
    modifies csv
    ensures csv.records == old(csv.records) && csv.record == old(csv.record) + FixedColumns[0..6]
  {
    csv.WriteField("Type");
    csv.WriteField("MimeType");
    csv.WriteField("Supplier");
    csv.WriteField("Author");
    csv.WriteField("Publisher");
    csv.WriteField("Group");
  }

  method WriteFixedColumns1(csv: CsvWriter)
    modifies csv
    ensures csv.records == old(csv.records) && csv.record == old(csv.record) + FixedColumns[6..12]
  {
    csv.WriteField("Name");
    csv.WriteField("Version");
    csv.WriteField("Scope");
    csv.WriteField("LicenseExpressions");
    csv.WriteField("LicenseNames");
    csv.WriteField("Copyright");
  }

  method WriteFixedColumns2(csv: CsvWriter)
    modifies csv
    ensures csv.records == old(csv.records) && csv.record == old(csv.record) + FixedColumns[12..18]
  {
    csv.WriteField("Cpe");
    csv.WriteField("Purl");
    csv.WriteField("Modified");
    csv.WriteField("SwidTagId");
    csv.WriteField("SwidName");
    csv.WriteField("SwidVersion");
  }

  method WriteFixedColumns3(csv: CsvWriter)
    modifies csv
    ensures csv.records == old(csv.records) && csv.record == old(csv.record) + FixedColumns[18..24]
  {
    csv.WriteField("SwidTagVersion");
    csv.WriteField("SwidPatch");
    csv.WriteField("SwidTextContentType");
    csv.WriteField("SwidTextEncoding");
    csv.WriteField("SwidTextContent");
    csv.WriteField("SwidUrl");
  }

  /** The 24 columns written by name. */
  method WriteFixedColumns(csv: CsvWriter)
    modifies csv
    ensures csv.records == old(csv.records) && csv.record == old(csv.record) + FixedColumns
  {
    WriteFixedColumns0(csv);
    WriteFixedColumns1(csv);
    WriteFixedColumns2(csv);
    WriteFixedColumns3(csv);
    assert FixedColumns == FixedColumns[0..6] + FixedColumns[6..12] + FixedColumns[12..18] + FixedColumns[18..24];
  }

  /** The header record: the 24 names, a column per algorithm except Null, Description. */
  method WriteHeader(csv: CsvWriter)
    requires csv.record == []
    modifies csv
    ensures csv.records == old(csv.records) + [Header] && csv.record == []
  {
    WriteFixedColumns(csv);
    var hashAlgorithms := HashAlgorithms;
    for i := 0 to |hashAlgorithms|
      invariant csv.records == old(csv.records)
      invariant csv.record == FixedColumns + HashColumnNames[..if i == 0 then 0 else i - 1]
    {
      HashColumnNamesStep(i);
      if hashAlgorithms[i] != Null {
        csv.WriteField(HashColumn(hashAlgorithms[i]));
      }
    }
    assert HashColumnNames[..12] == HashColumnNames;
    csv.WriteField("Description");
    csv.NextRecord();
  }

  lemma TakeStep(s: seq<string>, i: nat)
    requires 1 <= i <= |s|
    ensures s[..i] == s[..i - 1] + [s[i - 1]]
  {
  }

  /** The hash loop's step: the first algorithm is Null and writes nothing; each later
      one writes its cell (its column name, in the header). */
  lemma HashCellsStep(hashes: Option<seq<Hash>>, i: nat)
    requires i < |HashAlgorithms|
    ensures i == 0 ==> HashAlgorithms[i] == Null && HashCells(hashes)[..0] == []
    ensures i > 0 ==> (HashAlgorithms[i] != Null
      && HashCells(hashes)[..i] == HashCells(hashes)[..i - 1] + [HashCell(hashes, HashAlgorithms[i])])
  {
    if i > 0 {
      HashColumnAt(i);
      TakeStep(HashCells(hashes), i);
    }
  }

  lemma HashColumnNamesStep(i: nat)
    requires i < |HashAlgorithms|
    ensures i == 0 ==> HashAlgorithms[i] == Null && HashColumnNames[..0] == []
    ensures i > 0 ==> (HashAlgorithms[i] != Null
      && HashColumnNames[..i] == HashColumnNames[..i - 1] + [HashColumn(HashAlgorithms[i])])
  {
    if i > 0 {
      HashColumnAt(i);
      TakeStep(HashColumnNames, i);
    }
  }

  method WriteIdentity(csv: CsvWriter, c: Component)
    modifies csv
    ensures csv.records == old(csv.records) && csv.record == old(csv.record) + IdentityCells(c)
  {
    WriteParties(csv, c);
    WriteNaming(csv, c);
    assert IdentityCells(c) == IdentityCells(c)[..5] + IdentityCells(c)[5..];
  }

  /** Type, MimeType, Supplier, Author, Publisher. */
  method WriteParties(csv: CsvWriter, c: Component)
    modifies csv
    ensures csv.records == old(csv.records) && csv.record == old(csv.record) + IdentityCells(c)[..5]
  {
    csv.WriteField(ClassificationName(c.kind));
    csv.WriteField(Str(c.mimeType));
    csv.WriteField(Str(if c.supplier.Some? then c.supplier.value.name else None));
    csv.WriteField(Str(c.author));
    csv.WriteField(Str(c.publisher));
  }

  /** Group, Name, Version, Scope. */
  method WriteNaming(csv: CsvWriter, c: Component)
    modifies csv
    ensures csv.records == old(csv.records) && csv.record == old(csv.record) + IdentityCells(c)[5..]
  {
    csv.WriteField(Str(c.group));
    csv.WriteField(Str(c.name));
    csv.WriteField(Str(c.version));
    csv.WriteField(if c.scope.Some? then ToLower(ScopeName(c.scope.value)) else "");
  }

  /** The licence loop: each licence goes to at most one of the two lists. */
  method WriteLicenses(csv: CsvWriter, c: Component)
    modifies csv
    ensures csv.records == old(csv.records) && csv.record == old(csv.record) + LicenseCells(c)
  {
    var licenseExpressions: seq<string> := [];
    var licenseNames: seq<string> := [];
    if c.licenses.Some? {
      var ls := c.licenses.value;
      for i := 0 to |ls|
        invariant licenseExpressions == ExpressionCells(ls[..i])
        invariant licenseNames == NameCells(ls[..i])
      {
        assert ls[..i + 1][..i] == ls[..i];
        var license := ls[i];
        if !IsNullOrEmpty(license.expression) {
          licenseExpressions := licenseExpressions + [license.expression.value];
        } else {
          if license.license.Some? && !IsNullOrEmpty(license.license.value.id) {
            licenseExpressions := licenseExpressions + [license.license.value.id.value];
          } else if license.license.Some? && !IsNullOrEmpty(license.license.value.name) {
            licenseNames := licenseNames + [ReplaceChar(license.license.value.name.value, ',', '_')];
          }
        }
      }
      assert ls[..|ls|] == ls;
    }
    csv.WriteField(Join(licenseExpressions, ','));
    csv.WriteField(Join(licenseNames, ','));
  }

  method WriteSwid(csv: CsvWriter, c: Component)
    modifies csv
    ensures csv.records == old(csv.records) && csv.record == old(csv.record) + SwidCells(c.swid)
  {
    WriteSwidTag(csv, c.swid);
    WriteSwidText(csv, c.swid);
    assert SwidCells(c.swid) == SwidCells(c.swid)[..5] + SwidCells(c.swid)[5..];
  }

  /** SwidTagId, SwidName, SwidVersion, SwidTagVersion, SwidPatch. */
  method WriteSwidTag(csv: CsvWriter, swid: Option<Swid>)
    modifies csv
    ensures csv.records == old(csv.records) && csv.record == old(csv.record) + SwidCells(swid)[..5]
  {
    csv.WriteField(if swid.Some? then Str(swid.value.tagId) else "");
    csv.WriteField(if swid.Some? then Str(swid.value.name) else "");
    csv.WriteField(if swid.Some? then Str(swid.value.version) else "");
    csv.WriteField(if swid.Some? then IntToString(swid.value.tagVersion) else "");
    csv.WriteField(if swid.Some? then BoolText(swid.value.patch) else "");
  }

  /** SwidTextContentType, SwidTextEncoding, SwidTextContent, SwidUrl. */
  method WriteSwidText(csv: CsvWriter, swid: Option<Swid>)
    modifies csv
    ensures csv.records == old(csv.records) && csv.record == old(csv.record) + SwidCells(swid)[5..]
  {
    csv.WriteField(if swid.Some? && swid.value.text.Some? then Str(swid.value.text.value.contentType) else "");
    csv.WriteField(if swid.Some? && swid.value.text.Some? then Str(swid.value.text.value.encoding) else "");
    csv.WriteField(if swid.Some? && swid.value.text.Some? then Str(swid.value.text.value.content) else "");
    csv.WriteField(if swid.Some? then Str(swid.value.url) else "");
  }

  /** The hash loop of a record: one field per algorithm except Null. */
  method WriteHashes(csv: CsvWriter, c: Component)
    modifies csv
    ensures csv.records == old(csv.records) && csv.record == old(csv.record) + HashCells(c.hashes)
  {
    var hashAlgorithms := HashAlgorithms;
    var cells := HashCells(c.hashes);
    for i := 0 to |hashAlgorithms|
      invariant csv.records == old(csv.records)
      invariant csv.record == old(csv.record) + cells[..if i == 0 then 0 else i - 1]
    {
      HashCellsStep(c.hashes, i);
      if hashAlgorithms[i] != Null {
        csv.WriteField(HashCell(c.hashes, hashAlgorithms[i]));
      }
    }
    assert cells[..12] == cells;
  }

  /** One component record. */
  method WriteComponent(csv: CsvWriter, c: Component)
    requires csv.record == []
    modifies csv
    ensures csv.records == old(csv.records) + [Row(c)] && csv.record == []
  {
    WriteIdentity(csv, c);
    WriteLicenses(csv, c);
    csv.WriteField(Str(c.copyright));
    csv.WriteField(Str(c.cpe));
    csv.WriteField(Str(c.purl));
    csv.WriteField(OptionalBoolText(c.modified));
    assert csv.record == IdentityCells(c) + LicenseCells(c) + OtherCells(c);
    WriteSwid(csv, c);
    WriteHashes(csv, c);
    csv.WriteField(DescriptionCell(c.description));
    csv.NextRecord();
  }

  /** Serialize: the header record, then one record per component in order. A BOM
      without a component list fails on the loop over it. */
  method Serialize(bom: Bom) returns (r: Result<Table>)
    ensures bom.components.None? ==> r == Thrown(NullReferenceException)
    ensures bom.components.Some? ==> r == Returned([Header] + Rows(bom.components.value))
  {
    var csv := new CsvWriter();
    WriteHeader(csv);
    assert csv.records == [Header];
    if bom.components.None? {
      return Thrown(NullReferenceException);
    }
    var cs := bom.components.value;
    WriteRows(csv, cs);
    return Returned(csv.records);
  }

  /** The component loop: one record per component, in order. */
  method WriteRows(csv: CsvWriter, cs: seq<Component>)
    requires csv.record == []
    modifies csv
    ensures csv.records == old(csv.records) + Rows(cs) && csv.record == []
  {
    var start := csv.records;
    for k := 0 to |cs|
      invariant csv.records == start + Rows(cs[..k]) && csv.record == []
    {
      WriteComponent(csv, cs[k]);
      RowsStep(cs, k);
    }
    assert cs[..|cs|] == cs;
  }

  // ---------------------------------------------------------------- reading back

  /** A string field with whitespace-only text read as null. */
  function Cell(header: seq<string>, record: Record, name: string): Option<string> {
    NullIfWhiteSpace(Field(header, record, name))
  }

  /** CsvHelper's type converters for the typed fields, which are library code: each maps
      a field's text to a value, to null, or to an exception. */
  datatype Converters = Converters(
    kind: string -> Result<Option<Classification>>,
    integer: string -> Result<Option<int>>,
    boolean: string -> Result<Option<bool>>)

  /** GetField<T?>(name): null for a missing field, otherwise the converter's answer. */
  function Convert<T>(field: Option<string>, convert: string -> Result<Option<T>>): Result<Option<T>> {
    if field.None? then Returned(None) else convert(field.value)
  }

  /** Enum.TryParse with ignoreCase on the scope names: white space around the name is
      ignored, as is the case of its letters. */
  function ParseScope(s: string): (r: Option<Scope>)
    ensures r.Some? ==> ToLower(ScopeName(r.value)) == ToLower(Trim(s))
    ensures r.None? ==> forall sc: Scope :: ToLower(ScopeName(sc)) != ToLower(Trim(s))
  {
    var name := ToLower(Trim(s));
    if name == ToLower(ScopeName(Required)) then Some(Required)
    else if name == ToLower(ScopeName(Optional)) then Some(Optional)
    else if name == ToLower(ScopeName(Excluded)) then Some(Excluded)
    else None
  }

  /** The hashes read from a record for the algorithms in `algs`: one per algorithm
      except Null whose field is present and non-empty, in algorithm order. */
  function ReadHashes(header: seq<string>, record: Record, algs: seq<HashAlgorithm>): (r: seq<Hash>)
    ensures |r| <= |algs|
    ensures forall i :: 0 <= i < |r| ==> r[i].alg in algs && r[i].alg != Null && !IsNullOrEmpty(r[i].content)
  {
    if algs == [] then []
    else
      var a := algs[|algs| - 1];
      var content := Field(header, record, HashColumn(a));
      ReadHashes(header, record, algs[..|algs| - 1])
      + (if a == Null || IsNullOrEmpty(content) then [] else [Hash(a, content)])
  }

  /** A licence with only an id. */
  function IdLicense(id: string): LicenseChoice {
    LicenseChoice(Some(License(Some(id), None, None, None)), None)
  }

  /** A licence with only a name. */
  function NamedLicense(name: string): LicenseChoice {
    LicenseChoice(Some(License(None, Some(name), None, None)), None)
  }

  /** A piece of the LicenseExpressions field: an expression if it holds a space, a
      licence id if it is otherwise non-empty. */
  function PieceLicense(piece: string): Option<LicenseChoice> {
    if ' ' in piece then Some(LicenseChoice(None, Some(piece)))
    else if piece != "" then Some(IdLicense(piece))
    else None
  }

  function ExpressionLicenses(pieces: seq<string>): (r: seq<LicenseChoice>)
    ensures |r| <= |pieces|
  {
    if pieces == [] then []
    else
      var p := PieceLicense(pieces[|pieces| - 1]);
      ExpressionLicenses(pieces[..|pieces| - 1]) + (if p.Some? then [p.value] else [])
  }

  /** The non-empty pieces of the LicenseNames field, as named licences. */
  function NameLicenses(pieces: seq<string>): (r: seq<LicenseChoice>)
    ensures |r| <= |pieces|
  {
    if pieces == [] then []
    else
      var p := pieces[|pieces| - 1];
      NameLicenses(pieces[..|pieces| - 1]) + (if p != "" then [NamedLicense(p)] else [])
  }

  /** The licences of a record: the expression pieces first, then the names. */
  function ReadLicenses(header: seq<string>, record: Record): seq<LicenseChoice> {
    var expressions := Field(header, record, "LicenseExpressions");
    var names := Field(header, record, "LicenseNames");
    (if expressions.Some? then ExpressionLicenses(Split(expressions.value, ',')) else [])
    + (if names.Some? then NameLicenses(Split(names.value, ',')) else [])
  }

  /** The Swid of a record: none without a tag id. The text content field is read without
      whitespace normalisation, so the text is kept whenever the column exists. */
  function ReadSwid(header: seq<string>, record: Record, tagVersion: Option<int>, patch: Option<bool>): (r: Option<Swid>)
    ensures r.Some? <==> Cell(header, record, "SwidTagId").Some?
    ensures r.Some? ==> (r.value.text.Some? <==> Field(header, record, "SwidTextContent").Some?)
  {
    var tagId := Cell(header, record, "SwidTagId");
    var content := Field(header, record, "SwidTextContent");
    if tagId.None? then None
    else
      Some(Swid(tagId, Cell(header, record, "SwidName"), Cell(header, record, "SwidVersion"),
                if tagVersion.Some? then tagVersion.value else 0,
                if patch.Some? then patch.value else false,
                if content.None? then None
                else Some(AttachedText(Cell(header, record, "SwidTextContentType"),
                                       Cell(header, record, "SwidTextEncoding"), content)),
                Cell(header, record, "SwidUrl")))
  }

  /** The component of a record once its typed fields are converted. */
  function RowFields(header: seq<string>, record: Record, kind: Classification, tagVersion: Option<int>,
                     patch: Option<bool>, modified: Option<bool>): Component
  {
    Initialized(header, record, kind, tagVersion, patch, modified).(
      scope := ScopeOf(header, record),
      hashes := NonEmpty(ReadHashes(header, record, HashAlgorithms)),
      licenses := NonEmpty(ReadLicenses(header, record)))
  }

  /** The component as the initializer and the null-outs leave it: the string fields, the
      supplier, the Swid and the typed fields, with no scope, hashes or licences yet. */
  function Initialized(header: seq<string>, record: Record, kind: Classification, tagVersion: Option<int>,
                       patch: Option<bool>, modified: Option<bool>): Component
  {
    var supplier := Cell(header, record, "Supplier");
    Component(
      kind, Cell(header, record, "MimeType"), None,
      if supplier.Some? then Some(OrganizationalEntity(supplier)) else None,
      Cell(header, record, "Author"), Cell(header, record, "Publisher"), Cell(header, record, "Group"),
      Cell(header, record, "Name"), Cell(header, record, "Version"), Cell(header, record, "Description"),
      None, None, None,
      Cell(header, record, "Copyright"), Cell(header, record, "Cpe"), Cell(header, record, "Purl"),
      ReadSwid(header, record, tagVersion, patch), modified, None)
  }

  /** The scope of a record: set only when the field names a scope. */
  function ScopeOf(header: seq<string>, record: Record): Option<Scope> {
    var scope := Cell(header, record, "Scope");
    if scope.Some? then ParseScope(scope.value) else None
  }

  /** A list that is only assigned when it is not empty. */
  function NonEmpty<T>(xs: seq<T>): (r: Option<seq<T>>)
    ensures r.Some? <==> xs != []
    ensures r.Some? ==> r.value == xs
  {
    if xs == [] then None else Some(xs)
  }

  /** The component of a data record, or the exception of the first typed field that
      fails to convert (Type, SwidTagVersion, SwidPatch, Modified, in that order); an
      unconverted Type is a library. */
  function RowComponent(header: seq<string>, record: Record, conv: Converters): (r: Result<Component>)
    ensures r.Returned? ==> r.value.bomRef.None? && r.value.externalReferences.None?
    ensures r.Returned? && r.value.hashes.Some? ==> r.value.hashes.value != []
    ensures r.Returned? && r.value.licenses.Some? ==> r.value.licenses.value != []
  {
    var kind := Convert(Field(header, record, "Type"), conv.kind);
    var tagVersion := Convert(Field(header, record, "SwidTagVersion"), conv.integer);
    var patch := Convert(Field(header, record, "SwidPatch"), conv.boolean);
    var modified := Convert(Field(header, record, "Modified"), conv.boolean);
    if kind.Thrown? then Thrown(kind.error)
    else if tagVersion.Thrown? then Thrown(tagVersion.error)
    else if patch.Thrown? then Thrown(patch.error)
    else if modified.Thrown? then Thrown(modified.error)
    else
      Returned(RowFields(header, record, if kind.value.Some? then kind.value.value else Library,
                         tagVersion.value, patch.value, modified.value))
  }

  /** The reader of the data records under a header. */
  function RowReader(header: seq<string>, conv: Converters): Record -> Result<Component> {
    record => RowComponent(header, record, conv)
  }

  /** The data records in order: one component each, or the first record's exception. */
  function ReadRecords(records: seq<Record>, read: Record -> Result<Component>): (r: Result<seq<Component>>)
    ensures r.Returned? ==> |r.value| == |records|
  {
    if records == [] then Returned([])
    else
      var init := records[..|records| - 1];
      var previous := ReadRecords(init, read);
      var last := read(records[|records| - 1]);
      if previous.Thrown? then Thrown(previous.error)
      else if last.Thrown? then Thrown(last.error)
      else Returned(previous.value + [last.value])
  }

  /** Read records that succeed: the k-th component is the k-th record's. */
  lemma {:induction false} ReadRecordsEach(records: seq<Record>, read: Record -> Result<Component>)
    requires ReadRecords(records, read).Returned?
    ensures forall k :: 0 <= k < |records| ==> read(records[k]) == Returned(ReadRecords(records, read).value[k])
  {
    if records != [] {
      var init := records[..|records| - 1];
      ReadRecordsEach(init, read);
      forall k | 0 <= k < |records|
        ensures read(records[k]) == Returned(ReadRecords(records, read).value[k])
      {
        if k < |init| {
          assert records[k] == init[k];
        }
      }
    }
  }

  /** Read records that fail: some record fails with that exception, and every record
      before it is read. */
  lemma {:induction false} ReadRecordsFails(records: seq<Record>, read: Record -> Result<Component>)
    requires ReadRecords(records, read).Thrown?
    ensures exists k :: 0 <= k < |records| && read(records[k]) == Thrown(ReadRecords(records, read).error)
                        && ReadRecords(records[..k], read).Returned?
  {
    var init := records[..|records| - 1];
    if ReadRecords(init, read).Thrown? {
      ReadRecordsFails(init, read);
      var k :| 0 <= k < |init| && read(init[k]) == Thrown(ReadRecords(init, read).error)
               && ReadRecords(init[..k], read).Returned?;
      assert records[k] == init[k];
      assert records[..k] == init[..k];
    } else {
      var k := |records| - 1;
      assert records[..k] == init;
    }
  }

  /** Every record read means the whole list is read. */
  lemma {:induction false} ReadRecordsAll(records: seq<Record>, read: Record -> Result<Component>)
    requires forall k :: 0 <= k < |records| ==> read(records[k]).Returned?
    ensures ReadRecords(records, read).Returned?
  {
    if records != [] {
      ReadRecordsAll(records[..|records| - 1], read);
    }
  }

  /** Deserialize on a parsed table: the first record is the header; a table without one
      fails. The BOM has version 1 and exactly one component per data record, in order. */
  function Deserialized(table: Table, conv: Converters): (r: Result<Bom>)
    ensures table == [] ==> r == Thrown(ReaderException)
    ensures r.Returned? ==> r.value.version == Some(1) && r.value.components.Some?
    ensures r.Returned? ==> |r.value.components.value| == |table| - 1
  {
    if table == [] then Thrown(ReaderException)
    else
      var components := ReadRecords(table[1..], RowReader(table[0], conv));
      if components.Thrown? then Thrown(components.error)
      else Returned(NewBom.(version := Some(1), components := Some(components.value)))
  }

  /** The body of the read loop: the component initializer, the null-outs, the scope, the
      hash loop and the two licence loops. */
  method ReadComponent(header: seq<string>, record: Record, conv: Converters) returns (r: Result<Component>)
    ensures r == RowComponent(header, record, conv)
  {
    var kind := Convert(Field(header, record, "Type"), conv.kind);
    if kind.Thrown? {
      return Thrown(kind.error);
    }
    var tagVersion := Convert(Field(header, record, "SwidTagVersion"), conv.integer);
    if tagVersion.Thrown? {
      return Thrown(tagVersion.error);
    }
    var patch := Convert(Field(header, record, "SwidPatch"), conv.boolean);
    if patch.Thrown? {
      return Thrown(patch.error);
    }
    var modified := Convert(Field(header, record, "Modified"), conv.boolean);
    if modified.Thrown? {
      return Thrown(modified.error);
    }
    var component := InitializeComponent(header, record, if kind.value.Some? then kind.value.value else Library,
                                         tagVersion.value, patch.value, modified.value);
    var scopeString := Cell(header, record, "Scope");
    if scopeString.Some? {
      var scope := ParseScope(scopeString.value);
      if scope.Some? {
        component := component.(scope := scope);
      }
    }

    var hashes := ReadHashList(header, record);
    if |hashes| > 0 {
      component := component.(hashes := Some(hashes));
    }
    var componentLicenses := ReadLicenseList(header, record);
    if |componentLicenses| > 0 {
      component := component.(licenses := Some(componentLicenses));
    }
    return Returned(component);
  }

  /** The object initializer of the read loop and the null-outs of the supplier, the Swid
      text and the Swid. */
  method InitializeComponent(header: seq<string>, record: Record, kind: Classification, tagVersion: Option<int>,
                             patch: Option<bool>, modified: Option<bool>) returns (component: Component)
    ensures component == Initialized(header, record, kind, tagVersion, patch, modified)
  {
    var text := AttachedText(Cell(header, record, "SwidTextContentType"), Cell(header, record, "SwidTextEncoding"),
                             Field(header, record, "SwidTextContent"));
    var swid := Swid(Cell(header, record, "SwidTagId"), Cell(header, record, "SwidName"),
                     Cell(header, record, "SwidVersion"),
                     if tagVersion.Some? then tagVersion.value else 0,
                     if patch.Some? then patch.value else false,
                     Some(text), Cell(header, record, "SwidUrl"));
    component := Component(
      kind, Cell(header, record, "MimeType"), None,
      Some(OrganizationalEntity(Cell(header, record, "Supplier"))),
      Cell(header, record, "Author"), Cell(header, record, "Publisher"), Cell(header, record, "Group"),
      Cell(header, record, "Name"), Cell(header, record, "Version"), Cell(header, record, "Description"),
      None, None, None,
      Cell(header, record, "Copyright"), Cell(header, record, "Cpe"), Cell(header, record, "Purl"),
      Some(swid), modified, None);
    if component.supplier.value.name.None? {
      component := component.(supplier := None);
    }
    if text.content.None? {
      swid := swid.(text := None);
      component := component.(swid := Some(swid));
    }
    if swid.tagId.None? {
      component := component.(swid := None);
    }
  }

  /** The hash loop of the read loop: one hash per algorithm except Null whose field is
      present and non-empty. */
  method ReadHashList(header: seq<string>, record: Record) returns (hashes: seq<Hash>)
    ensures hashes == ReadHashes(header, record, HashAlgorithms)
  {
    var hashAlgorithms := HashAlgorithms;
    hashes := [];
    for i := 0 to |hashAlgorithms|
      invariant hashes == ReadHashes(header, record, hashAlgorithms[..i])
    {
      ReadHashesStep(header, record, hashAlgorithms, i);
      var a := hashAlgorithms[i];
      if a != Null {
        var content := Field(header, record, HashColumn(a));
        if !IsNullOrEmpty(content) {
          hashes := hashes + [Hash(a, content)];
        }
      }
    }
    assert hashAlgorithms[..|hashAlgorithms|] == hashAlgorithms;
  }

  lemma ReadHashesStep(header: seq<string>, record: Record, algs: seq<HashAlgorithm>, i: nat)
    requires i < |algs|
    ensures var content := Field(header, record, HashColumn(algs[i]));
      ReadHashes(header, record, algs[..i + 1]) == ReadHashes(header, record, algs[..i])
      + (if algs[i] == Null || IsNullOrEmpty(content) then [] else [Hash(algs[i], content)])
  {
    assert algs[..i + 1][..i] == algs[..i];
  }

  lemma ExpressionLicensesStep(pieces: seq<string>, i: nat)
    requires i < |pieces|
    ensures var p := PieceLicense(pieces[i]);
      ExpressionLicenses(pieces[..i + 1]) == ExpressionLicenses(pieces[..i]) + (if p.Some? then [p.value] else [])
  {
    assert pieces[..i + 1][..i] == pieces[..i];
  }

  lemma NameLicensesStep(pieces: seq<string>, i: nat)
    requires i < |pieces|
    ensures NameLicenses(pieces[..i + 1])
      == NameLicenses(pieces[..i]) + (if pieces[i] != "" then [NamedLicense(pieces[i])] else [])
  {
    assert pieces[..i + 1][..i] == pieces[..i];
  }

  /** The two licence loops of the read loop: the expression pieces, then the names. */
  method ReadLicenseList(header: seq<string>, record: Record) returns (componentLicenses: seq<LicenseChoice>)
    ensures componentLicenses == ReadLicenses(header, record)
  {
    componentLicenses := [];
    var licenseExpressions := Field(header, record, "LicenseExpressions");
    if licenseExpressions.Some? {
      componentLicenses := ReadExpressionLicenses(Split(licenseExpressions.value, ','));
    }
    var licenseNames := Field(header, record, "LicenseNames");
    if licenseNames.Some? {
      var named := ReadNameLicenses(Split(licenseNames.value, ','));
      componentLicenses := componentLicenses + named;
    } else {
      assert componentLicenses + [] == componentLicenses;
    }
  }

  /** The expression loop: a piece with a space is an expression, another non-empty
      piece an id. */
  method ReadExpressionLicenses(pieces: seq<string>) returns (licenses: seq<LicenseChoice>)
    ensures licenses == ExpressionLicenses(pieces)
  {
    licenses := [];
    for i := 0 to |pieces|
      invariant licenses == ExpressionLicenses(pieces[..i])
    {
      ExpressionLicensesStep(pieces, i);
      var piece := pieces[i];
      if ' ' in piece {
        licenses := licenses + [LicenseChoice(None, Some(piece))];
      } else if piece != "" {
        licenses := licenses + [IdLicense(piece)];
      }
    }
    assert pieces[..|pieces|] == pieces;
  }

  /** The name loop: every non-empty piece is a named licence. */
  method ReadNameLicenses(pieces: seq<string>) returns (licenses: seq<LicenseChoice>)
    ensures licenses == NameLicenses(pieces)
  {
    licenses := [];
    for i := 0 to |pieces|
      invariant licenses == NameLicenses(pieces[..i])
    {
      NameLicensesStep(pieces, i);
      var piece := pieces[i];
      if piece != "" {
        licenses := licenses + [NamedLicense(piece)];
      }
    }
    assert pieces[..|pieces|] == pieces;
  }

  /** Deserialize: read the header, then one component per record until the table ends. */
  method Deserialize(table: Table, conv: Converters) returns (r: Result<Bom>)
    ensures r == Deserialized(table, conv)
  {
    if table == [] {
      return Thrown(ReaderException);
    }
    var header := table[0];
    var read := RowReader(header, conv);
    var records := table[1..];
    var components: seq<Component> := [];
    var i := 0;
    while i < |records|
      invariant 0 <= i <= |records|
      invariant ReadRecords(records[..i], read) == Returned(components)
    {
      var component := ReadComponent(header, records[i], conv);
      ReadStep(records, i, read, components, component);
      if component.Thrown? {
        return Thrown(component.error);
      }
      components := components + [component.value];
      i := i + 1;
    }
    assert records[..i] == records;
    return Returned(NewBom.(version := Some(1), components := Some(components)));
  }

  /** One loop step of the reader: the record at index n either extends the components
      read so far or ends the whole read with its exception. */
  lemma ReadStep(records: seq<Record>, n: nat, read: Record -> Result<Component>, cs: seq<Component>, c: Result<Component>)
    requires n < |records| && ReadRecords(records[..n], read) == Returned(cs) && read(records[n]) == c
    ensures c.Thrown? ==> ReadRecords(records, read) == Thrown(c.error)
    ensures c.Returned? ==> ReadRecords(records[..n + 1], read) == Returned(cs + [c.value])
  {
    assert records[..n + 1][..n] == records[..n];
    if c.Thrown? {
      ReadRecordsThrownExtends(records, n + 1, read);
    }
  }

  /** Once a prefix of the records fails, the whole list fails with the same exception. */
  lemma {:induction false} ReadRecordsThrownExtends(records: seq<Record>, n: nat, read: Record -> Result<Component>)
    requires n <= |records| && ReadRecords(records[..n], read).Thrown?
    ensures ReadRecords(records, read) == ReadRecords(records[..n], read)
    decreases |records|
  {
    if n < |records| {
      var init := records[..|records| - 1];
      assert init[..n] == records[..n];
      ReadRecordsThrownExtends(init, n, read);
    } else {
      assert records[..n] == records;
    }
  }
}
