/** What a component looks like after the CSV projection and back: the serializer's
    record, read under the serializer's header, gives the component with whitespace-only
    text dropped, the supplier reduced to its name, the first hash of each algorithm, and
    licences re-sorted into expressions, ids and names. */
module CsvRoundTrip {
  import opened Wrappers
  import opened Strings
  import opened BomModel
  import opened Csv

  /** Type converters that read back the .NET text the writer produced for enums,
      integers and booleans, and read an empty field as null. */
  ghost predicate ReadsBack(conv: Converters) {
    && (forall k: Classification :: conv.kind(ClassificationName(k)) == Returned(Some(k)))
    && (forall n: int :: conv.integer(IntToString(n)) == Returned(Some(n)))
    && conv.integer("") == Returned(None)
    && conv.boolean("True") == Returned(Some(true))
    && conv.boolean("False") == Returned(Some(false))
    && conv.boolean("") == Returned(None)
  }

  /** No entry of the LicenseExpressions column holds the ',' the column is joined with. */
  ghost predicate CommaFree(c: Component) {
    forall i :: 0 <= i < |ExpressionCells(LicensesOf(c))| ==> ',' !in ExpressionCells(LicensesOf(c))[i]
  }

  /** A string field after the trip: null when it was null or whitespace-only. */
  function Normal(s: Option<string>): Option<string> {
    NullIfWhiteSpace(Some(Str(s)))
  }

  function KeptSupplier(c: Component): Option<OrganizationalEntity> {
    var name := Normal(SupplierName(c));
    if name.Some? then Some(OrganizationalEntity(name)) else None
  }

  /** The hashes after the trip: for each algorithm in `algs` except Null, in enum order,
      the content of the first hash with that algorithm when it is not empty. */
  function KeptHashes(hashes: Option<seq<Hash>>, algs: seq<HashAlgorithm>): seq<Hash> {
    if algs == [] then []
    else
      var a := algs[|algs| - 1];
      KeptHashes(hashes, algs[..|algs| - 1])
      + (if a == Null || HashCell(hashes, a) == "" then [] else [Hash(a, Some(HashCell(hashes, a)))])
  }

  /** The licences after the trip: each expression or id as an expression when it holds a
      space and as an id otherwise, then each name with ',' written as '_'. */
  function KeptLicenses(c: Component): seq<LicenseChoice> {
    ExpressionLicenses(ExpressionCells(LicensesOf(c))) + NameLicenses(NameCells(LicensesOf(c)))
  }

  /** The Swid after the trip: dropped without a tag id; otherwise its text is always
      present, empty when the Swid had none. */
  function KeptSwid(swid: Option<Swid>): Option<Swid> {
    if swid.None? || Normal(swid.value.tagId).None? then None
    else
      var s := swid.value;
      var text := if s.text.Some?
        then AttachedText(Normal(s.text.value.contentType), Normal(s.text.value.encoding), Some(Str(s.text.value.content)))
        else AttachedText(None, None, Some(""));
      Some(Swid(Normal(s.tagId), Normal(s.name), Normal(s.version), s.tagVersion, s.patch, Some(text), Normal(s.url)))
  }

  /** The component the reader makes of the writer's record for `c`. */
  function ReadBack(c: Component): Component {
    Component(
      c.kind, Normal(c.mimeType), None, KeptSupplier(c),
      Normal(c.author), Normal(c.publisher), Normal(c.group), Normal(c.name), Normal(c.version),
      NullIfWhiteSpace(Some(DescriptionCell(c.description))),
      c.scope,
      NonEmpty(KeptHashes(c.hashes, HashAlgorithms)),
      NonEmpty(KeptLicenses(c)),
      Normal(c.copyright), Normal(c.cpe), Normal(c.purl),
      KeptSwid(c.swid), c.modified, None)
  }

  // ---------------------------------------------------------------- the fields of a row

  /** Under the serializer's header, a record's field of column k is its k-th entry. */
  lemma FieldOfRow(r: Record, k: nat)
    requires |r| == |Header| && k < |Header|
    ensures Field(Header, r, Header[k]) == Some(r[k])
  {
    HeaderLookup(k);
  }

  /** The row of a component, part by part. */
  lemma RowParts(c: Component)
    ensures Row(c)[..9] == IdentityCells(c)
    ensures Row(c)[9..11] == LicenseCells(c)
    ensures Row(c)[11..15] == OtherCells(c)
    ensures Row(c)[15..24] == SwidCells(c.swid)
    ensures Row(c)[24..36] == HashCells(c.hashes)
    ensures Row(c)[36] == DescriptionCell(c.description)
  {
    var a, b, o, w, h := IdentityCells(c), LicenseCells(c), OtherCells(c), SwidCells(c.swid), HashCells(c.hashes);
    assert |a| == 9 && |b| == 2 && |o| == 4 && |w| == 9 && |h| == 12;
    Slices(a, b, o, w, h, DescriptionCell(c.description));
  }

  /** Six runs joined, taken apart again by position. */
  lemma Slices(a: seq<string>, b: seq<string>, o: seq<string>, w: seq<string>, h: seq<string>, d: string)
    requires |a| == 9 && |b| == 2 && |o| == 4 && |w| == 9 && |h| == 12
    ensures var r := a + b + o + w + h + [d];
      && r[..9] == a && r[9..11] == b && r[11..15] == o && r[15..24] == w && r[24..36] == h && r[36] == d
  {
    var r := a + b + o + w + h + [d];
    assert r[..9] == a;
    assert r[9..11] == b;
    assert r[11..15] == o;
    assert r[15..24] == w;
    assert r[24..36] == h;
  }

  lemma IdentityFields(r: Record, c: Component)
    requires |r| == |Header| && r[..9] == IdentityCells(c)
    ensures Field(Header, r, "Type") == Some(ClassificationName(c.kind))
    ensures Field(Header, r, "MimeType") == Some(Str(c.mimeType))
    ensures Field(Header, r, "Supplier") == Some(Str(SupplierName(c)))
    ensures Field(Header, r, "Author") == Some(Str(c.author))
    ensures Field(Header, r, "Publisher") == Some(Str(c.publisher))
    ensures Field(Header, r, "Group") == Some(Str(c.group))
    ensures Field(Header, r, "Name") == Some(Str(c.name))
    ensures Field(Header, r, "Version") == Some(Str(c.version))
    ensures Field(Header, r, "Scope") == Some(ScopeText(c.scope))
  {
    var cells := IdentityCells(c);
    assert r[0] == cells[0] && r[1] == cells[1] && r[2] == cells[2] && r[3] == cells[3] && r[4] == cells[4];
    assert r[5] == cells[5] && r[6] == cells[6] && r[7] == cells[7] && r[8] == cells[8];
    PartyFields(r, c);
    NamingFields(r, c);
  }

  lemma PartyFields(r: Record, c: Component)
    requires |r| == |Header|
    requires r[0] == ClassificationName(c.kind) && r[1] == Str(c.mimeType) && r[2] == Str(SupplierName(c))
    requires r[3] == Str(c.author) && r[4] == Str(c.publisher)
    ensures Field(Header, r, "Type") == Some(ClassificationName(c.kind))
    ensures Field(Header, r, "MimeType") == Some(Str(c.mimeType))
    ensures Field(Header, r, "Supplier") == Some(Str(SupplierName(c)))
    ensures Field(Header, r, "Author") == Some(Str(c.author))
    ensures Field(Header, r, "Publisher") == Some(Str(c.publisher))
  {
    FieldOfRow(r, 0); FieldOfRow(r, 1); FieldOfRow(r, 2); FieldOfRow(r, 3); FieldOfRow(r, 4);
  }

  lemma NamingFields(r: Record, c: Component)
    requires |r| == |Header|
    requires r[5] == Str(c.group) && r[6] == Str(c.name) && r[7] == Str(c.version) && r[8] == ScopeText(c.scope)
    ensures Field(Header, r, "Group") == Some(Str(c.group))
    ensures Field(Header, r, "Name") == Some(Str(c.name))
    ensures Field(Header, r, "Version") == Some(Str(c.version))
    ensures Field(Header, r, "Scope") == Some(ScopeText(c.scope))
  {
    FieldOfRow(r, 5); FieldOfRow(r, 6); FieldOfRow(r, 7); FieldOfRow(r, 8);
  }

  lemma LicenseFields(r: Record, c: Component)
    requires |r| == |Header| && r[9..11] == LicenseCells(c)
    ensures Field(Header, r, "LicenseExpressions") == Some(Join(ExpressionCells(LicensesOf(c)), ','))
    ensures Field(Header, r, "LicenseNames") == Some(Join(NameCells(LicensesOf(c)), ','))
  {
    assert r[9] == LicenseCells(c)[0] && r[10] == LicenseCells(c)[1];
    FieldOfRow(r, 9); FieldOfRow(r, 10);
  }

  lemma OtherFields(r: Record, c: Component)
    requires |r| == |Header| && r[11..15] == OtherCells(c)
    ensures Field(Header, r, "Copyright") == Some(Str(c.copyright))
    ensures Field(Header, r, "Cpe") == Some(Str(c.cpe))
    ensures Field(Header, r, "Purl") == Some(Str(c.purl))
    ensures Field(Header, r, "Modified") == Some(OptionalBoolText(c.modified))
  {
    var cells := OtherCells(c);
    assert r[11] == cells[0] && r[12] == cells[1] && r[13] == cells[2] && r[14] == cells[3];
    FieldOfRow(r, 11); FieldOfRow(r, 12); FieldOfRow(r, 13); FieldOfRow(r, 14);
  }

  lemma SwidFields(r: Record, swid: Option<Swid>)
    requires |r| == |Header| && r[15..24] == SwidCells(swid)
    ensures Field(Header, r, "SwidTagId") == Some(SwidCells(swid)[0])
    ensures Field(Header, r, "SwidName") == Some(SwidCells(swid)[1])
    ensures Field(Header, r, "SwidVersion") == Some(SwidCells(swid)[2])
    ensures Field(Header, r, "SwidTagVersion") == Some(SwidCells(swid)[3])
    ensures Field(Header, r, "SwidPatch") == Some(SwidCells(swid)[4])
    ensures Field(Header, r, "SwidTextContentType") == Some(SwidCells(swid)[5])
    ensures Field(Header, r, "SwidTextEncoding") == Some(SwidCells(swid)[6])
    ensures Field(Header, r, "SwidTextContent") == Some(SwidCells(swid)[7])
    ensures Field(Header, r, "SwidUrl") == Some(SwidCells(swid)[8])
  {
    var cells := SwidCells(swid);
    assert r[15] == cells[0] && r[16] == cells[1] && r[17] == cells[2] && r[18] == cells[3] && r[19] == cells[4];
    assert r[20] == cells[5] && r[21] == cells[6] && r[22] == cells[7] && r[23] == cells[8];
    FieldOfRow(r, 15); FieldOfRow(r, 16); FieldOfRow(r, 17); FieldOfRow(r, 18); FieldOfRow(r, 19);
    FieldOfRow(r, 20); FieldOfRow(r, 21); FieldOfRow(r, 22); FieldOfRow(r, 23);
  }

  lemma DescriptionField(r: Record, c: Component)
    requires |r| == |Header| && r[36] == DescriptionCell(c.description)
    ensures Field(Header, r, "Description") == Some(DescriptionCell(c.description))
  {
    FieldOfRow(r, 36);
  }

  /** The hash column of every algorithm except Null holds that algorithm's hash cell. */
  lemma HashFields(r: Record, hashes: Option<seq<Hash>>)
    requires |r| == |Header| && r[24..36] == HashCells(hashes)
    ensures forall a :: a in HashAlgorithms && a != Null ==> Field(Header, r, HashColumn(a)) == Some(HashCell(hashes, a))
  {
    forall a | a in HashAlgorithms && a != Null
      ensures Field(Header, r, HashColumn(a)) == Some(HashCell(hashes, a))
    {
      var i :| 0 <= i < |HashAlgorithms| && HashAlgorithms[i] == a;
      HashColumnAt(1);
      HashColumnAt(i);
      assert Header[23 + i] == HashColumnNames[i - 1];
      assert r[23 + i] == HashCells(hashes)[i - 1];
      FieldOfRow(r, 23 + i);
    }
  }

  /** Reading the hash columns of such a record keeps the first non-empty hash of each
      algorithm. */
  lemma {:induction false} ReadKeptHashes(r: Record, hashes: Option<seq<Hash>>, algs: seq<HashAlgorithm>)
    requires forall a :: a in algs && a != Null ==> Field(Header, r, HashColumn(a)) == Some(HashCell(hashes, a))
    ensures ReadHashes(Header, r, algs) == KeptHashes(hashes, algs)
  {
    if algs != [] {
      ReadKeptHashes(r, hashes, algs[..|algs| - 1]);
    }
  }

  /** Splitting a joined column gives its entries back as licences; an empty column
      gives none. */
  lemma ReadJoined(xs: seq<string>)
    requires forall i :: 0 <= i < |xs| ==> ',' !in xs[i]
    ensures ExpressionLicenses(Split(Join(xs, ','), ',')) == ExpressionLicenses(xs)
    ensures NameLicenses(Split(Join(xs, ','), ',')) == NameLicenses(xs)
  {
    if xs == [] {
      assert Split(Join(xs, ','), ',') == [""];
      assert [""][..0] == [];
    } else {
      SplitJoin(xs, ',');
    }
  }

  lemma ReadKeptLicenses(r: Record, c: Component)
    requires CommaFree(c)
    requires Field(Header, r, "LicenseExpressions") == Some(Join(ExpressionCells(LicensesOf(c)), ','))
    requires Field(Header, r, "LicenseNames") == Some(Join(NameCells(LicensesOf(c)), ','))
    ensures ReadLicenses(Header, r) == KeptLicenses(c)
  {
    ReadJoined(ExpressionCells(LicensesOf(c)));
    ReadJoined(NameCells(LicensesOf(c)));
  }

  /** The scope text reads back as the scope. */
  lemma ReadScope(r: Record, scope: Option<Scope>)
    requires Field(Header, r, "Scope") == Some(ScopeText(scope))
    ensures ScopeOf(Header, r) == scope
  {
    if scope.Some? {
      ScopeParsesBack(scope.value);
    } else {
      assert ScopeText(scope) == "";
    }
  }

  /** The lower-case name written for a scope is parsed back to that scope. */
  lemma ScopeParsesBack(sc: Scope)
    ensures ParseScope(ScopeText(Some(sc))) == Some(sc)
  {
    var name := ScopeName(sc);
    var text := ToLower(name);
    assert text[0] == ToLowerChar(name[0]) && text[|text| - 1] == ToLowerChar(name[|name| - 1]);
    TrimKeeps(text);
    LowerTwice(name);
    assert ToLower(ScopeName(Required))[0] == 'r';
    assert ToLower(ScopeName(Optional))[0] == 'o';
    assert ToLower(ScopeName(Excluded))[0] == 'e';
  }

  /** Lower-casing twice is lower-casing once. */
  lemma LowerTwice(s: string)
    ensures ToLower(ToLower(s)) == ToLower(s)
  {
  }

  function TagVersionOf(swid: Option<Swid>): Option<int> {
    if swid.Some? then Some(swid.value.tagVersion) else None
  }

  function PatchOf(swid: Option<Swid>): Option<bool> {
    if swid.Some? then Some(swid.value.patch) else None
  }

  lemma ReadKeptSwid(r: Record, swid: Option<Swid>)
    requires |r| == |Header| && r[15..24] == SwidCells(swid)
    ensures ReadSwid(Header, r, TagVersionOf(swid), PatchOf(swid)) == KeptSwid(swid)
  {
    SwidFields(r, swid);
  }

  /** The typed fields convert back to the values written. */
  lemma ReadKind(r: Record, c: Component, conv: Converters)
    requires ReadsBack(conv)
    requires |r| == |Header| && r[..9] == IdentityCells(c)
    ensures Convert(Field(Header, r, "Type"), conv.kind) == Returned(Some(c.kind))
  {
    IdentityFields(r, c);
  }

  lemma ReadModified(r: Record, c: Component, conv: Converters)
    requires ReadsBack(conv)
    requires |r| == |Header| && r[11..15] == OtherCells(c)
    ensures Convert(Field(Header, r, "Modified"), conv.boolean) == Returned(c.modified)
  {
    OtherFields(r, c);
  }

  lemma ReadSwidTyped(r: Record, swid: Option<Swid>, conv: Converters)
    requires ReadsBack(conv)
    requires |r| == |Header| && r[15..24] == SwidCells(swid)
    ensures Convert(Field(Header, r, "SwidTagVersion"), conv.integer) == Returned(TagVersionOf(swid))
    ensures Convert(Field(Header, r, "SwidPatch"), conv.boolean) == Returned(PatchOf(swid))
  {
    SwidFields(r, swid);
    if swid.Some? {
      assert SwidCells(swid)[4] == BoolText(swid.value.patch);
    }
  }

  /** The string fields, the supplier and the Swid as the initializer and the null-outs
      leave them. */
  lemma ReadInitialized(r: Record, c: Component)
    requires |r| == |Header| && r[..9] == IdentityCells(c)
    requires r[11..15] == OtherCells(c) && r[15..24] == SwidCells(c.swid)
    requires r[36] == DescriptionCell(c.description)
    ensures Initialized(Header, r, c.kind, TagVersionOf(c.swid), PatchOf(c.swid), c.modified)
         == ReadBack(c).(scope := None, hashes := None, licenses := None)
  {
    IdentityFields(r, c);
    OtherFields(r, c);
    DescriptionField(r, c);
    ReadKeptSwid(r, c.swid);
  }

  /** The record of a component, read under the serializer's header, gives the
      component's read-back: the whole record, given its parts. */
  lemma ReadRecordParts(r: Record, c: Component, conv: Converters)
    requires ReadsBack(conv) && CommaFree(c)
    requires |r| == |Header| && r[..9] == IdentityCells(c) && r[9..11] == LicenseCells(c)
    requires r[11..15] == OtherCells(c) && r[15..24] == SwidCells(c.swid)
    requires r[24..36] == HashCells(c.hashes) && r[36] == DescriptionCell(c.description)
    ensures RowComponent(Header, r, conv) == Returned(ReadBack(c))
  {
    ReadKind(r, c, conv);
    ReadModified(r, c, conv);
    ReadSwidTyped(r, c.swid, conv);
    ReadFields(r, c);
  }

  /** With the typed fields converted back, the untyped fields of a record read back too. */
  lemma ReadFields(r: Record, c: Component)
    requires CommaFree(c)
    requires |r| == |Header| && r[..9] == IdentityCells(c) && r[9..11] == LicenseCells(c)
    requires r[11..15] == OtherCells(c) && r[15..24] == SwidCells(c.swid)
    requires r[24..36] == HashCells(c.hashes) && r[36] == DescriptionCell(c.description)
    ensures RowFields(Header, r, c.kind, TagVersionOf(c.swid), PatchOf(c.swid), c.modified) == ReadBack(c)
  {
    ReadInitialized(r, c);
    IdentityFields(r, c);
    LicenseFields(r, c);
    HashFields(r, c.hashes);
    ReadKeptHashes(r, c.hashes, HashAlgorithms);
    ReadKeptLicenses(r, c);
    ReadScope(r, c.scope);
  }

  /** Serializing a component and reading its record back gives `ReadBack(c)`, when the
      converters read back the .NET texts and no expression holds a ','. */
  lemma RowRoundTrip(c: Component, conv: Converters)
    requires ReadsBack(conv) && CommaFree(c)
    ensures RowComponent(Header, Row(c), conv) == Returned(ReadBack(c))
  {
    RowParts(c);
    ReadRecordParts(Row(c), c, conv);
  }

  function ReadBacks(cs: seq<Component>): (r: seq<Component>)
    ensures |r| == |cs|
  {
    seq(|cs|, k requires 0 <= k < |cs| => ReadBack(cs[k]))
  }

  /** Serializing a component list and deserializing the table gives a version-1 BOM with
      the read-back of every component, in order. */
  lemma TableRoundTrip(cs: seq<Component>, conv: Converters)
    requires ReadsBack(conv)
    requires forall k :: 0 <= k < |cs| ==> CommaFree(cs[k])
    ensures Deserialized([Header] + Rows(cs), conv)
         == Returned(NewBom.(version := Some(1), components := Some(ReadBacks(cs))))
  {
    var table := [Header] + Rows(cs);
    var read := RowReader(Header, conv);
    assert table[0] == Header && table[1..] == Rows(cs);
    forall k | 0 <= k < |cs|
      ensures read(Rows(cs)[k]) == Returned(ReadBack(cs[k]))
    {
      RowsAt(cs, k);
      RowRoundTrip(cs[k], conv);
    }
    ReadRecordsAll(Rows(cs), read);
    ReadRecordsEach(Rows(cs), read);
    assert ReadRecords(Rows(cs), read).value == ReadBacks(cs);
  }

  // ---------------------------------------------------------------- what the trip loses

  /** An expression without a space comes back as a licence id. */
  lemma ExpressionComesBackAsId(c: Component, e: string)
    requires c.licenses == Some([LicenseChoice(None, Some(e))])
    requires e != "" && ' ' !in e && ',' !in e
    ensures ReadBack(c).licenses == Some([IdLicense(e)])
    ensures ReadBack(c).licenses != c.licenses
  {
    var ls := LicensesOf(c);
    assert ls[..0] == [];
    assert ExpressionCells(ls) == [e];
    assert NameCells(ls) == [];
    assert PieceLicense(e) == Some(IdLicense(e));
    assert ExpressionLicenses([e]) == [IdLicense(e)] by {
      assert [e][..0] == [];
    }
    assert KeptLicenses(c) == [IdLicense(e)];
  }

  /** A licence name comes back with every ',' written as '_'. */
  lemma NameComesBackWithUnderscores(c: Component, name: string)
    requires c.licenses == Some([NamedLicense(name)])
    requires name != ""
    ensures ReadBack(c).licenses == Some([NamedLicense(ReplaceChar(name, ',', '_'))])
  {
    var ls := LicensesOf(c);
    assert ls[..0] == [];
    assert ExpressionCells(ls) == [];
    var n := ReplaceChar(name, ',', '_');
    assert NameCells(ls) == [n];
    assert NameLicenses([n]) == [NamedLicense(n)] by {
      assert [n][..0] == [];
    }
  }

  /** A Swid without text comes back with an empty text. */
  lemma SwidTextComesBack(s: Swid)
    requires s.text.None? && Normal(s.tagId).Some?
    ensures KeptSwid(Some(s)).Some? && KeptSwid(Some(s)).value.text == Some(AttachedText(None, None, Some("")))
  {
  }
}
