/** The component-versions diff of the earliest revision
    (cyclonedx/Commands/Convert/DiffCommand.cs). Components are compared by name and
    version only. The command works on two working copies of the component lists: it drops
    the (name, version) pairs present on both sides, then reports to-components with no
    remaining from-component of the same name as added, then from-components with no
    remaining to-component of the same name as removed, then pairs each remaining
    from-component with the first remaining to-component of the same name as modified, and
    finally reports whatever is left as removed or added. */
module Diff {
  import opened Wrappers
  import opened Formats
  import opened BomModel
  import Utils
  import opened Program
  import Strings

  /** What the diff compares components by. */
  datatype Key = Key(name: Option<string>, version: Option<string>)

  function KeyOf(c: Component): Key {
    Key(c.name, c.version)
  }

  function Keys(xs: seq<Component>): set<Key> {
    set i | 0 <= i < |xs| :: KeyOf(xs[i])
  }

  function Names(xs: seq<Component>): set<Option<string>> {
    set i | 0 <= i < |xs| :: xs[i].name
  }

  /** `List.RemoveAll` by key: the components whose (name, version) is not in `ks`, in order. */
  function WithoutKeys(xs: seq<Component>, ks: set<Key>): seq<Component> {
    if xs == [] then []
    else
      var last := xs[|xs| - 1];
      WithoutKeys(xs[..|xs| - 1], ks) + (if KeyOf(last) in ks then [] else [last])
  }

  /** The components whose name is in `ns`, in order. */
  function WithNames(xs: seq<Component>, ns: set<Option<string>>): seq<Component> {
    if xs == [] then []
    else
      var last := xs[|xs| - 1];
      WithNames(xs[..|xs| - 1], ns) + (if last.name in ns then [last] else [])
  }

  /** The components whose name is not in `ns`, in order. */
  function WithoutNames(xs: seq<Component>, ns: set<Option<string>>): seq<Component> {
    if xs == [] then []
    else
      var last := xs[|xs| - 1];
      WithoutNames(xs[..|xs| - 1], ns) + (if last.name in ns then [] else [last])
  }

  lemma {:induction false} WithoutKeysMembers(xs: seq<Component>, ks: set<Key>)
    ensures forall c :: c in WithoutKeys(xs, ks) <==> c in xs && KeyOf(c) !in ks
    decreases |xs|
  {
    if xs != [] {
      WithoutKeysMembers(xs[..|xs| - 1], ks);
      assert xs == xs[..|xs| - 1] + [xs[|xs| - 1]];
    }
  }

  lemma {:induction false} WithNamesMembers(xs: seq<Component>, ns: set<Option<string>>)
    ensures forall c :: c in WithNames(xs, ns) <==> c in xs && c.name in ns
    decreases |xs|
  {
    if xs != [] {
      WithNamesMembers(xs[..|xs| - 1], ns);
      assert xs == xs[..|xs| - 1] + [xs[|xs| - 1]];
    }
  }

  lemma {:induction false} WithoutNamesMembers(xs: seq<Component>, ns: set<Option<string>>)
    ensures forall c :: c in WithoutNames(xs, ns) <==> c in xs && c.name !in ns
    decreases |xs|
  {
    if xs != [] {
      WithoutNamesMembers(xs[..|xs| - 1], ns);
      assert xs == xs[..|xs| - 1] + [xs[|xs| - 1]];
    }
  }

  /** Removing keys that no component has changes nothing. */
  lemma {:induction false} WithoutAbsentKeys(xs: seq<Component>, ks: set<Key>)
    requires forall i :: 0 <= i < |xs| ==> KeyOf(xs[i]) !in ks
    ensures WithoutKeys(xs, ks) == xs
    decreases |xs|
  {
    if xs != [] {
      WithoutAbsentKeys(xs[..|xs| - 1], ks);
      assert xs == xs[..|xs| - 1] + [xs[|xs| - 1]];
    }
  }

  /** Removing every key a list holds leaves nothing. */
  lemma {:induction false} WithoutAllKeys(xs: seq<Component>, ks: set<Key>)
    requires forall i :: 0 <= i < |xs| ==> KeyOf(xs[i]) in ks
    ensures WithoutKeys(xs, ks) == []
    decreases |xs|
  {
    if xs != [] {
      WithoutAllKeys(xs[..|xs| - 1], ks);
    }
  }

  /** A name filter no component passes gives nothing, and one all pass gives everything. */
  lemma {:induction false} NameFiltersOnAbsentNames(xs: seq<Component>, ns: set<Option<string>>)
    requires forall i :: 0 <= i < |xs| ==> xs[i].name !in ns
    ensures WithNames(xs, ns) == []
    ensures WithoutNames(xs, ns) == xs
    decreases |xs|
  {
    if xs != [] {
      NameFiltersOnAbsentNames(xs[..|xs| - 1], ns);
      assert xs == xs[..|xs| - 1] + [xs[|xs| - 1]];
    }
  }

  /** `First(c => c.Name == name)`: the first component with the name, or nothing (where
      LINQ's First throws). */
  function FirstNamed(xs: seq<Component>, name: Option<string>): (r: Option<Component>)
    ensures r.None? <==> name !in Names(xs)
    ensures r.Some? ==> r.value in xs && r.value.name == name
    ensures r.Some? ==> exists i :: 0 <= i < |xs| && xs[i] == r.value && forall j :: 0 <= j < i ==> xs[j].name != name
  {
    if xs == [] then None
    else if xs[0].name == name then Some(xs[0])
    else
      var r := FirstNamed(xs[1..], name);
      assert Names(xs) == {xs[0].name} + Names(xs[1..]) by {
        forall n | n in Names(xs) ensures n in {xs[0].name} + Names(xs[1..]) {
          var i :| 0 <= i < |xs| && xs[i].name == n;
          if i > 0 { assert xs[1..][i - 1] == xs[i]; }
        }
      }
      if r.Some? then
        assert exists i :: 0 <= i < |xs| && xs[i] == r.value && forall j :: 0 <= j < i ==> xs[j].name != name by {
          var i :| 0 <= i < |xs[1..]| && xs[1..][i] == r.value && forall j :: 0 <= j < i ==> xs[1..][j].name != name;
          assert xs[i + 1] == r.value;
          forall j | 0 <= j < i + 1 ensures xs[j].name != name {
            if j > 0 { assert xs[j] == xs[1..][j - 1]; }
          }
        }
        r
      else r
  }

  /** A from-component paired with the to-component the diff matched it to. */
  datatype ModifiedPair = ModifiedPair(from: Component, to: Component)

  /** The component-versions part of the diff result. */
  datatype DiffItem = DiffItem(added: seq<Component>, removed: seq<Component>, modified: seq<ModifiedPair>)

  /** The working copies and the modified list while pairing. */
  datatype PairingState = PairingState(from: seq<Component>, to: seq<Component>, modified: seq<ModifiedPair>)

  /** The pairing loop over a snapshot of the remaining from-components: each is paired with
      the first remaining to-component of its name, then both pairs are removed by key.
      A from-component whose name no longer has a to-component makes First throw. */
  function Pairing(pending: seq<Component>, from: seq<Component>, to: seq<Component>, modified: seq<ModifiedPair>): (r: Result<PairingState>)
    ensures r.Thrown? ==> r.error == InvalidOperationException
    ensures r.Returned? ==> |r.value.modified| == |modified| + |pending|
    decreases |pending|
  {
    if pending == [] then Returned(PairingState(from, to, modified))
    else
      var fc := pending[0];
      var tc := FirstNamed(to, fc.name);
      if tc.None? then Thrown(InvalidOperationException)
      else Pairing(pending[1..], WithoutKeys(from, {KeyOf(fc)}), WithoutKeys(to, {KeyOf(tc.value)}),
                   modified + [ModifiedPair(fc, tc.value)])
  }

  /** The diff as successive filters. `common` is every (name, version) present on both
      sides; `from1`/`to1` are the working copies without them; `added` and `removed` are
      the "obvious" entries; the rest is paired. */
  function DiffSpec(fromAll: seq<Component>, toAll: seq<Component>): (r: Result<DiffItem>)
    ensures r.Thrown? ==> r.error == InvalidOperationException
  {
    var common := Keys(fromAll) * Keys(toAll);
    var from1 := WithoutKeys(fromAll, common);
    var to1 := WithoutKeys(toAll, common);
    var added := WithoutNames(to1, Names(from1));
    var to2 := WithNames(to1, Names(from1));
    var removed := WithoutNames(from1, Names(to2));
    var from3 := WithNames(from1, Names(to2));
    match Pairing(from3, from3, to2, [])
    case Thrown(e) => Thrown(e)
    case Returned(s) => Returned(DiffItem(added + s.to, removed + s.from, s.modified))
  }

  lemma KeysSnoc(xs: seq<Component>, i: nat)
    requires i < |xs|
    ensures Keys(xs[..i + 1]) == Keys(xs[..i]) + {KeyOf(xs[i])}
  {
    assert forall j :: 0 <= j < i ==> xs[..i + 1][j] == xs[..i][j];
    assert xs[..i + 1][i] == xs[i];
  }

  lemma KeysAppend(xs: seq<Component>, c: Component)
    ensures Keys(xs + [c]) == Keys(xs) + {KeyOf(c)}
  {
    assert forall j :: 0 <= j < |xs| ==> (xs + [c])[j] == xs[j];
    assert (xs + [c])[|xs|] == c;
  }

  lemma {:induction false} WithoutKeysTwice(xs: seq<Component>, a: set<Key>, b: set<Key>)
    ensures WithoutKeys(WithoutKeys(xs, a), b) == WithoutKeys(xs, a + b)
    decreases |xs|
  {
    if xs != [] {
      var init := xs[..|xs| - 1];
      var last := xs[|xs| - 1];
      WithoutKeysTwice(init, a, b);
      var s := WithoutKeys(init, a);
      assert WithoutKeys(xs, a) == s + (if KeyOf(last) in a then [] else [last]);
      assert WithoutKeys(xs, a + b) == WithoutKeys(init, a + b) + (if KeyOf(last) in a + b then [] else [last]);
      if KeyOf(last) !in a {
        var t := s + [last];
        assert t[..|t| - 1] == s && t[|t| - 1] == last;
        assert WithoutKeys(t, b) == WithoutKeys(s, b) + (if KeyOf(last) in b then [] else [last]);
      } else {
        assert s + [] == s;
      }
    }
  }

  /** Removing, by key, the components whose names lie outside `ns` keeps exactly those
      whose names lie inside it, when the keys to remove are exactly theirs. */
  lemma {:induction false} KeyFilterIsNameFilter(xs: seq<Component>, ks: set<Key>, ns: set<Option<string>>)
    requires forall c :: c in xs ==> (KeyOf(c) in ks <==> c.name !in ns)
    ensures WithoutKeys(xs, ks) == WithNames(xs, ns)
    decreases |xs|
  {
    if xs != [] {
      KeyFilterIsNameFilter(xs[..|xs| - 1], ks, ns);
    }
  }

  /** Removing, by key, everything a name filter rejects leaves what it accepts. */
  lemma RemovingRejectedKeys(xs: seq<Component>, ns: set<Option<string>>)
    ensures WithoutKeys(xs, Keys(WithoutNames(xs, ns))) == WithNames(xs, ns)
  {
    var rejected := WithoutNames(xs, ns);
    WithoutNamesMembers(xs, ns);
    forall c | c in xs ensures KeyOf(c) in Keys(rejected) <==> c.name !in ns {
      if c.name !in ns {
        var i :| 0 <= i < |rejected| && rejected[i] == c;
      }
    }
    KeyFilterIsNameFilter(xs, Keys(rejected), ns);
  }

  /** The first loop: every (name, version) pair that occurs on both sides is removed from
      both working copies, duplicates included. */
  method DropCommon(fromAll: seq<Component>, toAll: seq<Component>) returns (fromComponents: seq<Component>, toComponents: seq<Component>)
    ensures fromComponents == WithoutKeys(fromAll, Keys(fromAll) * Keys(toAll))
    ensures toComponents == WithoutKeys(toAll, Keys(fromAll) * Keys(toAll))
  {
    fromComponents, toComponents := fromAll, toAll;
    assert Keys(fromAll[..0]) * Keys(toAll) == {};
    WithoutAbsentKeys(fromAll, {});
    WithoutAbsentKeys(toAll, {});
    var i := 0;
    while i < |fromAll|
      invariant 0 <= i <= |fromAll|
      invariant fromComponents == WithoutKeys(fromAll, Keys(fromAll[..i]) * Keys(toAll))
      invariant toComponents == WithoutKeys(toAll, Keys(fromAll[..i]) * Keys(toAll))
    {
      var k := KeyOf(fromAll[i]);
      ghost var seen := Keys(fromAll[..i]) * Keys(toAll);
      KeysSnoc(fromAll, i);
      if k in Keys(toAll) {
        WithoutKeysTwice(fromAll, seen, {k});
        WithoutKeysTwice(toAll, seen, {k});
        fromComponents := WithoutKeys(fromComponents, {k});
        toComponents := WithoutKeys(toComponents, {k});
        assert Keys(fromAll[..i + 1]) * Keys(toAll) == seen + {k};
      } else {
        assert Keys(fromAll[..i + 1]) * Keys(toAll) == seen;
      }
      i := i + 1;
    }
    assert fromAll[..|fromAll|] == fromAll;
  }

  /** The second and third loops: over a snapshot of `xs`, each component whose name no
      component of `others` has is reported and removed, by key, from the working copy. */
  method TakeUnmatched(xs: seq<Component>, others: seq<Component>) returns (taken: seq<Component>, left: seq<Component>)
    ensures taken == WithoutNames(xs, Names(others))
    ensures left == WithNames(xs, Names(others))
  {
    taken, left := [], xs;
    assert Keys([]) == {};
    WithoutAbsentKeys(xs, {});
    var i := 0;
    while i < |xs|
      invariant 0 <= i <= |xs|
      invariant taken == WithoutNames(xs[..i], Names(others))
      invariant left == WithoutKeys(xs, Keys(taken))
    {
      var c := xs[i];
      assert xs[..i + 1][..i] == xs[..i];
      if c.name !in Names(others) {
        WithoutKeysTwice(xs, Keys(taken), {KeyOf(c)});
        KeysAppend(taken, c);
        taken := taken + [c];
        left := WithoutKeys(left, {KeyOf(c)});
      }
      i := i + 1;
    }
    assert xs[..|xs|] == xs;
    RemovingRejectedKeys(xs, Names(others));
  }

  /** The fourth loop, over a snapshot of the remaining from-components. */
  method PairRemaining(from: seq<Component>, to: seq<Component>) returns (r: Result<PairingState>)
    ensures r == Pairing(from, from, to, [])
  {
    var fromComponents, toComponents := from, to;
    var modified: seq<ModifiedPair> := [];
    var i := 0;
    while i < |from|
      invariant 0 <= i <= |from|
      invariant Pairing(from[i..], fromComponents, toComponents, modified) == Pairing(from, from, to, [])
    {
      var fromComponent := from[i];
      var toComponent := FirstNamed(toComponents, fromComponent.name);
      if toComponent.None? {
        return Thrown(InvalidOperationException);
      }
      assert from[i..][1..] == from[i + 1..];
      modified := modified + [ModifiedPair(fromComponent, toComponent.value)];
      fromComponents := WithoutKeys(fromComponents, {KeyOf(fromComponent)});
      toComponents := WithoutKeys(toComponents, {KeyOf(toComponent.value)});
      i := i + 1;
    }
    assert from[|from|..] == [];
    return Returned(PairingState(fromComponents, toComponents, modified));
  }

  /** The diff over two component lists, stage by stage as the command runs it; leftovers
      are appended to removed and added. The result is DiffSpec's. */
  method ComponentVersions(fromAll: seq<Component>, toAll: seq<Component>) returns (r: Result<DiffItem>)
    ensures r == DiffSpec(fromAll, toAll)
  {
    var from1, to1 := DropCommon(fromAll, toAll);
    var added, to2 := TakeUnmatched(to1, from1);
    var removed, from3 := TakeUnmatched(from1, to2);
    var paired := PairRemaining(from3, to2);
    if paired.Thrown? {
      return Thrown(paired.error);
    }
    removed := removed + paired.value.from;
    added := added + paired.value.to;
    return Returned(DiffItem(added, removed, paired.value.modified));
  }

  /** Where components may come from: `fromSide` and `toSide` hold every component the
      pairing may see on each side; a pair is drawn one from each and shares its name. */
  ghost predicate PairingInvariant(fromSide: set<Component>, toSide: set<Component>,
                                   pending: seq<Component>, from: seq<Component>, to: seq<Component>, modified: seq<ModifiedPair>) {
    && (forall c :: c in pending ==> c in fromSide)
    && (forall c :: c in from ==> c in fromSide)
    && (forall c :: c in to ==> c in toSide)
    && (forall p :: p in modified ==> p.from in fromSide && p.to in toSide && p.from.name == p.to.name)
  }

  lemma {:induction false} PairingKeepsSides(fromSide: set<Component>, toSide: set<Component>,
                                             pending: seq<Component>, from: seq<Component>, to: seq<Component>, modified: seq<ModifiedPair>)
    requires PairingInvariant(fromSide, toSide, pending, from, to, modified)
    ensures Pairing(pending, from, to, modified).Returned? ==>
      var s := Pairing(pending, from, to, modified).value;
      PairingInvariant(fromSide, toSide, [], s.from, s.to, s.modified)
    decreases |pending|
  {
    if pending != [] {
      var fc := pending[0];
      var tc := FirstNamed(to, fc.name);
      if tc.Some? {
        var modified' := modified + [ModifiedPair(fc, tc.value)];
        assert forall c :: c in pending[1..] ==> c in pending;
        WithoutKeysMembers(from, {KeyOf(fc)});
        WithoutKeysMembers(to, {KeyOf(tc.value)});
        assert forall p :: p in modified' ==> p in modified || p == ModifiedPair(fc, tc.value);
        PairingKeepsSides(fromSide, toSide, pending[1..], WithoutKeys(from, {KeyOf(fc)}), WithoutKeys(to, {KeyOf(tc.value)}), modified');
      }
    }
  }

  /** A (name, version) present in two lists has its name present in both. */
  lemma SharedKeysShareNames(xs: seq<Component>, ys: seq<Component>)
    ensures forall k :: k in Keys(xs) * Keys(ys) ==> k.name in Names(xs) * Names(ys)
  {
    forall k | k in Keys(xs) * Keys(ys) ensures k.name in Names(xs) * Names(ys) {
      var i :| 0 <= i < |xs| && KeyOf(xs[i]) == k;
      var j :| 0 <= j < |ys| && KeyOf(ys[j]) == k;
      assert xs[i].name in Names(xs) && ys[j].name in Names(ys);
    }
  }

  /** The components of a list whose keys lie outside `ks`, as a set. */
  ghost function Outside(xs: seq<Component>, ks: set<Key>): set<Component> {
    set c | c in xs && KeyOf(c) !in ks
  }

  /** No (name, version) present on both sides is ever reported, and every modified pair
      shares a name and differs in version. */
  lemma DiffReportsOnlyChanges(fromAll: seq<Component>, toAll: seq<Component>)
    ensures DiffSpec(fromAll, toAll).Returned? ==>
      var d := DiffSpec(fromAll, toAll).value;
      var common := Keys(fromAll) * Keys(toAll);
      && (forall c :: c in d.added ==> c in toAll && KeyOf(c) !in common)
      && (forall c :: c in d.removed ==> c in fromAll && KeyOf(c) !in common)
      && (forall p :: p in d.modified ==>
            p.from in fromAll && p.to in toAll && p.from.name == p.to.name && p.from.version != p.to.version)
  {
    var common := Keys(fromAll) * Keys(toAll);
    var from1 := WithoutKeys(fromAll, common);
    var to1 := WithoutKeys(toAll, common);
    var to2 := WithNames(to1, Names(from1));
    var from3 := WithNames(from1, Names(to2));
    WithoutKeysMembers(fromAll, common);
    WithoutKeysMembers(toAll, common);
    WithNamesMembers(to1, Names(from1));
    WithoutNamesMembers(to1, Names(from1));
    WithNamesMembers(from1, Names(to2));
    WithoutNamesMembers(from1, Names(to2));
    var fromSide := Outside(fromAll, common);
    var toSide := Outside(toAll, common);
    PairingKeepsSides(fromSide, toSide, from3, from3, to2, []);
  }

  /** Diffing a list against itself reports nothing. */
  lemma DiffOfIdenticalIsEmpty(xs: seq<Component>)
    ensures DiffSpec(xs, xs) == Returned(DiffItem([], [], []))
  {
    var common := Keys(xs) * Keys(xs);
    var from1 := WithoutKeys(xs, common);
    assert forall i :: 0 <= i < |xs| ==> KeyOf(xs[i]) in Keys(xs);
    WithoutAllKeys(xs, common);
    assert Names(from1) == {};
    assert WithNames(from1, {}) == [] && WithoutNames(from1, {}) == [];
    assert Pairing([], [], [], []) == Returned(PairingState([], [], []));
    assert from1 + from1 == from1;
  }

  /** When the two sides share no name, everything on the to-side is added and everything
      on the from-side removed, in order, and nothing is modified. */
  lemma DiffOfDisjointNames(fromAll: seq<Component>, toAll: seq<Component>)
    requires Names(fromAll) !! Names(toAll)
    ensures DiffSpec(fromAll, toAll) == Returned(DiffItem(toAll, fromAll, []))
  {
    var common := Keys(fromAll) * Keys(toAll);
    SharedKeysShareNames(fromAll, toAll);
    assert common == {};
    WithoutAbsentKeys(fromAll, common);
    WithoutAbsentKeys(toAll, common);
    forall i | 0 <= i < |toAll| ensures toAll[i].name !in Names(fromAll) {
      assert toAll[i].name in Names(toAll);
    }
    NameFiltersOnAbsentNames(toAll, Names(fromAll));
    assert Names([]) == {};
    NameFiltersOnAbsentNames(fromAll, {});
    assert toAll + [] == toAll && fromAll + [] == fromAll;
  }

  function Named(name: string, version: string): Component {
    NewComponent(Library, None, Some(name), Some(version))
  }

  /** From {A@1, A@2} to {A@3}: A@1 is paired with A@3, which is then removed, so First
      finds nothing for A@2 and throws. */
  lemma FirstThrowsWhenToSideRunsOut()
    ensures DiffSpec([Named("A", "1"), Named("A", "2")], [Named("A", "3")]) == Thrown(InvalidOperationException)
  {
    var a1, a2, a3 := Named("A", "1"), Named("A", "2"), Named("A", "3");
    var fromAll, toAll := [a1, a2], [a3];
    KeysAppend([], a1);
    KeysAppend([a1], a2);
    KeysAppend([], a3);
    assert [a1] + [a2] == fromAll && [] + [a3] == toAll;
    var common := Keys(fromAll) * Keys(toAll);
    assert common == {};
    WithoutAbsentKeys(fromAll, common);
    WithoutAbsentKeys(toAll, common);
    assert Names(fromAll) == {Some("A")} by {
      assert fromAll[0].name == Some("A") && fromAll[1].name == Some("A");
    }
    assert Names(toAll) == {Some("A")} by {
      assert toAll[0].name == Some("A");
    }
    assert toAll[..0] == [] && fromAll[..1] == [a1] && [a1][..0] == [];
    assert WithNames(toAll, Names(fromAll)) == toAll;
    assert WithNames(fromAll, Names(toAll)) == fromAll;
    assert WithoutKeys(toAll, {KeyOf(a3)}) == [];
    assert Names([]) == {};
    assert FirstNamed([], a2.name) == None;
    assert Pairing([a2], WithoutKeys(fromAll, {KeyOf(a1)}), [], [ModifiedPair(a1, a3)]) == Thrown(InvalidOperationException);
    assert FirstNamed(toAll, a1.name) == Some(a3);
    assert fromAll[1..] == [a2];
  }

  /** Both formats resolve and both have a reader in the registry. */
  predicate ReadersFound(fromFile: Option<string>, toFile: Option<string>, fromFormat: ProgramInputFormat, toFormat: ProgramInputFormat) {
    && InputFormatHelper(fromFile, fromFormat) != Unsupported && InputFormatHelper(toFile, toFormat) != Unsupported
    && Utils.BomDeserializer(InputFormatHelper(fromFile, fromFormat)).Returned?
    && Utils.BomDeserializer(InputFormatHelper(toFile, toFormat)).Returned?
  }

  /** The result of the diff command: its exit code, the component-versions section when
      --component-versions is given, and the lines printed in text form. */
  datatype DiffOutcome = DiffOutcome(exitCode: int, componentVersions: Option<DiffItem>, report: seq<string>)

  /** Diff. `fromBom` and `toBom` are what the library reader returns for the two files;
      `jsonOutput` is whether the output format is json, whose printing is the library's
      JSON serializer and is not modelled (no lines are recorded for it). */
  method Diff(fromFile: Option<string>, toFile: Option<string>, fromFormat: ProgramInputFormat, toFormat: ProgramInputFormat,
              componentVersions: bool, jsonOutput: bool, fromBom: Bom, toBom: Bom) returns (r: Result<DiffOutcome>)
    ensures InputFormatHelper(fromFile, fromFormat) == Unsupported || InputFormatHelper(toFile, toFormat) == Unsupported
      ==> r == Returned(DiffOutcome(Code(ParameterValidationError), None, []))
    ensures r.Returned? && r.value.exitCode == Code(Ok) ==>
      && Utils.BomDeserializer(InputFormatHelper(fromFile, fromFormat)).Returned?
      && Utils.BomDeserializer(InputFormatHelper(toFile, toFormat)).Returned?
    ensures r.Returned? ==> r.value.exitCode in {Code(Ok), Code(ParameterValidationError)}
    ensures r.Returned? ==> (r.value.componentVersions.Some? <==> r.value.exitCode == Code(Ok) && componentVersions)
    ensures r.Returned? && r.value.componentVersions.Some? ==>
      fromBom.components.Some? && toBom.components.Some?
      && DiffSpec(fromBom.components.value, toBom.components.value) == Returned(r.value.componentVersions.value)
    ensures r.Returned? ==> r.value.report == (if r.value.exitCode == Code(Ok) && !jsonOutput then TextOutput(r.value.componentVersions) else [])
    ensures r.Thrown? ==> r.error in {UnsupportedFormatException, ArgumentNullException, InvalidOperationException}
    ensures r.Thrown? && r.error == ArgumentNullException ==>
      componentVersions && (fromBom.components.None? || toBom.components.None?)
    ensures r.Returned? && r.value.exitCode == Code(ParameterValidationError) ==>
      InputFormatHelper(fromFile, fromFormat) == Unsupported || InputFormatHelper(toFile, toFormat) == Unsupported
    ensures ReadersFound(fromFile, toFile, fromFormat, toFormat) && !componentVersions ==> r.Returned?
    ensures ReadersFound(fromFile, toFile, fromFormat, toFormat) && componentVersions ==>
      (r.Returned? <==>
        fromBom.components.Some? && toBom.components.Some?
        && DiffSpec(fromBom.components.value, toBom.components.value).Returned?)
    ensures ReadersFound(fromFile, toFile, fromFormat, toFormat) && componentVersions
      && fromBom.components.Some? && toBom.components.Some?
      && DiffSpec(fromBom.components.value, toBom.components.value).Thrown?
      ==> r == Thrown(DiffSpec(fromBom.components.value, toBom.components.value).error)
    ensures InputFormatHelper(fromFile, fromFormat) != Unsupported && InputFormatHelper(toFile, toFormat) != Unsupported
      && !ReadersFound(fromFile, toFile, fromFormat, toFormat)
      ==> r == Thrown(UnsupportedFormatException)
  {
    var fromBomFormat := InputFormatHelper(fromFile, fromFormat);
    var toBomFormat := InputFormatHelper(toFile, toFormat);
    if fromBomFormat == Unsupported || toBomFormat == Unsupported {
      return Returned(DiffOutcome(Code(ParameterValidationError), None, []));
    }
    var fromReader := Utils.BomDeserializer(fromBomFormat);
    if fromReader.Thrown? {
      return Thrown(fromReader.error);
    }
    var toReader := Utils.BomDeserializer(toBomFormat);
    if toReader.Thrown? {
      return Thrown(toReader.error);
    }
    assert ReadersFound(fromFile, toFile, fromFormat, toFormat);
    var result: Option<DiffItem> := None;
    if componentVersions {
      if fromBom.components.None? || toBom.components.None? {
        return Thrown(ArgumentNullException);
      }
      var d := ComponentVersions(fromBom.components.value, toBom.components.value);
      if d.Thrown? {
        return Thrown(d.error);
      }
      result := Some(d.value);
    }
    return Returned(DiffOutcome(Code(Ok), result, if jsonOutput then [] else TextOutput(result)));
  }

  // ---------------------------------------------------------------- the text report

  /** A component as the report names it, `name@version` (null prints as nothing). */
  function Label(c: Component): string {
    Strings.Str(c.name) + "@" + Strings.Str(c.version)
  }

  /** The lines of the changes: each addition, each modified pair, each removal, every
      entry followed by an empty line. */
  function ChangeLines(d: DiffItem): (r: seq<string>)
    ensures |r| == 2 * |d.added| + 3 * |d.modified| + 2 * |d.removed|
    ensures r == [] <==> NoChanges(d)
  {
    AddedLines(d.added) + ModifiedLines(d.modified) + RemovedLines(d.removed)
  }

  function AddedLines(cs: seq<Component>): (r: seq<string>)
    ensures |r| == 2 * |cs|
  {
    if cs == [] then [] else ["+ " + Label(cs[0]), ""] + AddedLines(cs[1..])
  }

  function ModifiedLines(ps: seq<ModifiedPair>): (r: seq<string>)
    ensures |r| == 3 * |ps|
  {
    if ps == [] then [] else ["- " + Label(ps[0].from), "+ " + Label(ps[0].to), ""] + ModifiedLines(ps[1..])
  }

  function RemovedLines(cs: seq<Component>): (r: seq<string>)
    ensures |r| == 2 * |cs|
  {
    if cs == [] then [] else ["- " + Label(cs[0]), ""] + RemovedLines(cs[1..])
  }

  /** The i-th addition is printed at line 2i. */
  lemma {:induction false} AddedLineAt(cs: seq<Component>, i: nat)
    requires i < |cs|
    ensures AddedLines(cs)[2 * i] == "+ " + Label(cs[i])
  {
    if i > 0 {
      AddedLineAt(cs[1..], i - 1);
      assert AddedLines(cs)[2 * i] == AddedLines(cs[1..])[2 * (i - 1)];
    }
  }

  /** The i-th modified pair is printed at lines 3i and 3i+1. */
  lemma {:induction false} ModifiedLinesAt(ps: seq<ModifiedPair>, i: nat)
    requires i < |ps|
    ensures ModifiedLines(ps)[3 * i] == "- " + Label(ps[i].from)
    ensures ModifiedLines(ps)[3 * i + 1] == "+ " + Label(ps[i].to)
  {
    if i > 0 {
      ModifiedLinesAt(ps[1..], i - 1);
      assert ModifiedLines(ps)[3 * i] == ModifiedLines(ps[1..])[3 * (i - 1)];
      assert ModifiedLines(ps)[3 * i + 1] == ModifiedLines(ps[1..])[3 * (i - 1) + 1];
    }
  }

  /** The i-th removal is printed at line 2i. */
  lemma {:induction false} RemovedLineAt(cs: seq<Component>, i: nat)
    requires i < |cs|
    ensures RemovedLines(cs)[2 * i] == "- " + Label(cs[i])
  {
    if i > 0 {
      RemovedLineAt(cs[1..], i - 1);
      assert RemovedLines(cs)[2 * i] == RemovedLines(cs[1..])[2 * (i - 1)];
    }
  }

  /** The emptiness test as the command writes it: the removed list is tested twice and
      the added list never. */
  predicate NoChangesAsWritten(d: DiffItem) {
    |d.removed| == 0 && |d.modified| == 0 && |d.removed| == 0
  }

  /** The emptiness test as intended: no addition, no modification, no removal. */
  predicate NoChanges(d: DiffItem) {
    |d.added| == 0 && |d.modified| == 0 && |d.removed| == 0
  }

  /** The text report with the test as written: the same as the intended report except
      that a diff whose only changes are additions prints "None". */
  function TextReportAsWritten(d: DiffItem): (r: seq<string>)
    ensures |d.added| > 0 && |d.modified| == 0 && |d.removed| == 0 ==>
      r == ["Component versions that have changed:", "", "None", ""]
    ensures !(|d.added| > 0 && |d.modified| == 0 && |d.removed| == 0) ==> r == TextReport(d)
  {
    ["Component versions that have changed:", ""]
    + (if NoChangesAsWritten(d) then ["None"] else ChangeLines(d))
    + [""]
  }

  /** The text report: a heading, "None" when nothing changed, else every change. */
  function TextReport(d: DiffItem): (r: seq<string>)
    ensures |r| >= 4
    ensures r[0] == "Component versions that have changed:" && r[1] == "" && r[|r| - 1] == ""
  {
    ["Component versions that have changed:", ""]
    + (if NoChanges(d) then ["None"] else ChangeLines(d))
    + [""]
  }

  /** What the command prints in text form: the report, with the emptiness test as the
      command writes it, when the component-versions section was asked for; nothing
      otherwise. */
  function TextOutput(componentVersions: Option<DiffItem>): (r: seq<string>)
    ensures r == [] <==> componentVersions.None?
    ensures componentVersions.Some? ==> r[0] == "Component versions that have changed:"
  {
    if componentVersions.Some? then TextReportAsWritten(componentVersions.value) else []
  }

  /** A diff whose only change is an addition is reported as "None": the addition is
      never printed. */
  lemma {:induction false} AdditionReportedAsNone()
    ensures var d := DiffItem([Named("A", "1")], [], []);
      && TextReportAsWritten(d) == ["Component versions that have changed:", "", "None", ""]
      && "+ A@1" !in TextReportAsWritten(d)
      && "+ A@1" in TextReport(d)
  {
    var d := DiffItem([Named("A", "1")], [], []);
    assert Label(Named("A", "1")) == "A@1";
    assert ChangeLines(d)[0] == "+ A@1";
    assert TextReport(d)[2] == "+ A@1";
  }

  /** The report says "None" exactly when nothing changed; otherwise the change lines sit
      between the heading and the closing empty line. */
  lemma TextReportSaysNone(d: DiffItem)
    ensures TextReport(d)[2] == "None" <==> NoChanges(d)
    ensures NoChanges(d) ==> |TextReport(d)| == 4
    ensures !NoChanges(d) ==>
      && |TextReport(d)| == 3 + 2 * |d.added| + 3 * |d.modified| + 2 * |d.removed|
      && TextReport(d)[2..|TextReport(d)| - 1] == ChangeLines(d)
  {
    var report := TextReport(d);
    if !NoChanges(d) {
      var lines := ChangeLines(d);
      assert report == ["Component versions that have changed:", ""] + lines + [""];
      assert report[2..|report| - 1] == lines;
      if |d.added| > 0 {
        AddedLineAt(d.added, 0);
        assert report[2] == AddedLines(d.added)[0];
        assert report[2][0] == '+';
      } else if |d.modified| > 0 {
        ModifiedLinesAt(d.modified, 0);
        assert report[2] == ModifiedLines(d.modified)[0];
        assert report[2][0] == '-';
      } else {
        RemovedLineAt(d.removed, 0);
        assert report[2] == RemovedLines(d.removed)[0];
        assert report[2][0] == '-';
      }
    }
  }

  /** Line k of the changes is line k + 2 of the report. */
  lemma ChangeLineInReport(d: DiffItem, k: nat)
    requires k < |ChangeLines(d)|
    ensures 2 + k < |TextReport(d)| && TextReport(d)[2 + k] == ChangeLines(d)[k]
  {
    assert !NoChanges(d);
    assert TextReport(d) == ["Component versions that have changed:", ""] + ChangeLines(d) + [""];
  }

  /** Every addition is printed, in order. */
  lemma ReportListsAdded(d: DiffItem, i: nat)
    requires i < |d.added|
    ensures TextReport(d)[2 + 2 * i] == "+ " + Label(d.added[i])
  {
    AddedLineAt(d.added, i);
    ChangeLineInReport(d, 2 * i);
  }

  /** Every modified pair is printed, old then new, after the additions. */
  lemma ReportListsModified(d: DiffItem, i: nat)
    requires i < |d.modified|
    ensures TextReport(d)[2 + 2 * |d.added| + 3 * i] == "- " + Label(d.modified[i].from)
    ensures TextReport(d)[3 + 2 * |d.added| + 3 * i] == "+ " + Label(d.modified[i].to)
  {
    ModifiedFromInReport(d, i);
    ModifiedToInReport(d, i);
  }

  lemma ModifiedFromInReport(d: DiffItem, i: nat)
    requires i < |d.modified|
    ensures TextReport(d)[2 + 2 * |d.added| + 3 * i] == "- " + Label(d.modified[i].from)
  {
    ModifiedLinesAt(d.modified, i);
    ModifiedLineInReport(d, 3 * i);
  }

  lemma ModifiedToInReport(d: DiffItem, i: nat)
    requires i < |d.modified|
    ensures TextReport(d)[3 + 2 * |d.added| + 3 * i] == "+ " + Label(d.modified[i].to)
  {
    var k := 2 + 2 * |d.added| + (3 * i + 1);
    assert k == 3 + 2 * |d.added| + 3 * i;
    ModifiedLinesAt(d.modified, i);
    ModifiedLineInReport(d, 3 * i + 1);
  }

  /** The k-th line of the modified pairs is printed after the heading, the blank line
      and the additions. */
  lemma ModifiedLineInReport(d: DiffItem, k: nat)
    requires k < |ModifiedLines(d.modified)|
    ensures 2 + 2 * |d.added| + k < |TextReport(d)|
    ensures TextReport(d)[2 + 2 * |d.added| + k] == ModifiedLines(d.modified)[k]
  {
    var a, m, z := AddedLines(d.added), ModifiedLines(d.modified), RemovedLines(d.removed);
    MiddleAt(a, m, z, k);
    ChangeLineInReport(d, |a| + k);
  }

  /** Indexing into the middle part of a three-part concatenation. */
  lemma MiddleAt(a: seq<string>, m: seq<string>, z: seq<string>, k: nat)
    requires k < |m|
    ensures |a| + k < |a + m + z| && (a + m + z)[|a| + k] == m[k]
  {
  }

  /** Every removal is printed, after the modified pairs. */
  lemma ReportListsRemoved(d: DiffItem, i: nat)
    requires i < |d.removed|
    ensures TextReport(d)[2 + 2 * |d.added| + 3 * |d.modified| + 2 * i] == "- " + Label(d.removed[i])
  {
    RemovedLineAt(d.removed, i);
    var k := |AddedLines(d.added)| + |ModifiedLines(d.modified)| + 2 * i;
    assert ChangeLines(d)[k] == RemovedLines(d.removed)[2 * i];
    ChangeLineInReport(d, k);
  }
}
