/** A merged inventory reads back, keeps unrelated rows, and is not changed by merging again. */
module InventoryLaws {
  import opened Wrappers
  import opened Inventory

  datatype Inputs = Inputs(original: seq<Section>, rendered: seq<Section>, pair: set<string>, first: string -> Option<string>)

  /** The merge does not refuse this section. */
  predicate Acceptable(m: Inputs, name: string) {
    if Variables(name) then Has(m.original, name)
    else Supported(name) && AllNamed(RowsOf(m.original, name), m.first) && AllAmong(RowsOf(m.rendered, name), m.pair, m.first)
  }

  function MergedRows(m: Inputs, name: string): seq<string> {
    if Variables(name) then RowsOf(m.original, name)
    else Retained(RowsOf(m.original, name), m.pair, m.first) + RowsOf(m.rendered, name)
  }

  /** What one section adds to the result. */
  function Contribution(m: Inputs, name: string): seq<Section> {
    if !Variables(name) && MergedRows(m, name) == [] then [] else [Section(name, MergedRows(m, name))]
  }

  function Contributions(m: Inputs, names: seq<string>): seq<Section> {
    if names == [] then [] else Contributions(m, names[..|names| - 1]) + Contribution(m, names[|names| - 1])
  }

  predicate AllAcceptable(m: Inputs, names: seq<string>) {
    forall i | 0 <= i < |names| :: Acceptable(m, names[i])
  }

  lemma {:induction false} AllAcceptableStep(m: Inputs, names: seq<string>)
    requires names != []
    ensures AllAcceptable(m, names) <==> AllAcceptable(m, names[..|names| - 1]) && Acceptable(m, names[|names| - 1])
  {
    hide Acceptable;
    var init := names[..|names| - 1];
    if AllAcceptable(m, names) {
      forall i | 0 <= i < |init| ensures Acceptable(m, init[i]) {
        assert init[i] == names[i];
      }
    }
    if AllAcceptable(m, init) && Acceptable(m, names[|names| - 1]) {
      forall i | 0 <= i < |names| ensures Acceptable(m, names[i]) {
        if i < |init| {
          assert init[i] == names[i];
        }
      }
    }
  }

  /** The merge is refused iff some section is, and otherwise yields every section's contribution in order. */
  lemma {:induction false} MergedIsContributions(m: Inputs, names: seq<string>)
    ensures MergedOver(m.original, m.rendered, m.pair, m.first, names)
            == if AllAcceptable(m, names) then Some(Contributions(m, names)) else None
    decreases |names|
  {
    hide Acceptable, AllAcceptable;
    if names == [] {
      assert AllAcceptable(m, names) by { NothingToAccept(m); }
    } else {
      var init, last := names[..|names| - 1], names[|names| - 1];
      MergedIsContributions(m, init);
      AllAcceptableStep(m, names);
      SectionContributes(m, Contributions(m, init), last);
    }
  }

  lemma {:induction false} NothingToAccept(m: Inputs)
    ensures AllAcceptable(m, [])
  {
  }

  lemma {:induction false} SectionContributes(m: Inputs, result: seq<Section>, name: string)
    ensures MergeSection(m.original, m.rendered, m.pair, m.first, result, name)
            == if Acceptable(m, name) then Some(result + Contribution(m, name)) else None
  {
    hide Retained, AllNamed, AllAmong, Variables, Supported, Has;
    assert result + [] == result;
  }

  // ---------------------------------------------------------------- names

  predicate DistinctNames(names: seq<string>) {
    forall i, j | 0 <= i < j < |names| :: names[i] != names[j]
  }

  function NamesOf(sections: seq<Section>): (names: seq<string>)
    ensures |names| == |sections|
  {
    seq(|sections|, i requires 0 <= i < |sections| => sections[i].name)
  }

  lemma {:induction false} HasAppended(sections: seq<Section>, section: Section, name: string)
    ensures Has(sections + [section], name) <==> Has(sections, name) || section.name == name
  {
    if Has(sections, name) {
      var i :| 0 <= i < |sections| && sections[i].name == name;
      assert (sections + [section])[i].name == name;
    }
    assert (sections + [section])[|sections|] == section;
  }

  lemma {:induction false} RowsOfAppended(sections: seq<Section>, section: Section, name: string)
    ensures RowsOf(sections + [section], name) == if section.name == name then section.rows else RowsOf(sections, name)
  {
    assert (sections + [section])[..|sections|] == sections;
  }

  lemma {:induction false} RowsOfMissing(sections: seq<Section>, name: string)
    requires !Has(sections, name)
    ensures RowsOf(sections, name) == []
    decreases |sections|
  {
    if sections != [] {
      var init, last := sections[..|sections| - 1], sections[|sections| - 1];
      assert init + [last] == sections;
      HasAppended(init, last, name);
      hide Has;
      RowsOfMissing(init, name);
    }
  }

  lemma {:induction false} OrderMembers(original: seq<Section>, rendered: seq<Section>, name: string)
    ensures name in Order(original, rendered) <==> Has(original, name) || Has(rendered, name)
    decreases |rendered|
  {
    if rendered == [] {
      if Has(original, name) {
        var i :| 0 <= i < |original| && original[i].name == name;
        assert Order(original, rendered)[i] == name;
      }
    } else {
      var init, last := rendered[..|rendered| - 1], rendered[|rendered| - 1];
      assert init + [last] == rendered;
      HasAppended(init, last, name);
      hide Has;
      OrderMembers(original, init, name);
    }
  }

  lemma {:induction false} OrderDistinct(original: seq<Section>, rendered: seq<Section>)
    requires DistinctSections(original) && DistinctSections(rendered)
    ensures DistinctNames(Order(original, rendered))
    decreases |rendered|
  {
    if rendered != [] {
      var init, last := rendered[..|rendered| - 1], rendered[|rendered| - 1];
      OrderDistinct(original, init);
      OrderMembers(original, init, last.name);
      assert !Has(init, last.name);
    }
  }

  // ---------------------------------------------------------------- contributions

  lemma {:induction false} ContributionsHave(m: Inputs, names: seq<string>, name: string)
    requires DistinctNames(names)
    ensures Has(Contributions(m, names), name) <==> name in names && Contribution(m, name) != []
    ensures RowsOf(Contributions(m, names), name) == if name in names then (if Contribution(m, name) == [] then [] else MergedRows(m, name)) else []
    decreases |names|
  {
    hide MergedRows, Has, RowsOf, Variables;
    if names == [] {
      NothingHas(name);
    } else {
      var init, last := names[..|names| - 1], names[|names| - 1];
      ContributionsHave(m, init, name);
      var before := Contributions(m, init);
      if Contribution(m, last) != [] {
        HasAppended(before, Section(last, MergedRows(m, last)), name);
        RowsOfAppended(before, Section(last, MergedRows(m, last)), name);
      } else {
        assert before + [] == before;
      }
      assert name in names <==> name in init || name == last;
      assert last !in init;
    }
  }

  lemma {:induction false} NothingHas(name: string)
    ensures !Has([], name) && RowsOf([], name) == []
  {
  }

  lemma {:induction false} ContributionsDistinct(m: Inputs, names: seq<string>)
    requires DistinctNames(names)
    ensures DistinctSections(Contributions(m, names))
    decreases |names|
  {
    hide MergedRows, Has, RowsOf, Variables;
    if names != [] {
      var init, last := names[..|names| - 1], names[|names| - 1];
      ContributionsDistinct(m, init);
      ContributionsHave(m, init, last);
      assert last !in init;
      var before := Contributions(m, init);
      if Contribution(m, last) != [] {
        DistinctAppended(before, Section(last, MergedRows(m, last)));
      } else {
        assert before + [] == before;
      }
    }
  }

  lemma {:induction false} DistinctAppended(sections: seq<Section>, section: Section)
    requires DistinctSections(sections) && !Has(sections, section.name)
    ensures DistinctSections(sections + [section])
  {
  }

  /** Every section of the result is the contribution of its name. */
  lemma {:induction false} ContributionsAre(m: Inputs, names: seq<string>, i: nat)
    requires i < |Contributions(m, names)|
    ensures var section := Contributions(m, names)[i];
            section.name in names && Contribution(m, section.name) == [section]
    decreases |names|
  {
    hide MergedRows, Variables;
    var init, last := names[..|names| - 1], names[|names| - 1];
    if i < |Contributions(m, init)| {
      ContributionsAre(m, init, i);
      assert Contributions(m, names)[i] == Contributions(m, init)[i];
    }
  }

  // ---------------------------------------------------------------- the merged inventory

  lemma {:induction false} MergedMeans(m: Inputs)
    requires Merged(m.original, m.rendered, m.pair, m.first).Some?
    ensures var names := Order(m.original, m.rendered);
            AllAcceptable(m, names) && Merged(m.original, m.rendered, m.pair, m.first) == Some(Contributions(m, names))
  {
    hide AllAcceptable, Contributions, MergedOver, Order;
    MergedIsContributions(m, Order(m.original, m.rendered));
  }

  /** No contribution means no rows, so the rows of every section are what was merged for it. */
  lemma {:induction false} ResultRows(m: Inputs, name: string)
    requires Merged(m.original, m.rendered, m.pair, m.first).Some?
    requires DistinctSections(m.original) && DistinctSections(m.rendered)
    ensures var result := Merged(m.original, m.rendered, m.pair, m.first).value;
            && RowsOf(result, name) == MergedRows(m, name)
            && (Has(result, name) <==> (Has(m.original, name) || Has(m.rendered, name)) && Contribution(m, name) != [])
  {
    hide Contributions, RowsOf, Has, Retained, Merged, AllAcceptable, DistinctSections, Variables;
    var names := Order(m.original, m.rendered);
    MergedMeans(m);
    OrderDistinct(m.original, m.rendered);
    OrderMembers(m.original, m.rendered, name);
    hide Order, DistinctNames;
    ContributionsHave(m, names, name);
    if name !in names {
      RowsOfMissing(m.original, name);
      RowsOfMissing(m.rendered, name);
      RetainedNothing(m);
    }
  }

  lemma {:induction false} RetainedNothing(m: Inputs)
    ensures Retained([], m.pair, m.first) == []
  {
  }

  lemma {:induction false} RetainedOfSum(a: seq<string>, b: seq<string>, pair: set<string>, first: string -> Option<string>)
    ensures Retained(a + b, pair, first) == Retained(a, pair, first) + Retained(b, pair, first)
    decreases |b|
  {
    if b == [] {
      assert a + b == a;
    } else {
      RetainedOfSum(a, b[..|b| - 1], pair, first);
      assert (a + b)[..|a + b| - 1] == a + b[..|b| - 1];
    }
  }

  lemma {:induction false} RetainedOfPair(rows: seq<string>, pair: set<string>, first: string -> Option<string>)
    requires AllAmong(rows, pair, first)
    ensures Retained(rows, pair, first) == []
    decreases |rows|
  {
    if rows != [] {
      RetainedOfPair(rows[..|rows| - 1], pair, first);
    }
  }

  lemma {:induction false} RetainedAgain(rows: seq<string>, pair: set<string>, first: string -> Option<string>)
    ensures Retained(Retained(rows, pair, first), pair, first) == Retained(rows, pair, first)
    decreases |rows|
  {
    if rows != [] {
      var init, last := rows[..|rows| - 1], rows[|rows| - 1];
      var kept := Retained(init, pair, first);
      RetainedAgain(init, pair, first);
      assert kept + [] == kept;
      assert (kept + [last])[..|kept|] == kept;
    }
  }

  lemma {:induction false} RetainedNamed(rows: seq<string>, pair: set<string>, first: string -> Option<string>)
    requires AllNamed(rows, first)
    ensures AllNamed(Retained(rows, pair, first), first)
  {
    hide Retained;
    RetainedRows(rows, pair, first);
    var kept := Retained(rows, pair, first);
    forall i | 0 <= i < |kept| ensures first(kept[i]).Some? {
      assert kept[i] in rows;
    }
  }

  /** Merging changes nothing about the retained rows of a section. */
  lemma {:induction false} RetainedSame(m: Inputs, name: string)
    requires Merged(m.original, m.rendered, m.pair, m.first).Some?
    requires DistinctSections(m.original) && DistinctSections(m.rendered)
    ensures Retained(RowsOf(Merged(m.original, m.rendered, m.pair, m.first).value, name), m.pair, m.first)
            == Retained(RowsOf(m.original, name), m.pair, m.first)
  {
    hide Merged, DistinctSections, Retained, RowsOf, AllAmong;
    ResultRows(m, name);
    if !Variables(name) {
      RetainedOfSum(Retained(RowsOf(m.original, name), m.pair, m.first), RowsOf(m.rendered, name), m.pair, m.first);
      RetainedAgain(RowsOf(m.original, name), m.pair, m.first);
      AcceptedRows(m, name);
      RetainedOfPair(RowsOf(m.rendered, name), m.pair, m.first);
    }
  }

  // ---------------------------------------------------------------- row by row

  /** The row names a host of the pair. */
  predicate Paired(m: Inputs, row: string) {
    m.first(row).Some? && m.first(row).value in m.pair
  }

  /** These are the rows of the section; a section that is not there has none. */
  predicate RowsAre(sections: seq<Section>, name: string, rows: seq<string>) {
    Section(name, rows) in sections || (rows == [] && !Has(sections, name))
  }

  /** `kept` are the rows at these places, which are all places of unrelated rows, in order. */
  ghost predicate KeptAt(m: Inputs, was: seq<string>, kept: seq<string>, at: seq<nat>) {
    && |at| == |kept| && (forall k, l | 0 <= k < l < |at| :: at[k] < at[l])
    && (forall k | 0 <= k < |at| :: at[k] < |was| && kept[k] == was[at[k]])
    && (forall i | 0 <= i < |was| :: i in at <==> !Paired(m, was[i]))
  }

  ghost predicate KeptIn(m: Inputs, was: seq<string>, kept: seq<string>) {
    exists at :: KeptAt(m, was, kept, at)
  }

  /** Every unrelated row is still there, in its order and as often; then come the rendered rows, and nothing else. */
  ghost predicate Survive(m: Inputs, was: seq<string>, added: seq<string>, rows: seq<string>) {
    && |rows| >= |added| && rows[|rows| - |added|..] == added
    && KeptIn(m, was, rows[..|rows| - |added|])
    && forall row | !Paired(m, row) :: multiset(rows)[row] == multiset(was)[row]
  }

  lemma {:induction false} KeptNext(m: Inputs, was: seq<string>, row: string, kept: seq<string>, at: seq<nat>)
    requires KeptAt(m, was, kept, at)
    ensures Paired(m, row) ==> KeptAt(m, was + [row], kept, at)
    ensures !Paired(m, row) ==> KeptAt(m, was + [row], kept + [row], at + [|was|])
  {
    hide Paired;
  }

  lemma {:induction false} RetainedAt(m: Inputs, was: seq<string>) returns (at: seq<nat>)
    ensures KeptAt(m, was, Retained(was, m.pair, m.first), at)
    decreases |was|
  {
    at := [];
    if was != [] {
      hide KeptAt;
      var init, last := was[..|was| - 1], was[|was| - 1];
      at := RetainedAt(m, init);
      KeptNext(m, init, last, Retained(init, m.pair, m.first), at);
      assert init + [last] == was;
      if !Paired(m, last) {
        at := at + [|init|];
      } else {
        assert Retained(init, m.pair, m.first) + [] == Retained(init, m.pair, m.first);
      }
    }
  }

  lemma {:induction false} RetainedCount(m: Inputs, was: seq<string>, row: string)
    ensures multiset(Retained(was, m.pair, m.first))[row] == if Paired(m, row) then 0 else multiset(was)[row]
    decreases |was|
  {
    if was != [] {
      var init, last := was[..|was| - 1], was[|was| - 1];
      RetainedCount(m, init, row);
      assert was == init + [last];
      assert multiset(was) == multiset(init) + multiset{last};
    }
  }

  lemma {:induction false} PairedCount(m: Inputs, rows: seq<string>, row: string)
    requires AllAmong(rows, m.pair, m.first) && !Paired(m, row)
    ensures multiset(rows)[row] == 0
  {
    forall i | 0 <= i < |rows| ensures rows[i] != row {
    }
    assert row !in rows;
  }

  lemma {:induction false} RowsOfMeans(sections: seq<Section>, name: string, rows: seq<string>)
    requires DistinctSections(sections)
    ensures RowsAre(sections, name, rows) <==> rows == RowsOf(sections, name)
    decreases |sections|
  {
    if sections != [] {
      var init, last := sections[..|sections| - 1], sections[|sections| - 1];
      RowsOfMeans(init, name, rows);
      assert sections == init + [last];
      HasAppended(init, last, name);
      hide RowsOf;
      RowsOfAppended(init, last, name);
      if last.name == name {
        assert !Has(init, name) by { LastAlone(sections); }
        if Section(name, rows) in init {
          SectionHas(init, name, rows);
        }
      }
    }
  }

  lemma {:induction false} LastAlone(sections: seq<Section>)
    requires DistinctSections(sections) && sections != []
    ensures !Has(sections[..|sections| - 1], sections[|sections| - 1].name)
  {
  }

  lemma {:induction false} SectionHas(sections: seq<Section>, name: string, rows: seq<string>)
    requires Section(name, rows) in sections
    ensures Has(sections, name)
  {
    var i :| 0 <= i < |sections| && sections[i] == Section(name, rows);
    assert sections[i].name == name;
  }

  /**
   Section by section: every row of a host outside the pair survives as often as it was there and
   in its order, the rendered rows follow, and variable sections stay as they are.
   */
  lemma {:induction false} UnrelatedRowsSurvive(m: Inputs, result: seq<Section>, name: string, was: seq<string>, added: seq<string>, rows: seq<string>)
    requires Merged(m.original, m.rendered, m.pair, m.first) == Some(result)
    requires DistinctSections(m.original) && DistinctSections(m.rendered)
    requires RowsAre(m.original, name, was) && RowsAre(m.rendered, name, added) && RowsAre(result, name, rows)
    ensures if Variables(name) then rows == was else Survive(m, was, added, rows)
  {
    hide Merged, Retained, RowsOf, AllAmong, RowsAre, Paired, Variables, AllNamed;
    ResultRows(m, name);
    ResultDistinct(m, result);
    RowsOfMeans(m.original, name, was);
    RowsOfMeans(m.rendered, name, added);
    RowsOfMeans(result, name, rows);
    hide DistinctSections;
    if !Variables(name) {
      var kept := Retained(was, m.pair, m.first);
      assert rows == kept + added;
      assert rows[..|rows| - |added|] == kept;
      var at := RetainedAt(m, was);
      assert KeptIn(m, was, kept);
      AcceptedRows(m, name);
      forall row | !Paired(m, row) ensures multiset(rows)[row] == multiset(was)[row] {
        RetainedCount(m, was, row);
        PairedCount(m, added, row);
      }
    }
  }

  lemma {:induction false} ResultDistinct(m: Inputs, result: seq<Section>)
    requires Merged(m.original, m.rendered, m.pair, m.first) == Some(result)
    requires DistinctSections(m.original) && DistinctSections(m.rendered)
    ensures DistinctSections(result)
  {
    hide Merged, Contributions, Order, AllAcceptable;
    MergedMeans(m);
    OrderDistinct(m.original, m.rendered);
    ContributionsDistinct(m, Order(m.original, m.rendered));
  }

  // ---------------------------------------------------------------- the order of the sections

  /** Sections of the original keep their order, and come before those only the rendering has, which keep theirs. */
  ghost predicate Earlier(original: seq<Section>, rendered: seq<Section>, x: string, y: string) {
    && (Has(original, y) ==> Has(original, x))
    && (forall i, k | 0 <= i < |original| && 0 <= k < |original| && original[i].name == x && original[k].name == y :: i < k)
    && (!Has(original, x) && !Has(original, y) ==>
          forall i, k | 0 <= i < |rendered| && 0 <= k < |rendered| && rendered[i].name == x && rendered[k].name == y :: i < k)
  }

  lemma {:induction false} OrderEarlier(original: seq<Section>, rendered: seq<Section>, p: nat, q: nat)
    requires DistinctSections(original) && DistinctSections(rendered) && p < q < |Order(original, rendered)|
    ensures Earlier(original, rendered, Order(original, rendered)[p], Order(original, rendered)[q])
    decreases |rendered|
  {
    if rendered != [] {
      var init, last := rendered[..|rendered| - 1], rendered[|rendered| - 1];
      var before := Order(original, init);
      assert forall i | 0 <= i < |init| :: init[i] == rendered[i];
      if q < |before| {
        OrderEarlier(original, init, p, q);
        OrderMembers(original, init, before[p]);
        OrderMembers(original, init, before[q]);
        EarlierMore(original, rendered, before[p], before[q]);
      } else {
        OrderMembers(original, init, before[p]);
        assert !Has(original, last.name);
        LastEarlier(original, rendered, before[p]);
      }
    } else {
      assert original[p].name == Order(original, rendered)[p] && original[q].name == Order(original, rendered)[q];
    }
  }

  lemma {:induction false} EarlierMore(original: seq<Section>, rendered: seq<Section>, x: string, y: string)
    requires rendered != [] && DistinctSections(rendered) && Earlier(original, rendered[..|rendered| - 1], x, y)
    requires Has(original, x) || Has(rendered[..|rendered| - 1], x)
    requires Has(original, y) || Has(rendered[..|rendered| - 1], y)
    ensures Earlier(original, rendered, x, y)
  {
    var init := rendered[..|rendered| - 1];
    LastAlone(rendered);
    if !Has(original, x) && !Has(original, y) {
      forall i, k | 0 <= i < |rendered| && 0 <= k < |rendered| && rendered[i].name == x && rendered[k].name == y
        ensures i < k
      {
        assert i < |init| && k < |init|;
        assert init[i].name == x && init[k].name == y;
      }
    }
  }

  lemma {:induction false} LastEarlier(original: seq<Section>, rendered: seq<Section>, x: string)
    requires rendered != [] && DistinctSections(rendered) && !Has(original, rendered[|rendered| - 1].name)
    requires Has(original, x) || Has(rendered[..|rendered| - 1], x)
    ensures Earlier(original, rendered, x, rendered[|rendered| - 1].name)
  {
    LastAlone(rendered);
  }

  lemma {:induction false} ContributionsPlaces(m: Inputs, names: seq<string>, a: nat, b: nat) returns (p: nat, q: nat)
    requires DistinctNames(names) && a < b < |Contributions(m, names)|
    ensures p < q < |names|
    ensures names[p] == Contributions(m, names)[a].name && names[q] == Contributions(m, names)[b].name
    decreases |names|
  {
    hide MergedRows, Variables;
    var init, last := names[..|names| - 1], names[|names| - 1];
    var before := Contributions(m, init);
    if b < |before| {
      p, q := ContributionsPlaces(m, init, a, b);
    } else {
      q := |init|;
      ContributionsAre(m, init, a);
      p :| p < |init| && init[p] == before[a].name;
    }
  }

  lemma {:induction false} SectionsKeepOrder(m: Inputs, result: seq<Section>, a: nat, b: nat)
    requires Merged(m.original, m.rendered, m.pair, m.first) == Some(result)
    requires DistinctSections(m.original) && DistinctSections(m.rendered) && a < b < |result|
    ensures Earlier(m.original, m.rendered, result[a].name, result[b].name)
  {
    hide Merged, Contributions, Order, AllAcceptable, Earlier, DistinctSections;
    var names := Order(m.original, m.rendered);
    MergedMeans(m);
    OrderDistinct(m.original, m.rendered);
    var p, q := ContributionsPlaces(m, names, a, b);
    OrderEarlier(m.original, m.rendered, p, q);
  }

  lemma {:induction false} AcceptedRows(m: Inputs, name: string)
    requires Merged(m.original, m.rendered, m.pair, m.first).Some? && !Variables(name)
    ensures AllAmong(RowsOf(m.rendered, name), m.pair, m.first) && AllNamed(RowsOf(m.original, name), m.first)
  {
    hide Merged, Contributions, Has, RowsOf, Order;
    MergedMeans(m);
    OrderMembers(m.original, m.rendered, name);
    if name in Order(m.original, m.rendered) {
      assert Acceptable(m, name);
    } else {
      RowsOfMissing(m.original, name);
      RowsOfMissing(m.rendered, name);
    }
  }

  // ---------------------------------------------------------------- merging again

  lemma {:induction false} ContributesAgain(m: Inputs, result: seq<Section>, name: string)
    requires Merged(m.original, m.rendered, m.pair, m.first) == Some(result)
    requires DistinctSections(m.original) && DistinctSections(m.rendered)
    requires Has(result, name) || Has(m.rendered, name)
    ensures var again := m.(original := result);
            Acceptable(again, name) && Contribution(again, name) == Contribution(m, name)
            && (Has(result, name) <==> Contribution(m, name) != [])
  {
    hide Merged, DistinctSections, Retained, RowsOf, Has;
    ResultRows(m, name);
    RetainedSame(m, name);
    AcceptedHere(m, name);
    if !Variables(name) {
      RetainedAgain(RowsOf(m.original, name), m.pair, m.first);
      RetainedNamed(RowsOf(m.original, name), m.pair, m.first);
      NamedSum(Retained(RowsOf(m.original, name), m.pair, m.first), RowsOf(m.rendered, name), m.pair, m.first);
    }
  }

  lemma {:induction false} AcceptedHere(m: Inputs, name: string)
    requires Merged(m.original, m.rendered, m.pair, m.first).Some?
    requires Has(m.original, name) || Has(m.rendered, name)
    ensures Acceptable(m, name)
  {
    hide Merged, Contributions, Has, RowsOf, Acceptable, Order;
    MergedMeans(m);
    OrderMembers(m.original, m.rendered, name);
  }

  lemma {:induction false} NamedSum(a: seq<string>, b: seq<string>, pair: set<string>, first: string -> Option<string>)
    requires AllNamed(a, first) && AllAmong(b, pair, first)
    ensures AllNamed(a + b, first)
  {
  }

  lemma {:induction false} SectionAgain(m: Inputs, result: seq<Section>, k: nat)
    requires Merged(m.original, m.rendered, m.pair, m.first) == Some(result)
    requires DistinctSections(m.original) && DistinctSections(m.rendered) && k < |result|
    ensures Acceptable(m.(original := result), result[k].name)
    ensures Contribution(m.(original := result), result[k].name) == [result[k]]
  {
    hide Merged, DistinctSections, Acceptable, AllAcceptable, Contribution, Contributions, Order;
    MergedMeans(m);
    ContributionsAre(m, Order(m.original, m.rendered), k);
    assert Has(result, result[k].name);
    ContributesAgain(m, result, result[k].name);
  }

  /** The sections of the result, one after the other, contribute the result again. */
  lemma {:induction false} PrefixAgain(m: Inputs, result: seq<Section>, i: nat)
    requires Merged(m.original, m.rendered, m.pair, m.first) == Some(result)
    requires DistinctSections(m.original) && DistinctSections(m.rendered) && i <= |result|
    ensures AllAcceptable(m.(original := result), NamesOf(result)[..i])
    ensures Contributions(m.(original := result), NamesOf(result)[..i]) == result[..i]
  {
    hide Merged, DistinctSections, Acceptable, AllAcceptable, Contribution;
    var again, names := m.(original := result), NamesOf(result);
    if i == 0 {
      NothingToAccept(again);
    } else {
      PrefixAgain(m, result, i - 1);
      assert names[..i][..i - 1] == names[..i - 1];
      SectionAgain(m, result, i - 1);
      AllAcceptableStep(again, names[..i]);
      assert result[..i - 1] + [result[i - 1]] == result[..i];
    }
  }

  /** The remaining sections of the rendering contribute nothing. */
  lemma {:induction false} OrderAgain(m: Inputs, result: seq<Section>, rendered: seq<Section>)
    requires Merged(m.original, m.rendered, m.pair, m.first) == Some(result)
    requires DistinctSections(m.original) && DistinctSections(m.rendered)
    requires rendered <= m.rendered
    ensures AllAcceptable(m.(original := result), Order(result, rendered))
    ensures Contributions(m.(original := result), Order(result, rendered)) == result
    decreases |rendered|
  {
    hide Merged, DistinctSections, Acceptable, AllAcceptable, Contribution;
    var again := m.(original := result);
    if rendered == [] {
      PrefixAgain(m, result, |result|);
      assert NamesOf(result)[..|result|] == NamesOf(result) == Order(result, rendered);
      assert result[..|result|] == result;
    } else {
      var init, last := rendered[..|rendered| - 1], rendered[|rendered| - 1];
      OrderAgain(m, result, init);
      assert m.rendered[|rendered| - 1] == last;
      ContributesAgain(m, result, last.name);
      if !Has(result, last.name) {
        var before := Order(result, init);
        assert Order(result, rendered)[..|before|] == before;
        AllAcceptableStep(again, Order(result, rendered));
        assert result + [] == result;
      }
    }
  }

  lemma {:induction false} SameVariablesAgain(m: Inputs, result: seq<Section>)
    requires Merged(m.original, m.rendered, m.pair, m.first) == Some(result)
    requires DistinctSections(m.original) && DistinctSections(m.rendered)
    ensures SameVariables(result, m.rendered)
  {
    hide DistinctSections, Contribution, Names, MergedOver, RowsOf, Variables;
    forall i | 0 <= i < |result| && Variables(result[i].name)
      ensures RowsOf(result, result[i].name) == RowsOf(m.rendered, result[i].name)
    {
      ResultRows(m, result[i].name);
      assert Has(result, result[i].name);
    }
    forall i | 0 <= i < |m.rendered| && Variables(m.rendered[i].name)
      ensures RowsOf(result, m.rendered[i].name) == RowsOf(m.rendered, m.rendered[i].name)
    {
      ResultRows(m, m.rendered[i].name);
    }
  }

  /** Merging the same rendering into the result changes nothing. */
  lemma {:induction false} MergeAgain(m: Inputs, result: seq<Section>)
    requires Merged(m.original, m.rendered, m.pair, m.first) == Some(result)
    requires DistinctSections(m.original) && DistinctSections(m.rendered)
    ensures Merged(result, m.rendered, m.pair, m.first) == Some(result)
  {
    SameVariablesAgain(m, result);
    hide DistinctSections, Contributions, AllAcceptable, Names, SameVariables, MergedOver, Order, RowsOf;
    assert Names(RowsOf(m.rendered, "vpn"), m.pair, m.first);
    OrderAgain(m, result, m.rendered);
    MergedIsContributions(m.(original := result), Order(result, m.rendered));
  }

  // ---------------------------------------------------------------- reading the printed text back

  lemma {:induction false} CleanRowsOf(sections: seq<Section>, name: string)
    requires WellFormed(sections)
    ensures forall i | 0 <= i < |RowsOf(sections, name)| :: CleanRow(RowsOf(sections, name)[i])
    decreases |sections|
  {
    hide CleanRow;
    if sections != [] {
      assert CleanSection(sections[|sections| - 1]);
      if sections[|sections| - 1].name != name {
        var init := sections[..|sections| - 1];
        forall i | 0 <= i < |init| ensures CleanSection(init[i]) {
          assert init[i] == sections[i];
        }
        CleanRowsOf(init, name);
      }
    }
  }

  lemma {:induction false} RetainedRows(rows: seq<string>, pair: set<string>, first: string -> Option<string>)
    ensures forall row | row in Retained(rows, pair, first) :: row in rows
    decreases |rows|
  {
    if rows != [] {
      RetainedRows(rows[..|rows| - 1], pair, first);
      assert forall row | row in rows[..|rows| - 1] :: row in rows;
    }
  }

  lemma {:induction false} CleanMergedRows(m: Inputs, name: string)
    requires WellFormed(m.original) && WellFormed(m.rendered)
    ensures forall i | 0 <= i < |MergedRows(m, name)| :: CleanRow(MergedRows(m, name)[i])
  {
    hide CleanRow, RowsOf, Retained, WellFormed, Variables;
    CleanRowsOf(m.original, name);
    CleanRowsOf(m.rendered, name);
    if !Variables(name) {
      var retained := Retained(RowsOf(m.original, name), m.pair, m.first);
      RetainedRows(RowsOf(m.original, name), m.pair, m.first);
      forall i | 0 <= i < |retained| ensures CleanRow(retained[i]) {
        assert retained[i] in RowsOf(m.original, name);
      }
    }
  }

  lemma {:induction false} CleanName(sections: seq<Section>, name: string)
    requires WellFormed(sections) && Has(sections, name)
    ensures Unbroken(name)
  {
    hide Unbroken, CleanRow;
    var i :| 0 <= i < |sections| && sections[i].name == name;
    assert CleanSection(sections[i]);
  }

  lemma {:induction false} MergedClean(m: Inputs)
    requires WellFormed(m.original) && WellFormed(m.rendered) && Merged(m.original, m.rendered, m.pair, m.first).Some?
    ensures WellFormed(Merged(m.original, m.rendered, m.pair, m.first).value)
  {
    var names := Order(m.original, m.rendered);
    var result := Merged(m.original, m.rendered, m.pair, m.first).value;
    MergedMeans(m);
    assert DistinctSections(m.original) && DistinctSections(m.rendered);
    hide CleanRow, Unbroken, Merged, MergedRows, Contributions, Order, WellFormed, Has, Variables, AllAcceptable;
    OrderDistinct(m.original, m.rendered);
    ContributionsDistinct(m, names);
    forall i | 0 <= i < |result| ensures CleanSection(result[i]) {
      ContributionsAre(m, names, i);
      var name := result[i].name;
      CleanMergedRows(m, name);
      OrderMembers(m.original, m.rendered, name);
      if Has(m.original, name) {
        CleanName(m.original, name);
      } else {
        CleanName(m.rendered, name);
      }
    }
    AllClean(result);
  }

  lemma {:induction false} AllClean(sections: seq<Section>)
    requires DistinctSections(sections) && forall i | 0 <= i < |sections| :: CleanSection(sections[i])
    ensures WellFormed(sections)
  {
  }

  /** Of two parsed inventories, the merged text parses as exactly the merged sections, and merging again reprints it. */
  lemma {:induction false} MergedTextReadsBack(before: string, staged: string, m: Inputs, result: seq<Section>)
    requires Parsed(before) == Some(m.original) && Parsed(staged) == Some(m.rendered)
    requires Merged(m.original, m.rendered, m.pair, m.first) == Some(result)
    ensures Parsed(Printed(result)) == Some(result)
    ensures Merged(Parsed(Printed(result)).value, m.rendered, m.pair, m.first) == Some(result)
  {
    hide Merged, Printed, CleanSection;
    ParsedClean(before);
    ParsedClean(staged);
    MergedClean(m);
    PrintThenParse(result);
    MergeAgain(m, result);
  }

  // ---------------------------------------------------------------- when a merge is accepted

  /** The rendered hosts are exactly the pair. */
  ghost predicate RendersPair(m: Inputs) {
    && (forall row | row in RowsOf(m.rendered, "vpn") :: m.first(row).Some? && m.first(row).value in m.pair)
    && forall name | name in m.pair :: exists row :: row in RowsOf(m.rendered, "vpn") && m.first(row) == Some(name)
  }

  ghost predicate OfVariables(name: string) {
    exists stem: string :: name == stem + ":vars"
  }

  /** A section with variables is one of the original, the same on both sides; any other is a host group whose rows can be merged. */
  ghost predicate Taken(m: Inputs, name: string) {
    if OfVariables(name) then Has(m.original, name) && RowsOf(m.original, name) == RowsOf(m.rendered, name)
    else
      && (name == "vpn" || "vpn-" <= name)
      && (forall row | row in RowsOf(m.original, name) :: m.first(row).Some?)
      && forall row | row in RowsOf(m.rendered, name) :: m.first(row).Some? && m.first(row).value in m.pair
  }

  /** Exactly when a merge is accepted, section by section of either side. */
  lemma {:induction false} MergeAccepted(m: Inputs)
    ensures Merged(m.original, m.rendered, m.pair, m.first).Some? <==>
            RendersPair(m) && forall name | Has(m.original, name) || Has(m.rendered, name) :: Taken(m, name)
  {
    hide Names, SameVariables, Acceptable, Order, Contributions, MergedOver, RowsOf, RendersPair, Taken;
    var names := Order(m.original, m.rendered);
    MergedIsContributions(m, names);
    PairNamed(m);
    forall name
      ensures name in names <==> Has(m.original, name) || Has(m.rendered, name)
      ensures Taken(m, name) <==> Acceptable(m, name) && AgreesOn(m, name)
    {
      OrderMembers(m.original, m.rendered, name);
      TakenMeans(m, name);
    }
    VariablesAgree(m);
    if AllAcceptable(m, names) {
      forall name | Has(m.original, name) || Has(m.rendered, name)
        ensures Acceptable(m, name)
      {
        var i :| 0 <= i < |names| && names[i] == name;
      }
    }
  }

  lemma {:induction false} PairNamed(m: Inputs)
    ensures Names(RowsOf(m.rendered, "vpn"), m.pair, m.first) <==> RendersPair(m)
  {
    hide RowsOf;
    var rows := RowsOf(m.rendered, "vpn");
    if RendersPair(m) {
      forall i | 0 <= i < |rows|
        ensures m.first(rows[i]).Some? && m.first(rows[i]).value in m.pair
      {
        assert rows[i] in rows;
      }
    }
  }

  predicate AgreesOn(m: Inputs, name: string) {
    Variables(name) ==> RowsOf(m.original, name) == RowsOf(m.rendered, name)
  }

  lemma {:induction false} VariablesAgree(m: Inputs)
    ensures SameVariables(m.original, m.rendered) <==>
            forall name | Has(m.original, name) || Has(m.rendered, name) :: AgreesOn(m, name)
  {
    hide RowsOf, Variables;
    if forall name | Has(m.original, name) || Has(m.rendered, name) :: AgreesOn(m, name) {
      forall i | 0 <= i < |m.original| ensures AgreesOn(m, m.original[i].name) {
        assert Has(m.original, m.original[i].name);
      }
      forall i | 0 <= i < |m.rendered| ensures AgreesOn(m, m.rendered[i].name) {
        assert Has(m.rendered, m.rendered[i].name);
      }
    }
  }

  lemma {:induction false} TakenMeans(m: Inputs, name: string)
    ensures Taken(m, name) <==> Acceptable(m, name) && AgreesOn(m, name)
  {
    hide RowsOf;
    if Variables(name) {
      assert name == name[..|name| - 5] + ":vars";
    }
    if stem: string :| name == stem + ":vars" {
      assert name[|name| - 5..] == ":vars";
    }
    assert "vpn-" <= name <==> |name| >= 4 && name[..4] == "vpn-";
    var was, added := RowsOf(m.original, name), RowsOf(m.rendered, name);
    assert AllNamed(was, m.first) <==> forall row | row in was :: m.first(row).Some?;
    assert AllAmong(added, m.pair, m.first) <==> forall row | row in added :: m.first(row).Some? && m.first(row).value in m.pair;
  }

  /**
   The comparison of variable sections does not settle it: an empty one that only the rendering
   has passes the comparison and is refused all the same.
   */
  lemma {:induction false} NewEmptyVariablesRefused() returns (m: Inputs)
    ensures m.original == [Section("vpn", ["a"])] && m.rendered == m.original + [Section("vpn:vars", [])]
    ensures RendersPair(m) && forall name :: AgreesOn(m, name)
    ensures Merged(m.original, m.original, m.pair, m.first).Some?
    ensures Merged(m.original, m.rendered, m.pair, m.first).None?
  {
    hide Merged, Retained;
    var original := [Section("vpn", ["a"])];
    m := Inputs(original, original + [Section("vpn:vars", [])], {"a"}, row => Some(row));
    RowsOfVpn(m);
    VpnAlone(m);
    assert "a" in RowsOf(m.rendered, "vpn") && m.first("a") == Some("a");
    MergeAccepted(m.(rendered := m.original));
    VarsRefused(m);
  }

  lemma {:induction false} RowsOfVpn(m: Inputs)
    requires m.original == [Section("vpn", ["a"])] && m.rendered == m.original + [Section("vpn:vars", [])]
    ensures RowsOf(m.original, "vpn") == ["a"] && RowsOf(m.rendered, "vpn") == ["a"]
    ensures forall name | name != "vpn" :: RowsOf(m.original, name) == [] && RowsOf(m.rendered, name) == []
  {
    assert m.original == [] + [m.original[0]];
    forall name
      ensures RowsOf(m.original, name) == if name == "vpn" then ["a"] else []
      ensures RowsOf(m.rendered, name) == RowsOf(m.original, name)
    {
      RowsOfAppended([], m.original[0], name);
      RowsOfAppended(m.original, Section("vpn:vars", []), name);
    }
  }

  lemma {:induction false} VarsRefused(m: Inputs)
    requires m.original == [Section("vpn", ["a"])] && m.rendered == m.original + [Section("vpn:vars", [])]
    ensures Merged(m.original, m.rendered, m.pair, m.first).None?
  {
    hide Merged, RowsOf;
    MergeAccepted(m);
    assert "vpn:vars" == "vpn" + ":vars";
    assert OfVariables("vpn:vars");
    assert m.rendered[1].name == "vpn:vars" && Has(m.rendered, "vpn:vars") && !Has(m.original, "vpn:vars");
    assert !Taken(m, "vpn:vars");
  }

  lemma {:induction false} VpnAlone(m: Inputs)
    requires m.original == [Section("vpn", ["a"])] && m.pair == {"a"} && m.first("a") == Some("a")
    requires RowsOf(m.original, "vpn") == ["a"]
    ensures var same := m.(rendered := m.original);
            RendersPair(same) && forall name | Has(m.original, name) :: Taken(same, name)
  {
    assert "a" in RowsOf(m.original, "vpn");
    forall name | Has(m.original, name)
      ensures Taken(m.(rendered := m.original), name)
    {
      assert name == "vpn";
      assert !OfVariables(name);
    }
  }

  // ---------------------------------------------------------------- what a text says

  predicate EndsLine(c: char) {
    c in {'\n', '\r', 0x0B as char, 0x0C as char, 0x1C as char, 0x1D as char, 0x1E as char, 0x85 as char, 0x2028 as char, 0x2029 as char}
  }

  lemma {:induction false} LinesStep(c: char, rest: string)
    ensures Lines([c] + rest) == if EndsLine(c) then [""] + Lines(rest) else [[c] + Lines(rest)[0]] + Lines(rest)[1..]
  {
    LineEndMeans(c);
    hide EndsLine, Break;
    assert ([c] + rest)[1..] == rest;
  }

  lemma {:induction false} Prefixed(c: char, a: seq<string>, b: seq<string>)
    requires a != []
    ensures [[c] + (a + b)[0]] + (a + b)[1..] == [[c] + a[0]] + a[1..] + b
  {
  }

  lemma {:induction false} OneMoreCharacter(c: char, rest: string, tail: string, b: string)
    requires Lines(tail) == Lines(rest) + Lines(b)
    ensures Lines([c] + tail) == Lines([c] + rest) + Lines(b)
  {
    hide EndsLine, Lines;
    LinesStep(c, rest);
    LinesStep(c, tail);
    Prefixed(c, Lines(rest), Lines(b));
    assert [""] + (Lines(rest) + Lines(b)) == [""] + Lines(rest) + Lines(b);
  }

  /** A line end splits the text, whatever stands around it. */
  lemma {:induction false} LineEnds(a: string, c: char, b: string)
    requires EndsLine(c)
    ensures Lines(a + [c] + b) == Lines(a) + Lines(b)
    decreases |a|
  {
    if a == "" {
      hide EndsLine;
      assert a + [c] + b == [c] + b;
      LinesStep(c, b);
    } else {
      hide EndsLine, Lines;
      var rest := a[1..];
      var tail := rest + [c] + b;
      LineEnds(rest, c, b);
      OneMoreCharacter(a[0], rest, tail, b);
      assert a == [a[0]] + rest;
      assert a + [c] + b == [a[0]] + tail;
    }
  }

  /** A text without line ends is one line. */
  lemma {:induction false} OneLine(text: string)
    requires forall c | c in text :: !EndsLine(c)
    ensures Lines(text) == [text]
    decreases |text|
  {
    hide EndsLine, Break;
    if text != "" {
      LineEndMeans(text[0]);
      assert text[0] in text && forall c | c in text[1..] :: c in text;
      OneLine(text[1..]);
      assert [text[0]] + text[1..] == text;
    }
  }

  lemma {:induction false} LineEndMeans(c: char)
    ensures Break(c) <==> EndsLine(c)
  {
  }

  predicate Blank(c: char) {
    || EndsLine(c) || c in {' ', '\t', 0x1F as char, 0xA0 as char, 0x1680 as char, 0x202F as char, 0x205F as char, 0x3000 as char}
    || 0x2000 as char <= c <= 0x200A as char
  }

  /** A row as it stands in a file: one line that starts and ends with something and is neither a comment nor a header. */
  predicate PlainRow(row: string) {
    && row != "" && !Blank(row[0]) && !Blank(row[|row| - 1]) && (forall c | c in row :: !EndsLine(c))
    && row[0] != '#' && row[0] != ';' && !(row[0] == '[' && row[|row| - 1] == ']')
  }

  lemma {:induction false} PlainRowMeans(row: string)
    ensures PlainRow(row) <==> CleanRow(row)
  {
    if row != "" {
      assert Space(row[0]) <==> Blank(row[0]);
      assert Space(row[|row| - 1]) <==> Blank(row[|row| - 1]);
      assert |row| == 1 && row[0] == '[' ==> row[|row| - 1] != ']';
      forall c
        ensures Break(c) <==> EndsLine(c)
      {
        LineEndMeans(c);
      }
      assert forall i | 0 <= i < |row| :: row[i] in row;
    }
  }

  lemma {:induction false} Unstripped(row: string)
    requires PlainRow(row)
    ensures Strip(row) == row
  {
    PlainRowMeans(row);
  }

  /** Such a row is read as itself, into the last section; parsed rows are all of this kind. */
  lemma {:induction false} RowsRead(sections: seq<Section>, row: string, text: string, i: nat, k: nat)
    requires PlainRow(row) && sections != []
    requires Parsed(text).Some? && i < |Parsed(text).value| && k < |Parsed(text).value[i].rows|
    ensures var last := sections[|sections| - 1];
            Line(sections, row) == Some(sections[..|sections| - 1] + [Section(last.name, last.rows + [row])])
    ensures PlainRow(Parsed(text).value[i].rows[k])
  {
    hide Parsed, Strip, Blank, EndsLine, Break, Space;
    Unstripped(row);
    PlainRowMeans(row);
    ParsedClean(text);
    PlainRowMeans(Parsed(text).value[i].rows[k]);
    assert CleanSection(Parsed(text).value[i]);
    assert WithRow(sections, row) == sections[..|sections| - 1] + [WithRow(sections, row)[|sections| - 1]];
  }
}
