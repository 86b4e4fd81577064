/**
 * The Collection groups list screen: a case-insensitive search over group
 * names only, the header counter and the Delete button of a single-selection
 * table. The screen's search text and selection are replaced wholesale, so
 * everything here is a function of them.
 */
module CollectionGroup {
  import opened Text
  import opened Seqs

  datatype Group = Group(
    name: string,
    serverlessVersion: string,
    indexingCapacity: string,
    searchCapacity: string,
    collections: nat)

  /** The groups the screen lists (its hardcoded table data). */
  const CollectionGroups: seq<Group> := [
    Group("test", "Serverless V2", "- / 96 OCUs", "- / 96 OCUs", 0)
  ]

  /** The callback passed to `filter`: empty text keeps everything, otherwise the name must match. */
  function KeepGroup(text: string): Group -> bool {
    (g: Group) => text == [] || MatchesIgnoringCase(g.name, text)
  }

  /**
   * `filteredGroups`: with empty text every group, in the original order;
   * otherwise the groups whose lower-cased name includes the lower-cased text,
   * and no others.
   */
  function FilterGroups(groups: seq<Group>, text: string): (r: seq<Group>)
    ensures text == [] ==> r == groups
    ensures text != [] ==> forall i :: 0 <= i < |groups| ==> (groups[i] in r <==> MatchesIgnoringCase(groups[i].name, text))
    ensures |r| <= |groups| && forall i :: 0 <= i < |r| ==> r[i] in groups
  {
    if text == [] then FilterKeepsAll(KeepGroup(text), groups); Filter(KeepGroup(text), groups)
    else Filter(KeepGroup(text), groups)
  }

  /** The search keeps the groups' relative order. */
  lemma FilterGroupsKeepsOrder(a: seq<Group>, b: seq<Group>, text: string)
    ensures FilterGroups(a + b, text) == FilterGroups(a, text) + FilterGroups(b, text)
  {
    FilterConcat(KeepGroup(text), a, b);
  }

  /** The groups' names, in order. */
  function Names(groups: seq<Group>): (names: seq<string>)
    ensures |names| == |groups|
    decreases |groups|
  {
    if groups == [] then [] else [groups[0].name] + Names(groups[1..])
  }

  lemma NamesCons(g: Group, groups: seq<Group>)
    ensures Names([g] + groups) == [g.name] + Names(groups)
  {
    assert ([g] + groups)[1..] == groups;
  }

  /** The filter callback looks at names only, so lists with the same names filter alike. */
  lemma {:induction false} KeepGroupSeesNamesOnly(a: seq<Group>, b: seq<Group>, text: string)
    requires Names(a) == Names(b)
    ensures Names(Filter(KeepGroup(text), a)) == Names(Filter(KeepGroup(text), b))
    decreases |a|
  {
    if a != [] {
      var keep := KeepGroup(text);
      var a', b' := a[1..], b[1..];
      assert Names(a)[0] == a[0].name && Names(b)[0] == b[0].name;
      assert Names(a)[1..] == Names(a') && Names(b)[1..] == Names(b');
      KeepGroupSeesNamesOnly(a', b', text);
      assert a == [a[0]] + a' && b == [b[0]] + b';
      if text == [] || MatchesIgnoringCase(a[0].name, text) {
        assert keep(a[0]) && keep(b[0]);
        FilterConsKept(keep, a[0], a');
        FilterConsKept(keep, b[0], b');
        NamesCons(a[0], Filter(keep, a'));
        NamesCons(b[0], Filter(keep, b'));
      } else {
        assert !keep(a[0]) && !keep(b[0]);
        FilterConsDropped(keep, a[0], a');
        FilterConsDropped(keep, b[0], b');
      }
    }
  }

  /**
   * Only the name is searched: two lists whose groups have the same names,
   * in the same order, filter to lists with the same names, whatever their
   * other fields hold.
   */
  lemma FilterGroupsSearchesNameOnly(a: seq<Group>, b: seq<Group>, text: string)
    requires Names(a) == Names(b)
    ensures Names(FilterGroups(a, text)) == Names(FilterGroups(b, text))
  {
    KeepGroupSeesNamesOnly(a, b, text);
  }

  /** The header's counter: the number of groups the search keeps, not the number of groups. */
  function HeaderCounter(groups: seq<Group>, text: string): string {
    ParenthesizedCount(|FilterGroups(groups, text)|)
  }

  /** The counter reads back as the filtered count. */
  lemma HeaderCounterCountsFiltered(groups: seq<Group>, text: string)
    ensures var r := HeaderCounter(groups, text);
      |r| >= 3 && AllDigits(r[1..|r| - 1]) && DigitsValue(r[1..|r| - 1]) == |FilterGroups(groups, text)|
  {
    ParenthesizedCountMeaning(|FilterGroups(groups, text)|);
  }

  /**
   * Delete is disabled exactly when nothing is selected; the table is in
   * single-selection mode, so an enabled Delete acts on exactly one group.
   */
  function DeleteDisabled(selected: seq<Group>): (disabled: bool)
    requires |selected| <= 1
    ensures disabled <==> selected == []
    ensures !disabled ==> |selected| == 1
  {
    |selected| == 0
  }
}
