/**
 * Grouping of duplicated GameObject sections: where each GameObject id occurs,
 * the range of sections each occurrence owns, and the filter that keeps only
 * the sections bound to that GameObject.
 */
module SceneGroups {
  import opened SceneYaml

  /** Unity's class id of a GameObject section. */
  const GameObjectClass: nat := 1

  predicate IsGameObject(s: Section, goId: int) {
    s.classId == GameObjectClass && s.fileId == goId
  }

  predicate Increasing(r: seq<nat>) {
    forall a, b :: 0 <= a < b < |r| ==> r[a] < r[b]
  }

  /** The indices of the GameObject sections with id `goId`, in file order. */
  function FindGoOccurrenceIndices(secs: seq<Section>, goId: int): (r: seq<nat>)
    ensures forall x :: x in r ==> x < |secs| && IsGameObject(secs[x], goId)
    ensures forall q :: 0 <= q < |secs| && IsGameObject(secs[q], goId) ==> q in r
    ensures Increasing(r)
  {
    if secs == [] then []
    else
      var init := FindGoOccurrenceIndices(secs[..|secs| - 1], goId);
      assert forall q :: 0 <= q < |secs| - 1 ==> secs[..|secs| - 1][q] == secs[q];
      assert forall a :: 0 <= a < |init| ==> init[a] in init;
      init + (if IsGameObject(secs[|secs| - 1], goId) then [|secs| - 1] else [])
  }

  /** The section indices `[a, b)`. */
  function Range(a: nat, b: nat): (r: seq<nat>)
    ensures |r| == if a <= b then b - a else 0
    ensures forall i :: 0 <= i < |r| ==> r[i] == a + i
  {
    if a < b then seq(b - a, i requires 0 <= i < b - a => a + i) else []
  }

  /**
   * The sections occurrence `ordinal` of GameObject `goId` owns: from that
   * occurrence up to the next one of the same id, or to the end of the file.
   */
  datatype Group = Group(goId: int, ordinal: nat, owned: seq<nat>)

  /** The range `build_go_groups` gives occurrence `j` of an id whose occurrences are `occ`. */
  function OwnedRange(occ: seq<nat>, j: nat, sectionCount: nat): seq<nat>
    requires j < |occ|
  {
    Range(occ[j], if j + 1 < |occ| then occ[j + 1] else sectionCount)
  }

  /** A group `build_go_groups` may produce: an occurrence of a duplicated GameObject id and its range. */
  ghost predicate IsGroupOf(secs: seq<Section>, g: Group) {
    var occ := FindGoOccurrenceIndices(secs, g.goId);
    |occ| >= 2 && g.ordinal < |occ| && g.owned == OwnedRange(occ, g.ordinal, |secs|)
  }

  /** The GameObject ids of `secs`, each once, in order of first occurrence. */
  function GoIdsInOrder(secs: seq<Section>): seq<int> {
    if secs == [] then []
    else
      var init := GoIdsInOrder(secs[..|secs| - 1]);
      var s := secs[|secs| - 1];
      if s.classId == GameObjectClass && s.fileId !in init then init + [s.fileId] else init
  }

  /** One group per occurrence of `goId` when it occurs at least twice, none otherwise. */
  function GroupsOf(secs: seq<Section>, goId: int): seq<Group> {
    var occ := FindGoOccurrenceIndices(secs, goId);
    if |occ| <= 1 then []
    else seq(|occ|, j requires 0 <= j < |occ| => Group(goId, j, OwnedRange(occ, j, |secs|)))
  }

  function GroupsFor(secs: seq<Section>, ids: seq<int>): seq<Group> {
    if ids == [] then [] else GroupsFor(secs, ids[..|ids| - 1]) + GroupsOf(secs, ids[|ids| - 1])
  }

  /** The groups of `build_go_groups`, in the insertion order of its dictionary. */
  function GoGroups(secs: seq<Section>): seq<Group> {
    GroupsFor(secs, GoIdsInOrder(secs))
  }

  lemma {:induction false} GoIdsInOrderMembers(secs: seq<Section>, id: int)
    ensures id in GoIdsInOrder(secs) <==> FindGoOccurrenceIndices(secs, id) != []
  {
    if secs != [] {
      var init := secs[..|secs| - 1];
      GoIdsInOrderMembers(init, id);
      var occ := FindGoOccurrenceIndices(secs, id);
      if occ != [] && FindGoOccurrenceIndices(init, id) == [] {
        assert occ[0] in occ;
      }
    }
  }

  lemma {:induction false} GroupsForMembers(secs: seq<Section>, ids: seq<int>, g: Group)
    ensures g in GroupsFor(secs, ids) <==> g.goId in ids && g in GroupsOf(secs, g.goId)
  {
    if ids != [] {
      var init := ids[..|ids| - 1];
      GroupsForMembers(secs, init, g);
      assert g.goId in ids <==> g.goId in init || g.goId == ids[|ids| - 1];
    }
  }

  /** Every group of `build_go_groups` is an occurrence of a duplicated GameObject id with its range. */
  lemma GoGroupsSound(secs: seq<Section>, g: Group)
    requires g in GoGroups(secs)
    ensures IsGroupOf(secs, g)
  {
    GroupsForMembers(secs, GoIdsInOrder(secs), g);
  }

  /** Every occurrence of every duplicated GameObject id has its group. */
  lemma GoGroupsComplete(secs: seq<Section>, goId: int, j: nat)
    requires |FindGoOccurrenceIndices(secs, goId)| >= 2 && j < |FindGoOccurrenceIndices(secs, goId)|
    ensures Group(goId, j, OwnedRange(FindGoOccurrenceIndices(secs, goId), j, |secs|)) in GoGroups(secs)
  {
    var g := Group(goId, j, OwnedRange(FindGoOccurrenceIndices(secs, goId), j, |secs|));
    assert GroupsOf(secs, goId)[j] == g;
    GoIdsInOrderMembers(secs, goId);
    GroupsForMembers(secs, GoIdsInOrder(secs), g);
  }

  /** The first pass of `build_go_groups` after `k` sections: ids in first-seen order and their occurrences. */
  ghost predicate OccurrencesSoFar(secs: seq<Section>, k: nat, order: seq<int>, occ: map<int, seq<nat>>) {
    && k <= |secs|
    && order == GoIdsInOrder(secs[..k])
    && (forall id :: id in occ <==> id in order)
    && (forall id :: id in occ ==> occ[id] == FindGoOccurrenceIndices(secs[..k], id))
  }

  lemma OccurrencesStep(secs: seq<Section>, k: nat, order: seq<int>, occ: map<int, seq<nat>>)
    requires OccurrencesSoFar(secs, k, order, occ) && k < |secs|
    ensures var s := secs[k];
      s.classId == GameObjectClass ==>
        var order2 := if s.fileId !in occ then order + [s.fileId] else order;
        var occ2 := if s.fileId !in occ then occ[s.fileId := []] else occ;
        OccurrencesSoFar(secs, k + 1, order2, occ2[s.fileId := occ2[s.fileId] + [k]])
    ensures secs[k].classId != GameObjectClass ==> OccurrencesSoFar(secs, k + 1, order, occ)
  {
    assert secs[..k + 1][..k] == secs[..k];
    var s := secs[k];
    if s.classId == GameObjectClass && s.fileId !in occ {
      GoIdsInOrderMembers(secs[..k], s.fileId);
    }
  }

  /**
   * The first loop of `build_go_groups`: the GameObject ids in order of first
   * occurrence, and for each the indices of its sections.
   */
  method GoOccurrences(secs: seq<Section>) returns (order: seq<int>, occ: map<int, seq<nat>>)
    ensures order == GoIdsInOrder(secs)
    ensures forall id :: id in occ <==> id in order
    ensures forall id :: id in occ ==> occ[id] == FindGoOccurrenceIndices(secs, id)
  {
    order, occ := [], map[];
    for k := 0 to |secs|
      invariant OccurrencesSoFar(secs, k, order, occ)
    {
      OccurrencesStep(secs, k, order, occ);
      var s := secs[k];
      if s.classId == GameObjectClass {
        if s.fileId !in occ {
          order := order + [s.fileId];
          occ := occ[s.fileId := []];
        }
        occ := occ[s.fileId := occ[s.fileId] + [k]];
      }
    }
    assert secs[..|secs|] == secs;
  }

  /** The groups of one duplicated GameObject id: occurrence `j` owns the sections up to occurrence `j + 1`. */
  method OccurrenceGroups(secs: seq<Section>, goId: int, occIdxs: seq<nat>) returns (gs: seq<Group>)
    requires occIdxs == FindGoOccurrenceIndices(secs, goId) && |occIdxs| >= 2
    ensures gs == GroupsOf(secs, goId)
  {
    gs := [];
    for j := 0 to |occIdxs|
      invariant |gs| == j
      invariant forall i :: 0 <= i < j ==> gs[i] == Group(goId, i, OwnedRange(occIdxs, i, |secs|))
    {
      var secIdx := occIdxs[j];
      var endIdx := if j + 1 < |occIdxs| then occIdxs[j + 1] else |secs|;
      assert secIdx in occIdxs;
      var owned: seq<nat> := [secIdx];
      for k := secIdx + 1 to endIdx
        invariant owned == Range(secIdx, k)
      {
        owned := owned + [k];
      }
      gs := gs + [Group(goId, j, owned)];
    }
  }

  /**
   * `build_go_groups`: a group for every occurrence of every GameObject id that
   * occurs at least twice, ids in order of first occurrence, occurrences in
   * file order.
   */
  method BuildGoGroups(secs: seq<Section>) returns (groups: seq<Group>)
    ensures groups == GoGroups(secs)
  {
    var order, occ := GoOccurrences(secs);
    groups := [];
    for m := 0 to |order|
      invariant groups == GroupsFor(secs, order[..m])
    {
      var goId := order[m];
      var occIdxs := occ[goId];
      assert order[..m + 1][..m] == order[..m];
      if |occIdxs| <= 1 {
        continue;
      }
      var gs := OccurrenceGroups(secs, goId, occIdxs);
      groups := groups + gs;
    }
    assert order[..|order|] == order;
  }

  /** The sections `filter_owned_by_text_binding` keeps: the GameObject itself, or one holding a binding line to it. */
  ghost predicate Kept(lines: seq<Line>, secs: seq<Section>, goId: int, idx: nat)
    requires idx < |secs|
  {
    IsGameObject(secs[idx], goId)
    || exists ln :: secs[idx].start <= ln < secs[idx].end && ln < |lines| && BindsTo(lines[ln], goId)
  }

  /** Whether some line of the section binds a component to GameObject `goId`. */
  method SectionBindsGo(lines: seq<Line>, sec: Section, goId: int) returns (bound: bool)
    requires sec.start <= sec.end <= |lines|
    ensures bound <==> exists ln :: sec.start <= ln < sec.end && BindsTo(lines[ln], goId)
  {
    bound := false;
    var ln := sec.start;
    while ln < sec.end
      invariant sec.start <= ln <= sec.end
      invariant forall x :: sec.start <= x < ln ==> !BindsTo(lines[x], goId)
      decreases sec.end - ln
    {
      if BindsTo(lines[ln], goId) {
        bound := true;
        break;
      }
      ln := ln + 1;
    }
  }

  lemma IncreasingBelowLast(s: seq<nat>)
    requires |s| > 0
    ensures Increasing(s) ==> Increasing(s[..|s| - 1])
    ensures Increasing(s) ==> forall x :: x in s[..|s| - 1] <==> x in s && x < s[|s| - 1]
  {
  }

  lemma IncreasingAppend(s: seq<nat>, x: nat)
    requires Increasing(s) && forall y :: y in s ==> y < x
    ensures Increasing(s + [x])
  {
    assert forall a :: 0 <= a < |s| ==> s[a] in s;
  }

  /** The subsequence of `owned` whose sections are kept. */
  ghost function KeptOf(lines: seq<Line>, secs: seq<Section>, goId: int, owned: seq<nat>): (r: seq<nat>)
    requires forall i :: 0 <= i < |owned| ==> owned[i] < |secs|
    ensures forall x :: x in r <==> x in owned && Kept(lines, secs, goId, x)
    ensures |r| <= |owned|
    ensures Increasing(owned) ==> Increasing(r)
  {
    if owned == [] then []
    else
      var init := KeptOf(lines, secs, goId, owned[..|owned| - 1]);
      var last := owned[|owned| - 1];
      assert forall x :: x in owned <==> x in owned[..|owned| - 1] || x == last;
      IncreasingBelowLast(owned);
      assert Increasing(owned) ==> Increasing(init + [last]) by {
        if Increasing(owned) { IncreasingAppend(init, last); }
      }
      init + (if Kept(lines, secs, goId, last) then [last] else [])
  }

  /** Extending the scanned prefix of `owned` by one index appends that index exactly when it is kept. */
  lemma KeptOfStep(lines: seq<Line>, secs: seq<Section>, goId: int, owned: seq<nat>, n: nat)
    requires n < |owned| && forall i :: 0 <= i < |owned| ==> owned[i] < |secs|
    ensures KeptOf(lines, secs, goId, owned[..n + 1]) ==
      KeptOf(lines, secs, goId, owned[..n]) + (if Kept(lines, secs, goId, owned[n]) then [owned[n]] else [])
  {
    assert owned[..n + 1][..n] == owned[..n];
  }

  /** Whether section `idx` stays in its group: the GameObject itself, or a section binding to it. */
  method KeepSection(lines: seq<Line>, secs: seq<Section>, goId: int, idx: nat) returns (keep: bool)
    requires idx < |secs| && secs[idx].start <= secs[idx].end <= |lines|
    ensures keep == Kept(lines, secs, goId, idx)
  {
    var s := secs[idx];
    if s.classId == GameObjectClass && s.fileId == goId {
      return true;
    }
    keep := SectionBindsGo(lines, s, goId);
  }

  method FilterOwnedByTextBinding(lines: seq<Line>, secs: seq<Section>, goId: int, owned: seq<nat>)
    returns (filtered: seq<nat>)
    requires forall i :: 0 <= i < |owned| ==> owned[i] < |secs| && secs[owned[i]].start <= secs[owned[i]].end <= |lines|
    ensures filtered == KeptOf(lines, secs, goId, owned)
  {
    filtered := [];
    for n := 0 to |owned|
      invariant filtered == KeptOf(lines, secs, goId, owned[..n])
    {
      KeptOfStep(lines, secs, goId, owned, n);
      var keep := KeepSection(lines, secs, goId, owned[n]);
      if keep {
        filtered := filtered + [owned[n]];
      }
    }
    assert owned[..|owned|] == owned;
  }

  /** A group owns valid section indices in increasing order, starting with its own GameObject section. */
  lemma GroupOwnedValid(secs: seq<Section>, g: Group)
    requires IsGroupOf(secs, g)
    ensures |g.owned| > 0 && Increasing(g.owned)
    ensures forall i :: 0 <= i < |g.owned| ==> g.owned[i] < |secs|
    ensures IsGameObject(secs[g.owned[0]], g.goId)
  {
    var occ := FindGoOccurrenceIndices(secs, g.goId);
    assert occ[g.ordinal] in occ;
    if g.ordinal + 1 < |occ| {
      assert occ[g.ordinal + 1] in occ;
    }
  }

  /** The first section a group owns is its own GameObject occurrence, so filtering always keeps it. */
  lemma GroupKeepsItsGameObject(lines: seq<Line>, secs: seq<Section>, g: Group)
    requires IsGroupOf(secs, g)
    ensures |g.owned| > 0 && forall i :: 0 <= i < |g.owned| ==> g.owned[i] < |secs|
    ensures g.owned[0] in KeptOf(lines, secs, g.goId, g.owned)
  {
    var occ := FindGoOccurrenceIndices(secs, g.goId);
    assert occ[g.ordinal] in occ;
    if g.ordinal + 1 < |occ| {
      assert occ[g.ordinal + 1] in occ;
    }
  }

  /** A later occurrence's group never owns the first occurrence of its GameObject. */
  lemma LaterGroupSkipsFirst(secs: seq<Section>, g: Group)
    requires IsGroupOf(secs, g) && g.ordinal >= 1
    ensures FindGoOccurrenceIndices(secs, g.goId)[0] !in g.owned
  {
    var occ := FindGoOccurrenceIndices(secs, g.goId);
    assert occ[0] < occ[g.ordinal];
  }
}
