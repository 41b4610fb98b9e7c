/**
 * The repair driver of the scene tool: what `main` does to the lines of the
 * scene once they are read. Three sanitize passes, the GameObject groups, and
 * for every later occurrence of a duplicated GameObject id, fresh ids for the
 * sections that occurrence owns with their references rewritten.
 */
module SceneFix {
  import opened DecimalText
  import opened SceneYaml
  import opened SceneRewrite
  import opened SceneSanitize
  import opened SceneGroups

  // ---------------------------------------------------------------------------
  // One group

  /** The header line of an owned section takes the new id of its (stale) section id. */
  function Anchored(l: Line, isStart: bool, oldId: int, remap: map<int, int>): Line {
    if isStart && IsHeader(l) && oldId in remap then WithAnchor(l, remap[oldId]) else l
  }

  /** A line of an owned section once its group is fixed: new header id, then every remapped reference. */
  function Reassign(l: Line, isStart: bool, oldId: int, remap: map<int, int>): Line {
    RemapTokens(Anchored(l, isStart, oldId, remap), remap)
  }

  /** Line `i` lies in none of the sections `owned` lists. */
  ghost predicate Outside(secs: seq<Section>, owned: seq<nat>, i: int) {
    forall m :: 0 <= m < |owned| && owned[m] < |secs| ==> !(secs[owned[m]].start <= i < secs[owned[m]].end)
  }

  /** Valid indices into `secs`, in increasing order. */
  ghost predicate OwnedIn(secs: seq<Section>, owned: seq<nat>) {
    Increasing(owned) && forall m :: 0 <= m < |owned| ==> owned[m] < |secs|
  }

  /** Two different owned sections do not overlap. */
  lemma OwnedDisjoint(secs: seq<Section>, owned: seq<nat>, m: nat, m2: nat)
    requires Ordered(secs) && OwnedIn(secs, owned)
    requires m < |owned| && m2 < |owned| && m != m2
    ensures secs[owned[m]].end <= secs[owned[m2]].start || secs[owned[m2]].end <= secs[owned[m]].start
  {
  }

  /** The id allocation of a group after its first `n` owned sections. */
  ghost predicate AllocState(secs: seq<Section>, owned: seq<nat>, n: nat, goId: int, used0: set<int>,
                             remap: map<int, int>, order: seq<int>, used: set<int>) {
    && OwnedIn(secs, owned) && n <= |owned|
    && (forall k :: k in remap <==> k in order)
    && (forall a, b :: 0 <= a < b < |order| ==> order[a] != order[b])
    && (forall k :: k in remap ==> k in used0)
    && goId in remap
    && (forall m :: 0 <= m < n ==> secs[owned[m]].fileId in remap)
    && (forall k :: k in remap ==> k == goId || exists m :: 0 <= m < n && secs[owned[m]].fileId == k)
    && FreshImages(remap, used0) && Injective(remap)
    && used == used0 + remap.Values
  }

  lemma AllocFirst(secs: seq<Section>, owned: seq<nat>, goId: int, used0: set<int>, id: int)
    requires OwnedIn(secs, owned) && goId in used0
    requires id !in used0 && id >= FreshIdBase
    ensures AllocState(secs, owned, 0, goId, used0, map[goId := id], [goId], used0 + {id})
  {
    MapValuesAdd(map[], goId, id);
  }

  lemma AllocKnownStep(secs: seq<Section>, owned: seq<nat>, n: nat, goId: int, used0: set<int>,
                       remap: map<int, int>, order: seq<int>, used: set<int>)
    requires AllocState(secs, owned, n, goId, used0, remap, order, used)
    requires n < |owned| && secs[owned[n]].fileId in remap
    ensures AllocState(secs, owned, n + 1, goId, used0, remap, order, used)
  {
  }

  lemma AllocNewStep(secs: seq<Section>, owned: seq<nat>, n: nat, goId: int, used0: set<int>,
                     remap: map<int, int>, order: seq<int>, used: set<int>, id: int)
    requires AllocState(secs, owned, n, goId, used0, remap, order, used)
    requires n < |owned| && secs[owned[n]].fileId !in remap && secs[owned[n]].fileId in used0
    requires id !in used && id >= FreshIdBase
    ensures AllocState(secs, owned, n + 1, goId, used0, remap[secs[owned[n]].fileId := id],
                       order + [secs[owned[n]].fileId], used + {id})
  {
    MapValuesAdd(remap, secs[owned[n]].fileId, id);
  }

  /** After the header loop has handled the first `n` owned sections. */
  ghost predicate AnchorsDone(cur: seq<Line>, before: seq<Line>, secs: seq<Section>, owned: seq<nat>, n: nat,
                              remap: map<int, int>) {
    && OwnedIn(secs, owned) && |cur| == |before|
    && (forall m, i :: 0 <= m < |owned| && secs[owned[m]].start <= i < secs[owned[m]].end && i < |before| ==>
          cur[i] == if m < n then Anchored(before[i], i == secs[owned[m]].start, secs[owned[m]].fileId, remap)
                    else before[i])
    && (forall i :: 0 <= i < |before| && Outside(secs, owned, i) ==> cur[i] == before[i])
  }

  lemma AnchorStep(cur: seq<Line>, before: seq<Line>, secs: seq<Section>, owned: seq<nat>, n: nat,
                   remap: map<int, int>)
    requires AnchorsDone(cur, before, secs, owned, n, remap) && Ordered(secs) && Framed(secs, before)
    requires n < |owned| && secs[owned[n]].fileId in remap
    ensures secs[owned[n]].start < |cur| && IsHeader(cur[secs[owned[n]].start])
    ensures var s := secs[owned[n]].start;
      AnchorsDone(cur[s := WithAnchor(cur[s], remap[secs[owned[n]].fileId])], before, secs, owned, n + 1, remap)
  {
    var s := secs[owned[n]].start;
    assert cur[s] == before[s];
    var cur2 := cur[s := WithAnchor(cur[s], remap[secs[owned[n]].fileId])];
    forall m, i | 0 <= m < |owned| && secs[owned[m]].start <= i < secs[owned[m]].end && i < |before|
      ensures cur2[i] == if m < n + 1 then Anchored(before[i], i == secs[owned[m]].start, secs[owned[m]].fileId, remap)
                         else before[i]
    {
      if m != n {
        OwnedDisjoint(secs, owned, m, n);
      }
    }
  }

  /** After the reference loop has handled the first `n` owned sections. */
  ghost predicate TokensDone(cur: seq<Line>, before: seq<Line>, secs: seq<Section>, owned: seq<nat>, n: nat,
                             remap: map<int, int>) {
    && OwnedIn(secs, owned) && |cur| == |before|
    && (forall m, i :: 0 <= m < |owned| && secs[owned[m]].start <= i < secs[owned[m]].end && i < |before| ==>
          cur[i] == if m < n then RemapTokens(before[i], remap) else before[i])
    && (forall i :: 0 <= i < |before| && Outside(secs, owned, i) ==> cur[i] == before[i])
  }

  lemma TokensStep(cur: seq<Line>, cur2: seq<Line>, before: seq<Line>, secs: seq<Section>, owned: seq<nat>, n: nat,
                   remap: map<int, int>)
    requires TokensDone(cur, before, secs, owned, n, remap) && Ordered(secs)
    requires n < |owned| && |cur2| == |cur|
    requires forall i :: 0 <= i < |cur| ==>
      cur2[i] == if secs[owned[n]].start <= i < secs[owned[n]].end then RemapTokens(cur[i], remap) else cur[i]
    ensures TokensDone(cur2, before, secs, owned, n + 1, remap)
  {
    forall m, i | 0 <= m < |owned| && secs[owned[m]].start <= i < secs[owned[m]].end && i < |before|
      ensures cur2[i] == if m < n + 1 then RemapTokens(before[i], remap) else before[i]
    {
      if m != n {
        OwnedDisjoint(secs, owned, m, n);
      }
    }
  }

  /** `remap` restricted to the keys listed in `keys`. */
  ghost function Restrict(remap: map<int, int>, keys: seq<int>): (r: map<int, int>)
    ensures r.Keys <= remap.Keys && r.Values <= remap.Values
  {
    map k | k in remap && k in keys :: remap[k]
  }

  lemma RestrictStep(remap: map<int, int>, order: seq<int>, t: nat)
    requires t < |order| && order[t] in remap
    ensures Restrict(remap, order[..t + 1]) == Restrict(remap, order[..t])[order[t] := remap[order[t]]]
  {
    assert forall k :: k in order[..t + 1] <==> k in order[..t] || k == order[t];
  }

  /**
   * The references of lines `[start, end)` rewritten by every pair of `remap`,
   * one pair at a time in the order `order` lists the keys.
   */
  method RemapRange(lines: array<Line>, start: nat, end: nat, order: seq<int>, remap: map<int, int>)
    requires start <= end <= lines.Length
    requires forall k :: k in remap <==> k in order
    requires forall a, b :: 0 <= a < b < |order| ==> order[a] != order[b]
    requires forall k :: k in remap ==> k !in remap.Values
    modifies lines
    ensures forall i :: 0 <= i < lines.Length ==>
      lines[i] == if start <= i < end then RemapTokens(old(lines[i]), remap) else old(lines[i])
  {
    assert Restrict(remap, order[..0]) == map[];
    forall i | start <= i < end ensures RemapTokens(lines[i], map[]) == lines[i] {
      RemapTokensEmpty(lines[i]);
    }
    for t := 0 to |order|
      invariant forall i :: 0 <= i < lines.Length ==>
        lines[i] == if start <= i < end then RemapTokens(old(lines[i]), Restrict(remap, order[..t])) else old(lines[i])
    {
      var m := Restrict(remap, order[..t]);
      assert order[t] in order;
      RestrictStep(remap, order, t);
      assert order[t] !in m;
      ReplaceFileIdInRange(lines, start, end, order[t], remap[order[t]]);
      forall i | start <= i < end
        ensures RetargetLine(RemapTokens(old(lines[i]), m), order[t], remap[order[t]])
             == RemapTokens(old(lines[i]), Restrict(remap, order[..t + 1]))
      {
        RetargetAfterRemap(old(lines[i]), m, order[t], remap[order[t]]);
      }
    }
    assert order[..|order|] == order;
    RestrictAll(remap, order);
  }

  lemma RestrictAll(remap: map<int, int>, keys: seq<int>)
    requires forall k :: k in remap ==> k in keys
    ensures Restrict(remap, keys) == remap
  {
    var r := Restrict(remap, keys);
    forall k | k in remap ensures k in r && r[k] == remap[k] {
      assert k in keys;
    }
    assert r.Keys == remap.Keys;
  }

  lemma AnchorsKeepShape(a: seq<Line>, b: seq<Line>, secs: seq<Section>, owned: seq<nat>, remap: map<int, int>)
    requires AnchorsDone(b, a, secs, owned, |owned|, remap)
    ensures SameShape(a, b)
  {
    forall i | 0 <= i < |a| ensures ShapeKept(a[i], b[i]) {
      if !Outside(secs, owned, i) {
        var m :| 0 <= m < |owned| && owned[m] < |secs| && secs[owned[m]].start <= i < secs[owned[m]].end;
      }
    }
  }

  /** No stale id a group remaps is also one of its new ids. */
  lemma AllocKeysNotImages(secs: seq<Section>, owned: seq<nat>, goId: int, used0: set<int>,
                           remap: map<int, int>, order: seq<int>, used: set<int>)
    requires AllocState(secs, owned, |owned|, goId, used0, remap, order, used)
    ensures forall k :: k in remap ==> k !in remap.Values
  {
  }

  /** The two rewrites of a group together: each owned line is reassigned, every other line kept. */
  lemma GroupDone(a: seq<Line>, b: seq<Line>, c: seq<Line>, secs: seq<Section>, owned: seq<nat>, remap: map<int, int>)
    requires AnchorsDone(b, a, secs, owned, |owned|, remap) && TokensDone(c, b, secs, owned, |owned|, remap)
    ensures forall m, i :: 0 <= m < |owned| && secs[owned[m]].start <= i < secs[owned[m]].end && i < |a| ==>
      c[i] == Reassign(a[i], i == secs[owned[m]].start, secs[owned[m]].fileId, remap)
    ensures forall i :: 0 <= i < |a| && Outside(secs, owned, i) ==> c[i] == a[i]
    ensures SameShape(a, c)
  {
    forall i | 0 <= i < |a| ensures ShapeKept(a[i], c[i]) {
      if !Outside(secs, owned, i) {
        var m :| 0 <= m < |owned| && owned[m] < |secs| && secs[owned[m]].start <= i < secs[owned[m]].end;
        ReassignKeepsShape(a[i], i == secs[owned[m]].start, secs[owned[m]].fileId, remap);
      }
    }
  }

  lemma ReassignKeepsShape(l: Line, isStart: bool, oldId: int, remap: map<int, int>)
    ensures ShapeKept(l, Reassign(l, isStart, oldId, remap))
  {
  }

  /**
   * The ids of a group: a fresh id for the GameObject, then, in owned order, a
   * fresh id for each owned section id not yet mapped. `order` lists the keys
   * in the order they were added.
   */
  method AllocateGroupIds(secs: seq<Section>, goId: int, owned: seq<nat>, used: set<int>)
    returns (remap: map<int, int>, order: seq<int>, usedAfter: set<int>)
    requires OwnedIn(secs, owned)
    requires goId in used && forall m :: 0 <= m < |owned| ==> secs[owned[m]].fileId in used
    ensures AllocState(secs, owned, |owned|, goId, used, remap, order, usedAfter)
  {
    var newGoId;
    newGoId, usedAfter := NextFreeId(used);
    remap, order := map[goId := newGoId], [goId];
    AllocFirst(secs, owned, goId, used, newGoId);
    for n := 0 to |owned|
      invariant AllocState(secs, owned, n, goId, used, remap, order, usedAfter)
    {
      var oldId := secs[owned[n]].fileId;
      if oldId in remap {
        AllocKnownStep(secs, owned, n, goId, used, remap, order, usedAfter);
        continue;
      }
      if oldId in usedAfter {
        var newId, used2 := NextFreeId(usedAfter);
        AllocNewStep(secs, owned, n, goId, used, remap, order, usedAfter, newId);
        remap, order, usedAfter := remap[oldId := newId], order + [oldId], used2;
      }
    }
  }

  /** Every owned header whose section id is remapped takes the new id; returns how many. */
  method ReanchorHeaders(lines: array<Line>, secs: seq<Section>, owned: seq<nat>, remap: map<int, int>)
    returns (headerChanges: nat)
    requires Framed(secs, lines[..]) && Ordered(secs) && OwnedIn(secs, owned)
    requires forall m :: 0 <= m < |owned| ==> secs[owned[m]].fileId in remap
    modifies lines
    ensures AnchorsDone(lines[..], old(lines[..]), secs, owned, |owned|, remap)
    ensures headerChanges == |owned|
  {
    ghost var a := lines[..];
    headerChanges := 0;
    for n := 0 to |owned|
      invariant AnchorsDone(lines[..], a, secs, owned, n, remap)
      invariant headerChanges == n
    {
      var sec := secs[owned[n]];
      if sec.fileId in remap {
        AnchorStep(lines[..], a, secs, owned, n, remap);
        HeaderReplaceFileId(lines, sec, remap[sec.fileId]);
        headerChanges := headerChanges + 1;
      }
    }
  }

  /** The references inside every owned section rewritten by `remap`. */
  method RemapOwnedSections(lines: array<Line>, secs: seq<Section>, owned: seq<nat>, order: seq<int>,
                            remap: map<int, int>)
    requires Framed(secs, lines[..]) && Ordered(secs) && OwnedIn(secs, owned)
    requires forall k :: k in remap <==> k in order
    requires forall a, b :: 0 <= a < b < |order| ==> order[a] != order[b]
    requires forall k :: k in remap ==> k !in remap.Values
    modifies lines
    ensures TokensDone(lines[..], old(lines[..]), secs, owned, |owned|, remap)
  {
    ghost var b := lines[..];
    for n := 0 to |owned|
      invariant TokensDone(lines[..], b, secs, owned, n, remap)
    {
      var sec := secs[owned[n]];
      ghost var cur := lines[..];
      RemapRange(lines, sec.start, sec.end, order, remap);
      TokensStep(cur, lines[..], b, secs, owned, n, remap);
    }
  }

  /**
   * Fixes one later occurrence of GameObject `goId`, given the sections it
   * owns that survived filtering: the GameObject id and every owned section id
   * get fresh ids (one per distinct stale id), every owned header takes the new
   * id of its section id, and every reference inside the owned sections to a
   * remapped id is rewritten. Lines outside the owned sections are untouched.
   */
  method FixGroup(lines: array<Line>, secs: seq<Section>, goId: int, owned: seq<nat>, used: set<int>)
    returns (headerChanges: nat, usedAfter: set<int>, remap: map<int, int>)
    requires Framed(secs, lines[..]) && Ordered(secs) && OwnedIn(secs, owned)
    requires goId in used && forall m :: 0 <= m < |owned| ==> secs[owned[m]].fileId in used
    modifies lines
    ensures forall k :: k in remap <==> k == goId || exists m :: 0 <= m < |owned| && secs[owned[m]].fileId == k
    ensures FreshImages(remap, used) && Injective(remap)
    ensures usedAfter == used + remap.Values
    ensures headerChanges == |owned|
    ensures forall m, i :: 0 <= m < |owned| && secs[owned[m]].start <= i < secs[owned[m]].end ==>
      lines[i] == Reassign(old(lines[i]), i == secs[owned[m]].start, secs[owned[m]].fileId, remap)
    ensures forall i :: 0 <= i < lines.Length && Outside(secs, owned, i) ==> lines[i] == old(lines[i])
    ensures SameShape(old(lines[..]), lines[..])
  {
    ghost var a := lines[..];
    var order;
    remap, order, usedAfter := AllocateGroupIds(secs, goId, owned, used);
    headerChanges := ReanchorHeaders(lines, secs, owned, remap);
    ghost var b := lines[..];
    AnchorsKeepShape(a, b, secs, owned, remap);
    FramedSameShape(secs, a, b);
    AllocKeysNotImages(secs, owned, goId, used, remap, order, usedAfter);
    RemapOwnedSections(lines, secs, owned, order, remap);
    GroupDone(a, b, lines[..], secs, owned, remap);
  }

  /**
   * What a fixed group does to a reference inside an owned section: a token
   * whose value has a new id now has that id, keeping its suffix; any other
   * piece is kept.
   */
  lemma ReassignedReference(l: Line, isStart: bool, oldId: int, remap: map<int, int>, j: int)
    requires 0 <= j < |l.pieces|
    ensures |Reassign(l, isStart, oldId, remap).pieces| == |l.pieces|
    ensures var p, q := l.pieces[j], Reassign(l, isStart, oldId, remap).pieces[j];
      if p.FileRef? && ValueOf(p.num) in remap
      then q.FileRef? && ValueOf(q.num) == remap[ValueOf(p.num)] && q.suffix == p.suffix
      else q == p
  {
    var p := l.pieces[j];
    if p.FileRef? && ValueOf(p.num) in remap {
      ValueOfDecimal(remap[ValueOf(p.num)]);
    }
  }

  /** An owned header whose section id is remapped ends up with the new id, which no earlier section used. */
  lemma ReassignedHeader(l: Line, oldId: int, remap: map<int, int>, used: set<int>)
    requires IsHeader(l) && oldId in remap && FreshImages(remap, used)
    ensures IsHeader(Reassign(l, true, oldId, remap))
    ensures Reassign(l, true, oldId, remap).kind.anchor == remap[oldId] && remap[oldId] !in used
  {
  }

  // ---------------------------------------------------------------------------
  // The whole run

  /** How a run ends. */
  datatype FixOutcome =
    | NoSections                  // no section header at all: exit code 3
    | NothingToFix                // no duplicated GameObject id and nothing sanitized: exit code 0, file untouched
    | NoChangesNeeded             // duplicates were found yet nothing was changed: exit code 0
    | Applied(totalChanges: nat)  // the fixed lines are written back: exit code 0

  /** Every header line's anchor is in `ids`. */
  ghost predicate AnchorsWithin(ls: seq<Line>, ids: set<int>) {
    forall i :: 0 <= i < |ls| && IsHeader(ls[i]) ==> ls[i].kind.anchor in ids
  }

  /** Under a parse whose section ids are all in `ids`, every header anchor of the file is in `ids`. */
  lemma ParsedAnchorsWithin(secs: seq<Section>, ls: seq<Line>, ids: set<int>)
    requires Parsed(secs, ls) && forall q :: 0 <= q < |secs| ==> secs[q].fileId in ids
    ensures AnchorsWithin(ls, ids)
  {
    forall i | 0 <= i < |ls| && IsHeader(ls[i]) ensures ls[i].kind.anchor in ids {
      var q := HeaderStartsSection(secs, ls, i);
    }
  }

  lemma SectionIdsWithin(secs: seq<Section>, ls: seq<Line>, ids: set<int>)
    requires Parsed(secs, ls) && AnchorsWithin(ls, ids)
    ensures forall q :: 0 <= q < |secs| ==> secs[q].fileId in ids
  {
  }

  /** The token pass keeps the shape and the header anchors, and changes nothing when no token is bad. */
  lemma TokenPassEffect(l0: seq<Line>, l1: seq<Line>, remap: map<string, int>, ids: set<int>, ids2: set<int>)
    requires |l1| == |l0| && forall i :: 0 <= i < |l0| ==> l1[i] == FixLine(l0[i], remap)
    ensures SameShape(l0, l1)
    ensures AnchorsWithin(l0, ids) && ids <= ids2 ==> AnchorsWithin(l1, ids2)
    ensures BadCountIn(l0) == 0 ==> l1 == l0
  {
    if BadCountIn(l0) == 0 {
      forall i | 0 <= i < |l0| ensures l1[i] == l0[i] {
        NoBadTokensNoChange(l0, remap, i);
      }
    }
  }

  /** The invalid-header pass keeps the shape, moves anchors into the new ids, and with an empty remap changes nothing. */
  lemma HeaderIdPassEffect(l1: seq<Line>, l2: seq<Line>, m: map<int, int>, ids: set<int>, ids2: set<int>)
    requires |l2| == |l1| && forall i :: 0 <= i < |l1| ==> l2[i] == RemapLine(l1[i], m)
    ensures SameShape(l1, l2)
    ensures AnchorsWithin(l1, ids) && ids <= ids2 && m.Values <= ids2 ==> AnchorsWithin(l2, ids2)
    ensures m == map[] ==> l2 == l1
  {
    if m == map[] {
      forall i | 0 <= i < |l1| ensures l2[i] == l1[i] {
        RemapTokensEmpty(l1[i]);
      }
    }
  }

  /** The duplicate-header pass keeps the shape, and when it renumbers nothing it changes nothing. */
  lemma DedupPassEffect(l2: seq<Line>, l3: seq<Line>, secs: seq<Section>, renumbered: map<nat, int>)
    requires Parsed(secs, l2) && DedupLines(l3, l2, secs, renumbered)
    ensures SameShape(l2, l3)
    ensures (forall q :: q !in renumbered) ==> l3 == l2
  {
    forall i | 0 <= i < |l2| ensures ShapeKept(l2[i], l3[i]) && ((forall q :: q !in renumbered) ==> l3[i] == l2[i]) {
      if |secs| > 0 && secs[0].start <= i {
        var q := SectionOf(secs, l2, i);
      }
    }
  }

  /** With no section id repeated, the duplicate-header pass renumbers no section. */
  lemma NothingRenumbered(secs: seq<Section>, renumbered: map<nat, int>)
    requires forall q :: q in renumbered <==> 0 <= q < |secs| && secs[q].fileId in IdsOf(secs[..q])
    requires |IdsOf(secs)| == |secs|
    ensures forall q :: q !in renumbered
  {
    forall q | 0 <= q < |secs| ensures q !in renumbered {
      IdsOfAllDistinct(secs, q);
    }
  }

  /** Every section's id is in `used`. */
  ghost predicate IdsIn(secs: seq<Section>, used: set<int>) {
    forall q :: 0 <= q < |secs| ==> secs[q].fileId in used
  }

  /** None of the first `n` groups is a later occurrence. */
  ghost predicate FirstOccurrencesBefore(groups: seq<Group>, n: nat) {
    forall g :: 0 <= g < n && g < |groups| ==> groups[g].ordinal == 0
  }

  /** What the group loop needs of group `g`: its owned range lies in the file and its GameObject id is in use. */
  lemma GroupReady(cur: seq<Line>, secs: seq<Section>, g: Group, used: set<int>)
    requires IsGroupOf(secs, g) && Framed(secs, cur) && IdsIn(secs, used)
    ensures forall i :: 0 <= i < |g.owned| ==>
      g.owned[i] < |secs| && secs[g.owned[i]].start <= secs[g.owned[i]].end <= |cur|
    ensures Increasing(g.owned) && g.goId in used
  {
    GroupOwnedValid(secs, g);
    assert secs[g.owned[0]].fileId in used;
  }

  /** Filtering a group's range keeps its own GameObject section, and keeps valid indices in order. */
  lemma KeptReady(cur: seq<Line>, secs: seq<Section>, g: Group)
    requires IsGroupOf(secs, g)
    ensures forall i :: 0 <= i < |g.owned| ==> g.owned[i] < |secs|
    ensures var kept := KeptOf(cur, secs, g.goId, g.owned);
      kept != [] && OwnedIn(secs, kept)
  {
    GroupKeepsItsGameObject(cur, secs, g);
    var kept := KeptOf(cur, secs, g.goId, g.owned);
    forall m | 0 <= m < |kept| ensures kept[m] < |secs| {
      assert kept[m] in kept;
    }
  }

  /** Every group `build_go_groups` produces is a group of the file. */
  ghost predicate AllGroupsOf(secs: seq<Section>, groups: seq<Group>) {
    forall gi :: 0 <= gi < |groups| ==> IsGroupOf(secs, groups[gi])
  }

  lemma GoGroupsAllSound(secs: seq<Section>)
    ensures AllGroupsOf(secs, GoGroups(secs))
  {
    var groups := GoGroups(secs);
    forall gi | 0 <= gi < |groups| ensures IsGroupOf(secs, groups[gi]) {
      GoGroupsSound(secs, groups[gi]);
    }
  }

  /** Whenever some GameObject id is duplicated, one of its groups is a later occurrence. */
  lemma LaterOccurrenceExists(secs: seq<Section>, groups: seq<Group>) returns (gi: nat)
    requires groups == GoGroups(secs) && groups != []
    ensures gi < |groups| && groups[gi].ordinal >= 1
  {
    GoGroupsSound(secs, groups[0]);
    var goId := groups[0].goId;
    var occ := FindGoOccurrenceIndices(secs, goId);
    GoGroupsComplete(secs, goId, 1);
    var g := Group(goId, 1, OwnedRange(occ, 1, |secs|));
    gi :| 0 <= gi < |groups| && groups[gi] == g;
  }

  // ---------------------------------------------------------------------------
  // What the group loop does to the file

  /** Line `i` lies in a section that group `g`, a later occurrence, keeps when filtered over `ls`. */
  ghost predicate TouchedBy(ls: seq<Line>, secs: seq<Section>, g: Group, i: int) {
    && g.ordinal >= 1
    && exists m :: 0 <= m < |g.owned| && g.owned[m] < |secs| && Kept(ls, secs, g.goId, g.owned[m])
                   && secs[g.owned[m]].start <= i < secs[g.owned[m]].end
  }

  /** None of the first `n` groups touches line `i`. */
  ghost predicate UntouchedBy(ls: seq<Line>, secs: seq<Section>, groups: seq<Group>, n: nat, i: int) {
    forall gj :: 0 <= gj < n && gj < |groups| ==> !TouchedBy(ls, secs, groups[gj], i)
  }

  /**
   * `after` is `before` with group `g` fixed. When `g` is a later occurrence,
   * `kept` are the sections of its range kept when filtered over `before`;
   * when there are any, the keys of `remap` are the GameObject id and the
   * kept section ids, and
   * every line of a kept section is reassigned by `remap`. Every other line
   * is unchanged; a first occurrence keeps no section.
   */
  ghost predicate GroupRewrite(before: seq<Line>, after: seq<Line>, secs: seq<Section>, g: Group,
                               kept: seq<nat>, remap: map<int, int>) {
    && |after| == |before|
    && (forall x :: x in kept <==> g.ordinal >= 1 && x in g.owned && x < |secs| && Kept(before, secs, g.goId, x))
    && (kept != [] ==> forall k :: k in remap <==>
          k == g.goId || exists m :: 0 <= m < |kept| && kept[m] < |secs| && secs[kept[m]].fileId == k)
    && (forall m, i :: 0 <= m < |kept| && kept[m] < |secs| && secs[kept[m]].start <= i < secs[kept[m]].end
          && i < |before|
          ==> after[i] == Reassign(before[i], i == secs[kept[m]].start, secs[kept[m]].fileId, remap))
    && (forall i :: 0 <= i < |before| && Outside(secs, kept, i) ==> after[i] == before[i])
  }

  /**
   * The group loop after its first `n` groups, from the lines `start` with
   * the ids `used0` in use: the shape is kept; every id added to those in use
   * is a fresh one; a line none of those groups touches is unchanged; a
   * header whose id changed carries an id that was not in use; and no line
   * has come to bind to an id that was in use.
   */
  ghost predicate GroupLoopState(start: seq<Line>, cur: seq<Line>, secs: seq<Section>, groups: seq<Group>, n: nat,
                                 used0: set<int>, used: set<int>) {
    && SameShape(start, cur)
    && used0 <= used && (forall x :: x in used && x !in used0 ==> x >= FreshIdBase)
    && (forall i :: 0 <= i < |start| && UntouchedBy(start, secs, groups, n, i) ==> cur[i] == start[i])
    && (forall i :: 0 <= i < |start| && IsHeader(start[i]) && IsHeader(cur[i])
          && cur[i].kind.anchor != start[i].kind.anchor
          ==> cur[i].kind.anchor !in used0)
    && (forall i, a :: 0 <= i < |start| && a in used0 && BindsTo(cur[i], a) ==> BindsTo(start[i], a))
  }

  /** A token `remap` rewrites never reads as an id that is not one of its images. */
  lemma NotRemappedTo(p: Piece, remap: map<int, int>, a: int)
    requires a !in remap.Values && RemapPiece(p, remap) == FileRef(Decimal(a), "")
    ensures !(p.FileRef? && ValueOf(p.num) in remap)
  {
    if p.FileRef? && ValueOf(p.num) in remap {
      DecimalInjective(remap[ValueOf(p.num)], a);
    }
  }

  /** A reassigned line binds to an id that is not a new id only if it bound to it before. */
  lemma ReassignBinding(l: Line, isStart: bool, oldId: int, remap: map<int, int>, a: int)
    requires a !in remap.Values && BindsTo(Reassign(l, isStart, oldId, remap), a)
    ensures BindsTo(l, a)
  {
    NotRemappedTo(l.pieces[0], remap, a);
  }

  /** A reassigned header keeps its id or takes one of the new ids. */
  lemma ReassignAnchor(l: Line, isStart: bool, oldId: int, remap: map<int, int>)
    requires IsHeader(l)
    ensures IsHeader(Reassign(l, isStart, oldId, remap))
    ensures var a := Reassign(l, isStart, oldId, remap).kind.anchor;
      a == l.kind.anchor || a in remap.Values
  {
  }

  /** Filtering over lines where nothing has come to bind to `goId` keeps no section it did not keep over `start`. */
  lemma KeptShrinks(start: seq<Line>, cur: seq<Line>, secs: seq<Section>, goId: int, x: nat, used0: set<int>)
    requires x < |secs| && |cur| == |start| && goId in used0
    requires forall i, a :: 0 <= i < |start| && a in used0 && BindsTo(cur[i], a) ==> BindsTo(start[i], a)
    requires Kept(cur, secs, goId, x)
    ensures Kept(start, secs, goId, x)
  {
  }

  /** A line a group rewrite changed lies in a kept section and was reassigned. */
  lemma RewrittenLine(before: seq<Line>, after: seq<Line>, secs: seq<Section>, g: Group,
                      kept: seq<nat>, remap: map<int, int>, i: nat) returns (m: nat)
    requires GroupRewrite(before, after, secs, g, kept, remap) && i < |before| && after[i] != before[i]
    ensures m < |kept| && kept[m] < |secs| && secs[kept[m]].start <= i < secs[kept[m]].end
    ensures after[i] == Reassign(before[i], i == secs[kept[m]].start, secs[kept[m]].fileId, remap)
  {
    m :| 0 <= m < |kept| && kept[m] < |secs| && secs[kept[m]].start <= i < secs[kept[m]].end;
  }

  /** A line group `g` changes lies in a section the group keeps when filtered over the loop's starting lines. */
  lemma ChangedMeansTouched(start: seq<Line>, before: seq<Line>, after: seq<Line>, secs: seq<Section>, g: Group,
                            kept: seq<nat>, remap: map<int, int>, used0: set<int>, i: nat)
    requires GroupRewrite(before, after, secs, g, kept, remap) && i < |before| == |start| && g.goId in used0
    requires forall j, a :: 0 <= j < |start| && a in used0 && BindsTo(before[j], a) ==> BindsTo(start[j], a)
    ensures after[i] != before[i] ==> TouchedBy(start, secs, g, i)
  {
    if after[i] != before[i] {
      var m := RewrittenLine(before, after, secs, g, kept, remap, i);
      var x := kept[m];
      assert x in kept;
      KeptShrinks(start, before, secs, g.goId, x, used0);
      var j :| 0 <= j < |g.owned| && g.owned[j] == x;
    }
  }

  /** Every image of a map of fresh images is itself fresh. */
  lemma FreshValue(remap: map<int, int>, used: set<int>, x: int)
    requires FreshImages(remap, used) && x in remap.Values
    ensures x >= FreshIdBase && x !in used
  {
  }

  /** Fixing one more group keeps the loop's promise. */
  lemma GroupLoopStep(start: seq<Line>, before: seq<Line>, after: seq<Line>, secs: seq<Section>, groups: seq<Group>,
                      n: nat, used0: set<int>, used: set<int>, kept: seq<nat>, remap: map<int, int>, usedAfter: set<int>)
    requires GroupLoopState(start, before, secs, groups, n, used0, used)
    requires n < |groups| && IsGroupOf(secs, groups[n]) && IdsIn(secs, used0)
    requires GroupRewrite(before, after, secs, groups[n], kept, remap) && SameShape(start, after)
    requires FreshImages(remap, used) && usedAfter == used + remap.Values
    ensures GroupLoopState(start, after, secs, groups, n + 1, used0, usedAfter)
  {
    var g := groups[n];
    GroupOwnedValid(secs, g);
    assert secs[g.owned[0]].fileId in used0;
    forall x | x in usedAfter && x !in used0 ensures x >= FreshIdBase {
      if x !in used {
        FreshValue(remap, used, x);
      }
    }
    forall i | 0 <= i < |start| && UntouchedBy(start, secs, groups, n + 1, i) ensures after[i] == start[i] {
      ChangedMeansTouched(start, before, after, secs, g, kept, remap, used0, i);
    }
    forall i | 0 <= i < |start| && IsHeader(start[i]) && IsHeader(after[i]) && after[i].kind.anchor != start[i].kind.anchor
      ensures after[i].kind.anchor !in used0
    {
      if after[i] != before[i] {
        var m := RewrittenLine(before, after, secs, g, kept, remap, i);
        ReassignAnchor(before[i], i == secs[kept[m]].start, secs[kept[m]].fileId, remap);
      }
    }
    forall i, a | 0 <= i < |start| && a in used0 && BindsTo(after[i], a) ensures BindsTo(start[i], a) {
      if after[i] != before[i] {
        var m := RewrittenLine(before, after, secs, g, kept, remap, i);
        ReassignBinding(before[i], i == secs[kept[m]].start, secs[kept[m]].fileId, remap, a);
      }
    }
  }

  /** The lines of section `s` are the same in `start` and `cur`. */
  ghost predicate SectionUnchanged(start: seq<Line>, cur: seq<Line>, s: Section) {
    forall ln :: s.start <= ln < s.end && ln < |start| && ln < |cur| ==> cur[ln] == start[ln]
  }

  /** No line of section `s` is an `m_GameObject` binding line. */
  ghost predicate NoBindingLines(ls: seq<Line>, s: Section) {
    forall ln :: s.start <= ln < s.end && ln < |ls| ==> !ls[ln].kind.GoBinding?
  }

  /**
   * The first occurrence of every GameObject id is left as it was, as long
   * as it holds no binding line of its own (through which the group of
   * another GameObject id could keep it).
   */
  ghost predicate FirstOccurrencesKept(start: seq<Line>, cur: seq<Line>, secs: seq<Section>) {
    forall goId :: var occ := FindGoOccurrenceIndices(secs, goId);
      occ != [] && occ[0] < |secs| && NoBindingLines(start, secs[occ[0]]) ==> SectionUnchanged(start, cur, secs[occ[0]])
  }

  /** A line lies in at most one section. */
  lemma SameSection(secs: seq<Section>, p: nat, q: nat, ln: int)
    requires Ordered(secs) && p < |secs| && q < |secs|
    requires secs[p].start <= ln < secs[p].end && secs[q].start <= ln < secs[q].end
    ensures p == q
  {
  }

  /** No later occurrence's group keeps a line of the first occurrence of a GameObject that has no binding line. */
  lemma NotTouchingFirst(start: seq<Line>, secs: seq<Section>, g: Group, goId: int, ln: int)
    requires IsGroupOf(secs, g) && Ordered(secs)
    requires var occ := FindGoOccurrenceIndices(secs, goId);
      occ != [] && occ[0] < |secs| && NoBindingLines(start, secs[occ[0]])
      && secs[occ[0]].start <= ln < secs[occ[0]].end && ln < |start|
    ensures !TouchedBy(start, secs, g, ln)
  {
    var occ := FindGoOccurrenceIndices(secs, goId);
    var f := occ[0];
    assert f in occ;
    forall m | 0 <= m < |g.owned| && g.owned[m] < |secs| && secs[g.owned[m]].start <= ln < secs[g.owned[m]].end
               && g.ordinal >= 1
      ensures !Kept(start, secs, g.goId, g.owned[m])
    {
      SameSection(secs, g.owned[m], f, ln);
      assert g.owned[m] in g.owned;
      if g.goId == goId {
        LaterGroupSkipsFirst(secs, g);
      }
    }
  }

  /** Once the group loop is done, the first occurrence of every GameObject without binding lines is untouched. */
  lemma FirstOccurrenceUntouched(start: seq<Line>, cur: seq<Line>, secs: seq<Section>, groups: seq<Group>,
                                 used0: set<int>, used: set<int>)
    requires GroupLoopState(start, cur, secs, groups, |groups|, used0, used)
    requires AllGroupsOf(secs, groups) && Ordered(secs)
    ensures FirstOccurrencesKept(start, cur, secs)
  {
    forall goId | var occ := FindGoOccurrenceIndices(secs, goId);
        occ != [] && occ[0] < |secs| && NoBindingLines(start, secs[occ[0]])
      ensures SectionUnchanged(start, cur, secs[FindGoOccurrenceIndices(secs, goId)[0]])
    {
      var s := secs[FindGoOccurrenceIndices(secs, goId)[0]];
      forall ln | s.start <= ln < s.end && ln < |start| && ln < |cur| ensures cur[ln] == start[ln] {
        forall gj | 0 <= gj < |groups| ensures !TouchedBy(start, secs, groups[gj], ln) {
          NotTouchingFirst(start, secs, groups[gj], goId, ln);
        }
        assert UntouchedBy(start, secs, groups, |groups|, ln);
      }
    }
  }

  /** A group over lines of the shape of `start` meets what the filter and `FixGroup` ask of it. */
  lemma LaterGroupReady(start: seq<Line>, cur: seq<Line>, secs: seq<Section>, g: Group, used: set<int>)
    requires IsGroupOf(secs, g) && Framed(secs, start) && SameShape(start, cur) && IdsIn(secs, used)
    ensures Framed(secs, cur) && g.goId in used
    ensures forall i :: 0 <= i < |g.owned| ==>
      g.owned[i] < |secs| && secs[g.owned[i]].start <= secs[g.owned[i]].end <= |cur|
    ensures var kept := KeptOf(cur, secs, g.goId, g.owned);
      kept != [] && OwnedIn(secs, kept) && forall m :: 0 <= m < |kept| ==> secs[kept[m]].fileId in used
  {
    FramedSameShape(secs, start, cur);
    GroupReady(cur, secs, g, used);
    KeptReady(cur, secs, g);
  }

  /** What `FixGroup` promises about the kept sections of a later occurrence is a group rewrite. */
  lemma FixedGroupRewrite(before: seq<Line>, after: seq<Line>, secs: seq<Section>, g: Group,
                          kept: seq<nat>, remap: map<int, int>)
    requires g.ordinal >= 1 && |after| == |before| && OwnedIn(secs, kept)
    requires forall i :: 0 <= i < |g.owned| ==> g.owned[i] < |secs|
    requires kept == KeptOf(before, secs, g.goId, g.owned)
    requires forall k :: k in remap <==> k == g.goId || exists m :: 0 <= m < |kept| && secs[kept[m]].fileId == k
    requires forall m, i :: 0 <= m < |kept| && secs[kept[m]].start <= i < secs[kept[m]].end && i < |before| ==>
               after[i] == Reassign(before[i], i == secs[kept[m]].start, secs[kept[m]].fileId, remap)
    requires forall i :: 0 <= i < |before| && Outside(secs, kept, i) ==> after[i] == before[i]
    ensures GroupRewrite(before, after, secs, g, kept, remap)
  {
  }

  /**
   * One iteration of the group loop for a later occurrence: the sections of
   * its range bound to its GameObject (over the lines as they are now) are
   * kept, the GameObject id and their ids get fresh ids, and their lines are
   * reassigned; nothing else changes. `start` is the file before the loop,
   * which the lines keep the shape of.
   */
  method FixLaterGroup(lines: array<Line>, ghost start: seq<Line>, secs: seq<Section>, g: Group, used: set<int>)
    returns (changes: nat, usedAfter: set<int>, ghost kept: seq<nat>, ghost remap: map<int, int>)
    requires IsGroupOf(secs, g) && g.ordinal >= 1 && Framed(secs, start) && Ordered(secs)
    requires SameShape(start, lines[..]) && IdsIn(secs, used)
    modifies lines
    ensures GroupRewrite(old(lines[..]), lines[..], secs, g, kept, remap)
    ensures FreshImages(remap, used) && Injective(remap) && usedAfter == used + remap.Values
    ensures SameShape(start, lines[..]) && IdsIn(secs, usedAfter)
    ensures changes > 0
  {
    ghost var before := lines[..];
    LaterGroupReady(start, before, secs, g, used);
    var owned := FilterOwnedByTextBinding(lines[..], secs, g.goId, g.owned);
    changes, usedAfter, kept, remap := 0, used, [], map[];
    if owned == [] {
      return;
    }
    changes, usedAfter, remap := FixGroup(lines, secs, g.goId, owned, used);
    kept := owned;
    FixedGroupRewrite(before, lines[..], secs, g, kept, remap);
    SameShapeTrans(start, before, lines[..]);
  }

  /** One iteration of the group loop: a first occurrence is skipped, a later one fixed. */
  method FixGroupAt(lines: array<Line>, ghost start: seq<Line>, secs: seq<Section>, g: Group, used: set<int>)
    returns (changes: nat, usedAfter: set<int>, ghost kept: seq<nat>, ghost remap: map<int, int>)
    requires IsGroupOf(secs, g) && Framed(secs, start) && Ordered(secs)
    requires SameShape(start, lines[..]) && IdsIn(secs, used)
    modifies lines
    ensures GroupRewrite(old(lines[..]), lines[..], secs, g, kept, remap)
    ensures FreshImages(remap, used) && Injective(remap) && usedAfter == used + remap.Values
    ensures SameShape(start, lines[..]) && IdsIn(secs, usedAfter)
    ensures g.ordinal != 0 ==> changes > 0
  {
    if g.ordinal == 0 {
      changes, usedAfter, kept, remap := 0, used, [], map[];
    } else {
      changes, usedAfter, kept, remap := FixLaterGroup(lines, start, secs, g, used);
    }
  }

  /**
   * The loop over the groups: it keeps the promise of `GroupLoopState` for
   * every group, and when any group is a later occurrence, some header id
   * changes.
   */
  method FixGroupList(lines: array<Line>, secs: seq<Section>, groups: seq<Group>, used: set<int>)
    returns (total: nat, usedAfter: set<int>)
    requires AllGroupsOf(secs, groups) && Framed(secs, lines[..]) && Ordered(secs) && IdsIn(secs, used)
    modifies lines
    ensures GroupLoopState(old(lines[..]), lines[..], secs, groups, |groups|, used, usedAfter)
    ensures total > 0 || FirstOccurrencesBefore(groups, |groups|)
  {
    ghost var start := lines[..];
    usedAfter := used;
    total := 0;
    for gi := 0 to |groups|
      invariant GroupLoopState(start, lines[..], secs, groups, gi, used, usedAfter)
      invariant total > 0 || FirstOccurrencesBefore(groups, gi)
    {
      ghost var before := lines[..];
      var changes, usedNext, kept, remap := FixGroupAt(lines, start, secs, groups[gi], usedAfter);
      GroupLoopStep(start, before, lines[..], secs, groups, gi, used, usedAfter, kept, remap, usedNext);
      total, usedAfter := total + changes, usedNext;
    }
  }

  /**
   * The group loop of the repair: every later occurrence of a duplicated
   * GameObject id, with the sections it owns that bind to it, gets fresh ids.
   * `secs` are the sections parsed before the duplicate-header pass, as the
   * loop uses them. Returns the number of header ids changed and the ids now
   * in use.
   */
  method FixGroups(lines: array<Line>, secs: seq<Section>, groups: seq<Group>, used: set<int>)
    returns (total: nat, usedAfter: set<int>)
    requires groups == GoGroups(secs) && Framed(secs, lines[..]) && Ordered(secs) && IdsIn(secs, used)
    modifies lines
    ensures GroupLoopState(old(lines[..]), lines[..], secs, groups, |groups|, used, usedAfter)
    ensures FirstOccurrencesKept(old(lines[..]), lines[..], secs)
    ensures groups != [] ==> total > 0
  {
    GoGroupsAllSound(secs);
    total, usedAfter := FixGroupList(lines, secs, groups, used);
    FirstOccurrenceUntouched(old(lines[..]), lines[..], secs, groups, used, usedAfter);
    if groups != [] {
      var gi := LaterOccurrenceExists(secs, groups);
    }
  }

  /**
   * A reference to a section whose header id is invalid does not follow its
   * header. The reference is a bad token too, so the token pass has already
   * given it a fresh id of its own; the header pass then gives the header a
   * different fresh id, and the reference matches neither the old header id
   * nor the new one.
   */
  lemma InvalidHeaderReferenceOrphaned(p: Piece, tokenRemap: map<string, int>, headerRemap: map<int, int>,
                                        used0: set<int>, used1: set<int>)
    requires IsBadToken(p) && p.suffix == "" && TokenKey(p) in tokenRemap
    requires ValueOf(p.num) in used0 && FreshImages(tokenRemap, used0)
    requires ValueOf(p.num) in headerRemap && used0 + tokenRemap.Values <= used1
    requires FreshImages(headerRemap, used1) && Injective(headerRemap)
    ensures var q := RemapPiece(FixPiece(p, tokenRemap), headerRemap);
      q.FileRef? && ValueOf(q.num) != ValueOf(p.num) && q != FileRef(Decimal(headerRemap[ValueOf(p.num)]), "")
  {
    var x := ValueOf(p.num);
    var t := tokenRemap[TokenKey(p)];
    assert t in tokenRemap.Values;
    ValueOfDecimal(t);
    var q := RemapPiece(FixPiece(p, tokenRemap), headerRemap);
    if t in headerRemap {
      ValueOfDecimal(headerRemap[t]);
      DecimalInjective(headerRemap[t], headerRemap[x]);
    } else {
      DecimalInjective(t, headerRemap[x]);
    }
  }

  /** Every line with its bad tokens replaced by the ids `remap` gives their keys. */
  function FixLines(ls: seq<Line>, remap: map<string, int>): seq<Line> {
    seq(|ls|, i requires 0 <= i < |ls| => FixLine(ls[i], remap))
  }

  /** Every line with its tokens and its header anchor remapped by `m`. */
  function RemapLines(ls: seq<Line>, m: map<int, int>): seq<Line> {
    seq(|ls|, i requires 0 <= i < |ls| => RemapLine(ls[i], m))
  }

  /**
   * What the three sanitize passes did to a file: the sections first parsed,
   * then for each pass the map of fresh ids it drew and the lines and parse
   * it left behind.
   */
  datatype SanitizeSteps = SanitizeSteps(
    parsed0: seq<Section>,
    tokenRemap: map<string, int>, afterTokens: seq<Line>, tokenSecs: seq<Section>,
    headerRemap: map<int, int>, afterHeaders: seq<Line>, headerSecs: seq<Section>,
    renumbered: map<nat, int>)

  /**
   * `after` is `before` sanitized by the steps `s`, and `used` is the set of
   * ids the passes leave in use: the section ids first parsed together with
   * every id the three passes drew, each pass drawing outside what was in
   * use before it.
   */
  ghost predicate SanitizedBy(before: seq<Line>, after: seq<Line>, s: SanitizeSteps, used: set<int>) {
    var ids0 := IdsOf(s.parsed0);
    && Parsed(s.parsed0, before)
    // the bad-token pass, on the whole file
    && s.tokenRemap.Keys == BadKeysIn(before)
    && FreshImages(s.tokenRemap, ids0) && Injective(s.tokenRemap)
    && s.afterTokens == FixLines(before, s.tokenRemap)
    && Parsed(s.tokenSecs, s.afterTokens)
    // the invalid-header pass, on the sections parsed after it
    && s.headerRemap.Keys == InvalidHeaderIds(s.tokenSecs)
    && FreshImages(s.headerRemap, ids0 + s.tokenRemap.Values) && Injective(s.headerRemap)
    && s.afterHeaders == RemapLines(s.afterTokens, s.headerRemap)
    && Parsed(s.headerSecs, s.afterHeaders)
    && IdsIn(s.headerSecs, ids0 + s.tokenRemap.Values + s.headerRemap.Values)
    // the duplicate-header pass, on the sections parsed after that
    && (forall q :: q in s.renumbered <==> 0 <= q < |s.headerSecs| && s.headerSecs[q].fileId in IdsOf(s.headerSecs[..q]))
    && FreshImages(s.renumbered, ids0 + s.tokenRemap.Values + s.headerRemap.Values) && Injective(s.renumbered)
    && DedupLines(after, s.afterHeaders, s.headerSecs, s.renumbered)
    && used == ids0 + s.tokenRemap.Values + s.headerRemap.Values + s.renumbered.Values
  }

  /** Every section of `secs` starts at a header of `ls`, and no two of those headers carry the same id. */
  ghost predicate HeaderIdsDistinct(secs: seq<Section>, ls: seq<Line>) {
    && Framed(secs, ls)
    && forall p, q :: 0 <= p < q < |secs| ==> ls[secs[p].start].kind.anchor != ls[secs[q].start].kind.anchor
  }

  /** The headers the duplicate-header pass leaves behind frame its sections and carry distinct ids. */
  lemma DedupedHeadersDistinct(after: seq<Line>, mid: seq<Line>, secs: seq<Section>, ids: set<int>, renumbered: map<nat, int>)
    requires Parsed(secs, mid) && DedupLines(after, mid, secs, renumbered) && IdsIn(secs, ids)
    requires forall q :: q in renumbered <==> 0 <= q < |secs| && secs[q].fileId in IdsOf(secs[..q])
    requires FreshImages(renumbered, ids) && Injective(renumbered)
    ensures HeaderIdsDistinct(secs, after)
  {
    forall q | 0 <= q < |secs| ensures secs[q].start < secs[q].end <= |after| && IsHeader(after[secs[q].start]) {
      DedupedAnchor(after, mid, secs, renumbered, q);
    }
    forall p, q | 0 <= p < q < |secs| ensures after[secs[p].start].kind.anchor != after[secs[q].start].kind.anchor {
      DedupedAnchorsDistinct(after, mid, secs, ids, renumbered, p, q);
    }
  }

  /** After the three sanitize passes no two section headers of the file carry the same id. */
  lemma SanitizedAnchorsDistinct(before: seq<Line>, after: seq<Line>, s: SanitizeSteps, used: set<int>)
    requires SanitizedBy(before, after, s, used)
    ensures HeaderIdsDistinct(s.headerSecs, after)
  {
    var ids := IdsOf(s.parsed0) + s.tokenRemap.Values + s.headerRemap.Values;
    DedupedHeadersDistinct(after, s.afterHeaders, s.headerSecs, ids, s.renumbered);
  }

  /** The bad-token pass, then a fresh parse. */
  method TokenPass(lines: array<Line>, secs0: seq<Section>)
    returns (changes: nat, used: set<int>, secs: seq<Section>, ghost tokenRemap: map<string, int>)
    requires Parsed(secs0, lines[..])
    modifies lines
    ensures tokenRemap.Keys == BadKeysIn(old(lines[..]))
    ensures FreshImages(tokenRemap, IdsOf(secs0)) && Injective(tokenRemap)
    ensures lines[..] == FixLines(old(lines[..]), tokenRemap)
    ensures used == IdsOf(secs0) + tokenRemap.Values
    ensures SameShape(old(lines[..]), lines[..]) && Parsed(secs, lines[..])
    ensures forall q :: 0 <= q < |secs| ==> secs[q].fileId in used
    ensures changes == 0 ==> lines[..] == old(lines[..]) && BadCountIn(old(lines[..])) == 0
  {
    ghost var l0 := lines[..];
    var used0 := IdsOf(secs0);
    forall q | 0 <= q < |secs0| ensures secs0[q].fileId in used0 {
      IdsOfMembers(secs0, secs0[q].fileId);
    }
    ParsedAnchorsWithin(secs0, l0, used0);
    var remap;
    changes, remap, used := SanitizeInvalidFileIds(lines, used0);
    tokenRemap := remap;
    TokenPassEffect(l0, lines[..], tokenRemap, used0, used);
    assert lines[..] == FixLines(l0, tokenRemap);
    secs := ParseSections(lines[..]);
    SectionIdsWithin(secs, lines[..], used);
  }

  /** The invalid-header pass, then a fresh parse. */
  method HeaderPass(lines: array<Line>, secs0: seq<Section>, used0: set<int>)
    returns (changes: nat, used: set<int>, secs: seq<Section>, ghost headerRemap: map<int, int>)
    requires Parsed(secs0, lines[..])
    requires forall q :: 0 <= q < |secs0| ==> secs0[q].fileId in used0
    modifies lines
    ensures headerRemap.Keys == InvalidHeaderIds(secs0)
    ensures FreshImages(headerRemap, used0) && Injective(headerRemap)
    ensures lines[..] == RemapLines(old(lines[..]), headerRemap)
    ensures used == used0 + headerRemap.Values
    ensures SameShape(old(lines[..]), lines[..]) && Parsed(secs, lines[..])
    ensures forall q :: 0 <= q < |secs| ==> secs[q].fileId in used
    ensures changes == 0 ==> lines[..] == old(lines[..])
  {
    ghost var l1 := lines[..];
    ParsedAnchorsWithin(secs0, l1, used0);
    var remap;
    changes, remap, used := SanitizeInvalidSectionHeaders(lines, secs0, used0);
    headerRemap := remap;
    InvalidHeaderCountZero(secs0);
    HeaderIdPassEffect(l1, lines[..], headerRemap, used0, used);
    assert lines[..] == RemapLines(l1, headerRemap);
    secs := ParseSections(lines[..]);
    SectionIdsWithin(secs, lines[..], used);
  }

  /** The duplicate-header pass over the sections just parsed. */
  method DedupPass(lines: array<Line>, secs: seq<Section>, used0: set<int>)
    returns (changes: nat, used: set<int>, ghost renumbered: map<nat, int>)
    requires Parsed(secs, lines[..])
    requires forall q :: 0 <= q < |secs| ==> secs[q].fileId in used0
    modifies lines
    ensures forall q :: q in renumbered <==> 0 <= q < |secs| && secs[q].fileId in IdsOf(secs[..q])
    ensures FreshImages(renumbered, used0) && Injective(renumbered)
    ensures DedupLines(lines[..], old(lines[..]), secs, renumbered)
    ensures used == used0 + renumbered.Values
    ensures SameShape(old(lines[..]), lines[..])
    ensures forall q :: 0 <= q < |secs| ==> secs[q].fileId in used
    ensures changes == 0 ==> lines[..] == old(lines[..])
  {
    ghost var l2 := lines[..];
    changes, used, renumbered := SanitizeDuplicateSectionHeaders(lines, secs, used0);
    if changes == 0 {
      NothingRenumbered(secs, renumbered);
    }
    DedupPassEffect(l2, lines[..], secs, renumbered);
  }

  /**
   * The three sanitize passes of the repair, each on freshly parsed sections:
   * bad `fileID:` tokens, invalid header ids, duplicated header ids. Returns
   * their total count of changes, the ids now in use, and the sections parsed
   * before the duplicate-header pass.
   */
  method SanitizePasses(lines: array<Line>, secs0: seq<Section>)
    returns (sanitized: nat, used: set<int>, secs: seq<Section>, ghost steps: SanitizeSteps)
    requires Parsed(secs0, lines[..])
    modifies lines
    ensures SanitizedBy(old(lines[..]), lines[..], steps, used) && steps.parsed0 == secs0 && secs == steps.headerSecs
    ensures HeaderIdsDistinct(secs, lines[..]) && Ordered(secs)
    ensures SameShape(old(lines[..]), lines[..])
    ensures forall q :: 0 <= q < |secs| ==> secs[q].fileId in used
    ensures sanitized == 0 ==> lines[..] == old(lines[..]) && BadCountIn(old(lines[..])) == 0
  {
    ghost var l0 := lines[..];
    var tokenChanges, headerChanges, dedupChanges;
    ghost var tokenRemap, headerRemap, renumbered;
    tokenChanges, used, secs, tokenRemap := TokenPass(lines, secs0);
    ghost var l1, secs1 := lines[..], secs;
    headerChanges, used, secs, headerRemap := HeaderPass(lines, secs, used);
    ghost var l2 := lines[..];
    ParsedIsOrdered(secs, l2);
    dedupChanges, used, renumbered := DedupPass(lines, secs, used);
    steps := SanitizeSteps(secs0, tokenRemap, l1, secs1, headerRemap, l2, secs, renumbered);
    assert SanitizedBy(l0, lines[..], steps, used);
    SanitizedAnchorsDistinct(l0, lines[..], steps, used);
    sanitized := tokenChanges + headerChanges + dedupChanges;
    SameShapeTrans(l0, l1, l2);
    SameShapeTrans(l0, l2, lines[..]);
  }

  /**
   * The repair of a scene held in `lines`: sanitize bad tokens, invalid and
   * then duplicated header ids, then give every later occurrence of a
   * duplicated GameObject id, and the sections it owns, fresh ids.
   */
  method FixSceneLines(lines: array<Line>)
    returns (outcome: FixOutcome, ghost steps: SanitizeSteps, ghost sanitizedLines: seq<Line>,
             ghost parsed: seq<Section>, ghost usedBefore: set<int>, ghost usedAfter: set<int>)
    modifies lines
    ensures outcome.NoSections? <==> forall i :: 0 <= i < lines.Length ==> !IsHeader(old(lines[i]))
    ensures outcome.NoSections? || outcome.NothingToFix? ==> lines[..] == old(lines[..])
    ensures outcome.NothingToFix? ==> BadCountIn(old(lines[..])) == 0
    ensures !outcome.NoChangesNeeded?
    ensures outcome.Applied? ==> outcome.totalChanges > 0
    ensures SameShape(old(lines[..]), lines[..])
    ensures outcome.Applied? ==>
      SanitizedBy(old(lines[..]), sanitizedLines, steps, usedBefore) && parsed == steps.headerSecs
    ensures outcome.Applied? ==>
      SameShape(old(lines[..]), sanitizedLines) && HeaderIdsDistinct(parsed, sanitizedLines) && Ordered(parsed)
      && IdsIn(parsed, usedBefore)
    ensures outcome.Applied? ==>
      GroupLoopState(sanitizedLines, lines[..], parsed, GoGroups(parsed), |GoGroups(parsed)|, usedBefore, usedAfter)
    ensures outcome.Applied? ==> FirstOccurrencesKept(sanitizedLines, lines[..], parsed)
  {
    ghost var l0 := lines[..];
    steps := SanitizeSteps([], map[], [], [], map[], [], [], map[]);
    sanitizedLines, parsed, usedBefore, usedAfter := l0, [], {}, {};
    var secs := ParseSections(lines[..]);
    if secs == [] {
      outcome := NoSections;
      return;
    }
    assert IsHeader(l0[secs[0].start]);

    var sanitized, used;
    sanitized, used, secs, steps := SanitizePasses(lines, secs);
    var groups := BuildGoGroups(secs);
    if groups == [] && sanitized == 0 {
      outcome := NothingToFix;
      return;
    }

    ghost var l3 := lines[..];
    var total, usedNow := FixGroups(lines, secs, groups, used);
    SameShapeTrans(l0, l3, lines[..]);
    sanitizedLines, parsed, usedBefore, usedAfter := l3, secs, used, usedNow;
    total := total + sanitized;
    if total == 0 {
      outcome := NoChangesNeeded;
      return;
    }
    outcome := Applied(total);
  }
}
