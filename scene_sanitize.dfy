/**
 * The three sanitising passes of the scene repair tool: invalid `fileID:`
 * tokens, invalid header ids, and duplicate header ids.
 */
module SceneSanitize {
  import opened DecimalText
  import opened SceneYaml
  import opened SceneRewrite

  const INT32_MIN: int := -2147483648
  const INT32_MAX: int := 2147483647
  const INT64_MAX: int := 9223372036854775807

  function Abs(x: int): nat {
    if x < 0 then -x else x
  }

  /** An id that overflows 64 bits or lies outside the 32-bit range. */
  predicate IsInvalidId(v: int) {
    Abs(v) > INT64_MAX || v < INT32_MIN || v > INT32_MAX
  }

  /** The 64-bit test is subsumed: an id is invalid exactly when it is outside the 32-bit range. */
  lemma InvalidIdIsOutside32Bits(v: int)
    ensures IsInvalidId(v) <==> v < INT32_MIN || v > INT32_MAX
  {
  }

  /** A token needs fixing when letters follow its digits or its value is invalid. */
  predicate NeedsFix(num: Numeral, suffix: Letters) {
    suffix != "" || IsInvalidId(ValueOf(num))
  }

  predicate IsBadToken(p: Piece) {
    p.FileRef? && NeedsFix(p.num, p.suffix)
  }

  /** The text of a token after `fileID:`: the key under which its replacement id is remembered. */
  function TokenKey(p: Piece): string
    requires p.FileRef?
  {
    p.num + p.suffix
  }

  /** A bad token whose key has an id in `remap` becomes `fileID: <that id>`, suffix dropped. */
  function FixPiece(p: Piece, remap: map<string, int>): Piece {
    if IsBadToken(p) && TokenKey(p) in remap then FileRef(Decimal(remap[TokenKey(p)]), "") else p
  }

  function FixLine(l: Line, remap: map<string, int>): Line {
    Line(l.kind, seq(|l.pieces|, j requires 0 <= j < |l.pieces| => FixPiece(l.pieces[j], remap)))
  }

  function BadKeys(ps: seq<Piece>): set<string> {
    if ps == [] then {}
    else BadKeys(ps[..|ps| - 1]) + (if IsBadToken(ps[|ps| - 1]) then {TokenKey(ps[|ps| - 1])} else {})
  }

  function BadCount(ps: seq<Piece>): nat {
    if ps == [] then 0 else BadCount(ps[..|ps| - 1]) + (if IsBadToken(ps[|ps| - 1]) then 1 else 0)
  }

  function BadKeysIn(ls: seq<Line>): set<string> {
    if ls == [] then {} else BadKeysIn(ls[..|ls| - 1]) + BadKeys(ls[|ls| - 1].pieces)
  }

  function BadCountIn(ls: seq<Line>): nat {
    if ls == [] then 0 else BadCountIn(ls[..|ls| - 1]) + BadCount(ls[|ls| - 1].pieces)
  }

  ghost predicate Injective<K>(m: map<K, int>) {
    forall a, b :: a in m && b in m && a != b ==> m[a] != m[b]
  }

  /** Every image of `m` was allocated fresh: at or above the base and outside `used`. */
  ghost predicate FreshImages<K>(m: map<K, int>, used: set<int>) {
    forall k :: k in m ==> m[k] !in used && m[k] >= FreshIdBase
  }

  /** Adding a fresh key adds its image to the values. */
  lemma MapValuesAdd<K>(m: map<K, int>, k: K, v: int)
    requires k !in m
    ensures m[k := v].Values == m.Values + {v}
  {
    var m2 := m[k := v];
    forall x | x in m.Values ensures x in m2.Values {
      var y :| y in m && m[y] == x;
      assert m2[y] == x;
    }
    assert m2[k] == v;
  }

  /** Giving a new key a fresh id keeps the images fresh and distinct, and puts the id in use. */
  lemma FreshAdd<K>(m: map<K, int>, k: K, v: int, used0: set<int>)
    requires k !in m && FreshImages(m, used0) && Injective(m)
    requires v !in used0 + m.Values && v >= FreshIdBase
    ensures FreshImages(m[k := v], used0) && Injective(m[k := v])
    ensures used0 + m.Values + {v} == used0 + m[k := v].Values
  {
    MapValuesAdd(m, k, v);
    assert forall b :: b in m ==> m[b] in m.Values;
  }

  lemma {:induction false} BadKeysHas(ps: seq<Piece>, j: int)
    requires 0 <= j < |ps| && IsBadToken(ps[j])
    ensures TokenKey(ps[j]) in BadKeys(ps)
  {
    if j < |ps| - 1 {
      assert ps[..|ps| - 1][j] == ps[j];
      BadKeysHas(ps[..|ps| - 1], j);
    }
  }

  lemma {:induction false} BadKeysInHas(ls: seq<Line>, i: int)
    requires 0 <= i < |ls|
    ensures BadKeys(ls[i].pieces) <= BadKeysIn(ls)
  {
    if i < |ls| - 1 {
      assert ls[..|ls| - 1][i] == ls[i];
      BadKeysInHas(ls[..|ls| - 1], i);
    }
  }

  /** Growing the map does not change how a line is fixed once all its bad keys are mapped. */
  lemma FixLineStable(l: Line, r: map<string, int>, r2: map<string, int>)
    requires BadKeys(l.pieces) <= r.Keys
    requires forall k :: k in r ==> k in r2 && r2[k] == r[k]
    ensures FixLine(l, r) == FixLine(l, r2)
  {
    forall j | 0 <= j < |l.pieces| && IsBadToken(l.pieces[j]) ensures TokenKey(l.pieces[j]) in r {
      BadKeysHas(l.pieces, j);
    }
  }

  lemma FixPiecesStable(ps: seq<Piece>, r: map<string, int>, r2: map<string, int>)
    requires BadKeys(ps) <= r.Keys
    requires forall k :: k in r ==> k in r2 && r2[k] == r[k]
    ensures forall i :: 0 <= i < |ps| ==> FixPiece(ps[i], r) == FixPiece(ps[i], r2)
  {
    forall i | 0 <= i < |ps| && IsBadToken(ps[i]) ensures TokenKey(ps[i]) in r {
      BadKeysHas(ps, i);
    }
  }

  /** Identical bad tokens are given identical new ids; distinct ones distinct ids. */
  lemma FixPieceConsistent(p: Piece, q: Piece, remap: map<string, int>)
    requires IsBadToken(p) && IsBadToken(q) && TokenKey(p) in remap && TokenKey(q) in remap
    requires Injective(remap)
    ensures FixPiece(p, remap) == FixPiece(q, remap) <==> TokenKey(p) == TokenKey(q)
  {
    DecimalInjective(remap[TokenKey(p)], remap[TokenKey(q)]);
  }

  /**
   * A fixed line holds no bad token when every replacement id is within the
   * 32-bit range.
   */
  lemma FixedLineIsClean(l: Line, remap: map<string, int>, j: int)
    requires BadKeys(l.pieces) <= remap.Keys
    requires forall k :: k in remap ==> INT32_MIN <= remap[k] <= INT32_MAX
    requires 0 <= j < |l.pieces|
    ensures !IsBadToken(FixLine(l, remap).pieces[j])
  {
    var p := l.pieces[j];
    if IsBadToken(p) {
      BadKeysHas(l.pieces, j);
      ValueOfDecimal(remap[TokenKey(p)]);
    }
  }

  /**
   * The id remembered for `key`; the first time a key is seen the next free id
   * is allocated for it and recorded as used.
   */
  method IdFor<K>(key: K, remap: map<K, int>, used: set<int>)
    returns (id: int, remapAfter: map<K, int>, usedAfter: set<int>)
    requires remap.Values <= used && Injective(remap)
    ensures key in remap ==> id == remap[key] && remapAfter == remap
    ensures key !in remap ==> id !in used && id >= FreshIdBase && remapAfter == remap[key := id]
    ensures remapAfter.Values == remap.Values + {id} && usedAfter == used + {id}
    ensures Injective(remapAfter)
  {
    if key in remap {
      id, remapAfter, usedAfter := remap[key], remap, used;
    } else {
      id, usedAfter := NextFreeId(used);
      remapAfter := remap[key := id];
      MapValuesAdd(remap, key, id);
    }
  }

  /**
   * After the first `j` pieces of `ps`: `out` holds them fixed, `remap` has
   * grown from `remap0` by fresh ids for their bad keys, `used` records those
   * ids, and `count` is the number of bad tokens seen.
   */
  ghost predicate LineFixState(ps: seq<Piece>, j: nat, remap0: map<string, int>, used0: set<int>,
                               out: seq<Piece>, remap: map<string, int>, used: set<int>, count: nat) {
    LineFixMap(ps, j, remap0, used0, remap, used) && LineFixOut(ps, j, out, remap, count)
  }

  ghost predicate LineFixMap(ps: seq<Piece>, j: nat, remap0: map<string, int>, used0: set<int>,
                             remap: map<string, int>, used: set<int>) {
    && j <= |ps|
    && remap.Keys == remap0.Keys + BadKeys(ps[..j])
    && (forall k :: k in remap0 ==> remap[k] == remap0[k])
    && (forall k :: k in remap && k !in remap0 ==> remap[k] !in used0 && remap[k] >= FreshIdBase)
    && Injective(remap)
    && used == used0 + remap.Values
  }

  ghost predicate LineFixOut(ps: seq<Piece>, j: nat, out: seq<Piece>, remap: map<string, int>, count: nat) {
    && j <= |ps|
    && |out| == j && (forall i :: 0 <= i < j ==> out[i] == FixPiece(ps[i], remap))
    && count == BadCount(ps[..j])
  }

  lemma LineFixBadStep(ps: seq<Piece>, j: nat, remap0: map<string, int>, used0: set<int>,
                       out: seq<Piece>, remap: map<string, int>, used: set<int>, count: nat,
                       id: int, remap2: map<string, int>, used2: set<int>)
    requires remap0.Values <= used0
    requires LineFixState(ps, j, remap0, used0, out, remap, used, count)
    requires j < |ps| && IsBadToken(ps[j])
    requires TokenKey(ps[j]) in remap ==> id == remap[TokenKey(ps[j])] && remap2 == remap
    requires TokenKey(ps[j]) !in remap ==> id !in used && id >= FreshIdBase && remap2 == remap[TokenKey(ps[j]) := id]
    requires remap2.Values == remap.Values + {id} && used2 == used + {id}
    requires Injective(remap2)
    ensures LineFixState(ps, j + 1, remap0, used0, out + [FileRef(Decimal(id), "")], remap2, used2, count + 1)
  {
    assert ps[..j + 1] == ps[..j] + [ps[j]];
    LineFixMapBadStep(ps, j, remap0, used0, remap, used, id, remap2, used2);
    LineFixOutBadStep(ps, j, out, remap, count, id, remap2);
  }

  lemma LineFixMapBadStep(ps: seq<Piece>, j: nat, remap0: map<string, int>, used0: set<int>,
                          remap: map<string, int>, used: set<int>,
                          id: int, remap2: map<string, int>, used2: set<int>)
    requires remap0.Values <= used0
    requires LineFixMap(ps, j, remap0, used0, remap, used)
    requires j < |ps| && IsBadToken(ps[j]) && ps[..j + 1] == ps[..j] + [ps[j]]
    requires TokenKey(ps[j]) in remap ==> id == remap[TokenKey(ps[j])] && remap2 == remap
    requires TokenKey(ps[j]) !in remap ==> id !in used && id >= FreshIdBase && remap2 == remap[TokenKey(ps[j]) := id]
    requires remap2.Values == remap.Values + {id} && used2 == used + {id}
    requires Injective(remap2)
    ensures LineFixMap(ps, j + 1, remap0, used0, remap2, used2)
  {
    var key := TokenKey(ps[j]);
    assert (ps[..j] + [ps[j]])[..j] == ps[..j];
    assert BadKeys(ps[..j + 1]) == BadKeys(ps[..j]) + {key};
    if key !in remap {
      assert key !in remap0;
      assert remap2.Keys == remap.Keys + {key};
    }
  }

  lemma LineFixOutBadStep(ps: seq<Piece>, j: nat, out: seq<Piece>, remap: map<string, int>, count: nat,
                          id: int, remap2: map<string, int>)
    requires LineFixOut(ps, j, out, remap, count) && BadKeys(ps[..j]) <= remap.Keys
    requires j < |ps| && IsBadToken(ps[j]) && ps[..j + 1] == ps[..j] + [ps[j]]
    requires forall k :: k in remap ==> k in remap2 && remap2[k] == remap[k]
    requires TokenKey(ps[j]) in remap2 && remap2[TokenKey(ps[j])] == id
    ensures LineFixOut(ps, j + 1, out + [FileRef(Decimal(id), "")], remap2, count + 1)
  {
    FixPiecesStable(ps[..j], remap, remap2);
    assert forall i :: 0 <= i < j ==> ps[..j][i] == ps[i];
  }

  lemma LineFixGoodStep(ps: seq<Piece>, j: nat, remap0: map<string, int>, used0: set<int>,
                        out: seq<Piece>, remap: map<string, int>, used: set<int>, count: nat)
    requires LineFixState(ps, j, remap0, used0, out, remap, used, count)
    requires j < |ps| && !IsBadToken(ps[j])
    ensures LineFixState(ps, j + 1, remap0, used0, out + [ps[j]], remap, used, count)
  {
    assert ps[..j + 1][..j] == ps[..j];
  }

  /** One call of `re.sub` with the `_sub` callback of `sanitize_invalid_fileids` on one line. */
  method SanitizeLine(line: Line, remap: map<string, int>, used: set<int>)
    returns (fixedLine: Line, remapAfter: map<string, int>, usedAfter: set<int>, count: nat)
    requires remap.Values <= used && Injective(remap)
    ensures remapAfter.Keys == remap.Keys + BadKeys(line.pieces)
    ensures forall k :: k in remap ==> remapAfter[k] == remap[k]
    ensures forall k :: k in remapAfter && k !in remap ==> remapAfter[k] !in used && remapAfter[k] >= FreshIdBase
    ensures Injective(remapAfter)
    ensures usedAfter == used + remapAfter.Values
    ensures fixedLine == FixLine(line, remapAfter)
    ensures count == BadCount(line.pieces)
  {
    var ps := line.pieces;
    var out: seq<Piece> := [];
    remapAfter, usedAfter, count := remap, used, 0;
    for j := 0 to |ps|
      invariant LineFixState(ps, j, remap, used, out, remapAfter, usedAfter, count)
    {
      var p := ps[j];
      if p.FileRef? && NeedsFix(p.num, p.suffix) {
        var id, remap2, used2 := IdFor(p.num + p.suffix, remapAfter, usedAfter);
        LineFixBadStep(ps, j, remap, used, out, remapAfter, usedAfter, count, id, remap2, used2);
        out, remapAfter, usedAfter, count := out + [FileRef(Decimal(id), "")], remap2, used2, count + 1;
      } else {
        LineFixGoodStep(ps, j, remap, used, out, remapAfter, usedAfter, count);
        out := out + [p];
      }
    }
    LineFixDone(line, remap, used, out, remapAfter, usedAfter, count);
    fixedLine := Line(line.kind, out);
  }

  lemma LineFixDone(line: Line, remap0: map<string, int>, used0: set<int>,
                    out: seq<Piece>, remap: map<string, int>, used: set<int>, count: nat)
    requires LineFixState(line.pieces, |line.pieces|, remap0, used0, out, remap, used, count)
    ensures remap.Keys == remap0.Keys + BadKeys(line.pieces)
    ensures Line(line.kind, out) == FixLine(line, remap)
    ensures count == BadCount(line.pieces)
  {
    assert line.pieces[..|line.pieces|] == line.pieces;
  }

  /** The first `i` lines of `before` are fixed by `remap` in `cur`, the rest are as they were. */
  ghost predicate FixedUpTo(cur: seq<Line>, before: seq<Line>, i: nat, remap: map<string, int>) {
    && |cur| == |before| && i <= |before|
    && forall k :: 0 <= k < |cur| ==> cur[k] == if k < i then FixLine(before[k], remap) else before[k]
  }

  lemma FixedStep(cur: seq<Line>, before: seq<Line>, i: nat, remap: map<string, int>, remap2: map<string, int>)
    requires FixedUpTo(cur, before, i, remap) && i < |before|
    requires BadKeysIn(before[..i]) <= remap.Keys
    requires forall k :: k in remap ==> k in remap2 && remap2[k] == remap[k]
    ensures FixedUpTo(cur[i := FixLine(before[i], remap2)], before, i + 1, remap2)
    ensures BadKeysIn(before[..i + 1]) == BadKeysIn(before[..i]) + BadKeys(before[i].pieces)
    ensures BadCountIn(before[..i + 1]) == BadCountIn(before[..i]) + BadCount(before[i].pieces)
  {
    assert before[..i + 1][..i] == before[..i];
    FixPrefixStable(before[..i], remap, remap2);
    assert forall k :: 0 <= k < i ==> before[..i][k] == before[k];
  }

  method SanitizeInvalidFileIds(lines: array<Line>, used: set<int>)
    returns (total: nat, remap: map<string, int>, usedAfter: set<int>)
    modifies lines
    ensures remap.Keys == BadKeysIn(old(lines[..]))
    ensures forall i :: 0 <= i < lines.Length ==> lines[i] == FixLine(old(lines[i]), remap)
    ensures FreshImages(remap, used) && Injective(remap)
    ensures usedAfter == used + remap.Values
    ensures total == BadCountIn(old(lines[..]))
  {
    ghost var before := lines[..];
    total, remap, usedAfter := 0, map[], used;
    for i := 0 to lines.Length
      invariant remap.Keys == BadKeysIn(before[..i])
      invariant FixedUpTo(lines[..], before, i, remap)
      invariant FreshImages(remap, used) && Injective(remap)
      invariant usedAfter == used + remap.Values
      invariant total == BadCountIn(before[..i])
    {
      var remapBefore := remap;
      var newLine, count;
      newLine, remap, usedAfter, count := SanitizeLine(lines[i], remap, usedAfter);
      FixedStep(lines[..], before, i, remapBefore, remap);
      lines[i] := newLine;
      total := total + count;
    }
    assert before[..lines.Length] == before;
  }

  lemma FixPrefixStable(ls: seq<Line>, r: map<string, int>, r2: map<string, int>)
    requires BadKeysIn(ls) <= r.Keys
    requires forall k :: k in r ==> k in r2 && r2[k] == r[k]
    ensures forall k :: 0 <= k < |ls| ==> FixLine(ls[k], r) == FixLine(ls[k], r2)
  {
    forall k | 0 <= k < |ls| ensures FixLine(ls[k], r) == FixLine(ls[k], r2) {
      BadKeysInHas(ls, k);
      FixLineStable(ls[k], r, r2);
    }
  }

  /** A bad token left unfixed means the pass found none: a pass that fixed nothing changed nothing. */
  lemma {:induction false} NoBadTokensNoChange(ls: seq<Line>, remap: map<string, int>, i: int)
    requires BadCountIn(ls) == 0 && 0 <= i < |ls|
    ensures FixLine(ls[i], remap) == ls[i]
  {
    if i < |ls| - 1 {
      assert ls[..|ls| - 1][i] == ls[i];
      NoBadTokensNoChange(ls[..|ls| - 1], remap, i);
    } else {
      forall j | 0 <= j < |ls[i].pieces| ensures !IsBadToken(ls[i].pieces[j]) {
        if IsBadToken(ls[i].pieces[j]) {
          BadCountPositive(ls[i].pieces, j);
        }
      }
    }
  }

  lemma {:induction false} BadCountPositive(ps: seq<Piece>, j: int)
    requires 0 <= j < |ps| && IsBadToken(ps[j])
    ensures BadCount(ps) > 0
  {
    if j < |ps| - 1 {
      assert ps[..|ps| - 1][j] == ps[j];
      BadCountPositive(ps[..|ps| - 1], j);
    }
  }

  // ---------------------------------------------------------------------------
  // Invalid header ids

  /** Tokens remapped by `m`, and a header anchor in `m` replaced by its image. */
  function RemapLine(l: Line, m: map<int, int>): Line {
    var t := RemapTokens(l, m);
    if IsHeader(l) && l.kind.anchor in m then WithAnchor(t, m[l.kind.anchor]) else t
  }

  function InvalidHeaderIds(secs: seq<Section>): set<int> {
    if secs == [] then {}
    else InvalidHeaderIds(secs[..|secs| - 1])
         + (if IsInvalidId(secs[|secs| - 1].fileId) then {secs[|secs| - 1].fileId} else {})
  }

  /** The ids `sanitize_invalid_section_headers` remaps are exactly the invalid header ids. */
  lemma {:induction false} InvalidHeaderIdsMembers(secs: seq<Section>, x: int)
    ensures x in InvalidHeaderIds(secs) <==> IsInvalidId(x) && exists q :: 0 <= q < |secs| && secs[q].fileId == x
  {
    if secs != [] {
      var init := secs[..|secs| - 1];
      InvalidHeaderIdsMembers(init, x);
      if exists q :: 0 <= q < |init| && init[q].fileId == x {
        var q :| 0 <= q < |init| && init[q].fileId == x;
        assert secs[q].fileId == x;
      }
      if exists q :: 0 <= q < |secs| && secs[q].fileId == x {
        var q :| 0 <= q < |secs| && secs[q].fileId == x;
        if q < |init| { assert init[q].fileId == x; }
      }
    }
  }

  function InvalidHeaderCount(secs: seq<Section>): nat {
    if secs == [] then 0
    else InvalidHeaderCount(secs[..|secs| - 1]) + (if IsInvalidId(secs[|secs| - 1].fileId) then 1 else 0)
  }

  /** The header pass reports no change exactly when no section id is invalid, that is when its remap is empty. */
  lemma {:induction false} InvalidHeaderCountZero(secs: seq<Section>)
    ensures InvalidHeaderCount(secs) == 0 <==> InvalidHeaderIds(secs) == {}
  {
    if secs != [] {
      InvalidHeaderCountZero(secs[..|secs| - 1]);
    }
  }

  lemma HeaderPrefixStep(secs: seq<Section>, k: nat)
    requires k < |secs|
    ensures InvalidHeaderIds(secs[..k + 1])
      == InvalidHeaderIds(secs[..k]) + (if IsInvalidId(secs[k].fileId) then {secs[k].fileId} else {})
    ensures InvalidHeaderCount(secs[..k + 1])
      == InvalidHeaderCount(secs[..k]) + (if IsInvalidId(secs[k].fileId) then 1 else 0)
  {
    assert secs[..k + 1][..k] == secs[..k];
    assert secs[..k + 1] == secs[..k] + [secs[k]];
  }

  /** Every line retargeted from `oldId` to `newId`. */
  function RetargetAll(ls: seq<Line>, oldId: int, newId: int): (r: seq<Line>)
    ensures |r| == |ls|
  {
    seq(|ls|, i requires 0 <= i < |ls| => RetargetLine(ls[i], oldId, newId))
  }

  /** Each section's header line carries the section's id as its anchor. */
  ghost predicate AnchorsMatch(secs: seq<Section>, before: seq<Line>) {
    forall q :: 0 <= q < |secs| ==> secs[q].start < |before| && IsHeader(before[secs[q].start]) && before[secs[q].start].kind.anchor == secs[q].fileId
  }

  /**
   * The state of the header pass after `k` sections: the tokens of every line
   * are remapped by `remap`, and so are the anchors of the first `k` headers.
   */
  ghost predicate HeaderPassState(cur: seq<Line>, before: seq<Line>, secs: seq<Section>, k: nat, remap: map<int, int>) {
    && |cur| == |before|
    && Framed(secs, before)
    && (forall q :: 0 <= q < |secs| ==>
          cur[secs[q].start] == if q < k then RemapLine(before[secs[q].start], remap)
                                else RemapTokens(before[secs[q].start], remap))
    && (forall i :: 0 <= i < |cur| && !IsHeader(before[i]) ==> cur[i] == RemapTokens(before[i], remap))
  }

  lemma RetargetWithAnchor(t: Line, a: int, oldId: int, newId: int)
    requires IsHeader(t)
    ensures RetargetLine(WithAnchor(t, a), oldId, newId) == WithAnchor(RetargetLine(t, oldId, newId), a)
  {
  }

  /**
   * One step of the header pass: giving the header of section `k` the id
   * `newId` and retargeting every token of value `oldId` to `newId` extends
   * the map by `oldId -> newId`.
   */
  lemma InvalidHeaderStep(cur: seq<Line>, before: seq<Line>, secs: seq<Section>, k: nat,
                          remap: map<int, int>, newId: int)
    requires Ordered(secs) && HeaderPassState(cur, before, secs, k, remap)
    requires k < |secs| && IsInvalidId(secs[k].fileId) && IsHeader(before[secs[k].start])
    requires before[secs[k].start].kind.anchor == secs[k].fileId
    requires secs[k].fileId !in remap.Values
    requires secs[k].fileId in remap ==> remap[secs[k].fileId] == newId
    requires forall q :: 0 <= q < k && IsInvalidId(secs[q].fileId) ==> secs[q].fileId in remap
    requires AnchorsMatch(secs, before)
    ensures IsHeader(cur[secs[k].start])
    ensures HeaderPassState(RetargetAll(cur[secs[k].start := WithAnchor(cur[secs[k].start], newId)], secs[k].fileId, newId),
                            before, secs, k + 1, remap[secs[k].fileId := newId])
  {
    var oldId, m := secs[k].fileId, remap[secs[k].fileId := newId];
    var sk := secs[k].start;
    assert cur[sk] == RemapTokens(before[sk], remap);
    var after := cur[sk := WithAnchor(cur[sk], newId)];
    var res := RetargetAll(after, oldId, newId);
    forall q | 0 <= q < |secs|
      ensures res[secs[q].start] == if q < k + 1 then RemapLine(before[secs[q].start], m)
                                    else RemapTokens(before[secs[q].start], m)
    {
      var b := before[secs[q].start];
      RetargetAfterRemap(b, remap, oldId, newId);
      if q == k {
        RetargetWithAnchor(cur[sk], newId, oldId, newId);
      } else {
        assert secs[q].start != sk by {
          if q < k { assert secs[q].end <= sk; } else { assert secs[k].end <= secs[q].start; }
        }
        if q < k && b.kind.anchor in remap {
          RetargetWithAnchor(RemapTokens(b, remap), remap[b.kind.anchor], oldId, newId);
        }
      }
    }
    forall i | 0 <= i < |cur| && !IsHeader(before[i]) ensures res[i] == RemapTokens(before[i], m) {
      RetargetAfterRemap(before[i], remap, oldId, newId);
    }
  }

  /**
   * The body of the header pass for an invalid header: its anchor becomes
   * `newId`, then every token of the old id anywhere in the file is retargeted.
   */
  method RemapInvalidHeader(lines: array<Line>, ghost before: seq<Line>, secs: seq<Section>, k: nat,
                            ghost remap: map<int, int>, newId: int)
    requires Ordered(secs) && HeaderPassState(lines[..], before, secs, k, remap)
    requires k < |secs| && IsInvalidId(secs[k].fileId) && IsHeader(before[secs[k].start])
    requires before[secs[k].start].kind.anchor == secs[k].fileId
    requires secs[k].fileId !in remap.Values
    requires secs[k].fileId in remap ==> remap[secs[k].fileId] == newId
    requires forall q :: 0 <= q < k && IsInvalidId(secs[q].fileId) ==> secs[q].fileId in remap
    requires AnchorsMatch(secs, before)
    modifies lines
    ensures HeaderPassState(lines[..], before, secs, k + 1, remap[secs[k].fileId := newId])
  {
    InvalidHeaderStep(lines[..], before, secs, k, remap, newId);
    HeaderReplaceFileId(lines, secs[k], newId);
    ghost var mid := lines[..];
    var _ := ReplaceFileIdGlobally(lines, secs[k].fileId, newId);
    assert lines[..] == RetargetAll(mid, secs[k].fileId, newId);
  }

  /** At the end of the header pass every line, header or not, is `RemapLine` of its original. */
  lemma HeaderPassDone(cur: seq<Line>, before: seq<Line>, secs: seq<Section>, remap: map<int, int>)
    requires Parsed(secs, before) && HeaderPassState(cur, before, secs, |secs|, remap)
    ensures forall i :: 0 <= i < |cur| ==> cur[i] == RemapLine(before[i], remap)
  {
    forall i | 0 <= i < |cur| ensures cur[i] == RemapLine(before[i], remap) {
      if IsHeader(before[i]) {
        var q := HeaderStartsSection(secs, before, i);
      }
    }
  }

  /** The invariant of the header pass after `k` sections. */
  ghost predicate HeaderPassInv(cur: seq<Line>, before: seq<Line>, secs: seq<Section>, k: nat, used0: set<int>,
                                remap: map<int, int>, used: set<int>, numChanges: nat) {
    && k <= |secs|
    && remap.Keys == InvalidHeaderIds(secs[..k])
    && FreshImages(remap, used0) && Injective(remap)
    && used == used0 + remap.Values
    && numChanges == InvalidHeaderCount(secs[..k])
    && HeaderPassState(cur, before, secs, k, remap)
  }

  lemma HeaderPassFacts(cur: seq<Line>, before: seq<Line>, secs: seq<Section>, k: nat, used0: set<int>,
                        remap: map<int, int>, used: set<int>, numChanges: nat)
    requires HeaderPassInv(cur, before, secs, k, used0, remap, used, numChanges) && k < |secs|
    requires forall q :: 0 <= q < |secs| ==> secs[q].fileId in used0
    ensures secs[k].fileId !in remap.Values && remap.Values <= used
    ensures forall q :: 0 <= q < k && IsInvalidId(secs[q].fileId) ==> secs[q].fileId in remap
    ensures !IsInvalidId(secs[k].fileId) ==> secs[k].fileId !in remap
  {
    forall q | 0 <= q < k && IsInvalidId(secs[q].fileId) ensures secs[q].fileId in remap {
      assert secs[..k][q] == secs[q];
      InvalidHeaderIdsMembers(secs[..k], secs[q].fileId);
    }
    InvalidHeaderIdsMembers(secs[..k], secs[k].fileId);
  }

  lemma HeaderPassValidStep(cur: seq<Line>, before: seq<Line>, secs: seq<Section>, k: nat, used0: set<int>,
                            remap: map<int, int>, used: set<int>, numChanges: nat)
    requires HeaderPassInv(cur, before, secs, k, used0, remap, used, numChanges) && k < |secs|
    requires !IsInvalidId(secs[k].fileId) && secs[k].fileId !in remap
    requires AnchorsMatch(secs, before)
    ensures HeaderPassInv(cur, before, secs, k + 1, used0, remap, used, numChanges)
  {
    HeaderPrefixStep(secs, k);
  }

  lemma HeaderPassInvalidStep(cur: seq<Line>, cur2: seq<Line>, before: seq<Line>, secs: seq<Section>, k: nat,
                              used0: set<int>, remap: map<int, int>, used: set<int>, numChanges: nat,
                              id: int, remap2: map<int, int>, used2: set<int>)
    requires HeaderPassInv(cur, before, secs, k, used0, remap, used, numChanges) && k < |secs|
    requires IsInvalidId(secs[k].fileId) && remap.Values <= used
    requires secs[k].fileId in remap ==> id == remap[secs[k].fileId] && remap2 == remap
    requires secs[k].fileId !in remap ==> id !in used && id >= FreshIdBase && remap2 == remap[secs[k].fileId := id]
    requires remap2.Values == remap.Values + {id} && used2 == used + {id}
    requires Injective(remap2)
    requires HeaderPassState(cur2, before, secs, k + 1, remap[secs[k].fileId := id])
    ensures HeaderPassInv(cur2, before, secs, k + 1, used0, remap2, used2, numChanges + 1)
  {
    HeaderPrefixStep(secs, k);
    assert remap2 == remap[secs[k].fileId := id];
  }

  /** One iteration of the header pass: section `k`'s header is fixed if its id is invalid. */
  method HeaderPassStep(lines: array<Line>, ghost before: seq<Line>, secs: seq<Section>, k: nat, ghost used0: set<int>,
                        remap: map<int, int>, used: set<int>, numChanges: nat)
    returns (numChanges2: nat, remap2: map<int, int>, used2: set<int>)
    requires HeaderPassInv(lines[..], before, secs, k, used0, remap, used, numChanges) && k < |secs|
    requires Ordered(secs) && AnchorsMatch(secs, before)
    requires forall q :: 0 <= q < |secs| ==> secs[q].fileId in used0
    modifies lines
    ensures HeaderPassInv(lines[..], before, secs, k + 1, used0, remap2, used2, numChanges2)
  {
    var oldId := secs[k].fileId;
    HeaderPassFacts(lines[..], before, secs, k, used0, remap, used, numChanges);
    if Abs(oldId) > INT64_MAX || oldId < INT32_MIN || oldId > INT32_MAX {
      var newId;
      newId, remap2, used2 := IdFor(oldId, remap, used);
      ghost var cur := lines[..];
      RemapInvalidHeader(lines, before, secs, k, remap, newId);
      HeaderPassInvalidStep(cur, lines[..], before, secs, k, used0, remap, used, numChanges, newId, remap2, used2);
      numChanges2 := numChanges + 1;
    } else {
      HeaderPassValidStep(lines[..], before, secs, k, used0, remap, used, numChanges);
      numChanges2, remap2, used2 := numChanges, remap, used;
    }
  }

  method SanitizeInvalidSectionHeaders(lines: array<Line>, secs: seq<Section>, used: set<int>)
    returns (numChanges: nat, remap: map<int, int>, usedAfter: set<int>)
    requires Parsed(secs, lines[..])
    requires forall k :: 0 <= k < |secs| ==> secs[k].fileId in used
    modifies lines
    ensures remap.Keys == InvalidHeaderIds(secs)
    ensures FreshImages(remap, used) && Injective(remap)
    ensures usedAfter == used + remap.Values
    ensures numChanges == InvalidHeaderCount(secs)
    ensures forall i :: 0 <= i < lines.Length ==> lines[i] == RemapLine(old(lines[i]), remap)
  {
    ghost var before := lines[..];
    ParsedIsOrdered(secs, before);
    assert AnchorsMatch(secs, before);
    numChanges, remap, usedAfter := 0, map[], used;
    forall i | 0 <= i < |before| ensures RemapTokens(before[i], map[]) == before[i] {
      RemapTokensEmpty(before[i]);
    }
    for k := 0 to |secs|
      invariant HeaderPassInv(lines[..], before, secs, k, used, remap, usedAfter, numChanges)
    {
      numChanges, remap, usedAfter := HeaderPassStep(lines, before, secs, k, used, remap, usedAfter, numChanges);
    }
    assert secs[..|secs|] == secs;
    HeaderPassDone(lines[..], before, secs, remap);
  }

  // ---------------------------------------------------------------------------
  // Duplicate header ids

  /** The header ids of `secs`: the set `seen` grows into while scanning them. */
  function IdsOf(secs: seq<Section>): set<int> {
    if secs == [] then {} else IdsOf(secs[..|secs| - 1]) + {secs[|secs| - 1].fileId}
  }

  lemma {:induction false} IdsOfMembers(secs: seq<Section>, x: int)
    ensures x in IdsOf(secs) <==> exists q :: 0 <= q < |secs| && secs[q].fileId == x
  {
    if secs != [] {
      var init := secs[..|secs| - 1];
      IdsOfMembers(init, x);
      if exists q :: 0 <= q < |init| && init[q].fileId == x {
        var q :| 0 <= q < |init| && init[q].fileId == x;
        assert secs[q].fileId == x;
      }
      if exists q :: 0 <= q < |secs| && secs[q].fileId == x {
        var q :| 0 <= q < |secs| && secs[q].fileId == x;
        if q < |init| { assert init[q].fileId == x; }
      }
    }
  }

  /**
   * A line of a renumbered section: the header's anchor becomes `newId`, and
   * every token of value `oldId` becomes `newId`.
   */
  function Renumber(l: Line, isStart: bool, oldId: int, newId: int): Line {
    RetargetLine(if isStart && IsHeader(l) then WithAnchor(l, newId) else l, oldId, newId)
  }

  /**
   * As many distinct header ids as sections means no section repeats an
   * earlier id, so the duplicate-header pass then renumbers nothing.
   */
  lemma {:induction false} IdsOfAllDistinct(secs: seq<Section>, q: int)
    requires |IdsOf(secs)| == |secs| && 0 <= q < |secs|
    ensures secs[q].fileId !in IdsOf(secs[..q])
  {
    var init := secs[..|secs| - 1];
    IdsOfAtMost(init);
    if q < |init| {
      assert init[..q] == secs[..q];
      IdsOfAllDistinct(init, q);
    } else {
      assert init == secs[..q];
    }
  }

  lemma {:induction false} IdsOfAtMost(secs: seq<Section>)
    ensures |IdsOf(secs)| <= |secs|
  {
    if secs != [] {
      IdsOfAtMost(secs[..|secs| - 1]);
    }
  }

  /** Gives the section a new header id and retargets its own references to it, inside the section only. */
  method RenumberSection(lines: array<Line>, sec: Section, newId: int)
    requires sec.start < sec.end <= lines.Length && IsHeader(lines[sec.start])
    modifies lines
    ensures forall i :: 0 <= i < lines.Length ==>
      lines[i] == if sec.start <= i < sec.end then Renumber(old(lines[i]), i == sec.start, sec.fileId, newId)
                  else old(lines[i])
  {
    HeaderReplaceFileId(lines, sec, newId);
    ReplaceFileIdInRange(lines, sec.start, sec.end, sec.fileId, newId);
  }

  /**
   * The bookkeeping of the duplicate-header pass after `k` sections: `seen`
   * holds their ids, `renumbered` the fresh id given to each later duplicate
   * among them, and `changed` counts those duplicates.
   */
  ghost predicate DedupBook(secs: seq<Section>, k: nat, used0: set<int>, seen: set<int>,
                            renumbered: map<nat, int>, used: set<int>, changed: nat) {
    && k <= |secs|
    && seen == IdsOf(secs[..k])
    && (forall q :: q in renumbered ==> q < k)
    && (forall q :: 0 <= q < k ==> (q in renumbered <==> secs[q].fileId in IdsOf(secs[..q])))
    && FreshImages(renumbered, used0) && Injective(renumbered)
    && used == used0 + renumbered.Values
    && changed + |seen| == k
  }

  /** Exactly the sections in `renumbered` are renumbered; no other line has changed. */
  ghost predicate DedupLines(cur: seq<Line>, before: seq<Line>, secs: seq<Section>, renumbered: map<nat, int>) {
    && |cur| == |before|
    && Framed(secs, before) && Ordered(secs)
    && (forall q, i :: 0 <= q < |secs| && secs[q].start <= i < secs[q].end ==>
          cur[i] == if q in renumbered then Renumber(before[i], i == secs[q].start, secs[q].fileId, renumbered[q])
                    else before[i])
    && (forall i :: 0 <= i < |cur| && (|secs| == 0 || i < secs[0].start) ==> cur[i] == before[i])
  }

  lemma DedupKeepStep(secs: seq<Section>, k: nat, used0: set<int>, seen: set<int>,
                      renumbered: map<nat, int>, used: set<int>, changed: nat)
    requires DedupBook(secs, k, used0, seen, renumbered, used, changed)
    requires k < |secs| && secs[k].fileId !in seen
    ensures DedupBook(secs, k + 1, used0, seen + {secs[k].fileId}, renumbered, used, changed)
  {
    assert secs[..k + 1][..k] == secs[..k];
  }

  lemma DedupRenumberStep(secs: seq<Section>, k: nat, used0: set<int>, seen: set<int>,
                          renumbered: map<nat, int>, used: set<int>, changed: nat, newId: int)
    requires DedupBook(secs, k, used0, seen, renumbered, used, changed)
    requires k < |secs| && secs[k].fileId in seen
    requires newId !in used && newId >= FreshIdBase
    ensures k !in renumbered
    ensures DedupBook(secs, k + 1, used0, seen, renumbered[k := newId], used + {newId}, changed + 1)
  {
    assert secs[..k + 1][..k] == secs[..k];
    FreshAdd(renumbered, k, newId, used0);
  }

  lemma DedupLinesStep(cur: seq<Line>, cur2: seq<Line>, before: seq<Line>, secs: seq<Section>,
                       renumbered: map<nat, int>, k: nat, newId: int)
    requires DedupLines(cur, before, secs, renumbered)
    requires k < |secs| && k !in renumbered
    requires |cur2| == |cur|
    requires forall i :: 0 <= i < |cur| ==>
      cur2[i] == if secs[k].start <= i < secs[k].end then Renumber(cur[i], i == secs[k].start, secs[k].fileId, newId)
                 else cur[i]
    ensures DedupLines(cur2, before, secs, renumbered[k := newId])
  {
    var r2 := renumbered[k := newId];
    forall q, i | 0 <= q < |secs| && secs[q].start <= i < secs[q].end
      ensures cur2[i] == if q in r2 then Renumber(before[i], i == secs[q].start, secs[q].fileId, r2[q]) else before[i]
    {
      if q != k {
        if q < k { assert secs[q].end <= secs[k].start; } else { assert secs[k].end <= secs[q].start; }
      }
    }
    forall i | 0 <= i < |cur2| && i < secs[0].start ensures cur2[i] == before[i] {
      if 0 < k { assert secs[0].end <= secs[k].start; }
    }
  }

  /** The body of the duplicate-header pass for a later duplicate: section `k` is renumbered to `newId`. */
  method RenumberDuplicate(lines: array<Line>, ghost before: seq<Line>, secs: seq<Section>,
                           ghost renumbered: map<nat, int>, k: nat, newId: int)
    requires DedupLines(lines[..], before, secs, renumbered)
    requires k < |secs| && k !in renumbered
    modifies lines
    ensures DedupLines(lines[..], before, secs, renumbered[k := newId])
  {
    ghost var cur := lines[..];
    RenumberSection(lines, secs[k], newId);
    DedupLinesStep(cur, lines[..], before, secs, renumbered, k, newId);
  }

  method SanitizeDuplicateSectionHeaders(lines: array<Line>, secs: seq<Section>, used: set<int>)
    returns (changed: nat, usedAfter: set<int>, ghost renumbered: map<nat, int>)
    requires Parsed(secs, lines[..])
    modifies lines
    ensures forall q :: q in renumbered <==> 0 <= q < |secs| && secs[q].fileId in IdsOf(secs[..q])
    ensures FreshImages(renumbered, used) && Injective(renumbered)
    ensures usedAfter == used + renumbered.Values
    ensures changed == |secs| - |IdsOf(secs)|
    ensures DedupLines(lines[..], old(lines[..]), secs, renumbered)
  {
    ghost var before := lines[..];
    ParsedIsOrdered(secs, before);
    var seen: set<int> := {};
    changed, usedAfter, renumbered := 0, used, map[];
    for k := 0 to |secs|
      invariant DedupBook(secs, k, used, seen, renumbered, usedAfter, changed)
      invariant DedupLines(lines[..], before, secs, renumbered)
    {
      var sec := secs[k];
      var oldId := sec.fileId;
      if oldId !in seen {
        DedupKeepStep(secs, k, used, seen, renumbered, usedAfter, changed);
        seen := seen + {oldId};
        continue;
      }
      var newId, used2 := NextFreeId(usedAfter);
      DedupRenumberStep(secs, k, used, seen, renumbered, usedAfter, changed, newId);
      RenumberDuplicate(lines, before, secs, renumbered, k, newId);
      changed, usedAfter, renumbered := changed + 1, used2, renumbered[k := newId];
    }
    assert secs[..|secs|] == secs;
  }

  /** The header id section `q` carries after the duplicate-header pass. */
  function DedupedId(secs: seq<Section>, renumbered: map<nat, int>, q: nat): int
    requires q < |secs|
  {
    if q in renumbered then renumbered[q] else secs[q].fileId
  }

  /**
   * After the duplicate-header pass every section header carries a distinct id:
   * the first section with an id keeps it and every later one has a fresh id.
   */
  lemma DedupedIdsDistinct(secs: seq<Section>, used: set<int>, renumbered: map<nat, int>, p: nat, q: nat)
    requires forall k :: 0 <= k < |secs| ==> secs[k].fileId in used
    requires forall k :: k in renumbered <==> 0 <= k < |secs| && secs[k].fileId in IdsOf(secs[..k])
    requires FreshImages(renumbered, used) && Injective(renumbered)
    requires p < q < |secs|
    ensures DedupedId(secs, renumbered, p) != DedupedId(secs, renumbered, q)
  {
    if p !in renumbered && q !in renumbered {
      assert secs[..q][p] == secs[p];
      IdsOfMembers(secs[..q], secs[p].fileId);
    }
  }

  /** After the duplicate-header pass, the header of section `q` carries its deduplicated id. */
  lemma DedupedAnchor(cur: seq<Line>, before: seq<Line>, secs: seq<Section>, renumbered: map<nat, int>, q: nat)
    requires Parsed(secs, before) && DedupLines(cur, before, secs, renumbered) && q < |secs|
    ensures IsHeader(cur[secs[q].start]) && cur[secs[q].start].kind.anchor == DedupedId(secs, renumbered, q)
  {
    var h := secs[q].start;
    if q in renumbered {
      var l := WithAnchor(before[h], renumbered[q]);
      assert RetargetLine(l, secs[q].fileId, renumbered[q]).kind == l.kind;
    }
  }

  /** After the duplicate-header pass, no two section headers of the file carry the same id. */
  lemma DedupedAnchorsDistinct(cur: seq<Line>, before: seq<Line>, secs: seq<Section>, used: set<int>,
                               renumbered: map<nat, int>, p: nat, q: nat)
    requires Parsed(secs, before) && DedupLines(cur, before, secs, renumbered)
    requires forall k :: 0 <= k < |secs| ==> secs[k].fileId in used
    requires forall k :: k in renumbered <==> 0 <= k < |secs| && secs[k].fileId in IdsOf(secs[..k])
    requires FreshImages(renumbered, used) && Injective(renumbered)
    requires p < q < |secs|
    ensures cur[secs[p].start].kind.SectionHeader? && cur[secs[q].start].kind.SectionHeader?
    ensures cur[secs[p].start].kind.anchor != cur[secs[q].start].kind.anchor
  {
    DedupedAnchor(cur, before, secs, renumbered, p);
    DedupedAnchor(cur, before, secs, renumbered, q);
    DedupedIdsDistinct(secs, used, renumbered, p, q);
  }
}
