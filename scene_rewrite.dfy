/**
 * The fresh-id allocator and the in-place token rewriters of the scene repair
 * tool (`next_free_id`, `header_replace_fileid`, `replace_fileid_in_range`,
 * `replace_fileid_globally`).
 */
module SceneRewrite {
  import opened DecimalText
  import opened SceneYaml

  /** The first id `next_free_id` tries. */
  const FreshIdBase: int := 2000000000

  /**
   * The least id at or above `startFrom` that is not in `used`, and `used`
   * with that id added.
   */
  method NextFreeId(used: set<int>, startFrom: int := FreshIdBase) returns (id: int, usedAfter: set<int>)
    ensures startFrom <= id && id !in used
    ensures forall c :: startFrom <= c < id ==> c in used
    ensures usedAfter == used + {id}
  {
    var cand := startFrom;
    while cand in used
      invariant startFrom <= cand
      invariant forall c :: startFrom <= c < cand ==> c in used
      decreases set c | c in used && cand <= c
    {
      ghost var above := set c | c in used && cand <= c;
      assert cand in above && (set c | c in used && cand + 1 <= c) == above - {cand};
      cand := cand + 1;
    }
    id, usedAfter := cand, used + {cand};
  }

  /** The header line with its `&<id>` anchor replaced by `&<newId>`. */
  function WithAnchor(l: Line, newId: int): (r: Line)
    requires IsHeader(l)
  {
    Line(SectionHeader(l.kind.classId, newId), l.pieces)
  }

  /** A `fileID:` token whose value is `oldId` is rewritten to `str(newId)`, keeping its suffix. */
  function RetargetPiece(p: Piece, oldId: int, newId: int): Piece {
    if p.FileRef? && ValueOf(p.num) == oldId then FileRef(Decimal(newId), p.suffix) else p
  }

  function RetargetLine(l: Line, oldId: int, newId: int): Line {
    Line(l.kind, seq(|l.pieces|, j requires 0 <= j < |l.pieces| => RetargetPiece(l.pieces[j], oldId, newId)))
  }

  /** Every `fileID:` token whose value is a key of `m` is rewritten to the decimal form of its image. */
  function RemapPiece(p: Piece, m: map<int, int>): Piece {
    if p.FileRef? && ValueOf(p.num) in m then FileRef(Decimal(m[ValueOf(p.num)]), p.suffix) else p
  }

  function RemapTokens(l: Line, m: map<int, int>): Line {
    Line(l.kind, seq(|l.pieces|, j requires 0 <= j < |l.pieces| => RemapPiece(l.pieces[j], m)))
  }

  /**
   * The effect of a retarget on a line: the kind and every piece other than a
   * token of value `oldId` are kept; each token of value `oldId` now has value
   * `newId` and keeps its suffix.
   */
  lemma RetargetLineEffect(l: Line, oldId: int, newId: int, j: int)
    requires 0 <= j < |l.pieces|
    ensures RetargetLine(l, oldId, newId).kind == l.kind
    ensures |RetargetLine(l, oldId, newId).pieces| == |l.pieces|
    ensures var p, q := l.pieces[j], RetargetLine(l, oldId, newId).pieces[j];
      if p.FileRef? && ValueOf(p.num) == oldId
      then q.FileRef? && ValueOf(q.num) == newId && q.suffix == p.suffix
      else q == p
  {
    ValueOfDecimal(newId);
  }

  /**
   * Retargeting `oldId` to `newId` after remapping by `m` is remapping by `m`
   * extended with `oldId -> newId`, when no image of `m` is `oldId` and
   * `newId` is what the extended map gives `oldId`.
   */
  lemma {:induction false} RetargetAfterRemap(l: Line, m: map<int, int>, oldId: int, newId: int)
    requires oldId !in m.Values
    requires oldId in m ==> m[oldId] == newId
    ensures RetargetLine(RemapTokens(l, m), oldId, newId) == RemapTokens(l, m[oldId := newId])
  {
    var lhs, rhs := RetargetLine(RemapTokens(l, m), oldId, newId), RemapTokens(l, m[oldId := newId]);
    forall j | 0 <= j < |l.pieces| ensures lhs.pieces[j] == rhs.pieces[j] {
      var p := l.pieces[j];
      if p.FileRef? && ValueOf(p.num) in m {
        var v := ValueOf(p.num);
        ValueOfDecimal(m[v]);
        assert m[v] in m.Values;
      }
    }
  }

  lemma RemapTokensEmpty(l: Line)
    ensures RemapTokens(l, map[]) == l
  {
  }

  method HeaderReplaceFileId(lines: array<Line>, sec: Section, newId: int)
    requires sec.start < lines.Length && IsHeader(lines[sec.start])
    modifies lines
    ensures lines[..] == old(lines[..])[sec.start := WithAnchor(old(lines[sec.start]), newId)]
  {
    lines[sec.start] := WithAnchor(lines[sec.start], newId);
  }

  method ReplaceFileIdInRange(lines: array<Line>, start: nat, end: nat, oldId: int, newId: int)
    requires start <= end <= lines.Length
    modifies lines
    ensures forall i :: 0 <= i < lines.Length ==>
      lines[i] == if start <= i < end then RetargetLine(old(lines[i]), oldId, newId) else old(lines[i])
  {
    for i := start to end
      invariant forall k :: 0 <= k < lines.Length ==>
        lines[k] == if start <= k < i then RetargetLine(old(lines[k]), oldId, newId) else old(lines[k])
    {
      lines[i] := RetargetLine(lines[i], oldId, newId);
    }
  }

  /** The number of lines among `ls` that a retarget from `oldId` to `newId` changes. */
  function ChangedLines(ls: seq<Line>, oldId: int, newId: int): (n: nat)
    ensures n <= |ls|
  {
    if ls == [] then 0
    else ChangedLines(ls[..|ls| - 1], oldId, newId)
         + (if RetargetLine(ls[|ls| - 1], oldId, newId) != ls[|ls| - 1] then 1 else 0)
  }

  /** The first `i` lines of `before` are retargeted in `cur`, the rest are as they were. */
  ghost predicate RetargetedUpTo(cur: seq<Line>, before: seq<Line>, i: nat, oldId: int, newId: int) {
    && |cur| == |before| && i <= |before|
    && forall k :: 0 <= k < |cur| ==> cur[k] == if k < i then RetargetLine(before[k], oldId, newId) else before[k]
  }

  lemma RetargetedStep(cur: seq<Line>, before: seq<Line>, i: nat, oldId: int, newId: int)
    requires RetargetedUpTo(cur, before, i, oldId, newId) && i < |before|
    ensures RetargetedUpTo(cur[i := RetargetLine(cur[i], oldId, newId)], before, i + 1, oldId, newId)
    ensures RetargetLine(cur[i], oldId, newId) == cur[i] ==> RetargetedUpTo(cur, before, i + 1, oldId, newId)
    ensures ChangedLines(before[..i + 1], oldId, newId) ==
      ChangedLines(before[..i], oldId, newId) + if RetargetLine(cur[i], oldId, newId) != cur[i] then 1 else 0
  {
    assert before[..i + 1][..i] == before[..i];
  }

  method ReplaceFileIdGlobally(lines: array<Line>, oldId: int, newId: int) returns (changed: nat)
    modifies lines
    ensures forall i :: 0 <= i < lines.Length ==> lines[i] == RetargetLine(old(lines[i]), oldId, newId)
    ensures changed == ChangedLines(old(lines[..]), oldId, newId)
  {
    ghost var before := lines[..];
    changed := 0;
    for i := 0 to lines.Length
      invariant RetargetedUpTo(lines[..], before, i, oldId, newId)
      invariant changed == ChangedLines(before[..i], oldId, newId)
    {
      RetargetedStep(lines[..], before, i, oldId, newId);
      var line := lines[i];
      var newLine := RetargetLine(line, oldId, newId);
      if newLine != line {
        lines[i] := newLine;
        changed := changed + 1;
      }
    }
    assert before[..lines.Length] == before;
  }

  /** A line is changed by a retarget exactly when it holds a token of value `oldId` not already written `str(newId)`. */
  lemma RetargetChangesLine(l: Line, oldId: int, newId: int)
    ensures RetargetLine(l, oldId, newId) != l <==>
      exists j :: 0 <= j < |l.pieces| && l.pieces[j].FileRef? && ValueOf(l.pieces[j].num) == oldId
                  && l.pieces[j].num != Decimal(newId)
  {
    var r := RetargetLine(l, oldId, newId);
    if r != l {
      assert r.pieces != l.pieces;
      var j :| 0 <= j < |l.pieces| && r.pieces[j] != l.pieces[j];
    }
  }
}
