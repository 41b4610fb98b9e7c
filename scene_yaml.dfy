/**
 * A Unity YAML scene file as the fileID repair tool sees it: a list of lines,
 * each already recognised as a section header (`--- !u!<class> &<id>` followed
 * by a non-digit), a `m_GameObject: {fileID: <id>}` binding line, or any other
 * line, and each split into literal text and `fileID: <numeral><letters>`
 * tokens. Sections run from one header line to the next.
 */
module SceneYaml {
  import opened DecimalText

  predicate IsLetter(c: char) {
    'A' <= c <= 'Z' || 'a' <= c <= 'z'
  }

  type Letters = s: string | forall i :: 0 <= i < |s| ==> IsLetter(s[i]) witness ""

  /**
   * Part of a line: literal text, or a `fileID:` token whose numeral is `num`
   * and which is immediately followed by the letters `suffix` (empty when none).
   */
  datatype Piece = Text(text: string) | FileRef(num: Numeral, suffix: Letters)

  datatype Kind =
    | SectionHeader(classId: nat, anchor: int)  // `--- !u!<classId> &<anchor>`; pieces are the rest of the line
    | GoBinding                                 // `  m_GameObject: {fileID: <n>}`; pieces[0] is the `<n>` token
    | Plain

  datatype Line = Line(kind: Kind, pieces: seq<Piece>)

  predicate IsHeader(l: Line) {
    l.kind.SectionHeader?
  }

  /** The line binds a component to GameObject `goId`, written as `str(goId)`. */
  predicate BindsTo(l: Line, goId: int) {
    l.kind.GoBinding? && |l.pieces| > 0 && l.pieces[0] == FileRef(Decimal(goId), "")
  }

  /** A section: its header's class and id, and its line range `[start, end)`. */
  datatype Section = Section(classId: nat, fileId: int, start: nat, end: nat)

  predicate HeaderOf(l: Line, s: Section) {
    l.kind == SectionHeader(s.classId, s.fileId)
  }

  /**
   * `secs` is exactly the section list of `lines`: sections in file order,
   * each starting at a header line that carries its class and id, each ending
   * where the next starts and the last at the end of the file, no header
   * inside a section after its first line, and no header before the first.
   */
  ghost predicate Parsed(secs: seq<Section>, lines: seq<Line>) {
    && (forall k :: 0 <= k < |secs| ==>
          secs[k].start < secs[k].end <= |lines| && HeaderOf(lines[secs[k].start], secs[k]))
    && (forall k :: 0 <= k < |secs| - 1 ==> secs[k].end == secs[k + 1].start)
    && (|secs| > 0 ==> secs[|secs| - 1].end == |lines|)
    && (forall k, i :: 0 <= k < |secs| && secs[k].start < i < secs[k].end ==> !IsHeader(lines[i]))
    && (forall i :: 0 <= i < |lines| && (|secs| == 0 || i < secs[0].start) ==> !IsHeader(lines[i]))
  }

  /** The section ranges lie inside the file and each starts at a header line. */
  ghost predicate Framed(secs: seq<Section>, lines: seq<Line>) {
    forall k :: 0 <= k < |secs| ==>
      secs[k].start < secs[k].end <= |lines| && IsHeader(lines[secs[k].start])
  }

  /** Later sections lie after earlier ones. */
  ghost predicate Ordered(secs: seq<Section>) {
    forall p, q :: 0 <= p < q < |secs| ==> secs[p].end <= secs[q].start
  }

  /**
   * The state of the section scan after the lines `ls`: with no header seen
   * yet, no section; otherwise the closed sections `secs` and the open one
   * from `start`, which together parse `ls`.
   */
  ghost predicate ScanState(secs: seq<Section>, open: bool, cls: nat, id: int, start: nat, ls: seq<Line>) {
    && (!open ==> secs == [] && forall j :: 0 <= j < |ls| ==> !IsHeader(ls[j]))
    && (open ==> start < |ls| && Parsed(secs + [Section(cls, id, start, |ls|)], ls))
  }

  lemma ScanHeader(secs: seq<Section>, open: bool, cls: nat, id: int, start: nat, ls: seq<Line>, l: Line)
    requires ScanState(secs, open, cls, id, start, ls) && l.kind.SectionHeader?
    ensures ScanState(if open then secs + [Section(cls, id, start, |ls|)] else secs,
                      true, l.kind.classId, l.kind.anchor, |ls|, ls + [l])
  {
    if open {
      ParsedExtendByHeader(secs, Section(cls, id, start, |ls|), ls, l);
    } else {
      ParsedFirstHeader(ls, l);
    }
  }

  lemma ScanLine(secs: seq<Section>, open: bool, cls: nat, id: int, start: nat, ls: seq<Line>, l: Line)
    requires ScanState(secs, open, cls, id, start, ls) && !IsHeader(l)
    ensures ScanState(secs, open, cls, id, start, ls + [l])
  {
    if open {
      ParsedExtendByLine(secs, Section(cls, id, start, |ls|), ls, l);
    } else {
      assert forall j :: 0 <= j < |ls| ==> (ls + [l])[j] == ls[j];
    }
  }

  method ParseSections(lines: seq<Line>) returns (secs: seq<Section>)
    ensures Parsed(secs, lines)
  {
    secs := [];
    var open := false;
    var currentClass: nat, currentId: int, currentStart: nat := 0, 0, 0;
    for i := 0 to |lines|
      invariant ScanState(secs, open, currentClass, currentId, currentStart, lines[..i])
    {
      assert lines[..i + 1] == lines[..i] + [lines[i]];
      if lines[i].kind.SectionHeader? {
        ScanHeader(secs, open, currentClass, currentId, currentStart, lines[..i], lines[i]);
        if open {
          secs := secs + [Section(currentClass, currentId, currentStart, i)];
        }
        currentClass, currentId, currentStart := lines[i].kind.classId, lines[i].kind.anchor, i;
        open := true;
      } else {
        ScanLine(secs, open, currentClass, currentId, currentStart, lines[..i], lines[i]);
      }
    }
    assert lines[..|lines|] == lines;
    if open {
      secs := secs + [Section(currentClass, currentId, currentStart, |lines|)];
    }
  }

  lemma ParsedFirstHeader(ls: seq<Line>, l: Line)
    requires forall j :: 0 <= j < |ls| ==> !IsHeader(ls[j])
    requires l.kind.SectionHeader?
    ensures Parsed([Section(l.kind.classId, l.kind.anchor, |ls|, |ls| + 1)], ls + [l])
  {
  }

  lemma ParsedExtendByLine(secs: seq<Section>, last: Section, ls: seq<Line>, l: Line)
    requires Parsed(secs + [last], ls)
    requires !IsHeader(l)
    ensures Parsed(secs + [last.(end := |ls| + 1)], ls + [l])
  {
    var before, after := secs + [last], secs + [last.(end := |ls| + 1)];
    assert forall k :: 0 <= k < |secs| ==> after[k] == before[k];
  }

  lemma ParsedExtendByHeader(secs: seq<Section>, last: Section, ls: seq<Line>, l: Line)
    requires Parsed(secs + [last], ls)
    requires l.kind.SectionHeader?
    ensures Parsed(secs + [last] + [Section(l.kind.classId, l.kind.anchor, |ls|, |ls| + 1)], ls + [l])
  {
    var before := secs + [last];
    var after := before + [Section(l.kind.classId, l.kind.anchor, |ls|, |ls| + 1)];
    assert forall k :: 0 <= k < |before| ==> after[k] == before[k];
  }

  lemma {:induction false} ParsedIsOrdered(secs: seq<Section>, lines: seq<Line>)
    requires Parsed(secs, lines)
    ensures Ordered(secs) && Framed(secs, lines)
  {
    forall p, q | 0 <= p < q < |secs| ensures secs[p].end <= secs[q].start {
      var r := p;
      while r < q
        invariant p <= r <= q
        invariant secs[p].end <= secs[r].start || r == p
      {
        r := r + 1;
      }
    }
  }

  /** Under `Parsed`, every header line of the file is the first line of some section. */
  lemma {:induction false} HeaderStartsSection(secs: seq<Section>, lines: seq<Line>, i: int) returns (q: nat)
    requires Parsed(secs, lines)
    requires 0 <= i < |lines| && IsHeader(lines[i])
    ensures q < |secs| && secs[q].start == i
  {
    q := 0;
    while secs[q].end <= i
      invariant q < |secs| && secs[q].start <= i
      decreases |secs| - q
    {
      q := q + 1;
    }
  }
  /** Every line of the file lies before the first section or inside exactly the section returned. */
  lemma {:induction false} SectionOf(secs: seq<Section>, lines: seq<Line>, i: int) returns (q: nat)
    requires Parsed(secs, lines) && |secs| > 0
    requires secs[0].start <= i < |lines|
    ensures q < |secs| && secs[q].start <= i < secs[q].end
  {
    q := 0;
    while secs[q].end <= i
      invariant q < |secs| && secs[q].start <= i
      decreases |secs| - q
    {
      q := q + 1;
    }
  }

  /**
   * `b` is `a` with at most the header anchor changed: a header stays a
   * header of the same class, and any other line keeps its kind.
   */
  predicate ShapeKept(a: Line, b: Line) {
    if IsHeader(a) then IsHeader(b) && b.kind.classId == a.kind.classId else b.kind == a.kind
  }

  ghost predicate SameShape(a: seq<Line>, b: seq<Line>) {
    |a| == |b| && forall i :: 0 <= i < |a| ==> ShapeKept(a[i], b[i])
  }

  lemma SameShapeTrans(a: seq<Line>, b: seq<Line>, c: seq<Line>)
    requires SameShape(a, b) && SameShape(b, c)
    ensures SameShape(a, c)
  {
  }

  /** Section ranges found in one file still frame a file of the same shape. */
  lemma FramedSameShape(secs: seq<Section>, a: seq<Line>, b: seq<Line>)
    requires Framed(secs, a) && SameShape(a, b)
    ensures Framed(secs, b)
  {
  }
}
