/**
 Text chunking for retrieval (packages/slas-rag/slas_rag/documents.py): paragraphs found by a
 blank-line split, located again in the text, cut with overlap where long, and packed greedily.
 */
module Chunker {
  import opened Options

  /** Python's whitespace: what `\s` matches in a str pattern and what `strip` removes. */
  predicate IsSpace(c: char) {
    var n := c as int;
    || 0x09 <= n <= 0x0D
    || 0x1C <= n <= 0x20
    || n == 0x85 || n == 0xA0 || n == 0x1680
    || 0x2000 <= n <= 0x200A
    || n == 0x2028 || n == 0x2029 || n == 0x202F || n == 0x205F || n == 0x3000
  }

  /** The 29 code points of `str.isspace`. */
  lemma {:induction false} SpacesAre(c: char)
    ensures IsSpace(c) <==> c as int in {9, 10, 11, 12, 13, 28, 29, 30, 31, 32, 133, 160, 5760,
      8192, 8193, 8194, 8195, 8196, 8197, 8198, 8199, 8200, 8201, 8202, 8232, 8233, 8239, 8287, 12288}
  {
  }

  predicate AllSpace(text: string, b: nat, e: nat)
    requires b <= e <= |text|
  {
    forall k :: b <= k < e ==> IsSpace(text[k])
  }

  // ---- the paragraph split --------------------------------------------------------------------

  datatype Span = Span(b: nat, e: nat)

  /** Behind the last newline of the whitespace run at q, or None when the run has none. */
  function LastNewline(text: string, q: nat): (r: Option<nat>)
    requires q <= |text|
    decreases |text| - q
    ensures r.Some? ==> q < r.value <= |text| && text[r.value - 1] == '\n' && AllSpace(text, q, r.value)
    ensures forall k :: q <= k < |text| && text[k] == '\n' && AllSpace(text, q, k) ==> r.Some? && k < r.value
  {
    if q == |text| || !IsSpace(text[q]) then None
    else
      var later := LastNewline(text, q + 1);
      if later.Some? then later else if text[q] == '\n' then Some(q + 1) else None
  }

  /** Where a paragraph break starting at p ends: the greedy match of newline, whitespace, newline. */
  function BreakEnd(text: string, p: nat): (r: Option<nat>)
    requires p < |text|
    ensures r.Some? ==> p + 1 < r.value <= |text|
  {
    if text[p] == '\n' then LastNewline(text, p + 1) else None
  }

  /** The leftmost break at or behind p; its start is the end of the text when there is none. */
  function NextBreak(text: string, p: nat): (b: nat)
    requires p <= |text|
    decreases |text| - p
    ensures p <= b <= |text|
    ensures b < |text| ==> BreakEnd(text, b).Some?
    ensures forall k :: p <= k < b ==> BreakEnd(text, k).None?
  {
    if p == |text| || BreakEnd(text, p).Some? then p else NextBreak(text, p + 1)
  }

  function Paragraphs(text: string, p: nat): (r: seq<Span>)
    requires p <= |text|
    decreases |text| - p
    ensures |r| > 0
  {
    var b := NextBreak(text, p);
    if b == |text| then [Span(p, b)] else [Span(p, b)] + Paragraphs(text, BreakEnd(text, b).value)
  }

  /** A run of blank lines lies between two newlines with only whitespace between them. */
  predicate HasBreak(text: string, b: nat, e: nat)
    requires b <= e <= |text|
  {
    exists p, q :: b <= p < q < e && text[p] == '\n' && text[q] == '\n' && AllSpace(text, p, q)
  }

  /** Paragraphs tile the text: only whitespace, holding a break, lies between two of them. */
  ghost predicate Tiles(text: string, spans: seq<Span>, p: nat)
  {
    && |spans| > 0 && spans[0].b == p && spans[|spans| - 1].e == |text|
    && (forall i :: 0 <= i < |spans| ==> spans[i].b <= spans[i].e <= |text|)
    && forall i :: 0 < i < |spans| ==>
        && spans[i - 1].e < spans[i].b
        && AllSpace(text, spans[i - 1].e, spans[i].b)
        && HasBreak(text, spans[i - 1].e, spans[i].b)
  }

  lemma {:induction false} ParagraphsTile(text: string, p: nat)
    requires p <= |text|
    ensures Tiles(text, Paragraphs(text, p), p)
    ensures forall i :: 0 <= i < |Paragraphs(text, p)| ==> !HasBreak(text, Paragraphs(text, p)[i].b, Paragraphs(text, p)[i].e)
    decreases |text| - p
  {
    hide HasBreak, AllSpace, BreakEnd, NextBreak;
    var b := NextBreak(text, p);
    NoBreakInside(text, p, b);
    if b < |text| {
      BreakIsBreak(text, b);
      var e := BreakEnd(text, b).value;
      ParagraphsTile(text, e);
      var rest := Paragraphs(text, e);
      var r := Paragraphs(text, p);
      assert forall i :: 0 < i < |r| ==> r[i] == rest[i - 1];
    }
  }

  lemma {:induction false} BreakIsBreak(text: string, b: nat)
    requires b < |text| && BreakEnd(text, b).Some?
    ensures AllSpace(text, b, BreakEnd(text, b).value) && HasBreak(text, b, BreakEnd(text, b).value)
  {
    var e := BreakEnd(text, b).value;
    assert text[b] == '\n' && text[e - 1] == '\n' && AllSpace(text, b, e - 1);
  }

  lemma {:induction false} NoBreakInside(text: string, b: nat, e: nat)
    requires b <= e <= |text| && forall k :: b <= k < e ==> BreakEnd(text, k).None?
    ensures !HasBreak(text, b, e)
  {
    forall p, q | b <= p < q < e && text[p] == '\n' && text[q] == '\n'
      ensures !AllSpace(text, p, q)
    {
      assert BreakEnd(text, p).None?;
      assert text[q] == '\n' && !AllSpace(text, p + 1, q);
    }
  }

  // ---- strip and find -----------------------------------------------------------------------

  function LeadingSpace(s: string): (n: nat)
    ensures n <= |s| && AllSpace(s, 0, n)
    ensures n < |s| ==> !IsSpace(s[n])
  {
    if s == "" || !IsSpace(s[0]) then 0
    else
      var n := LeadingSpace(s[1..]);
      assert forall k :: 1 <= k < n + 1 ==> s[k] == s[1..][k - 1];
      n + 1
  }

  function WithoutTrailing(s: string): (n: nat)
    ensures n <= |s| && AllSpace(s, n, |s|)
    ensures n > 0 ==> !IsSpace(s[n - 1])
  {
    if s == "" || !IsSpace(s[|s| - 1]) then |s|
    else
      var n := WithoutTrailing(s[..|s| - 1]);
      assert forall k :: n <= k < |s| - 1 ==> s[k] == s[..|s| - 1][k];
      n
  }

  function Strip(s: string): (r: string)
    ensures r == "" <==> AllSpace(s, 0, |s|)
    ensures r != "" ==> !IsSpace(r[0]) && !IsSpace(r[|r| - 1])
    ensures LeadingSpace(s) + |r| <= |s|
    ensures r != "" ==> r == s[LeadingSpace(s)..LeadingSpace(s) + |r|] && AllSpace(s, LeadingSpace(s) + |r|, |s|)
  {
    var l, n := LeadingSpace(s), WithoutTrailing(s);
    if l < n then s[l..n] else ""
  }

  predicate Occurs(text: string, part: string, i: nat) {
    i + |part| <= |text| && text[i..i + |part|] == part
  }

  /** `str.find`: the first occurrence at or behind `from`, or -1. */
  function Find(text: string, part: string, from: nat): (i: int)
    decreases |text| - from
    ensures i == -1 ==> forall k: nat :: from <= k ==> !Occurs(text, part, k)
    ensures i != -1 ==> from <= i && Occurs(text, part, i) && forall k: nat :: from <= k < i ==> !Occurs(text, part, k)
  {
    if from + |part| > |text| then -1
    else if Occurs(text, part, from) then from
    else Find(text, part, from + 1)
  }

  // ---- cutting and the true pieces --------------------------------------------------------------

  datatype Piece = Piece(start: nat, text: string)

  function Cuts(start: nat, s: string, max: nat, overlap: nat): (r: seq<Piece>)
    requires overlap < max
    decreases |s|
    ensures |r| > 0
  {
    if |s| <= max then [Piece(start, s)]
    else [Piece(start, s[..max])] + Cuts(start + max - overlap, s[max - overlap..], max, overlap)
  }

  ghost predicate Steps(r: seq<Piece>, max: nat, overlap: nat) {
    forall j :: 0 <= j < |r| - 1 ==> |r[j].text| == max && r[j + 1].start == r[j].start + max - overlap
  }

  lemma {:induction false} StepsMore(first: Piece, rest: seq<Piece>, max: nat, overlap: nat)
    requires overlap < max && rest != [] && Steps(rest, max, overlap)
    requires |first.text| == max && rest[0].start == first.start + max - overlap
    ensures Steps([first] + rest, max, overlap)
  {
    var r := [first] + rest;
    forall j | 0 <= j < |r| - 1 ensures |r[j].text| == max && r[j + 1].start == r[j].start + max - overlap {
      if j > 0 { assert r[j] == rest[j - 1] && r[j + 1] == rest[j]; }
    }
  }

  /** Every cut but the last is full and ends short of the paragraph, the next begins `overlap` before its end, the last ends the paragraph. */
  lemma {:induction false} CutsOverlap(start: nat, s: string, max: nat, overlap: nat)
    requires overlap < max
    ensures var r := Cuts(start, s, max, overlap);
      && r[0].start == start
      && r[|r| - 1].start + |r[|r| - 1].text| == start + |s|
      && Steps(r, max, overlap)
      && forall j :: 0 <= j < |r| - 1 ==> r[j].start + max < start + |s|
    decreases |s|
  {
    if |s| > max {
      var rest := Cuts(start + max - overlap, s[max - overlap..], max, overlap);
      CutsOverlap(start + max - overlap, s[max - overlap..], max, overlap);
      var first := Piece(start, s[..max]);
      assert Cuts(start, s, max, overlap) == [first] + rest;
      hide Cuts;
      StepsMore(first, rest, max, overlap);
      assert forall j :: 0 < j < |rest| + 1 ==> ([first] + rest)[j] == rest[j - 1];
    }
  }

  /** A piece is the text at its recorded start, not empty and not longer than the limit. */
  predicate PieceOf(text: string, p: Piece, max: nat) {
    0 < |p.text| <= max && Occurs(text, p.text, p.start)
  }

  /** One of the pieces holds the m characters at k whole. */
  ghost predicate Holds(pieces: seq<Piece>, k: nat, m: nat) {
    exists j :: 0 <= j < |pieces| && pieces[j].start <= k && k + m <= pieces[j].start + |pieces[j].text|
  }

  lemma {:induction false} CutsAreFaithful(text: string, start: nat, s: string, max: nat, overlap: nat)
    requires overlap < max && s != "" && Occurs(text, s, start)
    ensures forall j :: 0 <= j < |Cuts(start, s, max, overlap)| ==> PieceOf(text, Cuts(start, s, max, overlap)[j], max)
    decreases |s|
  {
    if |s| > max {
      var r, step := Cuts(start, s, max, overlap), max - overlap;
      assert text[start + step..start + |s|] == text[start..start + |s|][step..];
      CutsAreFaithful(text, start + step, s[step..], max, overlap);
      assert text[start..start + max] == text[start..start + |s|][..max];
      assert forall j :: 0 < j < |r| ==> r[j] == Cuts(start + step, s[step..], max, overlap)[j - 1];
    }
  }

  /** A passage of a paragraph no longer than the overlap and one character is whole in some cut. */
  lemma {:induction false} CutsHoldPassages(start: nat, s: string, max: nat, overlap: nat, k: nat, m: nat)
    requires overlap < max && start <= k && k + m <= start + |s| && m <= overlap + 1
    ensures Holds(Cuts(start, s, max, overlap), k, m)
    decreases |s|
  {
    var r := Cuts(start, s, max, overlap);
    if |s| <= max || k + m <= start + max {
      assert r[0].start <= k && k + m <= r[0].start + |r[0].text|;
    } else {
      var rest := Cuts(start + max - overlap, s[max - overlap..], max, overlap);
      CutsHoldPassages(start + max - overlap, s[max - overlap..], max, overlap, k, m);
      var j :| 0 <= j < |rest| && rest[j].start <= k && k + m <= rest[j].start + |rest[j].text|;
      assert r[j + 1] == rest[j];
    }
  }

  /** The pieces of one paragraph, at its true place in the text. */
  function PiecesAt(text: string, span: Span, max: nat, overlap: nat): (r: seq<Piece>)
    requires overlap < max && span.b <= span.e <= |text|
  {
    var paragraph := text[span.b..span.e];
    var s := Strip(paragraph);
    if s == "" then [] else Cuts(span.b + LeadingSpace(paragraph), s, max, overlap)
  }

  function PiecesOf(text: string, spans: seq<Span>, max: nat, overlap: nat): (r: seq<Piece>)
    requires overlap < max && forall i :: 0 <= i < |spans| ==> spans[i].b <= spans[i].e <= |text|
  {
    if spans == [] then []
    else PiecesOf(text, spans[..|spans| - 1], max, overlap) + PiecesAt(text, spans[|spans| - 1], max, overlap)
  }

  lemma {:induction false} StrippedOccurs(text: string, span: Span)
    requires span.b <= span.e <= |text|
    ensures var s := text[span.b..span.e];
      Strip(s) != "" ==>
        && Occurs(text, Strip(s), span.b + LeadingSpace(s))
        && AllSpace(text, span.b, span.b + LeadingSpace(s))
        && AllSpace(text, span.b + LeadingSpace(s) + |Strip(s)|, span.e)
    ensures Strip(text[span.b..span.e]) == "" ==> AllSpace(text, span.b, span.e)
  {
    var s := text[span.b..span.e];
    assert forall k :: span.b <= k < span.e ==> text[k] == s[k - span.b];
    if Strip(s) != "" {
      var l, n := LeadingSpace(s), |Strip(s)|;
      assert text[span.b + l..span.b + l + n] == s[l..l + n];
    }
  }

  lemma {:induction false} PiecesAtFaithful(text: string, span: Span, max: nat, overlap: nat)
    requires overlap < max && span.b <= span.e <= |text|
    ensures forall j :: 0 <= j < |PiecesAt(text, span, max, overlap)| ==> PieceOf(text, PiecesAt(text, span, max, overlap)[j], max)
  {
    hide LeadingSpace, AllSpace, PieceOf, Occurs, IsSpace, Strip, Cuts;
    StrippedOccurs(text, span);
    var paragraph := text[span.b..span.e];
    if Strip(paragraph) != "" {
      CutsAreFaithful(text, span.b + LeadingSpace(paragraph), Strip(paragraph), max, overlap);
    }
  }

  /**
   The pieces of a paragraph run from its first to its last character that is not whitespace; a
   blank paragraph has none.
   */
  lemma {:induction false} PiecesSpanParagraph(text: string, span: Span, max: nat, overlap: nat)
    requires overlap < max && span.b <= span.e <= |text|
    ensures var r := PiecesAt(text, span, max, overlap);
      && (r == [] <==> AllSpace(text, span.b, span.e))
      && (r != [] ==>
            var first, last := r[0].start, r[|r| - 1].start + |r[|r| - 1].text|;
            && span.b <= first < last <= span.e && !IsSpace(text[first]) && !IsSpace(text[last - 1])
            && AllSpace(text, span.b, first) && AllSpace(text, last, span.e)
            && Steps(r, max, overlap) && forall j :: 0 <= j < |r| - 1 ==> r[j].start + max < last)
  {
    hide Cuts, Strip, IsSpace, LeadingSpace, Steps;
    StrippedOccurs(text, span);
    var paragraph := text[span.b..span.e];
    var s := Strip(paragraph);
    if s != "" {
      var start := span.b + LeadingSpace(paragraph);
      CutsOverlap(start, s, max, overlap);
      EndsOf(text, s, start);
      assert start < span.e && !IsSpace(text[start]);
    }
  }

  lemma {:induction false} EndsOf(text: string, s: string, start: nat)
    requires s != "" && Occurs(text, s, start)
    ensures start + |s| <= |text| && text[start] == s[0] && text[start + |s| - 1] == s[|s| - 1]
  {
    assert text[start] == text[start..start + |s|][0] && text[start + |s| - 1] == text[start..start + |s|][|s| - 1];
  }

  lemma {:induction false} PiecesAtHold(text: string, span: Span, max: nat, overlap: nat, k: nat, m: nat)
    requires overlap < max && span.b <= span.e <= |text|
    requires span.b <= k && 0 < m <= overlap + 1 && k + m <= span.e && !IsSpace(text[k]) && !IsSpace(text[k + m - 1])
    ensures Holds(PiecesAt(text, span, max, overlap), k, m)
  {
    hide LeadingSpace, Holds, Occurs, IsSpace;
    StrippedOccurs(text, span);
    var paragraph := text[span.b..span.e];
    var s, start := Strip(paragraph), span.b + LeadingSpace(paragraph);
    assert s != "";
    assert start <= k && k + m <= start + |s|;
    CutsHoldPassages(start, s, max, overlap, k, m);
  }

  lemma {:induction false} PiecesOfFaithful(text: string, spans: seq<Span>, max: nat, overlap: nat)
    requires overlap < max && forall i :: 0 <= i < |spans| ==> spans[i].b <= spans[i].e <= |text|
    ensures forall j :: 0 <= j < |PiecesOf(text, spans, max, overlap)| ==> PieceOf(text, PiecesOf(text, spans, max, overlap)[j], max)
  {
    hide PiecesAt, PieceOf;
    if spans != [] {
      var n := |spans| - 1;
      PiecesOfFaithful(text, spans[..n], max, overlap);
      PiecesAtFaithful(text, spans[n], max, overlap);
    }
  }

  lemma {:induction false} PiecesOfHold(text: string, spans: seq<Span>, max: nat, overlap: nat, i: nat, k: nat, m: nat)
    requires overlap < max && forall i :: 0 <= i < |spans| ==> spans[i].b <= spans[i].e <= |text|
    requires i < |spans| && spans[i].b <= k && k + m <= spans[i].e
    requires 0 < m <= overlap + 1 && !IsSpace(text[k]) && !IsSpace(text[k + m - 1])
    ensures Holds(PiecesOf(text, spans, max, overlap), k, m)
  {
    hide PiecesAt, Holds, IsSpace;
    var n := |spans| - 1;
    if i < n {
      PiecesOfHold(text, spans[..n], max, overlap, i, k, m);
    } else {
      PiecesAtHold(text, spans[n], max, overlap, k, m);
    }
    HeldByEither(PiecesOf(text, spans[..n], max, overlap), PiecesAt(text, spans[n], max, overlap), k, m);
  }

  lemma {:induction false} HeldByEither(head: seq<Piece>, tail: seq<Piece>, k: nat, m: nat)
    requires Holds(head, k, m) || Holds(tail, k, m)
    ensures Holds(head + tail, k, m)
  {
    if Holds(head, k, m) {
      var j :| 0 <= j < |head| && head[j].start <= k && k + m <= head[j].start + |head[j].text|;
      assert (head + tail)[j] == head[j];
    } else {
      var j :| 0 <= j < |tail| && tail[j].start <= k && k + m <= tail[j].start + |tail[j].text|;
      assert (head + tail)[|head| + j] == tail[j];
    }
  }

  /** All pieces of a text, at their true places. */
  function Pieces(text: string, max: nat, overlap: nat): (r: seq<Piece>)
    requires overlap < max
  {
    ParagraphsTile(text, 0);
    PiecesOf(text, Paragraphs(text, 0), max, overlap)
  }

  /** Every piece is the text at its recorded start, within the limit. */
  lemma {:induction false} PiecesAreFaithful(text: string, max: nat, overlap: nat)
    requires overlap < max
    ensures forall j :: 0 <= j < |Pieces(text, max, overlap)| ==> PieceOf(text, Pieces(text, max, overlap)[j], max)
  {
    hide PieceOf, Paragraphs, PiecesOf, HasBreak;
    ParagraphsTile(text, 0);
    PiecesOfFaithful(text, Paragraphs(text, 0), max, overlap);
  }

  /**
   A passage that crosses no paragraph break and is no longer than the overlap and one
   character is whole in some piece; with m == 1, every character but whitespace is in one.
   */
  lemma {:induction false} PiecesHoldPassages(text: string, max: nat, overlap: nat, k: nat, m: nat)
    requires overlap < max && 0 < m <= overlap + 1 && k + m <= |text|
    requires !IsSpace(text[k]) && !IsSpace(text[k + m - 1]) && !HasBreak(text, k, k + m)
    ensures Holds(Pieces(text, max, overlap), k, m)
  {
    hide PiecesOf, Paragraphs, Holds;
    ParagraphsTile(text, 0);
    var spans := Paragraphs(text, 0);
    var i := SpanOf(text, spans, k, |spans|);
    if k + m > spans[i].e { PassageCrosses(text, spans, i, k, m); }
    PiecesOfHold(text, spans, max, overlap, i, k, m);
  }

  /** A passage that leaves its paragraph and ends in a character holds the whole break behind it. */
  lemma {:induction false} PassageCrosses(text: string, spans: seq<Span>, i: nat, k: nat, m: nat)
    requires Tiles(text, spans, 0) && i < |spans| && spans[i].b <= k < spans[i].e < k + m <= |text|
    requires !IsSpace(text[k + m - 1])
    ensures HasBreak(text, k, k + m)
  {
    assert i + 1 < |spans|;
    var e, b := spans[i].e, spans[i + 1].b;
    assert AllSpace(text, e, b) && HasBreak(text, e, b);
    var p, q :| e <= p < q < b && text[p] == '\n' && text[q] == '\n' && AllSpace(text, p, q);
    assert k <= p < q < k + m;
  }

  /** The paragraph a character that is not whitespace lies in. */
  lemma {:induction false} SpanOf(text: string, spans: seq<Span>, k: nat, n: nat) returns (i: nat)
    requires Tiles(text, spans, 0) && 0 < n <= |spans| && k < spans[n - 1].e && !IsSpace(text[k])
    ensures i < |spans| && spans[i].b <= k < spans[i].e
  {
    if spans[n - 1].b <= k {
      i := n - 1;
    } else {
      i := SpanOf(text, spans, k, n - 1);
    }
  }

  // ---- packing ------------------------------------------------------------------------------------

  /** `"\n\n".join` of the pieces of one chunk. */
  function Join(group: seq<Piece>): (r: string)
    requires |group| > 0
    ensures |r| >= |group[|group| - 1].text|
  {
    var n := |group| - 1;
    if n == 0 then group[0].text else Join(group[..n]) + "\n\n" + group[n].text
  }

  function Concat(groups: seq<seq<Piece>>): (r: seq<Piece>)
  {
    if groups == [] then [] else Concat(groups[..|groups| - 1]) + groups[|groups| - 1]
  }

  /** The two characters a running length is too long by in every chunk but the first. */
  function Slack(i: nat): (n: nat) { if i == 0 then 0 else 2 }

  /**
   What the greedy loop produces: the pieces in order, no chunk over the limit, and each
   chunk closed exactly when one more piece would take its over-counted length past the limit.
   */
  ghost predicate Packed(groups: seq<seq<Piece>>, max: nat) {
    && (forall i :: 0 <= i < |groups| ==> |groups[i]| > 0 && |Join(groups[i])| <= max)
    && (forall i :: 0 <= i < |groups| && |groups[i]| > 1 ==> |Join(groups[i])| + Slack(i) <= max)
    && (forall i :: 0 <= i < |groups| - 1 ==> |Join(groups[i] + [groups[i + 1][0]])| + Slack(i) > max)
  }

  function Render(groups: seq<seq<Piece>>): (chunks: seq<Piece>)
    requires forall i :: 0 <= i < |groups| ==> |groups[i]| > 0
    ensures |chunks| == |groups|
  {
    seq(|groups|, i requires 0 <= i < |groups| => Piece(groups[i][0].start, Join(groups[i])))
  }

  lemma {:induction false} JoinMore(current: seq<Piece>, piece: Piece)
    requires current != []
    ensures Join(current + [piece]) == Join(current) + "\n\n" + piece.text
  {
    assert (current + [piece])[..|current|] == current;
  }

  lemma {:induction false} ConcatMore(groups: seq<seq<Piece>>, g: seq<Piece>)
    ensures Concat(groups + [g]) == Concat(groups) + g
  {
    assert (groups + [g])[..|groups|] == groups;
  }

  lemma {:induction false} RenderMore(groups: seq<seq<Piece>>, g: seq<Piece>)
    requires g != [] && forall i :: 0 <= i < |groups| ==> |groups[i]| > 0
    ensures Render(groups + [g]) == Render(groups) + [Piece(g[0].start, Join(g))]
  {
  }

  /** The open chunk takes one more piece. */
  lemma {:induction false} PackGrows(groups: seq<seq<Piece>>, current: seq<Piece>, piece: Piece, max: nat)
    requires current != [] && Packed(groups + [current], max)
    requires |Join(current + [piece])| + Slack(|groups|) <= max
    ensures Packed(groups + [current + [piece]], max)
    ensures Concat(groups + [current + [piece]]) == Concat(groups + [current]) + [piece]
  {
    hide Join, Slack, Concat;
    ConcatMore(groups, current);
    ConcatMore(groups, current + [piece]);
    var before, after := groups + [current], groups + [current + [piece]];
    assert forall i :: 0 <= i < |groups| ==> before[i] == after[i];
    assert before[|groups|] == current && after[|groups|] == current + [piece];
    assert forall i :: 0 <= i < |after| ==> after[i][0] == before[i][0];
  }

  /** The open chunk is closed and a new one begins with the piece. */
  lemma {:induction false} PackCloses(groups: seq<seq<Piece>>, current: seq<Piece>, piece: Piece, max: nat)
    requires current != [] && Packed(groups + [current], max) && |piece.text| <= max
    requires |Join(current + [piece])| + Slack(|groups|) > max
    ensures Packed(groups + [current] + [[piece]], max) && Join([piece]) == piece.text
    ensures Concat(groups + [current] + [[piece]]) == Concat(groups + [current]) + [piece]
  {
    ConcatMore(groups + [current], [piece]);
    assert Join([piece]) == piece.text;
    hide Join, Slack, Concat;
    var before, after := groups + [current], groups + [current] + [[piece]];
    assert forall i :: 0 <= i < |before| ==> before[i] == after[i];
    assert before[|groups|] == current && after[|before|] == [piece];
  }

  /** The first chunk begins with the first piece. */
  lemma {:induction false} PackBegins(pieces: seq<Piece>, max: nat)
    requires |pieces| == 1 ==> |pieces[0].text| <= max
    ensures pieces == [] ==> Packed([], max) && Concat([]) == pieces
    ensures Render([]) == []
    ensures |pieces| == 1 ==> Packed([pieces], max) && Concat([pieces]) == pieces && Join(pieces) == pieces[0].text
  {
    if |pieces| == 1 { ConcatMore([], pieces); assert [] + [pieces] == [pieces]; }
  }

  /** The chunks are the pieces, packed by the greedy rule and joined. */
  ghost predicate IsPacking(pieces: seq<Piece>, max: nat, chunks: seq<Piece>) {
    exists groups :: Packed(groups, max) && Concat(groups) == pieces && chunks == Render(groups)
  }

  method Pack(pieces: seq<Piece>, max: nat) returns (chunks: seq<Piece>)
    requires forall j :: 0 <= j < |pieces| ==> |pieces[j].text| <= max
    ensures IsPacking(pieces, max, chunks)
  {
    hide Packed, Concat, Join, Render;
    ghost var groups: seq<seq<Piece>>;
    chunks, groups := [], [];
    PackBegins([], max);
    var currentStart := 0;
    var current: seq<Piece> := [];
    var currentLen := 0;
    for i := 0 to |pieces|
      invariant i == 0 <==> current == []
      invariant current == [] ==> groups == [] && currentLen == 0
      invariant current != [] ==> currentStart == current[0].start && currentLen == |Join(current)| + Slack(|groups|)
      invariant current != [] ==> Packed(groups + [current], max) && Concat(groups + [current]) == pieces[..i]
      invariant forall k :: 0 <= k < |groups| ==> |groups[k]| > 0
      invariant chunks == Render(groups)
    {
      var piece := pieces[i];
      var extra := |piece.text| + if current != [] then 2 else 0;
      assert pieces[..i + 1] == pieces[..i] + [piece];
      if current != [] {
        JoinMore(current, piece);
        if currentLen + extra > max {
          PackCloses(groups, current, piece, max);
          RenderMore(groups, current);
        } else {
          PackGrows(groups, current, piece, max);
        }
      } else {
        PackBegins([piece], max);
        assert groups + [[piece]] == [[piece]];
      }
      if current != [] && currentLen + extra > max {
        chunks := chunks + [Piece(currentStart, Join(current))];
        groups := groups + [current];
        current, currentLen := [], 0;
      }
      if current == [] {
        currentStart := piece.start;
        assert current + [piece] == [piece];
      }
      current := current + [piece];
      currentLen := currentLen + extra;
    }
    assert pieces[..|pieces|] == pieces;
    if current != [] {
      RenderMore(groups, current);
      chunks := chunks + [Piece(currentStart, Join(current))];
      groups := groups + [current];
    }
    PackingOf(groups, pieces, max);
  }

  lemma {:induction false} PackingOf(groups: seq<seq<Piece>>, pieces: seq<Piece>, max: nat)
    requires Packed(groups, max) && Concat(groups) == pieces
    ensures IsPacking(pieces, max, Render(groups))
  {
  }

  lemma {:induction false} ConcatAt(groups: seq<seq<Piece>>, i: nat, j: nat)
    requires i < |groups| && j < |groups[i]|
    ensures |Concat(groups[..i])| + j < |Concat(groups)|
    ensures Concat(groups)[|Concat(groups[..i])| + j] == groups[i][j]
  {
    var n := |groups| - 1;
    if i < n {
      ConcatAt(groups[..n], i, j);
      assert groups[..n][..i] == groups[..i];
    }
  }

  lemma {:induction false} ConcatLength(groups: seq<seq<Piece>>, i: nat)
    requires i < |groups|
    ensures |Concat(groups[..i + 1])| == |Concat(groups[..i])| + |groups[i]|
  {
    assert groups[..i + 1] == groups[..i] + [groups[i]];
    ConcatMore(groups[..i], groups[i]);
  }

  lemma {:induction false} JoinGrows(g: seq<Piece>, n: nat)
    requires 0 < n <= |g|
    ensures |Join(g[..n])| <= |Join(g)|
  {
    if n < |g| {
      JoinGrows(g[..|g| - 1], n);
      assert g[..|g| - 1][..n] == g[..n];
    } else {
      assert g[..n] == g;
    }
  }

  lemma {:induction false} SameStart(a: seq<seq<Piece>>, b: seq<seq<Piece>>, i: nat)
    requires Concat(a) == Concat(b) && i < |a| && i < |b| && a[..i] == b[..i] && |a[i]| <= |b[i]|
    ensures a[i] == b[i][..|a[i]|]
  {
    hide Concat;
    var x, y := a[i], b[i];
    forall j | 0 <= j < |x| ensures x[j] == y[j] { ConcatAt(a, i, j); ConcatAt(b, i, j); }
  }

  /** Of two packings that agree so far, neither closes its next chunk before the other. */
  lemma {:induction false} NoEarlierClose(a: seq<seq<Piece>>, b: seq<seq<Piece>>, i: nat, max: nat)
    requires Packed(a, max) && Packed(b, max) && Concat(a) == Concat(b)
    requires i < |a| && i < |b| && a[..i] == b[..i]
    ensures |a[i]| >= |b[i]|
  {
    hide Concat, Join;
    var n := |a[i]|;
    ConcatLength(a, i);
    assert i + 1 == |a| ==> a[..i + 1] == a;
    if n < |b[i]| {
      ConcatAt(b, i, n);
      if i + 1 < |a| {
        ConcatAt(a, i + 1, 0);
        assert a[i + 1][0] == b[i][n];
        SameStart(a, b, i);
        assert a[i] + [a[i + 1][0]] == b[i][..n + 1];
        JoinGrows(b[i], n + 1);
      }
    }
  }

  lemma {:induction false} SamePrefix(a: seq<seq<Piece>>, b: seq<seq<Piece>>, i: nat, max: nat)
    requires Packed(a, max) && Packed(b, max) && Concat(a) == Concat(b) && i <= |a| && i <= |b|
    ensures a[..i] == b[..i]
  {
    hide Concat, Packed;
    if i > 0 {
      SamePrefix(a, b, i - 1, max);
      NoEarlierClose(a, b, i - 1, max);
      NoEarlierClose(b, a, i - 1, max);
      SameStart(a, b, i - 1);
      assert a[i - 1] == b[i - 1];
    }
  }

  /** The closing rule pins the chunks down. */
  lemma {:induction false} PackingIsUnique(pieces: seq<Piece>, max: nat, chunks: seq<Piece>, others: seq<Piece>)
    requires IsPacking(pieces, max, chunks) && IsPacking(pieces, max, others)
    ensures chunks == others
  {
    var a :| Packed(a, max) && Concat(a) == pieces && chunks == Render(a);
    var b :| Packed(b, max) && Concat(b) == pieces && others == Render(b);
    SameGroups(a, b, max);
  }

  lemma {:induction false} SameGroups(a: seq<seq<Piece>>, b: seq<seq<Piece>>, max: nat)
    requires Packed(a, max) && Packed(b, max) && Concat(a) == Concat(b)
    ensures a == b
  {
    var n := if |a| <= |b| then |a| else |b|;
    SamePrefix(a, b, n, max);
    assert a[..|a|] == a && b[..|b|] == b;
    if n < |b| { ConcatAt(b, n, 0); }
    if n < |a| { ConcatAt(a, n, 0); }
  }

  /**
   Packing "up to the limit" fails behind the first chunk: the second and third piece would
   fill a chunk exactly, and the loop still closes the second chunk between them.
   */
  lemma {:induction false} OverCountClosesEarly(a: Piece, b: Piece, c: Piece)
    requires a.text == "aaaaa" && b.text == "b" && c.text == "cc"
    ensures |Join([b, c])| == 5
    ensures Packed([[a], [b], [c]], 5) && !Packed([[a], [b, c]], 5)
  {
    assert Join([a]) == a.text && Join([b]) == b.text && Join([c]) == c.text;
    JoinMore([a], b);
    JoinMore([b], c);
    assert [a] + [b] == [a, b] && [b] + [c] == [b, c];
    var early, full := [[a], [b], [c]], [[a], [b, c]];
    assert forall i :: 0 <= i < 2 ==> early[i] + [early[i + 1][0]] == if i == 0 then [a, b] else [b, c];
    assert |full[1]| > 1;
  }

  /** Packing up to the limit: a chunk closes exactly when the next piece would take it past the limit. */
  ghost predicate Ideal(groups: seq<seq<Piece>>, max: nat) {
    && (forall i :: 0 <= i < |groups| ==> |groups[i]| > 0 && |Join(groups[i])| <= max)
    && (forall i :: 0 <= i < |groups| - 1 ==> |Join(groups[i] + [groups[i + 1][0]])| > max)
  }

  /**
   The loop packs up to the limit if and only if the ideal packing has, behind its first
   chunk, no chunk of several pieces that comes within two characters of the limit.
   */
  lemma {:induction false} PacksToTheLimitIff(groups: seq<seq<Piece>>, ideal: seq<seq<Piece>>, max: nat)
    requires Packed(groups, max) && Ideal(ideal, max) && Concat(groups) == Concat(ideal)
    ensures groups == ideal <==> forall i :: 0 < i < |ideal| && |ideal[i]| > 1 ==> |Join(ideal[i])| + 2 <= max
  {
    hide Join, Concat;
    if forall i :: 0 < i < |ideal| && |ideal[i]| > 1 ==> |Join(ideal[i])| + 2 <= max {
      assert Packed(ideal, max);
      SameGroups(groups, ideal, max);
    }
  }

  // ---- chunk_text ---------------------------------------------------------------------------------

  ghost function NextStart(text: string, spans: seq<Span>, i: nat): (b: nat) {
    if i < |spans| then spans[i].b else |text|
  }

  /** The state of the first loop behind i paragraphs: only whitespace between the offset and the next. */
  ghost predicate Searched(text: string, spans: seq<Span>, i: nat, offset: nat) {
    offset <= NextStart(text, spans, i) <= |text| && AllSpace(text, offset, NextStart(text, spans, i))
  }

  /** The first loop: paragraphs searched for from a running offset, each found at its true place. */
  method CutText(text: string, max: nat, overlap: nat) returns (pieces: seq<Piece>)
    requires overlap < max
    ensures pieces == Pieces(text, max, overlap)
  {
    hide Strip, LeadingSpace, Paragraphs, HasBreak, AllSpace, Cuts, Find, PiecesAt, PiecesOf, Searched;
    ParagraphsTile(text, 0);
    var spans := Paragraphs(text, 0);
    pieces := [];
    var offset: nat := 0;
    SearchBegins(text, spans, max, overlap);
    for i := 0 to |spans|
      invariant pieces == PiecesOf(text, spans[..i], max, overlap)
      invariant Searched(text, spans, i, offset)
    {
      var paragraph := text[spans[i].b..spans[i].e];
      var stripped := Strip(paragraph);
      PiecesOfMore(text, spans, i, max, overlap);
      if stripped == "" {
        BlankFound(text, spans, i, offset, max, overlap);
        offset := Find(text, paragraph, offset) + |paragraph|;
      } else {
        StrippedFound(text, spans, i, offset, max, overlap);
        var start := Find(text, stripped, offset);
        offset := start + |stripped|;
        var cut := CutParagraph(start, stripped, max, overlap);
        pieces := pieces + cut;
      }
    }
    assert spans[..|spans|] == spans;
  }

  lemma {:induction false} SearchBegins(text: string, spans: seq<Span>, max: nat, overlap: nat)
    requires overlap < max && Tiles(text, spans, 0)
    ensures Searched(text, spans, 0, 0) && PiecesOf(text, spans[..0], max, overlap) == []
  {
  }

  lemma {:induction false} PiecesOfMore(text: string, spans: seq<Span>, i: nat, max: nat, overlap: nat)
    requires overlap < max && i < |spans| && forall i :: 0 <= i < |spans| ==> spans[i].b <= spans[i].e <= |text|
    ensures PiecesOf(text, spans[..i + 1], max, overlap) == PiecesOf(text, spans[..i], max, overlap) + PiecesAt(text, spans[i], max, overlap)
  {
    assert spans[..i + 1][..i] == spans[..i];
  }

  lemma {:induction false} SpaceJoins(text: string, spans: seq<Span>, i: nat, offset: nat)
    requires Tiles(text, spans, 0) && i < |spans| && offset <= spans[i].e && AllSpace(text, offset, spans[i].e)
    ensures Searched(text, spans, i + 1, offset)
  {
    if i + 1 < |spans| { assert AllSpace(text, spans[i + 1 - 1].e, spans[i + 1].b); }
  }

  /** A paragraph of whitespace is found at its place or earlier in the whitespace before it. */
  lemma {:induction false} BlankFound(text: string, spans: seq<Span>, i: nat, offset: nat, max: nat, overlap: nat)
    requires overlap < max && Tiles(text, spans, 0) && i < |spans| && Searched(text, spans, i, offset)
    requires Strip(text[spans[i].b..spans[i].e]) == ""
    ensures var f := Find(text, text[spans[i].b..spans[i].e], offset);
      f >= 0 && Searched(text, spans, i + 1, f + (spans[i].e - spans[i].b))
    ensures PiecesAt(text, spans[i], max, overlap) == []
  {
    hide Strip, Find, Tiles, LeadingSpace, Cuts;
    TileBounds(text, spans, i);
    var span := spans[i];
    StrippedOccurs(text, span);
    assert Occurs(text, text[span.b..span.e], span.b);
    var f := Find(text, text[span.b..span.e], offset);
    assert offset <= f <= span.b;
    SpaceJoins(text, spans, i, f + (span.e - span.b));
  }

  lemma {:induction false} TileBounds(text: string, spans: seq<Span>, i: nat)
    requires Tiles(text, spans, 0) && i < |spans|
    ensures spans[i].b <= spans[i].e <= |text|
  {
  }

  /** A stripped paragraph is found at its true place: everything searched before is whitespace. */
  lemma {:induction false} StrippedFound(text: string, spans: seq<Span>, i: nat, offset: nat, max: nat, overlap: nat)
    requires overlap < max && Tiles(text, spans, 0) && i < |spans| && Searched(text, spans, i, offset)
    requires Strip(text[spans[i].b..spans[i].e]) != ""
    ensures var s := Strip(text[spans[i].b..spans[i].e]);
      && Find(text, s, offset) >= 0
      && Searched(text, spans, i + 1, Find(text, s, offset) + |s|)
      && PiecesAt(text, spans[i], max, overlap) == Cuts(Find(text, s, offset), s, max, overlap)
  {
    hide Strip, Find, LeadingSpace, IsSpace, Tiles, Cuts;
    TileBounds(text, spans, i);
    var span := spans[i];
    StrippedOccurs(text, span);
    var s := Strip(text[span.b..span.e]);
    var place := span.b + LeadingSpace(text[span.b..span.e]);
    var f := Find(text, s, offset);
    assert f != -1 && f <= place;
    assert text[f] == text[f..f + |s|][0] == s[0];
    assert f == place;
    SpaceJoins(text, spans, i, f + |s|);
  }

  lemma {:induction false} CutsFrom(start: nat, s: string, max: nat, overlap: nat, cursor: nat)
    requires overlap < max && cursor < |s|
    ensures var here := Cuts(start + cursor, s[cursor..], max, overlap);
      if cursor + max >= |s| then here == [Piece(start + cursor, s[cursor..|s|])]
      else here == [Piece(start + cursor, s[cursor..cursor + max])] + Cuts(start + cursor + max - overlap, s[cursor + max - overlap..], max, overlap)
  {
    assert s[cursor..|s|] == s[cursor..];
    if cursor + max < |s| {
      assert s[cursor..][..max] == s[cursor..cursor + max];
      assert s[cursor..][max - overlap..] == s[cursor + max - overlap..];
    }
  }

  method CutParagraph(start: nat, s: string, max: nat, overlap: nat) returns (pieces: seq<Piece>)
    requires overlap < max && s != ""
    ensures pieces == Cuts(start, s, max, overlap)
  {
    if |s| <= max {
      return [Piece(start, s)];
    }
    hide Cuts;
    pieces := [];
    var cursor := 0;
    assert s[0..] == s;
    while cursor < |s|
      invariant cursor < |s|
      invariant pieces + Cuts(start + cursor, s[cursor..], max, overlap) == Cuts(start, s, max, overlap)
      decreases |s| - cursor
    {
      CutsFrom(start, s, max, overlap, cursor);
      var end := if cursor + max < |s| then cursor + max else |s|;
      pieces := pieces + [Piece(start + cursor, s[cursor..end])];
      if end == |s| {
        break;
      }
      cursor := end - overlap;
    }
  }

  datatype Outcome = Chunks(chunks: seq<Piece>) | ValueError

  const DEFAULT_OVERLAP := 100

  /** What `chunk_text` returns: the one packing of the true pieces of the text. */
  ghost predicate Chunked(text: string, max: nat, overlap: nat, chunks: seq<Piece>) {
    overlap < max && IsPacking(Pieces(text, max, overlap), max, chunks)
  }

  method ChunkText(text: string, maxChars: int, overlap: Option<int>) returns (r: Outcome)
    ensures r.ValueError? <==> maxChars < 1 || (overlap.Some? && !(0 <= overlap.value < maxChars))
    ensures r.Chunks? && overlap.Some? ==> Chunked(text, maxChars, overlap.value, r.chunks)
    ensures r.Chunks? && overlap.None? ==>
      Chunked(text, maxChars, if maxChars / 8 < 100 then maxChars / 8 else 100, r.chunks)
  {
    hide IsPacking, Pieces;
    if maxChars < 1 {
      return ValueError;
    }
    var lap := if overlap.Some? then overlap.value else if maxChars / 8 < DEFAULT_OVERLAP then maxChars / 8 else DEFAULT_OVERLAP;
    if !(0 <= lap < maxChars) {
      return ValueError;
    }
    var pieces := CutText(text, maxChars, lap);
    PiecesAreFaithful(text, maxChars, lap);
    var chunks := Pack(pieces, maxChars);
    r := Chunks(chunks);
  }

  /** A chunk holds m characters of the text at k, verbatim, inside a piece it was packed from. */
  ghost predicate Quotes(text: string, chunk: Piece, k: nat, m: nat) {
    exists p: Piece, o: nat :: Occurs(text, p.text, p.start) && Occurs(chunk.text, p.text, o) && p.start <= k && k + m <= p.start + |p.text|
  }

  lemma {:induction false} JoinHolds(g: seq<Piece>, j: nat) returns (o: nat)
    requires j < |g|
    ensures Occurs(Join(g), g[j].text, o) && (j == 0 ==> o == 0)
  {
    var n := |g| - 1;
    if j == n {
      o := |Join(g)| - |g[n].text|;
    } else {
      o := JoinHolds(g[..n], j);
      assert Join(g)[o..o + |g[j].text|] == Join(g[..n])[o..o + |g[j].text|];
    }
  }

  lemma {:induction false} GroupOf(groups: seq<seq<Piece>>, n: nat) returns (i: nat, j: nat)
    requires n < |Concat(groups)|
    ensures i < |groups| && j < |groups[i]| && groups[i][j] == Concat(groups)[n]
  {
    var last := |groups| - 1;
    if n < |Concat(groups[..last])| {
      i, j := GroupOf(groups[..last], n);
    } else {
      i, j := last, n - |Concat(groups[..last])|;
    }
  }

  /** A piece of the text stands at the chunk's start and opens the chunk. */
  ghost predicate OpensWith(text: string, max: nat, chunk: Piece, p: Piece) {
    p.start == chunk.start && PieceOf(text, p, max) && p.text <= chunk.text
  }

  /** Every chunk fits the limit and opens with a whole piece, the text at its recorded start. */
  lemma {:induction false} ChunksFit(text: string, max: nat, overlap: nat, chunks: seq<Piece>, i: nat)
    requires Chunked(text, max, overlap, chunks) && i < |chunks|
    ensures 0 < |chunks[i].text| <= max
    ensures chunks[i].start < |text| && chunks[i].text[0] == text[chunks[i].start]
    ensures exists p :: p in Pieces(text, max, overlap) && OpensWith(text, max, chunks[i], p)
  {
    hide Pieces, Concat, Join;
    var groups :| Packed(groups, max) && Concat(groups) == Pieces(text, max, overlap) && chunks == Render(groups);
    PiecesAreFaithful(text, max, overlap);
    ConcatAt(groups, i, 0);
    var first := groups[i][0];
    assert PieceOf(text, first, max);
    var o := JoinHolds(groups[i], 0);
    assert text[first.start] == text[first.start..first.start + |first.text|][0];
    assert Join(groups[i])[0] == Join(groups[i])[0..|first.text|][0];
    assert Join(groups[i])[..|first.text|] == Join(groups[i])[0..|first.text|] == first.text;
    assert first in Pieces(text, max, overlap) && OpensWith(text, max, chunks[i], first);
  }

  /** Nothing is lost: a short passage within a paragraph is quoted whole by some chunk. */
  lemma {:induction false} ChunksQuotePassages(text: string, max: nat, overlap: nat, chunks: seq<Piece>, k: nat, m: nat)
    requires Chunked(text, max, overlap, chunks)
    requires 0 < m <= overlap + 1 && k + m <= |text| && !IsSpace(text[k]) && !IsSpace(text[k + m - 1]) && !HasBreak(text, k, k + m)
    ensures exists i :: 0 <= i < |chunks| && Quotes(text, chunks[i], k, m)
  {
    hide Pieces, IsSpace, HasBreak, Concat, Join;
    var pieces := Pieces(text, max, overlap);
    var groups :| Packed(groups, max) && Concat(groups) == pieces && chunks == Render(groups);
    PiecesAreFaithful(text, max, overlap);
    PiecesHoldPassages(text, max, overlap, k, m);
    var n :| 0 <= n < |pieces| && pieces[n].start <= k && k + m <= pieces[n].start + |pieces[n].text|;
    var i, j := GroupOf(groups, n);
    var o := JoinHolds(groups[i], j);
    var p := groups[i][j];
    assert p == pieces[n] && PieceOf(text, p, max);
    assert Quotes(text, chunks[i], k, m);
  }

  const EARLY := "aaaaa\n\nb\n\ncc"

  lemma {:induction false} EarlyBreaks()
    ensures BreakEnd(EARLY, 5) == Some(7) && BreakEnd(EARLY, 8) == Some(10)
  {
    var t := EARLY;
    assert LastNewline(t, 7) == None && LastNewline(t, 6) == Some(7) && LastNewline(t, 10) == None && LastNewline(t, 9) == Some(10);
  }

  lemma {:induction false} EarlyLetters(p: nat)
    requires p <= 5
    ensures NextBreak(EARLY, p) == 5
    decreases 5 - p
  {
    var t := EARLY;
    if p == 5 {
      EarlyBreaks();
      hide LastNewline;
    } else {
      EarlyLetters(p + 1);
      assert t[p] == 'a';
      hide LastNewline;
    }
  }

  lemma {:induction false} EarlyOthers()
    ensures NextBreak(EARLY, 7) == 8 && NextBreak(EARLY, 10) == 12
  {
    var t := EARLY;
    EarlyBreaks();
    hide LastNewline, IsSpace;
    assert NextBreak(t, 8) == 8;
    assert NextBreak(t, 12) == 12 && NextBreak(t, 11) == 12;
  }

  lemma {:induction false} EarlyParagraphs()
    ensures Paragraphs(EARLY, 0) == [Span(0, 5), Span(7, 8), Span(10, 12)]
  {
    var t := EARLY;
    EarlyBreaks();
    EarlyLetters(0);
    EarlyOthers();
    hide NextBreak, BreakEnd;
    assert Paragraphs(t, 10) == [Span(10, 12)];
    assert Paragraphs(t, 7) == [Span(7, 8)] + Paragraphs(t, 10);
    assert Paragraphs(t, 0) == [Span(0, 5)] + Paragraphs(t, 7);
  }

  /** A paragraph without whitespace that fits is one piece. */
  lemma {:induction false} OnePiece(text: string, span: Span, max: nat)
    requires span.b < span.e <= |text| && span.e - span.b <= max
    requires !IsSpace(text[span.b]) && !IsSpace(text[span.e - 1])
    ensures PiecesAt(text, span, max, 0) == [Piece(span.b, text[span.b..span.e])]
  {
    var s := text[span.b..span.e];
    assert LeadingSpace(s) == 0 && WithoutTrailing(s) == |s|;
    assert s[0..|s|] == s;
  }

  /** On this text, with a limit of five, `chunk_text` returns three chunks although two pieces fill one. */
  lemma {:induction false} TextClosesEarly(chunks: seq<Piece>)
    requires Chunked(EARLY, 5, 0, chunks)
    ensures chunks == [Piece(0, "aaaaa"), Piece(7, "b"), Piece(10, "cc")] && |"b" + "\n\n" + "cc"| == 5
  {
    hide Paragraphs, Pieces, Packed, Join, IsPacking;
    EarlyPieces();
    var a, b, c := Piece(0, "aaaaa"), Piece(7, "b"), Piece(10, "cc");
    OverCountClosesEarly(a, b, c);
    ThreeAlone(a, b, c);
    PackingOf([[a], [b], [c]], [a, b, c], 5);
    PackingIsUnique([a, b, c], 5, chunks, [a, b, c]);
  }

  lemma {:induction false} EarlyPieces()
    ensures Pieces(EARLY, 5, 0) == [Piece(0, "aaaaa"), Piece(7, "b"), Piece(10, "cc")]
  {
    hide Paragraphs, PiecesAt, PiecesOf, IsSpace, HasBreak, AllSpace;
    EarlyParagraphs();
    var spans := [Span(0, 5), Span(7, 8), Span(10, 12)];
    assert EARLY[0..5] == "aaaaa" && EARLY[7..8] == "b" && EARLY[10..12] == "cc";
    LettersAreNoSpace();
    OnePiece(EARLY, spans[0], 5);
    OnePiece(EARLY, spans[1], 5);
    OnePiece(EARLY, spans[2], 5);
    PiecesOfThree(EARLY, spans);
  }

  lemma {:induction false} LettersAreNoSpace()
    ensures !IsSpace('a') && !IsSpace('b') && !IsSpace('c')
  {
  }

  lemma {:induction false} PiecesOfThree(text: string, spans: seq<Span>)
    requires |spans| == 3 && forall i :: 0 <= i < 3 ==> spans[i].b <= spans[i].e <= |text|
    ensures PiecesOf(text, spans, 5, 0) == PiecesAt(text, spans[0], 5, 0) + PiecesAt(text, spans[1], 5, 0) + PiecesAt(text, spans[2], 5, 0)
  {
    hide PiecesAt;
    assert spans[..2][..1] == spans[..1] && spans[..1][..0] == [];
    assert PiecesOf(text, spans[..1], 5, 0) == PiecesAt(text, spans[0], 5, 0);
    assert PiecesOf(text, spans[..2], 5, 0) == PiecesAt(text, spans[0], 5, 0) + PiecesAt(text, spans[1], 5, 0);
  }

  lemma {:induction false} ThreeAlone(a: Piece, b: Piece, c: Piece)
    ensures Concat([[a], [b], [c]]) == [a, b, c] && Render([[a], [b], [c]]) == [a, b, c]
  {
    ConcatMore([[a], [b]], [c]);
    ConcatMore([[a]], [b]);
    ConcatMore([], [a]);
    assert [] + [[a]] == [[a]] && [[a]] + [[b]] == [[a], [b]] && [[a], [b]] + [[c]] == [[a], [b], [c]];
    hide Concat;
    assert Join([a]) == a.text && Join([b]) == b.text && Join([c]) == c.text;
  }
}
