/**
 The fence scanner of the file preview: it finds fenced code, which is copied as it is, and hands
 everything else to a linkifier.
 */
module Fences {
  import opened Wrappers

  // ---- Lines ---------------------------------------------------------------------------------

  /** The next line break from `i` on, or the end. */
  function LineEnd(s: string, i: nat): (r: nat)
    requires i <= |s|
    ensures i <= r <= |s|
    ensures forall k | i <= k < r :: s[k] != '\n'
    ensures r < |s| ==> s[r] == '\n'
    decreases |s| - i
  {
    if i == |s| || s[i] == '\n' then i else LineEnd(s, i + 1)
  }

  function Line(s: string, i: nat): string
    requires i <= |s|
  {
    s[i..LineEnd(s, i)]
  }

  /** The start of the line after the one at `i`, or the end. */
  function NextLine(s: string, i: nat): (r: nat)
    requires i <= |s|
    ensures r <= |s| && (i < |s| ==> i < r)
  {
    if LineEnd(s, i) < |s| then LineEnd(s, i) + 1 else |s|
  }

  /** How many times `c` stands at the head of `s`. */
  function Run(s: string, c: char): (r: nat)
    ensures r <= |s| && (forall k | 0 <= k < r :: s[k] == c) && (r < |s| ==> s[r] != c)
  {
    if s != [] && s[0] == c then Run(s[1..], c) + 1 else 0
  }

  datatype Fence = Fence(marker: char, length: nat)

  /** At most three spaces, then backticks or tildes; what follows is the rest of the line. */
  function FenceOf(line: string): Option<Fence> {
    var indent := Run(line, ' ');
    if indent > 3 || indent == |line| || line[indent] !in {'`', '~'} then None
    else Some(Fence(line[indent], Run(line[indent..], line[indent])))
  }

  /** An opening fence has at least three markers. */
  function OpeningFence(line: string): Option<Fence> {
    if FenceOf(line).Some? && FenceOf(line).value.length >= 3 then FenceOf(line) else None
  }

  predicate OnlyBlanks(s: string) {
    forall i | 0 <= i < |s| :: s[i] == ' ' || s[i] == '\t'
  }

  /** A closing fence has the same marker, is at least as long, and is followed by blanks only. */
  predicate Closes(line: string, opening: Fence) {
    && FenceOf(line).Some?
    && FenceOf(line).value.marker == opening.marker && FenceOf(line).value.length >= opening.length
    && Run(line, ' ') + FenceOf(line).value.length <= |line|
    && OnlyBlanks(line[Run(line, ' ') + FenceOf(line).value.length..])
  }

  /** What the scanner knows of fences. */
  datatype Grammar = Grammar(opens: string -> Option<Fence>, closes: (string, Fence) -> bool)

  const MARKDOWN := Grammar(OpeningFence, Closes)

  // ---- Scanning ------------------------------------------------------------------------------

  /** Behind the first closing line from `i` on, or the end. */
  function FenceEnd(g: Grammar, s: string, i: nat, opening: Fence): (r: nat)
    requires i <= |s|
    ensures i <= r <= |s|
    decreases |s| - i
  {
    if i == |s| then |s|
    else if g.closes(Line(s, i), opening) then NextLine(s, i)
    else FenceEnd(g, s, NextLine(s, i), opening)
  }

  datatype Piece = Plain(text: string) | Fenced(text: string)

  /** The pieces from `plainStart` on, with the lines before `lineStart` already looked at. */
  function Pieces(g: Grammar, s: string, plainStart: nat, lineStart: nat): (r: seq<Piece>)
    requires plainStart <= lineStart <= |s|
    decreases |s| - lineStart
  {
    if lineStart == |s| then [Plain(s[plainStart..])]
    else
      var opening := g.opens(Line(s, lineStart));
      if opening.None? then Pieces(g, s, plainStart, NextLine(s, lineStart))
      else
        var end := FenceEnd(g, s, NextLine(s, lineStart), opening.value);
        [Plain(s[plainStart..lineStart])] + ([Fenced(s[lineStart..end])] + Pieces(g, s, end, end))
  }

  function Rendered(pieces: seq<Piece>, linkify: string -> string): string {
    if pieces == [] then []
    else (if pieces[0].Plain? then linkify(pieces[0].text) else pieces[0].text) + Rendered(pieces[1..], linkify)
  }

  /** The markdown with its plain pieces linkified. */
  function LinkifiedMarkdown(markdown: string, linkify: string -> string): string {
    Rendered(Pieces(MARKDOWN, markdown, 0, 0), linkify)
  }

  lemma RenderTwo(s: string, plainStart: nat, lineStart: nat, end: nat, rest: seq<Piece>, linkify: string -> string)
    requires plainStart <= lineStart <= end <= |s|
    ensures Rendered([Plain(s[plainStart..lineStart])] + ([Fenced(s[lineStart..end])] + rest), linkify)
         == linkify(s[plainStart..lineStart]) + (s[lineStart..end] + Rendered(rest, linkify))
  {
    var pieces := [Plain(s[plainStart..lineStart])] + ([Fenced(s[lineStart..end])] + rest);
    assert pieces[1..] == [Fenced(s[lineStart..end])] + rest && pieces[1..][1..] == rest;
  }

  // ---- The program's loops -------------------------------------------------------------------

  method FindFenceEnd(g: Grammar, markdown: string, from: nat, opening: Fence) returns (fenceEnd: nat)
    requires from <= |markdown|
    ensures fenceEnd == FenceEnd(g, markdown, from, opening)
  {
    fenceEnd := |markdown|;
    var candidateStart := from;
    while candidateStart < |markdown|
      invariant candidateStart <= |markdown| && fenceEnd == |markdown|
      invariant FenceEnd(g, markdown, from, opening) == FenceEnd(g, markdown, candidateStart, opening)
      decreases |markdown| - candidateStart
    {
      var candidateEnd := LineEnd(markdown, candidateStart);
      var next := if candidateEnd < |markdown| then candidateEnd + 1 else |markdown|;
      if g.closes(markdown[candidateStart..candidateEnd], opening) { return next; }
      candidateStart := next;
    }
  }

  /** What is rendered so far, and what is still to be scanned, make up the result. */
  ghost predicate Scanned(
    g: Grammar, s: string, linkify: string -> string, all: string, result: string, plainStart: nat, lineStart: nat)
    requires plainStart <= lineStart <= |s|
  {
    all == result + Rendered(Pieces(g, s, plainStart, lineStart), linkify)
  }

  lemma FenceIsScanned(
    g: Grammar, s: string, linkify: string -> string, all: string, result: string, plainStart: nat, lineStart: nat, end: nat)
    requires plainStart <= lineStart < |s| && g.opens(Line(s, lineStart)).Some?
    requires end == FenceEnd(g, s, NextLine(s, lineStart), g.opens(Line(s, lineStart)).value)
    requires Scanned(g, s, linkify, all, result, plainStart, lineStart)
    ensures lineStart < end && Scanned(g, s, linkify, all, result + linkify(s[plainStart..lineStart]) + s[lineStart..end], end, end)
  {
    var rest := Pieces(g, s, end, end);
    RenderTwo(s, plainStart, lineStart, end, rest, linkify);
    Regroup(result, linkify(s[plainStart..lineStart]), s[lineStart..end], Rendered(rest, linkify));
  }

  lemma Regroup(a: string, b: string, c: string, d: string)
    ensures a + (b + (c + d)) == a + b + c + d
  {
  }

  lemma PlainLineIsScanned(
    g: Grammar, s: string, linkify: string -> string, all: string, result: string, plainStart: nat, lineStart: nat)
    requires plainStart <= lineStart < |s| && g.opens(Line(s, lineStart)).None?
    requires Scanned(g, s, linkify, all, result, plainStart, lineStart)
    ensures Scanned(g, s, linkify, all, result, plainStart, NextLine(s, lineStart))
  {
  }

  lemma RestIsScanned(
    g: Grammar, s: string, linkify: string -> string, all: string, result: string, plainStart: nat)
    requires plainStart <= |s| && Scanned(g, s, linkify, all, result, plainStart, |s|)
    ensures all == result + linkify(s[plainStart..])
  {
    var pieces := [Plain(s[plainStart..])];
    assert Pieces(g, s, plainStart, |s|) == pieces && pieces[1..] == [];
    assert Rendered(pieces, linkify) == linkify(s[plainStart..]) + [] == linkify(s[plainStart..]);
  }

  /** The plain text before a fence, linkified, and the fence as it is. */
  method CopyFence(
    g: Grammar, markdown: string, linkifyInlineCode: string -> string, ghost all: string,
    before: string, plainStart: nat, lineStart: nat, opening: Fence) returns (result: string, fenceEnd: nat)
    requires plainStart <= lineStart < |markdown| && g.opens(Line(markdown, lineStart)) == Some(opening)
    requires Scanned(g, markdown, linkifyInlineCode, all, before, plainStart, lineStart)
    ensures lineStart < fenceEnd <= |markdown| && Scanned(g, markdown, linkifyInlineCode, all, result, fenceEnd, fenceEnd)
  {
    fenceEnd := FindFenceEnd(g, markdown, NextLine(markdown, lineStart), opening);
    FenceIsScanned(g, markdown, linkifyInlineCode, all, before, plainStart, lineStart, fenceEnd);
    result := before + linkifyInlineCode(markdown[plainStart..lineStart]);
    result := result + markdown[lineStart..fenceEnd];
  }

  method Scan(g: Grammar, markdown: string, linkifyInlineCode: string -> string) returns (result: string)
    ensures result == Rendered(Pieces(g, markdown, 0, 0), linkifyInlineCode)
  {
    ghost var all := Rendered(Pieces(g, markdown, 0, 0), linkifyInlineCode);
    result := "";
    var plainStart, lineStart := 0, 0;
    assert "" + all == all;
    while lineStart < |markdown|
      invariant plainStart <= lineStart <= |markdown|
      invariant Scanned(g, markdown, linkifyInlineCode, all, result, plainStart, lineStart)
      decreases |markdown| - lineStart
    {
      var openingFence := g.opens(Line(markdown, lineStart));
      if openingFence.None? {
        PlainLineIsScanned(g, markdown, linkifyInlineCode, all, result, plainStart, lineStart);
        lineStart := NextLine(markdown, lineStart);
        continue;
      }
      result, lineStart := CopyFence(g, markdown, linkifyInlineCode, all, result, plainStart, lineStart, openingFence.value);
      plainStart := lineStart;
    }
    RestIsScanned(g, markdown, linkifyInlineCode, all, result, plainStart);
    result := result + linkifyInlineCode(markdown[plainStart..]);
  }

  method LinkifyPreviewableInlineCode(markdown: string, linkifyInlineCode: string -> string) returns (result: string)
    ensures result == LinkifiedMarkdown(markdown, linkifyInlineCode)
  {
    result := Scan(MARKDOWN, markdown, linkifyInlineCode);
  }

  // ---- What the pieces are -------------------------------------------------------------------

  function Text(pieces: seq<Piece>): string {
    if pieces == [] then [] else pieces[0].text + Text(pieces[1..])
  }

  lemma TextOfTwo(s: string, plainStart: nat, lineStart: nat, end: nat, rest: seq<Piece>)
    requires plainStart <= lineStart <= end <= |s| && Text(rest) == s[end..]
    ensures Text([Plain(s[plainStart..lineStart])] + ([Fenced(s[lineStart..end])] + rest)) == s[plainStart..]
  {
    var pieces := [Plain(s[plainStart..lineStart])] + ([Fenced(s[lineStart..end])] + rest);
    assert pieces[1..] == [Fenced(s[lineStart..end])] + rest && pieces[1..][1..] == rest;
    assert s[plainStart..lineStart] + (s[lineStart..end] + s[end..]) == s[plainStart..];
  }

  /** No text is lost or moved. */
  lemma {:induction false} PiecesMakeUpTheText(g: Grammar, s: string, plainStart: nat, lineStart: nat)
    requires plainStart <= lineStart <= |s|
    ensures Text(Pieces(g, s, plainStart, lineStart)) == s[plainStart..]
    decreases |s| - lineStart
  {
    if lineStart == |s| {
      assert Pieces(g, s, plainStart, lineStart)[1..] == [];
    } else {
      var opening := g.opens(Line(s, lineStart));
      if opening.None? {
        PiecesMakeUpTheText(g, s, plainStart, NextLine(s, lineStart));
      } else {
        var end := FenceEnd(g, s, NextLine(s, lineStart), opening.value);
        PiecesMakeUpTheText(g, s, end, end);
        TextOfTwo(s, plainStart, lineStart, end, Pieces(g, s, end, end));
      }
    }
  }

  lemma {:induction false} IdentityRendersText(pieces: seq<Piece>, linkify: string -> string)
    requires forall text :: linkify(text) == text
    ensures Rendered(pieces, linkify) == Text(pieces)
    decreases |pieces|
  {
    if pieces != [] { IdentityRendersText(pieces[1..], linkify); }
  }

  /** A linkifier that changes nothing leaves the markdown as it is. */
  lemma IdentityLinkifierIsIdentity(markdown: string, linkify: string -> string)
    requires forall text :: linkify(text) == text
    ensures LinkifiedMarkdown(markdown, linkify) == markdown
  {
    IdentityRendersText(Pieces(MARKDOWN, markdown, 0, 0), linkify);
    PiecesMakeUpTheText(MARKDOWN, markdown, 0, 0);
    assert markdown[0..] == markdown;
  }

  // ---- Where the pieces are cut --------------------------------------------------------------

  /** `i` starts a line, or is the end. */
  ghost predicate StartsLine(s: string, i: nat) {
    i <= |s| && (i == 0 || i == |s| || s[i - 1] == '\n')
  }

  lemma NextLineStartsLine(s: string, i: nat)
    requires i < |s|
    ensures StartsLine(s, NextLine(s, i))
    ensures forall k: nat | i < k < NextLine(s, i) :: !StartsLine(s, k)
  {
  }

  /** No line that starts in this range closes the fence. */
  ghost predicate NoneCloses(g: Grammar, s: string, from: nat, upTo: nat, opening: Fence)
    requires upTo <= |s|
  {
    forall i: nat | from <= i < upTo && StartsLine(s, i) :: !g.closes(Line(s, i), opening)
  }

  /** `last` is the first line from `from` on that closes the fence, and `end` is just behind it. */
  ghost predicate ClosedBy(g: Grammar, s: string, from: nat, end: nat, opening: Fence, last: nat) {
    && from <= last < end <= |s| && StartsLine(s, last) && g.closes(Line(s, last), opening)
    && end == NextLine(s, last) && NoneCloses(g, s, from, last, opening)
  }

  /** The fence ends just behind the first line that closes it, or, without one, at the end of the text. */
  ghost predicate EndsFence(g: Grammar, s: string, from: nat, end: nat, opening: Fence) {
    && StartsLine(s, end)
    && ((exists last: nat :: ClosedBy(g, s, from, end, opening, last)) || (end == |s| && NoneCloses(g, s, from, |s|, opening)))
  }

  lemma NoneClosesFrom(g: Grammar, s: string, i: nat, upTo: nat, opening: Fence)
    requires i < |s| && NextLine(s, i) <= upTo <= |s| && !g.closes(Line(s, i), opening)
    requires NoneCloses(g, s, NextLine(s, i), upTo, opening)
    ensures NoneCloses(g, s, i, upTo, opening)
  {
    NextLineStartsLine(s, i);
  }

  lemma EndsFenceFrom(g: Grammar, s: string, i: nat, end: nat, opening: Fence)
    requires i < |s| && !g.closes(Line(s, i), opening) && EndsFence(g, s, NextLine(s, i), end, opening)
    ensures EndsFence(g, s, i, end, opening)
  {
    var n := NextLine(s, i);
    if last: nat :| ClosedBy(g, s, n, end, opening, last) {
      NoneClosesFrom(g, s, i, last, opening);
      assert ClosedBy(g, s, i, end, opening, last);
    } else {
      NoneClosesFrom(g, s, i, |s|, opening);
    }
  }

  lemma {:induction false} FenceEndIsFirst(g: Grammar, s: string, i: nat, opening: Fence)
    requires i <= |s| && StartsLine(s, i)
    ensures EndsFence(g, s, i, FenceEnd(g, s, i, opening), opening)
    decreases |s| - i
  {
    if i < |s| {
      NextLineStartsLine(s, i);
      if g.closes(Line(s, i), opening) {
        assert ClosedBy(g, s, i, NextLine(s, i), opening, i);
      } else {
        FenceEndIsFirst(g, s, NextLine(s, i), opening);
        EndsFenceFrom(g, s, i, FenceEnd(g, s, NextLine(s, i), opening), opening);
      }
    }
  }

  /** The text from `start` to `end` is a fence: it starts with an opening line and ends as that fence ends. */
  ghost predicate IsFence(g: Grammar, s: string, start: nat, end: nat) {
    && start < end <= |s| && StartsLine(s, start) && g.opens(Line(s, start)).Some?
    && EndsFence(g, s, NextLine(s, start), end, g.opens(Line(s, start)).value)
  }

  ghost predicate OpensNone(g: Grammar, s: string, from: nat, upTo: nat)
    requires upTo <= |s|
  {
    forall i: nat | from <= i < upTo && StartsLine(s, i) :: g.opens(Line(s, i)).None?
  }

  /** Where the pieces stand: fenced ones are fences, and no line of a plain one opens a fence. */
  ghost predicate WellCut(g: Grammar, s: string, pieces: seq<Piece>, at: nat)
    decreases |pieces|
  {
    if pieces == [] then at == |s|
    else
      var end := at + |pieces[0].text|;
      && end <= |s| && pieces[0].text == s[at..end]
      && (pieces[0].Fenced? ==> IsFence(g, s, at, end))
      && (pieces[0].Plain? ==> OpensNone(g, s, at, end))
      && WellCut(g, s, pieces[1..], end)
  }

  lemma OneInFront(g: Grammar, s: string, at: nat, end: nat, piece: Piece, rest: seq<Piece>)
    requires at <= end <= |s| && piece.text == s[at..end] && WellCut(g, s, rest, end)
    requires piece.Fenced? ==> IsFence(g, s, at, end)
    requires piece.Plain? ==> OpensNone(g, s, at, end)
    ensures WellCut(g, s, [piece] + rest, at)
  {
    assert |piece.text| == end - at;
    assert ([piece] + rest)[1..] == rest;
  }

  lemma TwoInFront(
    g: Grammar, s: string, plainStart: nat, lineStart: nat, end: nat, plain: Piece, fenced: Piece, rest: seq<Piece>)
    requires plainStart <= lineStart < end <= |s| && WellCut(g, s, rest, end) && IsFence(g, s, lineStart, end)
    requires OpensNone(g, s, plainStart, lineStart)
    requires plain == Plain(s[plainStart..lineStart]) && fenced == Fenced(s[lineStart..end])
    ensures WellCut(g, s, [plain] + ([fenced] + rest), plainStart)
  {
    OneInFront(g, s, lineStart, end, fenced, rest);
    OneInFront(g, s, plainStart, lineStart, plain, [fenced] + rest);
  }

  lemma LastPiece(g: Grammar, s: string, plainStart: nat, pieces: seq<Piece>)
    requires plainStart <= |s| && OpensNone(g, s, plainStart, |s|) && pieces == [Plain(s[plainStart..])]
    ensures WellCut(g, s, pieces, plainStart)
  {
    OneInFront(g, s, plainStart, |s|, Plain(s[plainStart..]), []);
    assert [Plain(s[plainStart..])] + [] == pieces;
  }

  lemma OpensNoneTo(g: Grammar, s: string, plainStart: nat, lineStart: nat)
    requires plainStart <= lineStart < |s| && OpensNone(g, s, plainStart, lineStart) && g.opens(Line(s, lineStart)).None?
    ensures OpensNone(g, s, plainStart, NextLine(s, lineStart))
  {
    NextLineStartsLine(s, lineStart);
  }

  lemma {:induction false} PiecesAreWellCut(g: Grammar, s: string, plainStart: nat, lineStart: nat)
    requires plainStart <= lineStart <= |s| && StartsLine(s, lineStart) && OpensNone(g, s, plainStart, lineStart)
    ensures WellCut(g, s, Pieces(g, s, plainStart, lineStart), plainStart)
    decreases |s| - lineStart
  {
    if lineStart == |s| {
      LastPiece(g, s, plainStart, Pieces(g, s, plainStart, lineStart));
    } else {
      var opening, n := g.opens(Line(s, lineStart)), NextLine(s, lineStart);
      NextLineStartsLine(s, lineStart);
      if opening.None? {
        OpensNoneTo(g, s, plainStart, lineStart);
        PiecesAreWellCut(g, s, plainStart, n);
      } else {
        var end := FenceEnd(g, s, n, opening.value);
        FenceEndIsFirst(g, s, n, opening.value);
        PiecesAreWellCut(g, s, end, end);
        TwoInFront(g, s, plainStart, lineStart, end, Plain(s[plainStart..lineStart]), Fenced(s[lineStart..end]), Pieces(g, s, end, end));
      }
    }
  }

  /**
   Every fenced piece runs from its opening line to just behind the first line that closes it, or
   to the end of the text; no line of a plain piece opens a fence.
   */
  lemma ScannedTextIsWellCut(markdown: string)
    ensures WellCut(MARKDOWN, markdown, Pieces(MARKDOWN, markdown, 0, 0), 0)
  {
    PiecesAreWellCut(MARKDOWN, markdown, 0, 0);
  }

  /** Behind `indent` spaces stand `length` markers, and no more of them. */
  predicate HasRun(line: string, indent: nat, marker: char, length: nat) {
    && indent + length <= |line|
    && (forall k | 0 <= k < indent :: line[k] == ' ')
    && (forall k | indent <= k < indent + length :: line[k] == marker)
    && (indent + length < |line| ==> line[indent + length] != marker)
  }

  lemma FenceOfRun(line: string, indent: nat, marker: char, length: nat)
    requires HasRun(line, indent, marker, length) && length > 0 && marker in {'`', '~'}
    ensures Run(line, ' ') == indent
    ensures FenceOf(line) == if indent <= 3 then Some(Fence(marker, length)) else None
  {
    RunIs(line[..indent], line[indent..], ' ');
    assert line[..indent] + line[indent..] == line;
    RunIs(line[indent..indent + length], line[indent + length..], marker);
    assert line[indent..indent + length] + line[indent + length..] == line[indent..];
  }

  lemma RunOfFence(line: string)
    requires FenceOf(line).Some?
    ensures var fence := FenceOf(line).value;
            && fence.length > 0 && fence.marker in {'`', '~'} && Run(line, ' ') <= 3
            && HasRun(line, Run(line, ' '), fence.marker, fence.length)
  {
    var indent := Run(line, ' ');
    var rest := line[indent..];
    assert forall k | 0 <= k < |rest| :: rest[k] == line[indent + k];
    forall k | indent <= k < indent + FenceOf(line).value.length ensures line[k] == line[indent] { assert rest[k - indent] == line[indent]; }
  }

  /** For every line: a fence opens on three or more of a marker, indented by at most three spaces, whatever follows. */
  lemma OpeningLineIff(line: string, marker: char, length: nat)
    ensures OpeningFence(line) == Some(Fence(marker, length))
            <==> && marker in {'`', '~'} && length >= 3
                 && exists indent: nat :: indent <= 3 && HasRun(line, indent, marker, length)
  {
    if OpeningFence(line) == Some(Fence(marker, length)) { RunOfFence(line); }
    forall indent: nat | indent <= 3 && HasRun(line, indent, marker, length) && marker in {'`', '~'} && length >= 3
      ensures OpeningFence(line) == Some(Fence(marker, length))
    {
      FenceOfRun(line, indent, marker, length);
    }
  }

  /** For every line: a fence closes on its own marker, as often as it opened or more, with nothing behind it but blanks. */
  lemma ClosingLineIff(line: string, opening: Fence)
    requires opening.marker in {'`', '~'} && opening.length > 0
    ensures Closes(line, opening)
            <==> exists indent: nat, length: nat ::
                   indent <= 3 && length >= opening.length && HasRun(line, indent, opening.marker, length) && OnlyBlanks(line[indent + length..])
  {
    if Closes(line, opening) {
      RunOfFence(line);
      assert HasRun(line, Run(line, ' '), opening.marker, FenceOf(line).value.length);
    }
    forall indent: nat, length: nat | indent <= 3 && length >= opening.length && HasRun(line, indent, opening.marker, length)
      ensures OnlyBlanks(line[indent + length..]) ==> Closes(line, opening)
    {
      FenceOfRun(line, indent, opening.marker, length);
    }
  }

  lemma {:induction false} RunIs(head: string, tail: string, c: char)
    requires (forall i | 0 <= i < |head| :: head[i] == c) && (tail == [] || tail[0] != c)
    ensures Run(head + tail, c) == |head|
    decreases |head|
  {
    if head != [] {
      RunIs(head[1..], tail, c);
      assert (head + tail)[1..] == head[1..] + tail;
    } else {
      assert head + tail == tail;
    }
  }
}
