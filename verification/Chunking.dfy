/**
  Structure-aware chunking (`chunk_markdown`, src/aegis_common/chunking.py:22-47).

  The heading pattern is not modelled: its matches on the stripped text are a parameter, a list of
  disjoint, non-blank spans in text order.
*/
module Chunking {
  import opened Windows

  datatype Chunk = Chunk(text: string, ordinal: nat, heading: string)

  datatype Section = Section(heading: string, body: string) {
    function Content(): string {
      if heading != "" then Strip(heading + "\n" + body) else body
    }
  }

  /** A heading match: the characters from start up to end. */
  datatype Span = Span(start: nat, end: nat)

  // ----- White space -----

  /** What Python's str.isspace and str.strip take for white space. */
  predicate IsSpace(c: char) {
    || '\U{0009}' <= c <= '\U{000D}' || '\U{001C}' <= c <= '\U{0020}'
    || c == '\U{0085}' || c == '\U{00A0}' || c == '\U{1680}' || '\U{2000}' <= c <= '\U{200A}'
    || c == '\U{2028}' || c == '\U{2029}' || c == '\U{202F}' || c == '\U{205F}' || c == '\U{3000}'
  }

  function Strip(s: string): string {
    if s != "" && IsSpace(s[0]) then Strip(s[1..])
    else if s != "" && IsSpace(s[|s| - 1]) then Strip(s[..|s| - 1])
    else s
  }

  /** The characters of a text that are not white space, in order. */
  function Squeeze(s: string): string {
    if s == "" then ""
    else Squeeze(s[..|s| - 1]) + if IsSpace(s[|s| - 1]) then "" else [s[|s| - 1]]
  }

  lemma {:induction false} SqueezeAppends(a: string, b: string)
    ensures Squeeze(a + b) == Squeeze(a) + Squeeze(b)
  {
    if b == "" {
      assert a + b == a;
    } else {
      SqueezeAppends(a, b[..|b| - 1]);
      assert (a + b)[..|a + b| - 1] == a + b[..|b| - 1];
    }
  }

  lemma SqueezeSplits(text: string, from: nat, mid: nat, to: nat)
    requires from <= mid <= to <= |text|
    ensures Squeeze(text[from..to]) == Squeeze(text[from..mid]) + Squeeze(text[mid..to])
  {
    assert text[from..to] == text[from..mid] + text[mid..to];
    SqueezeAppends(text[from..mid], text[mid..to]);
  }

  lemma SqueezeNewline()
    ensures Squeeze("\n") == ""
  {
    assert "\n"[..0] == "";
  }

  lemma {:induction false} StripKeeps(s: string)
    ensures Squeeze(Strip(s)) == Squeeze(s)
  {
    if s != "" && IsSpace(s[0]) {
      StripKeeps(s[1..]);
      SqueezeAppends([s[0]], s[1..]);
      assert s == [s[0]] + s[1..];
    } else if s != "" && IsSpace(s[|s| - 1]) {
      StripKeeps(s[..|s| - 1]);
    }
  }

  lemma {:induction false} StripEmptyIff(s: string)
    ensures Strip(s) == "" <==> Squeeze(s) == ""
  {
    StripKeeps(s);
    StripEnds(s);
    var t := Strip(s);
    if t != "" {
      assert Squeeze(t) == Squeeze(t[..|t| - 1]) + [t[|t| - 1]];
    }
  }

  lemma {:induction false} StripEnds(s: string)
    ensures Strip(s) != "" ==> !IsSpace(Strip(s)[|Strip(s)| - 1])
  {
    if s != "" && IsSpace(s[0]) {
      StripEnds(s[1..]);
    } else if s != "" && IsSpace(s[|s| - 1]) {
      StripEnds(s[..|s| - 1]);
    }
  }

  predicate Blank(s: string) {
    forall i :: 0 <= i < |s| ==> IsSpace(s[i])
  }

  /** t is what is left of s when the blanks at both ends are cut off, and no more. */
  ghost predicate Trimmed(s: string, t: string, from: nat, to: nat) {
    && from <= to <= |s| && t == s[from..to] && Blank(s[..from]) && Blank(s[to..])
    && (t != "" ==> !IsSpace(t[0]) && !IsSpace(t[|t| - 1]))
  }

  lemma {:induction false} StripCuts(s: string) returns (from: nat, to: nat)
    ensures Trimmed(s, Strip(s), from, to)
  {
    hide Trimmed, IsSpace;
    if s != "" && IsSpace(s[0]) {
      from, to := StripCuts(s[1..]);
      BlankBefore(s[0], s[1..], Strip(s), from, to);
      from, to := from + 1, to + 1;
      assert [s[0]] + s[1..] == s;
    } else if s != "" && IsSpace(s[|s| - 1]) {
      from, to := StripCuts(s[..|s| - 1]);
      BlankAfter(s[..|s| - 1], s[|s| - 1], Strip(s), from, to);
      assert s[..|s| - 1] + [s[|s| - 1]] == s;
    } else {
      from, to := 0, |s|;
      AlreadyTrimmed(s);
    }
  }

  lemma AlreadyTrimmed(s: string)
    requires s != "" ==> !IsSpace(s[0]) && !IsSpace(s[|s| - 1])
    ensures Trimmed(s, s, 0, |s|)
  {
    assert s[0..|s|] == s && s[..0] == "" && s[|s|..] == "";
  }

  lemma BlankBefore(c: char, s: string, t: string, from: nat, to: nat)
    requires IsSpace(c) && Trimmed(s, t, from, to)
    ensures Trimmed([c] + s, t, from + 1, to + 1)
  {
    hide IsSpace;
    var all := [c] + s;
    assert all[from + 1..to + 1] == s[from..to];
    assert all[..from + 1] == [c] + s[..from];
    assert all[to + 1..] == s[to..];
  }

  lemma BlankAfter(s: string, c: char, t: string, from: nat, to: nat)
    requires IsSpace(c) && Trimmed(s, t, from, to)
    ensures Trimmed(s + [c], t, from, to)
  {
    hide IsSpace;
    var all := s + [c];
    assert all[from..to] == s[from..to];
    assert all[..from] == s[..from];
    assert all[to..] == s[to..] + [c];
  }

  /** strip cuts off the blanks at both ends, and no more. */
  lemma StripTrims(s: string)
    ensures exists from: nat, to: nat :: Trimmed(s, Strip(s), from, to)
  {
    var from, to := StripCuts(s);
  }

  // ----- Sections -----

  ghost predicate ValidSpans(text: string, spans: seq<Span>) {
    && (forall i :: 0 <= i < |spans| ==> spans[i].start <= spans[i].end <= |text|)
    && (forall i :: 0 <= i < |spans| ==> Squeeze(text[spans[i].start..spans[i].end]) != "")
    && (forall i :: 0 < i < |spans| ==> spans[i - 1].end <= spans[i].start)
  }

  /** Where the section of heading i ends: at the next heading, or with the text. */
  function SectionEnd(text: string, spans: seq<Span>, i: nat): nat {
    if i + 1 < |spans| then spans[i + 1].start else |text|
  }

  function HeadedSection(text: string, spans: seq<Span>, i: nat): Section
    requires ValidSpans(text, spans) && i < |spans|
  {
    var m := spans[i];
    Section(Strip(text[m.start..m.end]), Strip(text[m.end..SectionEnd(text, spans, i)]))
  }

  /** What chunk_markdown cuts the stripped text into before it cuts by size. */
  function Sections(text: string, spans: seq<Span>): (out: seq<Section>)
    requires ValidSpans(text, spans)
    ensures spans != [] ==> |out| == |spans| && forall i :: 0 <= i < |spans| ==> out[i] == HeadedSection(text, spans, i)
  {
    if spans == [] then [Section("", text)]
    else seq(|spans|, i requires 0 <= i < |spans| => HeadedSection(text, spans, i))
  }

  ghost predicate AllTerminate(sections: seq<Section>, maxChars: nat, overlap: int) {
    forall i :: 0 <= i < |sections| ==> Terminates(sections[i].Content(), maxChars, overlap)
  }

  // ----- Chunks -----

  function Numbered(pieces: seq<string>, heading: string, from: nat): (out: seq<Chunk>)
    ensures |out| == |pieces|
    ensures forall k :: 0 <= k < |out| ==> out[k] == Chunk(pieces[k], from + k, heading)
  {
    if pieces == [] then []
    else Numbered(pieces[..|pieces| - 1], heading, from)
         + [Chunk(pieces[|pieces| - 1], from + |pieces| - 1, heading)]
  }

  /** The windows of every section in turn, numbered through. */
  function ChunksOf(sections: seq<Section>, maxChars: nat, overlap: int): seq<Chunk>
    requires AllTerminate(sections, maxChars, overlap)
  {
    if sections == [] then []
    else
      var last := sections[|sections| - 1];
      var earlier := ChunksOf(sections[..|sections| - 1], maxChars, overlap);
      earlier + Numbered(WindowList(last.Content(), maxChars, overlap), last.heading, |earlier|)
  }

  /** The first half of chunk_markdown: (heading, body) pairs by heading lines. */
  method SplitSections(text: string, spans: seq<Span>) returns (sections: seq<Section>)
    requires ValidSpans(text, spans)
    ensures sections == Sections(text, spans)
  {
    hide Strip, Squeeze, IsSpace;
    sections := [];
    if spans == [] {
      sections := sections + [Section("", text)];
    } else {
      for idx := 0 to |spans|
        invariant |sections| == idx
        invariant forall i :: 0 <= i < idx ==> sections[i] == HeadedSection(text, spans, i)
      {
        var m := spans[idx];
        var heading := Strip(text[m.start..m.end]);
        var end := if idx + 1 < |spans| then spans[idx + 1].start else |text|;
        sections := sections + [Section(heading, Strip(text[m.end..end]))];
      }
    }
  }

  /** The inner loop of chunk_markdown: label the pieces of one section and count on. */
  method AppendPieces(chunks: seq<Chunk>, pieces: seq<string>, heading: string) returns (out: seq<Chunk>)
    ensures out == chunks + Numbered(pieces, heading, |chunks|)
  {
    out := chunks;
    var ordinal := |chunks|;
    for k := 0 to |pieces|
      invariant ordinal == |out| == |chunks| + k
      invariant out == chunks + Numbered(pieces, heading, |chunks|)[..k]
    {
      out := out + [Chunk(pieces[k], ordinal, heading)];
      ordinal := ordinal + 1;
    }
  }

  /** The second half of chunk_markdown: size-bound each section. */
  method ChunkSections(sections: seq<Section>, maxChars: nat, overlap: int) returns (chunks: seq<Chunk>)
    requires AllTerminate(sections, maxChars, overlap)
    ensures chunks == ChunksOf(sections, maxChars, overlap)
  {
    chunks := [];
    for i := 0 to |sections|
      invariant chunks == ChunksOf(sections[..i], maxChars, overlap)
    {
      var content := sections[i].Content();
      var pieces := Window(content, maxChars, overlap);
      assert pieces == WindowList(content, maxChars, overlap);
      chunks := AppendPieces(chunks, pieces, sections[i].heading);
      ChunksSnoc(sections, i, maxChars, overlap);
    }
    assert sections[..|sections|] == sections;
  }

  lemma ChunksSnoc(sections: seq<Section>, i: nat, maxChars: nat, overlap: int)
    requires AllTerminate(sections, maxChars, overlap) && i < |sections|
    ensures var earlier := ChunksOf(sections[..i], maxChars, overlap);
            ChunksOf(sections[..i + 1], maxChars, overlap)
              == earlier + Numbered(WindowList(sections[i].Content(), maxChars, overlap), sections[i].heading, |earlier|)
  {
    assert sections[..i + 1][..i] == sections[..i];
  }

  method ChunkMarkdown(source: string, spans: seq<Span>, maxChars: nat, overlap: int) returns (chunks: seq<Chunk>)
    requires ValidSpans(Strip(source), spans)
    requires AllTerminate(Sections(Strip(source), spans), maxChars, overlap)
    ensures chunks == if Strip(source) == "" then [] else ChunksOf(Sections(Strip(source), spans), maxChars, overlap)
  {
    var text := Strip(source);
    if text == "" {
      return [];
    }
    var sections := SplitSections(text, spans);
    chunks := ChunkSections(sections, maxChars, overlap);
  }

  // ----- What the chunks are worth -----

  /** How many windows the sections have together. */
  function WindowsIn(sections: seq<Section>, maxChars: nat, overlap: int): nat
    requires AllTerminate(sections, maxChars, overlap)
  {
    if sections == [] then 0
    else
      var content := sections[|sections| - 1].Content();
      WindowsIn(sections[..|sections| - 1], maxChars, overlap) + |WindowList(content, maxChars, overlap)|
  }

  /** The chunk is window j of section i, under that section's heading. */
  ghost predicate IsWindow(sections: seq<Section>, maxChars: nat, overlap: int, c: Chunk, i: nat, j: nat)
    requires AllTerminate(sections, maxChars, overlap)
  {
    && i < |sections| && c.heading == sections[i].heading
    && j < |WindowList(sections[i].Content(), maxChars, overlap)|
    && c.text == Piece(sections[i].Content(), maxChars, overlap, j)
    && c.ordinal == WindowsIn(sections[..i], maxChars, overlap) + j
  }

  lemma {:induction false} ChunkCount(sections: seq<Section>, maxChars: nat, overlap: int)
    requires AllTerminate(sections, maxChars, overlap)
    ensures |ChunksOf(sections, maxChars, overlap)| == WindowsIn(sections, maxChars, overlap)
  {
    if sections == [] {
    } else {
      ChunkCount(sections[..|sections| - 1], maxChars, overlap);
    }
  }

  /** The k-th chunk has ordinal k, fits, and is a window of one section, with the heading of that section. */
  lemma {:induction false} ChunkShape(sections: seq<Section>, maxChars: nat, overlap: nat, k: nat)
    requires AllTerminate(sections, maxChars, overlap)
    requires k < |ChunksOf(sections, maxChars, overlap)|
    ensures var c := ChunksOf(sections, maxChars, overlap)[k];
            && c.ordinal == k
            && 0 < |c.text| <= maxChars
            && exists i: nat, j: nat :: IsWindow(sections, maxChars, overlap, c, i, j)
  {
    hide ChunksOf, WindowList, IsWindow, AllTerminate;
    SomeSections(sections, maxChars, overlap);
    var fewer := sections[..|sections| - 1];
    if k < |ChunksOf(fewer, maxChars, overlap)| {
      ChunkShape(fewer, maxChars, overlap, k);
      var c := ChunksOf(fewer, maxChars, overlap)[k];
      var i: nat, j: nat :| IsWindow(fewer, maxChars, overlap, c, i, j);
      WindowLater(sections, maxChars, overlap, c, i, j);
    } else {
      LastSectionShape(sections, maxChars, overlap, k);
    }
  }

  lemma SomeSections(sections: seq<Section>, maxChars: nat, overlap: int)
    requires AllTerminate(sections, maxChars, overlap) && ChunksOf(sections, maxChars, overlap) != []
    ensures sections != [] && AllTerminate(sections[..|sections| - 1], maxChars, overlap)
    ensures ChunksOf(sections[..|sections| - 1], maxChars, overlap) <= ChunksOf(sections, maxChars, overlap)
  {
  }

  lemma WindowLater(sections: seq<Section>, maxChars: nat, overlap: int, c: Chunk, i: nat, j: nat)
    requires sections != [] && AllTerminate(sections, maxChars, overlap)
    requires AllTerminate(sections[..|sections| - 1], maxChars, overlap)
    requires IsWindow(sections[..|sections| - 1], maxChars, overlap, c, i, j)
    ensures IsWindow(sections, maxChars, overlap, c, i, j)
  {
    hide WindowList, Piece;
    assert sections[..|sections| - 1][..i] == sections[..i];
  }

  lemma LastSectionChunk(sections: seq<Section>, maxChars: nat, overlap: int, k: nat)
    requires sections != [] && AllTerminate(sections, maxChars, overlap)
    requires AllTerminate(sections[..|sections| - 1], maxChars, overlap)
    requires |ChunksOf(sections[..|sections| - 1], maxChars, overlap)| <= k < |ChunksOf(sections, maxChars, overlap)|
    ensures var last := sections[|sections| - 1];
            var pieces := WindowList(last.Content(), maxChars, overlap);
            var j := k - WindowsIn(sections[..|sections| - 1], maxChars, overlap);
            && 0 <= j < |pieces| && ChunksOf(sections, maxChars, overlap)[k] == Chunk(pieces[j], k, last.heading)
  {
    hide WindowList, Piece, PieceCount;
    ChunkCount(sections[..|sections| - 1], maxChars, overlap);
  }

  lemma LastSectionShape(sections: seq<Section>, maxChars: nat, overlap: nat, k: nat)
    requires sections != [] && AllTerminate(sections, maxChars, overlap)
    requires AllTerminate(sections[..|sections| - 1], maxChars, overlap)
    requires |ChunksOf(sections[..|sections| - 1], maxChars, overlap)| <= k < |ChunksOf(sections, maxChars, overlap)|
    ensures var c := ChunksOf(sections, maxChars, overlap)[k];
            && c.ordinal == k
            && 0 < |c.text| <= maxChars
            && exists i: nat, j: nat :: IsWindow(sections, maxChars, overlap, c, i, j)
  {
    hide Piece, PieceCount, ChunksOf, WindowList, WindowsIn;
    var n := |sections| - 1;
    LastSectionChunk(sections, maxChars, overlap, k);
    var j := k - WindowsIn(sections[..n], maxChars, overlap);
    NeighboursShare(sections[n].Content(), maxChars, overlap, j);
    assert IsWindow(sections, maxChars, overlap, ChunksOf(sections, maxChars, overlap)[k], n, j);
  }

  /** The chunk texts, grouped by the section they come from. */
  function Groups(sections: seq<Section>, maxChars: nat, overlap: int): seq<seq<string>>
    requires AllTerminate(sections, maxChars, overlap)
  {
    if sections == [] then []
    else Groups(sections[..|sections| - 1], maxChars, overlap)
         + [WindowList(sections[|sections| - 1].Content(), maxChars, overlap)]
  }

  function Flatten(groups: seq<seq<string>>): seq<string> {
    if groups == [] then [] else Flatten(groups[..|groups| - 1]) + groups[|groups| - 1]
  }

  function Texts(chunks: seq<Chunk>): (out: seq<string>)
    ensures |out| == |chunks| && forall k :: 0 <= k < |out| ==> out[k] == chunks[k].text
  {
    seq(|chunks|, k requires 0 <= k < |chunks| => chunks[k].text)
  }

  /** Every group glued back together, one after the other, without white space. */
  function Recovered(groups: seq<seq<string>>, overlap: nat): string {
    if groups == [] then ""
    else Recovered(groups[..|groups| - 1], overlap) + Squeeze(Glue(groups[|groups| - 1], overlap))
  }

  lemma TextsAppend(chunks: seq<Chunk>, pieces: seq<string>, heading: string, from: nat)
    ensures Texts(chunks + Numbered(pieces, heading, from)) == Texts(chunks) + pieces
  {
  }

  lemma {:induction false} ChunksAreGroups(sections: seq<Section>, maxChars: nat, overlap: int)
    requires AllTerminate(sections, maxChars, overlap)
    ensures Texts(ChunksOf(sections, maxChars, overlap)) == Flatten(Groups(sections, maxChars, overlap))
  {
    if sections == [] {
    } else {
      var earlier := sections[..|sections| - 1];
      var last := sections[|sections| - 1];
      var chunks := ChunksOf(earlier, maxChars, overlap);
      ChunksAreGroups(earlier, maxChars, overlap);
      TextsAppend(chunks, WindowList(last.Content(), maxChars, overlap), last.heading, |chunks|);
      var groups := Groups(sections, maxChars, overlap);
      assert groups[..|groups| - 1] == Groups(earlier, maxChars, overlap);
    }
  }

  /** The non-blank characters of the sections' contents, in order. */
  function ContentOf(sections: seq<Section>): string {
    if sections == [] then ""
    else ContentOf(sections[..|sections| - 1]) + Squeeze(sections[|sections| - 1].Content())
  }

  lemma NoContent()
    ensures ContentOf([]) == ""
  {
  }

  lemma ContentSnoc(sections: seq<Section>, s: Section)
    ensures ContentOf(sections + [s]) == ContentOf(sections) + Squeeze(s.Content())
  {
    assert (sections + [s])[..|sections|] == sections;
  }

  lemma {:induction false} GroupsRecover(sections: seq<Section>, maxChars: nat, overlap: nat)
    requires AllTerminate(sections, maxChars, overlap)
    ensures Recovered(Groups(sections, maxChars, overlap), overlap) == ContentOf(sections)
  {
    if sections == [] {
    } else {
      var earlier := sections[..|sections| - 1];
      GroupsRecover(earlier, maxChars, overlap);
      GlueRestores(sections[|sections| - 1].Content(), maxChars, overlap);
      var groups := Groups(sections, maxChars, overlap);
      assert groups[..|groups| - 1] == Groups(earlier, maxChars, overlap);
    }
  }

  lemma SqueezeJoined(heading: string, body: string)
    ensures Squeeze(heading + "\n" + body) == Squeeze(heading) + Squeeze(body)
  {
    hide IsSpace;
    SqueezeNewline();
    SqueezeAppends(heading, "\n");
    SqueezeAppends(heading + "\n", body);
  }

  lemma HeadedContent(text: string, spans: seq<Span>, i: nat)
    requires ValidSpans(text, spans) && i < |spans|
    ensures var s := HeadedSection(text, spans, i);
            && s.heading != "" && Squeeze(s.heading) == Squeeze(text[spans[i].start..spans[i].end])
            && Squeeze(s.Content()) == Squeeze(text[spans[i].start..SectionEnd(text, spans, i)])
            && Squeeze(s.Content()) != ""
  {
    hide IsSpace, Strip, Squeeze;
    var m, end := spans[i], SectionEnd(text, spans, i);
    var heading, body := Strip(text[m.start..m.end]), Strip(text[m.end..end]);
    SqueezeSplits(text, m.start, m.end, end);
    StripKeeps(text[m.start..m.end]);
    StripKeeps(text[m.end..end]);
    StripEmptyIff(text[m.start..m.end]);
    SqueezeJoined(heading, body);
    StripKeeps(heading + "\n" + body);
  }

  /** Heading and body are the heading's line and what follows it, trimmed; the content is both with a line break between. */
  lemma {:induction false} HeadedText(text: string, spans: seq<Span>, i: nat)
    requires ValidSpans(text, spans) && i < |spans|
    ensures var s, m := HeadedSection(text, spans, i), spans[i];
            var end := if i + 1 < |spans| then spans[i + 1].start else |text|;
            && (exists from: nat, to: nat :: Trimmed(text[m.start..m.end], s.heading, from, to))
            && (exists from: nat, to: nat :: Trimmed(text[m.end..end], s.body, from, to))
            && s.Content() == if s.body == "" then s.heading else s.heading + "\n" + s.body
  {
    hide IsSpace, Strip, Trimmed, Squeeze;
    var m, s := spans[i], HeadedSection(text, spans, i);
    StripTrims(text[m.start..m.end]);
    StripTrims(text[m.end..SectionEnd(text, spans, i)]);
    HeadedContent(text, spans, i);
    StripJoined(text[m.start..m.end], text[m.end..SectionEnd(text, spans, i)]);
  }

  lemma StripJoined(a: string, b: string)
    requires Strip(a) != ""
    ensures Strip(Strip(a) + "\n" + Strip(b)) == if Strip(b) == "" then Strip(a) else Strip(a) + "\n" + Strip(b)
  {
    hide IsSpace;
    var from, to := StripCuts(a);
    var from', to' := StripCuts(b);
    var joined := Strip(a) + "\n" + Strip(b);
    assert joined[0] == Strip(a)[0];
    if Strip(b) == "" {
      assert joined == Strip(a) + "\n" && joined[..|joined| - 1] == Strip(a);
      NewlineIsSpace();
    } else {
      assert joined[|joined| - 1] == Strip(b)[|Strip(b)| - 1];
    }
  }

  lemma NewlineIsSpace()
    ensures IsSpace('\n')
  {
  }

  lemma SpansInOrder(text: string, spans: seq<Span>, n: nat)
    requires ValidSpans(text, spans) && 1 <= n <= |spans|
    ensures n > 1 ==> SectionEnd(text, spans, n - 2) == spans[n - 1].start
    ensures spans[n - 1].start <= SectionEnd(text, spans, n - 1) <= |text|
  {
  }

  lemma {:induction false} SectionsTelescope(text: string, spans: seq<Span>, n: nat)
    requires ValidSpans(text, spans) && 1 <= n <= |spans|
    ensures spans[0].start <= SectionEnd(text, spans, n - 1) <= |text|
    ensures ContentOf(Sections(text, spans)[..n]) == Squeeze(text[spans[0].start..SectionEnd(text, spans, n - 1)])
  {
    hide IsSpace, Squeeze, HeadedSection, Sections, ValidSpans, SectionEnd, ContentOf;
    var sections := Sections(text, spans);
    SpansInOrder(text, spans, n);
    HeadedContent(text, spans, n - 1);
    assert sections[..n] == sections[..n - 1] + [sections[n - 1]];
    ContentSnoc(sections[..n - 1], sections[n - 1]);
    if n == 1 {
      NoContent();
      assert sections[..0] == [];
    } else {
      SectionsTelescope(text, spans, n - 1);
      SqueezeSplits(text, spans[0].start, spans[n - 1].start, SectionEnd(text, spans, n - 1));
    }
  }

  /** Where the text that reaches the chunks begins: at the first heading, if there is one. */
  function Begin(spans: seq<Span>): nat {
    if spans == [] then 0 else spans[0].start
  }

  /**
    Nothing is lost or invented from the first heading on: the chunk texts fall into one group per
    section, and gluing the groups gives the text in order, up to white space.
  */
  lemma {:induction false} ChunksRecoverText(text: string, spans: seq<Span>, maxChars: nat, overlap: nat)
    requires ValidSpans(text, spans)
    requires AllTerminate(Sections(text, spans), maxChars, overlap)
    ensures var sections := Sections(text, spans);
            && Texts(ChunksOf(sections, maxChars, overlap)) == Flatten(Groups(sections, maxChars, overlap))
            && Begin(spans) <= |text|
            && Recovered(Groups(sections, maxChars, overlap), overlap) == Squeeze(text[Begin(spans)..])
  {
    hide IsSpace, Squeeze, HeadedSection, ChunksOf, Groups, Recovered;
    var sections := Sections(text, spans);
    ChunksAreGroups(sections, maxChars, overlap);
    GroupsRecover(sections, maxChars, overlap);
    if spans == [] {
      assert sections[..0] == [] && text[0..] == text;
      assert ContentOf(sections[..0]) == "";
    } else {
      SectionsTelescope(text, spans, |spans|);
      assert sections[..|spans|] == sections;
      assert text[Begin(spans)..|text|] == text[Begin(spans)..];
    }
  }

  /** The whole text is recovered exactly when what precedes the first heading is blank. */
  lemma {:induction false} NothingLostIff(text: string, spans: seq<Span>, maxChars: nat, overlap: nat)
    requires ValidSpans(text, spans)
    requires AllTerminate(Sections(text, spans), maxChars, overlap)
    ensures Begin(spans) <= |text|
    ensures Recovered(Groups(Sections(text, spans), maxChars, overlap), overlap) == Squeeze(text)
        <==> Squeeze(text[..Begin(spans)]) == ""
  {
    hide IsSpace, Squeeze, Sections, ChunksOf, Groups, Recovered;
    ChunksRecoverText(text, spans, maxChars, overlap);
    SqueezeSplits(text, 0, Begin(spans), |text|);
    assert text == text[0..|text|];
  }

  lemma {:induction false} GroupsNonEmpty(sections: seq<Section>, maxChars: nat, overlap: nat)
    requires AllTerminate(sections, maxChars, overlap)
    requires ContentOf(sections) != ""
    ensures ChunksOf(sections, maxChars, overlap) != []
  {
    var earlier, content := sections[..|sections| - 1], sections[|sections| - 1].Content();
    if ContentOf(earlier) != "" {
      GroupsNonEmpty(earlier, maxChars, overlap);
    } else {
      GlueRestores(content, maxChars, overlap);
      assert content != "";
    }
  }

  lemma TailNotBlank(text: string, spans: seq<Span>)
    requires ValidSpans(text, spans) && Squeeze(text) != ""
    ensures Begin(spans) <= |text| && Squeeze(text[Begin(spans)..]) != ""
  {
    hide IsSpace, Squeeze;
    if spans == [] {
      assert text[Begin(spans)..] == text;
    } else {
      var m := spans[0];
      var matched, rest := Squeeze(text[m.start..m.end]), Squeeze(text[m.end..|text|]);
      assert matched != "";
      SqueezeSplits(text, m.start, m.end, |text|);
      assert text[m.start..] == text[m.start..|text|];
      assert matched + rest != "";
    }
  }

  /** A text yields no chunk at all exactly when it is blank. */
  lemma NoChunksIffBlank(source: string, spans: seq<Span>, maxChars: nat, overlap: nat)
    requires ValidSpans(Strip(source), spans)
    requires AllTerminate(Sections(Strip(source), spans), maxChars, overlap)
    ensures var text := Strip(source);
            text == "" || ChunksOf(Sections(text, spans), maxChars, overlap) == [] <==> Squeeze(source) == ""
  {
    var text := Strip(source);
    hide IsSpace, Squeeze, Sections, Groups, Recovered;
    StripEmptyIff(source);
    StripKeeps(source);
    if text != "" {
      var sections := Sections(text, spans);
      ChunksRecoverText(text, spans, maxChars, overlap);
      GroupsRecover(sections, maxChars, overlap);
      TailNotBlank(text, spans);
      GroupsNonEmpty(sections, maxChars, overlap);
    }
  }
}
