/** The line classifier of `pdf_from_markdown`: each Markdown line is read as a
    heading, a bullet, a fenced code block, an inline-code or bold line, a blank
    line or a paragraph, and becomes one abstract render operation instead of
    the FPDF calls that draw it. */
module Markdown {
  import opened Text
  import opened Wrappers

  /** The glyphs drawn in front of a bullet item. */
  const BoxEmpty := "\U{2610}"
  const BoxTicked := "\U{2611}"
  const Dot := "\U{2022}"

  const Fence := "```"

  datatype Style = Regular | Code | Bold

  /** One run of text drawn in one style on a single output line. */
  datatype Segment = Segment(style: Style, text: string)

  /** How one input line is read, after trailing whitespace is removed. */
  datatype LineKind =
    | Blank
    | Heading(level: nat, title: string)
    | Item(box: string, text: string)  // `box` is the checkbox marker, or "" for a plain item
    | Opener(info: string)
    | InlineCode(parts: seq<string>)
    | Emphasis(parts: seq<string>)
    | Paragraph(text: string)

  /** One render operation: what the FPDF calls for a line (or a code block) draw. */
  datatype Op =
    | Gap                              // vertical space only
    | Title(level: nat, text: string)  // bold heading, larger font for lower levels
    | Bullet(glyph: string, text: string)
    | CodeBlock(lines: seq<string>)    // shaded monospace lines, verbatim
    | Runs(segments: seq<Segment>)     // inline runs on one line
    | Para(text: string)               // wrapped paragraph

  /** How the line loop reads an input line: trailing whitespace is removed first. */
  function Classify(raw: string): LineKind {
    KindOf(RStrip(raw))
  }

  /** The decision chain of the line loop, in its order of precedence. */
  function KindOf(line: string): LineKind {
    if line == "" then Blank
    else if StartsWith(line, "### ") then Heading(3, line[4..])
    else if StartsWith(line, "## ") then Heading(2, line[3..])
    else if StartsWith(line, "# ") then Heading(1, line[2..])
    else if StartsWith(line, "- ") then ItemKind(line[2..])
    else if StartsWith(line, Fence) then Opener(line[3..])
    else InlineKind(line)
  }

  /** A bullet's text after "- ": a leading checkbox marker is taken off. */
  function ItemKind(content: string): LineKind {
    if StartsWith(content, "[ ] ") then Item("[ ] ", content[4..])
    else if StartsWith(content, "[x] ") then Item("[x] ", content[4..])
    else if StartsWith(content, "[X] ") then Item("[X] ", content[4..])
    else Item("", content)
  }

  /** The last three rules: inline code before bold before a plain paragraph. */
  function InlineKind(line: string): LineKind {
    if Contains(line, "`") then InlineCode(Split(line, "`"))
    else if Contains(line, "**") then Emphasis(Split(line, "**"))
    else Paragraph(line)
  }

  /** The style of the piece at index `j`: even pieces are plain text. */
  function StyleAt(odd: Style, j: nat): Style {
    if j % 2 == 0 then Regular else odd
  }

  /** The runs drawn for the pieces of a split line: the piece at index `j` is
      plain when `j` is even and in style `odd` otherwise; empty pieces draw nothing. */
  function Segments(parts: seq<string>, odd: Style, j: nat): seq<Segment>
    decreases |parts|
  {
    if parts == [] then []
    else
      (if parts[0] == "" then [] else [Segment(StyleAt(odd, j), parts[0])]) + Segments(parts[1..], odd, j + 1)
  }

  /** The glyph drawn for a bullet with checkbox marker `box`. */
  function Glyph(box: string): string {
    if box == "[ ] " then BoxEmpty else if box == "" then Dot else BoxTicked
  }

  /** The operation a line other than a fence opener becomes. */
  function OpOf(k: LineKind): Op
    requires !k.Opener?
  {
    match k
    case Blank => Gap
    case Heading(n, t) => Title(n, t)
    case Item(b, t) => Bullet(Glyph(b), t)
    case InlineCode(parts) => Runs(Segments(parts, Code, 0))
    case Emphasis(parts) => Runs(Segments(parts, Bold, 0))
    case Paragraph(t) => Para(t)
  }

  /** The lines of a fenced block: everything before the next line that starts with
      the fence, or the rest of the input when none does. */
  function CodeBody(lines: seq<string>): (body: seq<string>)
    ensures |body| <= |lines| && body == lines[..|body|]
    ensures forall i :: 0 <= i < |body| ==> !StartsWith(lines[i], Fence)
    ensures |body| < |lines| ==> StartsWith(lines[|body|], Fence)
    decreases |lines|
  {
    if lines == [] || StartsWith(lines[0], Fence) then []
    else [lines[0]] + CodeBody(lines[1..])
  }

  /** `lines[n:]` in Python: empty once `n` runs past the end. */
  function Drop(lines: seq<string>, n: nat): seq<string> {
    if n <= |lines| then lines[n..] else []
  }

  /** The render operations for a whole document, line by line. A fence opener
      takes its body and the closing fence with it. */
  function Render(lines: seq<string>): seq<Op>
    decreases |lines|
  {
    if lines == [] then []
    else
      var k := Classify(lines[0]);
      if k.Opener? then
        var body := CodeBody(lines[1..]);
        [CodeBlock(body)] + Render(Drop(lines, |body| + 2))
      else [OpOf(k)] + Render(lines[1..])
  }

  /** The `for j, part in enumerate(parts)` loop of an inline-code or bold line. */
  method EmitRuns(parts: seq<string>, odd: Style) returns (segs: seq<Segment>)
    ensures segs == Segments(parts, odd, 0)
  {
    segs := [];
    for j := 0 to |parts|
      invariant segs + Segments(parts[j..], odd, j) == Segments(parts, odd, 0)
    {
      var style := if j % 2 == 0 then Regular else odd;
      SegmentsStep(parts, odd, j, segs);
      if parts[j] != "" {
        segs := segs + [Segment(style, parts[j])];
      }
    }
  }

  /** One pass of the run loop: the piece at index `j` moves from the pending part
      to the drawn part. */
  lemma SegmentsStep(parts: seq<string>, odd: Style, j: nat, done: seq<Segment>)
    requires j < |parts|
    ensures parts[j] == "" ==>
      done + Segments(parts[j..], odd, j) == done + Segments(parts[j + 1..], odd, j + 1)
    ensures parts[j] != "" ==>
      done + Segments(parts[j..], odd, j)
      == (done + [Segment(if j % 2 == 0 then Regular else odd, parts[j])]) + Segments(parts[j + 1..], odd, j + 1)
  {
    assert parts[j..][1..] == parts[j + 1..];
    var rest := Segments(parts[j + 1..], odd, j + 1);
    if parts[j] == "" {
      assert Segments(parts[j..], odd, j) == [] + rest;
      assert [] + rest == rest;
    } else {
      AppendAssoc(done, [Segment(StyleAt(odd, j), parts[j])], rest);
    }
  }

  /** The branches of the line loop after the blank-line test, in their order:
      the operation for `line`, or `None` when it opens a fenced block. */
  method DrawLine(line: string) returns (op: Option<Op>)
    requires line != ""
    ensures op == if KindOf(line).Opener? then None else Some(OpOf(KindOf(line)))
  {
    if StartsWith(line, "### ") {
      op := Some(Title(3, line[4..]));
    } else if StartsWith(line, "## ") {
      op := Some(Title(2, line[3..]));
    } else if StartsWith(line, "# ") {
      op := Some(Title(1, line[2..]));
    } else if StartsWith(line, "- ") {
      var content := line[2..];
      if StartsWith(content, "[ ] ") {
        op := Some(Bullet(BoxEmpty, content[4..]));
      } else if StartsWith(content, "[x] ") || StartsWith(content, "[X] ") {
        op := Some(Bullet(BoxTicked, content[4..]));
      } else {
        op := Some(Bullet(Dot, content));
      }
    } else if StartsWith(line, Fence) {
      op := None;
    } else if Contains(line, "`") {
      var parts := Split(line, "`");
      var segs := EmitRuns(parts, Code);
      op := Some(Runs(segs));
    } else if Contains(line, "**") {
      var parts := Split(line, "**");
      var segs := EmitRuns(parts, Bold);
      op := Some(Runs(segs));
    } else {
      op := Some(Para(line));
    }
  }

  /** `ops` are the operations for the lines before index `i`. */
  ghost predicate RenderedUpTo(lines: seq<string>, i: nat, ops: seq<Op>) {
    ops + Render(Drop(lines, i)) == Render(lines)
  }

  /** The inner loop of a fenced block: collect the lines from `from` up to the next
      line that starts with the fence (or the end), leaving `i` on that line. */
  method ScanCode(lines: seq<string>, from: nat) returns (code: seq<string>, i: nat)
    requires from <= |lines|
    ensures code == CodeBody(lines[from..]) && i == from + |code|
  {
    i := from;
    code := [];
    while i < |lines| && !StartsWith(lines[i], Fence)
      invariant from <= i <= |lines|
      invariant code == lines[from..i]
      invariant forall k :: from <= k < i ==> !StartsWith(lines[k], Fence)
      decreases |lines| - i
    {
      code := code + [lines[i]];
      i := i + 1;
    }
    CodeBodyIs(lines[from..], i - from);
  }

  /** What the line loop draws for line `i` and where it goes on: a fence opener
      takes its body and the closing fence with it. */
  function StepAt(lines: seq<string>, i: nat): (r: (Op, nat))
    requires i < |lines|
    ensures i < r.1 <= |lines| + 1
    ensures r.0.CodeBlock? <==> Classify(lines[i]).Opener?
  {
    var k := Classify(lines[i]);
    if k.Opener? then
      var body := CodeBody(lines[i + 1..]);
      (CodeBlock(body), i + 2 + |body|)
    else (OpOf(k), i + 1)
  }

  /** One pass of the line loop's body, starting on line `i`. */
  method DrawAt(lines: seq<string>, i: nat) returns (op: Op, next: nat)
    requires i < |lines|
    ensures (op, next) == StepAt(lines, i)
  {
    var line := RStrip(lines[i]);
    if line == "" {
      return Gap, i + 1;
    }
    var drawn := DrawLine(line);
    if drawn.Some? {
      op, next := drawn.value, i + 1;
    } else {
      var code;
      code, next := ScanCode(lines, i + 1);
      op, next := CodeBlock(code), next + 1;
    }
  }

  /** The line loop of `pdf_from_markdown`, with an index that every pass advances. */
  method RenderLines(lines: seq<string>) returns (ops: seq<Op>)
    ensures ops == Render(lines)
  {
    ops := [];
    var i := 0;
    while i < |lines|
      invariant 0 <= i <= |lines| + 1
      invariant RenderedUpTo(lines, i, ops)
      decreases |lines| + 1 - i
    {
      var op, next := DrawAt(lines, i);
      StepRendered(lines, i, ops);
      ops, i := ops + [op], next;
    }
    assert Drop(lines, i) == [];
    assert ops + [] == ops;
  }

  /** `pdf_from_markdown` up to the drawing: split the text into lines and render them. */
  method PdfOps(md: string) returns (ops: seq<Op>)
    ensures ops == Render(SplitLines(md))
  {
    ops := RenderLines(SplitLines(md));
  }

  /** One pass of the line loop keeps the operations drawn so far a prefix of `Render`. */
  lemma StepRendered(lines: seq<string>, i: nat, ops: seq<Op>)
    requires i < |lines| && RenderedUpTo(lines, i, ops)
    ensures RenderedUpTo(lines, StepAt(lines, i).1, ops + [StepAt(lines, i).0])
  {
    var ls := Drop(lines, i);
    var (op, next) := StepAt(lines, i);
    assert ls[0] == lines[i];
    assert ls[1..] == lines[i + 1..];
    if Classify(lines[i]).Opener? {
      assert Drop(ls, next - i) == Drop(lines, next);
    } else {
      assert ls[1..] == Drop(lines, next);
    }
    assert Render(ls) == [op] + Render(Drop(lines, next));
    AppendAssoc(ops, [op], Render(Drop(lines, next)));
  }

  /** A block body is recognised from its extent: the lines up to the first fence. */
  lemma {:induction false} CodeBodyIs(ls: seq<string>, n: nat)
    requires n <= |ls|
    requires forall k :: 0 <= k < n ==> !StartsWith(ls[k], Fence)
    requires n == |ls| || StartsWith(ls[n], Fence)
    ensures CodeBody(ls) == ls[..n]
    decreases n
  {
    if n > 0 {
      CodeBodyIs(ls[1..], n - 1);
      assert ls[..n] == [ls[0]] + ls[1..][..n - 1];
    }
  }

  // ---------------------------------------------------------------------------
  // Properties of the classifier

  /** The marker of a heading of level `n` (1, 2 or 3), with its space. */
  function HeadingMark(n: nat): string {
    if n <= 1 then "# " else if n == 2 then "## " else "### "
  }

  /** The text a line kind is read from: the inverse of `KindOf`. */
  function Unparse(k: LineKind): string {
    match k
    case Blank => ""
    case Heading(n, t) => HeadingMark(n) + t
    case Item(b, t) => "- " + b + t
    case Opener(info) => Fence + info
    case InlineCode(parts) => Join(parts, "`")
    case Emphasis(parts) => Join(parts, "**")
    case Paragraph(t) => t
  }

  lemma PrefixRest(s: string, p: string)
    requires StartsWith(s, p)
    ensures s == p + s[|p|..]
  {
    assert s == s[..|p|] + s[|p|..];
  }

  /** Nothing of a line is lost: the heading text is what follows the marker, the item
      text what follows "- " and the checkbox, the fence info what follows the fence,
      and the pieces of an inline-code or bold line join back into it. */
  lemma ClassifyUnparse(raw: string)
    ensures Unparse(Classify(raw)) == RStrip(raw)
  {
    var line := RStrip(raw);
    if line == "" {
    } else if StartsWith(line, "### ") {
      PrefixRest(line, "### ");
    } else if StartsWith(line, "## ") {
      PrefixRest(line, "## ");
    } else if StartsWith(line, "# ") {
      PrefixRest(line, "# ");
    } else if StartsWith(line, "- ") {
      var content := line[2..];
      PrefixRest(line, "- ");
      if StartsWith(content, "[ ] ") {
        PrefixRest(content, "[ ] ");
      } else if StartsWith(content, "[x] ") {
        PrefixRest(content, "[x] ");
      } else if StartsWith(content, "[X] ") {
        PrefixRest(content, "[X] ");
      } else {
        assert Unparse(Item("", content)) == "- " + content;
      }
    } else if StartsWith(line, Fence) {
      PrefixRest(line, Fence);
    } else if Contains(line, "`") {
      JoinSplit(line, "`");
    } else if Contains(line, "**") {
      JoinSplit(line, "**");
    }
  }

  lemma NotPrefix(s: string, p: string, k: nat)
    requires k < |p| && k < |s| && s[k] != p[k]
    ensures !StartsWith(s, p)
  {
  }

  /** A string that ends in a non-space character is its own `rstrip`. */
  lemma RStripKeeps(s: string)
    requires s != "" && !IsSpace(s[|s| - 1])
    ensures RStrip(s) == s
  {
  }

  /** A heading of level 1 to 3 with a non-blank title is read back as that heading,
      whatever the title holds: headings come before every later rule. */
  lemma HeadingOf(n: nat, t: string)
    requires 1 <= n <= 3
    requires t != "" && !IsSpace(t[|t| - 1])
    ensures Classify(HeadingMark(n) + t) == Heading(n, t)
  {
    var m := HeadingMark(n);
    var line := m + t;
    assert line[|line| - 1] == t[|t| - 1];
    RStripKeeps(line);
    assert line[..|m|] == m && line[|m|..] == t;
    if n == 1 {
      NotPrefix(line, "### ", 1);
      NotPrefix(line, "## ", 1);
    } else if n == 2 {
      NotPrefix(line, "### ", 2);
    }
  }

  /** A bullet is read back with its checkbox marker and text, whatever the text holds;
      the markers give the boxed glyphs and any other item the plain dot. */
  lemma ItemOf(b: string, t: string)
    requires b == "[ ] " || b == "[x] " || b == "[X] " ||
      (b == "" && !StartsWith(t, "[ ] ") && !StartsWith(t, "[x] ") && !StartsWith(t, "[X] "))
    requires t != "" && !IsSpace(t[|t| - 1])
    ensures Classify("- " + b + t) == Item(b, t)
    ensures OpOf(Classify("- " + b + t)) ==
      Bullet(if b == "[ ] " then BoxEmpty else if b == "" then Dot else BoxTicked, t)
  {
    var line := "- " + b + t;
    assert line[|line| - 1] == t[|t| - 1];
    RStripKeeps(line);
    NotPrefix(line, "### ", 0);
    NotPrefix(line, "## ", 0);
    NotPrefix(line, "# ", 0);
    assert line[..2] == "- ";
    var content := line[2..];
    assert content == b + t;
    assert content[..|b|] == b && content[|b|..] == t;
    if b == "[x] " {
      NotPrefix(content, "[ ] ", 1);
    } else if b == "[X] " {
      NotPrefix(content, "[ ] ", 1);
      NotPrefix(content, "[x] ", 1);
    }
  }

  /** A line with no heading, bullet or fence marker is inline code exactly when it holds
      a backtick (bold marks or not), and bold exactly when it holds `**` but no
      backtick; the pieces hold no delimiter and join back into the line. */
  lemma InlinePrecedence(line: string)
    requires line != ""
    requires !StartsWith(line, "# ") && !StartsWith(line, "## ") && !StartsWith(line, "### ")
    requires !StartsWith(line, "- ") && !StartsWith(line, Fence)
    ensures KindOf(line).InlineCode? <==> Contains(line, "`")
    ensures KindOf(line).Emphasis? <==> !Contains(line, "`") && Contains(line, "**")
    ensures KindOf(line).Paragraph? <==> !Contains(line, "`") && !Contains(line, "**")
    ensures KindOf(line).InlineCode? ==>
      Join(KindOf(line).parts, "`") == line &&
      forall k :: 0 <= k < |KindOf(line).parts| ==> !Contains(KindOf(line).parts[k], "`")
    ensures KindOf(line).Emphasis? ==>
      Join(KindOf(line).parts, "**") == line &&
      forall k :: 0 <= k < |KindOf(line).parts| ==> !Contains(KindOf(line).parts[k], "**")
  {
    if Contains(line, "`") {
      JoinSplit(line, "`");
      SplitPartsFree(line, "`");
    } else if Contains(line, "**") {
      JoinSplit(line, "**");
      SplitPartsFree(line, "**");
    }
  }

  /** A line of whitespace only, and no other line, draws vertical space and nothing else. */
  lemma BlankGap(lines: seq<string>, i: nat)
    requires i < |lines|
    ensures StepAt(lines, i).0 == Gap <==> forall c :: 0 <= c < |lines[i]| ==> IsSpace(lines[i][c])
    ensures StepAt(lines, i).0 == Gap ==> StepAt(lines, i).1 == i + 1
  {
    var raw := lines[i];
    var line := RStrip(raw);
    if line != "" {
      assert raw[|line| - 1] == line[|line| - 1];
      assert Classify(raw) != Blank;
      assert StepAt(lines, i).0 != Gap by {
        match Classify(raw)
        case Opener(_) =>
        case _ =>
      }
    }
  }

  /** A line of a single hash and a space is a paragraph "#": the space is stripped
      before the heading test. */
  lemma LoneHash()
    ensures Classify("# ") == Paragraph("#")
  {
    assert RStrip("# ") == RStrip("#");
    assert RStrip("#") == "#";
    NotPrefix("#", "- ", 0);
    NotPrefix("#", Fence, 0);
    assert !Contains("#", "`") by {
      assert !OccursAt("#", "`", 0);
    }
    assert !Contains("#", "**");
  }

  // ---------------------------------------------------------------------------
  // Properties of the runs of an inline-code or bold line

  function Texts(segs: seq<Segment>): seq<string>
    decreases |segs|
  {
    if segs == [] then [] else [segs[0].text] + Texts(segs[1..])
  }

  /** No run is empty. */
  lemma {:induction false} SegmentsNonEmpty(parts: seq<string>, odd: Style, j: nat)
    ensures forall q :: 0 <= q < |Segments(parts, odd, j)| ==> Segments(parts, odd, j)[q].text != ""
    decreases |parts|
  {
    if parts != [] {
      SegmentsNonEmpty(parts[1..], odd, j + 1);
    }
  }

  /** The runs draw every character of the pieces, in order. */
  lemma {:induction false} SegmentsText(parts: seq<string>, odd: Style, j: nat)
    ensures Concat(Texts(Segments(parts, odd, j))) == Concat(parts)
    decreases |parts|
  {
    if parts != [] {
      SegmentsText(parts[1..], odd, j + 1);
      var head := if parts[0] == "" then [] else [Segment(StyleAt(odd, j), parts[0])];
      TextsAppend(head, Segments(parts[1..], odd, j + 1));
      ConcatAppend(Texts(head), Texts(Segments(parts[1..], odd, j + 1)));
    }
  }

  lemma {:induction false} TextsAppend(a: seq<Segment>, b: seq<Segment>)
    ensures Texts(a + b) == Texts(a) + Texts(b)
    decreases |a|
  {
    if a == [] {
      assert a + b == b;
    } else {
      assert (a + b)[1..] == a[1..] + b;
      TextsAppend(a[1..], b);
    }
  }

  /** The number of non-empty pieces: the pieces that draw a run. */
  function Kept(parts: seq<string>): nat
    decreases |parts|
  {
    if parts == [] then 0 else (if parts[0] == "" then 0 else 1) + Kept(parts[1..])
  }

  /** There is one run per non-empty piece, in order: the non-empty piece at index `k`
      is the run after the runs of the non-empty pieces before it, and it is drawn
      plain when `j + k` is even and in the style `odd` otherwise. Empty pieces (as
      `"**Owner:** Ana".split("**")` begins with) shift the run index but not the
      parity. */
  lemma {:induction false} SegmentsStyles(parts: seq<string>, odd: Style, j: nat)
    ensures |Segments(parts, odd, j)| == Kept(parts)
    ensures forall k :: 0 <= k < |parts| && parts[k] != "" ==>
      Kept(parts[..k]) < Kept(parts) &&
      Segments(parts, odd, j)[Kept(parts[..k])] == Segment(StyleAt(odd, j + k), parts[k])
    decreases |parts|
  {
    if parts != [] {
      var rest := parts[1..];
      SegmentsStyles(rest, odd, j + 1);
      var head := if parts[0] == "" then [] else [Segment(StyleAt(odd, j), parts[0])];
      var segs := Segments(parts, odd, j);
      assert segs == head + Segments(rest, odd, j + 1);
      assert parts[..0] == [];
      forall k | 0 < k < |parts| && parts[k] != ""
        ensures Kept(parts[..k]) < Kept(parts)
        ensures segs[Kept(parts[..k])] == Segment(StyleAt(odd, j + k), parts[k])
      {
        assert parts[..k][1..] == rest[..k - 1];
        assert Kept(parts[..k]) == |head| + Kept(rest[..k - 1]);
        assert rest[k - 1] == parts[k];
      }
    }
  }

  // ---------------------------------------------------------------------------
  // Properties of the whole document

  /** At most one operation per line: a fenced block draws many lines as one. */
  lemma {:induction false} RenderLength(lines: seq<string>)
    ensures |Render(lines)| <= |lines|
    decreases |lines|
  {
    if lines != [] {
      var k := Classify(lines[0]);
      if k.Opener? {
        RenderLength(Drop(lines, |CodeBody(lines[1..])| + 2));
      } else {
        RenderLength(lines[1..]);
      }
    }
  }

  /** A document without fences draws exactly one operation per line, in order. */
  lemma {:induction false} RenderPlain(lines: seq<string>)
    requires forall k :: 0 <= k < |lines| ==> !Classify(lines[k]).Opener?
    ensures |Render(lines)| == |lines|
    ensures forall k :: 0 <= k < |lines| ==> Render(lines)[k] == OpOf(Classify(lines[k]))
    decreases |lines|
  {
    if lines != [] {
      RenderPlain(lines[1..]);
      var ops := Render(lines);
      assert ops == [OpOf(Classify(lines[0]))] + Render(lines[1..]);
      forall k | 0 < k < |lines| ensures ops[k] == OpOf(Classify(lines[k])) {
        assert ops[k] == Render(lines[1..])[k - 1];
        assert lines[1..][k - 1] == lines[k];
      }
    }
  }

  /** A fence opened on line `i` and closed on line `c` draws the lines between the two
      fences verbatim as one block; the closing fence is consumed and the loop goes on
      after it. */
  lemma FenceClosed(lines: seq<string>, i: nat, c: nat)
    requires i < c < |lines| && Classify(lines[i]).Opener?
    requires StartsWith(lines[c], Fence)
    requires forall k :: i < k < c ==> !StartsWith(lines[k], Fence)
    ensures StepAt(lines, i) == (CodeBlock(lines[i + 1..c]), c + 1)
  {
    var ls := lines[i + 1..];
    assert forall k :: 0 <= k < c - i - 1 ==> ls[k] == lines[k + i + 1];
    CodeBodyIs(ls, c - i - 1);
    assert ls[..c - i - 1] == lines[i + 1..c];
  }

  /** A fence that is never closed takes every later line into its block and ends
      the document. */
  lemma FenceUnclosed(lines: seq<string>, i: nat)
    requires i < |lines| && Classify(lines[i]).Opener?
    requires forall k :: i < k < |lines| ==> !StartsWith(lines[k], Fence)
    ensures StepAt(lines, i) == (CodeBlock(lines[i + 1..]), |lines| + 1)
    ensures Drop(lines, StepAt(lines, i).1) == []
  {
    var ls := lines[i + 1..];
    assert forall k :: 0 <= k < |ls| ==> ls[k] == lines[k + i + 1];
    CodeBodyIs(ls, |ls|);
    assert ls[..|ls|] == ls;
  }
}
