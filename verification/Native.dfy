/**
 The one registered primitive, `normalize-lines-v1`, and the separately written checker of its
 output. The checker never calls the primitive: that the two agree is proved below.
*/
module Native {
  import opened Basics

  /** Longest text `normalize` accepts and longest input or output an `Operation` may carry. */
  const TEXT_LIMIT := 4096

  /** Every character at which Python's `str.splitlines` ends a line. */
  const BREAKS: set<char> := {
    '\n', '\r', '\U{000B}', '\U{000C}', '\U{001C}', '\U{001D}', '\U{001E}', '\U{0085}', '\U{2028}', '\U{2029}'
  }

  predicate LineFree(s: string) {
    forall i :: 0 <= i < |s| ==> s[i] !in BREAKS
  }

  predicate AllLineFree(lines: seq<string>) {
    forall i :: 0 <= i < |lines| ==> LineFree(lines[i])
  }

  /** Index of the first line break, or the length when there is none. */
  function FirstBreak(s: string): (n: nat)
    ensures n <= |s| && LineFree(s[..n])
    ensures n < |s| ==> s[n] in BREAKS
  {
    if s == "" || s[0] in BREAKS then 0
    else
      var n := FirstBreak(s[1..]);
      assert s[..n + 1] == [s[0]] + s[1..][..n];
      n + 1
  }

  /** Length of the line break that starts `s`: a carriage return swallows a following line feed. */
  function BreakWidth(s: string): (w: nat)
    requires s != ""
    ensures 1 <= w <= |s|
  {
    if s[0] == '\r' && |s| > 1 && s[1] == '\n' then 2 else 1
  }

  /** `str.splitlines()`: a trailing line break does not open a last empty line. */
  function SplitLines(s: string): (lines: seq<string>)
    ensures AllLineFree(lines)
    ensures lines == [] <==> s == ""
    decreases |s|
  {
    if s == "" then []
    else
      var n := FirstBreak(s);
      if n == |s| then [s]
      else
        [s[..n]] + SplitLines(s[n + BreakWidth(s[n..])..])
  }

  /** `str.split("\n")`: always at least one piece. */
  function SplitFeeds(s: string): (pieces: seq<string>)
    ensures |pieces| > 0
  {
    if s == "" then [""]
    else
      var rest := SplitFeeds(s[1..]);
      if s[0] == '\n' then [""] + rest else [[s[0]] + rest[0]] + rest[1..]
  }

  /** `"\n".join(lines)` */
  function Join(lines: seq<string>): string {
    if lines == [] then ""
    else if |lines| == 1 then lines[0]
    else lines[0] + "\n" + Join(lines[1..])
  }

  function Elements(lines: seq<string>): set<string> {
    set i | 0 <= i < |lines| :: lines[i]
  }

  predicate Increasing(lines: seq<string>) {
    forall i, j :: 0 <= i < j < |lines| ==> Less(lines[i], lines[j])
  }

  /** Puts a line where the order wants it, and drops it when it is there already. */
  function Insert(line: string, sorted: seq<string>): (r: seq<string>)
    requires Increasing(sorted)
    ensures Increasing(r) && Elements(r) == Elements(sorted) + {line}
  {
    if sorted == [] then
      assert [line][0] == line;
      [line]
    else if sorted[0] == line then
      sorted
    else if Less(line, sorted[0]) then
      InsertFront(line, sorted);
      [line] + sorted
    else
      LessTotal(line, sorted[0]);
      assert Increasing(sorted[1..]);
      var rest := Insert(line, sorted[1..]);
      InsertBack(line, sorted, rest);
      [sorted[0]] + rest
  }

  lemma InsertFront(line: string, sorted: seq<string>)
    requires sorted != [] && Increasing(sorted) && Less(line, sorted[0])
    ensures Increasing([line] + sorted) && Elements([line] + sorted) == Elements(sorted) + {line}
  {
    var r := [line] + sorted;
    forall i, j | 0 <= i < j < |r| ensures Less(r[i], r[j]) {
      if i == 0 && j > 1 { LessTransitive(line, sorted[0], sorted[j - 1]); }
    }
    ElementsCons(line, sorted);
  }

  lemma InsertBack(line: string, sorted: seq<string>, rest: seq<string>)
    requires sorted != [] && Increasing(sorted) && Less(sorted[0], line)
    requires Increasing(rest) && Elements(rest) == Elements(sorted[1..]) + {line}
    ensures Increasing([sorted[0]] + rest)
    ensures Elements([sorted[0]] + rest) == Elements(sorted) + {line}
  {
    var r := [sorted[0]] + rest;
    forall j | 0 < j < |r| ensures Less(r[0], r[j]) {
      assert rest[j - 1] in Elements(rest);
      if rest[j - 1] != line {
        var k :| 0 <= k < |sorted[1..]| && sorted[1..][k] == rest[j - 1];
        assert sorted[k + 1] == rest[j - 1];
      }
    }
    ElementsCons(sorted[0], rest);
    ElementsCons(sorted[0], sorted[1..]);
    assert sorted == [sorted[0]] + sorted[1..];
  }

  lemma ElementsCons(line: string, lines: seq<string>)
    ensures Elements([line] + lines) == {line} + Elements(lines)
  {
    var r := [line] + lines;
    assert r[0] == line;
    forall i | 0 <= i < |lines| ensures lines[i] in Elements(r) { assert r[i + 1] == lines[i]; }
    forall x | x in Elements(r) ensures x in {line} + Elements(lines) {
      var i :| 0 <= i < |r| && r[i] == x;
      if i > 0 { assert lines[i - 1] == x; }
    }
  }

  /** `sorted(set(lines))` */
  function SortedSet(lines: seq<string>): (r: seq<string>)
    ensures Increasing(r) && Elements(r) == Elements(lines)
  {
    if lines == [] then []
    else
      ElementsCons(lines[0], lines[1..]);
      assert lines == [lines[0]] + lines[1..];
      Insert(lines[0], SortedSet(lines[1..]))
  }

  function Normalized(text: string): string {
    Join(SortedSet(SplitLines(text)))
  }

  /** The primitive, with the exception it raises on text over the limit. */
  function Normalize(text: string): Result<string> {
    if |text| > TEXT_LIMIT then Err(InvalidModel) else Ok(Normalized(text))
  }

  datatype Implementation = Registered | Foreign(sha: string)

  datatype Effect = Success | Failure | Unknown

  /** The fields of an operation record that its checker looks at. */
  datatype Operation = Operation(
    implementation: Implementation,
    input: string,
    output: string,
    complete: bool,
    outcome: Effect)

  /** The lines the checker reads off the output. */
  function ReadBack(input: string, output: string): seq<string> {
    if output != "" then SplitFeeds(output)
    else if input != "" then [""]
    else []
  }

  /** The output invariant, as the checker states it: distinct, the right set, adjacent pairs ordered. */
  predicate Checked(op: Operation) {
    var lines := ReadBack(op.input, op.output);
    && op.implementation == Registered
    && op.complete
    && op.outcome == Success
    && |lines| == |Elements(lines)|
    && Elements(lines) == Elements(SplitLines(op.input))
    && forall i :: 0 <= i < |lines| - 1 ==> Less(lines[i], lines[i + 1])
  }

  // ---- A strictly increasing list is determined by its set of elements.

  lemma {:induction false} AdjacentIncreasing(lines: seq<string>)
    requires forall i :: 0 <= i < |lines| - 1 ==> Less(lines[i], lines[i + 1])
    ensures Increasing(lines)
  {
    if |lines| > 1 {
      var rest := lines[1..];
      forall i | 0 <= i < |rest| - 1 ensures Less(rest[i], rest[i + 1]) {
        assert rest[i] == lines[i + 1] && rest[i + 1] == lines[i + 2];
      }
      AdjacentIncreasing(rest);
      forall i, j | 0 <= i < j < |lines| ensures Less(lines[i], lines[j]) {
        if i > 0 {
          assert lines[i] == rest[i - 1] && lines[j] == rest[j - 1];
        } else if j > 1 {
          assert lines[j] == rest[j - 1];
          LessTransitive(lines[0], rest[0], rest[j - 1]);
        }
      }
    }
  }

  lemma {:induction false} IncreasingUnique(a: seq<string>, b: seq<string>)
    requires Increasing(a) && Increasing(b) && Elements(a) == Elements(b)
    ensures a == b
  {
    IncreasingCount(a);
    IncreasingCount(b);
    if a != [] {
      SameHead(a, b);
      IncreasingTail(a);
      IncreasingTail(b);
      IncreasingUnique(a[1..], b[1..]);
      assert a == [a[0]] + a[1..] && b == [b[0]] + b[1..];
    }
  }

  lemma SameHead(a: seq<string>, b: seq<string>)
    requires a != [] && b != []
    requires Increasing(a) && Increasing(b) && Elements(a) == Elements(b)
    ensures a[0] == b[0]
  {
    assert a[0] in Elements(b) && b[0] in Elements(a);
    var i :| 0 <= i < |b| && b[i] == a[0];
    var j :| 0 <= j < |a| && a[j] == b[0];
    if i > 0 && j > 0 { LessAsymmetric(a[0], b[0]); }
  }

  lemma IncreasingTail(a: seq<string>)
    requires a != [] && Increasing(a)
    ensures Increasing(a[1..]) && Elements(a[1..]) == Elements(a) - {a[0]}
  {
    assert a == [a[0]] + a[1..];
    ElementsCons(a[0], a[1..]);
    forall i | 0 <= i < |a[1..]| ensures a[1..][i] != a[0] {
      LessIrreflexive(a[0]);
      assert Less(a[0], a[i + 1]);
    }
  }

  lemma {:induction false} IncreasingCount(a: seq<string>)
    requires Increasing(a)
    ensures |Elements(a)| == |a|
  {
    if a != [] {
      IncreasingTail(a);
      IncreasingCount(a[1..]);
      assert a[0] in Elements(a);
    }
  }

  // ---- Splitting undoes joining.

  lemma {:induction false} SplitFeedsPiece(line: string, rest: string)
    requires LineFree(line)
    ensures SplitFeeds(line) == [line]
    ensures SplitFeeds(line + "\n" + rest) == [line] + SplitFeeds(rest)
    decreases |line|
  {
    var s := line + "\n" + rest;
    if line == "" {
      assert s[1..] == rest;
    } else {
      SplitFeedsPiece(line[1..], rest);
      assert s[1..] == line[1..] + "\n" + rest;
      assert line == [line[0]] + line[1..];
    }
  }

  lemma {:induction false} SplitFeedsJoin(lines: seq<string>)
    requires lines != [] && AllLineFree(lines)
    ensures SplitFeeds(Join(lines)) == lines
  {
    if |lines| == 1 {
      SplitFeedsPiece(lines[0], "");
    } else {
      SplitFeedsJoin(lines[1..]);
      SplitFeedsPiece(lines[0], Join(lines[1..]));
      assert lines == [lines[0]] + lines[1..];
    }
  }

  lemma {:induction false} JoinSplitFeeds(s: string)
    ensures Join(SplitFeeds(s)) == s
  {
    if s != "" {
      JoinSplitFeeds(s[1..]);
      var rest := SplitFeeds(s[1..]);
      if s[0] == '\n' {
        assert ([""] + rest)[1..] == rest;
      } else {
        var head := [s[0]] + rest[0];
        assert ([head] + rest[1..])[1..] == rest[1..];
      }
      assert s == [s[0]] + s[1..];
    }
  }

  lemma {:induction false} FirstBreakAt(line: string, rest: string)
    requires LineFree(line)
    ensures FirstBreak(line) == |line|
    ensures FirstBreak(line + "\n" + rest) == |line|
  {
    if line != "" {
      FirstBreakAt(line[1..], rest);
      assert (line + "\n" + rest)[1..] == line[1..] + "\n" + rest;
    }
  }

  lemma SplitLinesCons(line: string, rest: string)
    requires LineFree(line)
    ensures SplitLines(line + "\n" + rest) == [line] + SplitLines(rest)
  {
    hide LineFree;
    var s := line + "\n" + rest;
    FirstBreakAt(line, rest);
    var n := |line|;
    assert s[n..][0] == '\n' && s[..n] == line;
    assert s[n + 1..] == rest;
  }

  // ---- Where lines end, without the functions above.

  /** The ways in which Python ends a line, each as it is written. */
  const SEPARATORS: seq<string> := [
    "\n", "\r", "\r\n", "\U{000B}", "\U{000C}", "\U{001C}", "\U{001D}", "\U{001E}", "\U{0085}", "\U{2028}", "\U{2029}"
  ]

  /** None of the characters that separators are made of. */
  predicate Unbroken(line: string) {
    forall i :: 0 <= i < |line| ==>
      && line[i] != '\n' && line[i] != '\r' && line[i] != '\U{000B}' && line[i] != '\U{000C}'
      && line[i] != '\U{001C}' && line[i] != '\U{001D}' && line[i] != '\U{001E}' && line[i] != '\U{0085}'
      && line[i] != '\U{2028}' && line[i] != '\U{2029}'
  }

  lemma {:induction false} FirstBreakBefore(line: string, rest: string)
    requires Unbroken(line) && (rest != "" ==> rest[0] in BREAKS)
    ensures FirstBreak(line + rest) == |line|
    decreases |line|
  {
    if line == "" {
      assert line + rest == rest;
    } else {
      assert (line + rest)[1..] == line[1..] + rest;
      FirstBreakBefore(line[1..], rest);
    }
  }

  lemma SeparatorShape(sep: string)
    requires sep in SEPARATORS
    ensures sep != "" && sep[0] in BREAKS
    ensures |sep| == 1 || (|sep| == 2 && sep[0] == '\r' && sep[1] == '\n')
  {
  }

  /**
   A line ends at the first separator, and the rest is split on its own; a carriage return before a line
   feed is not a separator by itself.
  */
  lemma SplitAtSeparator(line: string, sep: string, rest: string)
    requires Unbroken(line) && sep in SEPARATORS
    requires sep == "\r" && rest != "" ==> rest[0] != '\n'
    ensures SplitLines(line + sep + rest) == [line] + SplitLines(rest)
  {
    hide LineFree, Unbroken;
    var s := line + sep + rest;
    SeparatorShape(sep);
    assert line + (sep + rest) == s;
    FirstBreakBefore(line, sep + rest);
    var tail := s[|line|..];
    assert tail == sep + rest && s[..|line|] == line;
    assert tail[0] == sep[0] && (|sep| == 2 ==> tail[1] == sep[1]) && (|sep| == 1 && rest != "" ==> tail[1] == rest[0]);
    assert |sep| == 1 && sep[0] == '\r' ==> sep == "\r";
    assert s[|line| + |sep|..] == rest;
  }

  /** Without a separator there is one line, and none in the empty text. */
  lemma SplitUnbroken(line: string)
    requires Unbroken(line)
    ensures SplitLines(line) == if line == "" then [] else [line]
  {
    assert line + "" == line;
    FirstBreakBefore(line, "");
  }

  /** `splitlines` undoes a line-feed join, unless the last line is empty and so leaves no trace. */
  lemma {:induction false} SplitLinesJoin(lines: seq<string>)
    requires lines != [] && AllLineFree(lines) && lines[|lines| - 1] != ""
    ensures SplitLines(Join(lines)) == lines
  {
    if |lines| == 1 {
      FirstBreakAt(lines[0], "");
    } else {
      SplitLinesJoin(lines[1..]);
      SplitLinesCons(lines[0], Join(lines[1..]));
      assert lines == [lines[0]] + lines[1..];
    }
  }

  // ---- Lengths.

  /** Characters of the lines, each with one line break. */
  function Extent(lines: seq<string>): nat {
    if lines == [] then 0 else |lines[0]| + 1 + Extent(lines[1..])
  }

  lemma {:induction false} JoinExtent(lines: seq<string>)
    ensures |Join(lines)| == if lines == [] then 0 else Extent(lines) - 1
  {
    if |lines| > 1 { JoinExtent(lines[1..]); }
  }

  lemma {:induction false} InsertExtent(line: string, sorted: seq<string>)
    requires Increasing(sorted)
    ensures Extent(Insert(line, sorted)) <= |line| + 1 + Extent(sorted)
  {
    if sorted != [] && sorted[0] != line && !Less(line, sorted[0]) {
      assert Increasing(sorted[1..]);
      InsertExtent(line, sorted[1..]);
      LessTotal(line, sorted[0]);
      var rest := Insert(line, sorted[1..]);
      assert ([sorted[0]] + rest)[1..] == rest;
    } else {
      assert ([line] + sorted)[1..] == sorted;
    }
  }

  lemma {:induction false} SortedSetExtent(lines: seq<string>)
    ensures Extent(SortedSet(lines)) <= Extent(lines)
  {
    if lines != [] {
      SortedSetExtent(lines[1..]);
      InsertExtent(lines[0], SortedSet(lines[1..]));
    }
  }

  lemma {:induction false} SplitLinesExtent(s: string)
    ensures Extent(SplitLines(s)) <= |s| + 1
    decreases |s|
  {
    if s != "" {
      var n := FirstBreak(s);
      if n < |s| {
        var rest := s[n + BreakWidth(s[n..])..];
        SplitLinesExtent(rest);
        assert ([s[..n]] + SplitLines(rest))[1..] == SplitLines(rest);
      }
    }
  }

  // ---- What the primitive and its checker promise.

  lemma SortedLinesShape(text: string)
    ensures var lines := SortedSet(SplitLines(text));
      && AllLineFree(lines)
      && (lines == [] <==> text == "")
      && (lines != [] && lines[|lines| - 1] == "" ==> lines == [""])
  {
    var split := SplitLines(text);
    var lines := SortedSet(split);
    forall i | 0 <= i < |lines| ensures LineFree(lines[i]) {
      assert lines[i] in Elements(split);
    }
    assert split != [] ==> split[0] in Elements(split);
    assert lines != [] ==> lines[0] in Elements(lines);
    assert |lines| > 1 ==> Less(lines[0], lines[|lines| - 1]);
    assert |lines| == 1 ==> lines == [lines[0]];
  }

  /** Sound and complete: the checker passes exactly the primitive's own output. */
  lemma CheckedIffNormalized(op: Operation)
    ensures Checked(op) <==>
      op.implementation == Registered && op.complete && op.outcome == Success && op.output == Normalized(op.input)
  {
    var want := SortedSet(SplitLines(op.input));
    var lines := ReadBack(op.input, op.output);
    SortedLinesShape(op.input);
    if op.output == Normalized(op.input) {
      if want != [] {
        SplitFeedsJoin(want);
        if op.output == "" { assert SplitFeeds("") == [""]; }
      }
      assert lines == want;
      IncreasingCount(want);
    }
    if Checked(op) {
      AdjacentIncreasing(lines);
      IncreasingUnique(lines, want);
      JoinSplitFeeds(op.output);
    }
  }

  /** Normalizing twice is normalizing once, the empty text and the single empty line included. */
  lemma NormalizeIdempotent(text: string)
    ensures Normalized(Normalized(text)) == Normalized(text)
  {
    var lines := SortedSet(SplitLines(text));
    SortedLinesShape(text);
    if lines == [] || lines == [""] {
      assert Normalized(text) == "";
    } else {
      SplitLinesJoin(lines);
      IncreasingUnique(SortedSet(lines), lines);
    }
  }

  lemma NormalizeNeverLonger(text: string)
    ensures |Normalized(text)| <= |text|
    ensures Normalize(text).Ok? ==> Normalize(Normalized(text)).Ok?
  {
    var lines := SortedSet(SplitLines(text));
    SplitLinesExtent(text);
    SortedSetExtent(SplitLines(text));
    JoinExtent(lines);
  }

  /**
   Two texts normalize alike exactly when they have the same set of lines, where no line and one empty
   line count as the same.
  */
  lemma NormalizeDependsOnLines(a: string, b: string)
    ensures Normalized(a) == Normalized(b) <==>
      var (x, y) := (Elements(SplitLines(a)), Elements(SplitLines(b)));
      x == y || (x <= {""} && y <= {""})
  {
    var p, q := SortedSet(SplitLines(a)), SortedSet(SplitLines(b));
    SortedLinesShape(a);
    SortedLinesShape(b);
    if Elements(p) == Elements(q) {
      IncreasingUnique(p, q);
    }
    if Elements(p) <= {""} && Elements(q) <= {""} {
      AtMostEmptyLine(p);
      AtMostEmptyLine(q);
    }
    if Join(p) == Join(q) {
      if Join(p) == "" {
        EmptyJoin(p);
        EmptyJoin(q);
      } else {
        SplitFeedsJoin(p);
        SplitFeedsJoin(q);
      }
    }
  }

  lemma AtMostEmptyLine(p: seq<string>)
    requires Increasing(p) && Elements(p) <= {""}
    ensures Join(p) == ""
  {
    IncreasingCount(p);
    assert p != [] ==> p[0] in Elements(p);
    assert |p| > 1 ==> p[1] in Elements(p) && Less(p[0], p[1]);
  }

  lemma EmptyJoin(p: seq<string>)
    requires Join(p) == ""
    ensures Elements(p) <= {""}
  {
  }
}
