/** The unused-import clean-up script: it applies the edits of the language service's
    "organize imports" to each source file's script text, counts the import lines the
    edits removed, queues the files that lost at least one, and writes them only after a
    yes. The glob, the file system, the language service and the terminal prompt are
    inputs. */
module UnusedImports {
  import opened Wrappers
  import opened Text

  // ----- Text edits -----

  /** One `TextChange`: replace `length` characters at `start` by `newText`. */
  datatype TextChange = TextChange(start: nat, length: nat, newText: string)

  function End(c: TextChange): nat {
    c.start + c.length
  }

  /** `s.slice(0, start) + newText + s.slice(start + length)`. */
  function ApplyChange(s: string, c: TextChange): (r: string)
    ensures End(c) <= |s| ==> r == s[..c.start] + c.newText + s[End(c)..]
  {
    Slice(s, 0, c.start) + c.newText + Slice(s, End(c), |s|)
  }

  /** The edits applied one after the other, in list order, each to the text the previous
      ones left. */
  function ApplyInOrder(s: string, changes: seq<TextChange>): string {
    if changes == [] then s
    else ApplyChange(ApplyInOrder(s, changes[..|changes| - 1]), changes[|changes| - 1])
  }

  /** Sorted by descending start, each edit ending before any earlier one starts, all
      inside the text. */
  predicate DescendingDisjoint(s: string, desc: seq<TextChange>) {
    && (forall i :: 0 <= i < |desc| ==> End(desc[i]) <= |s|)
    && (forall i, j :: 0 <= i < j < |desc| ==> End(desc[j]) <= desc[i].start)
  }

  /** The reference: every edit made at its ORIGINAL offset. The result is the original text
      from `from` up to the lowest edit, its new text, and so on upward, ending with the
      text after the highest edit. */
  function Spliced(s: string, desc: seq<TextChange>, from: nat): string {
    if desc == [] then Slice(s, from, |s|)
    else
      var c := desc[|desc| - 1];
      Slice(s, from, c.start) + c.newText + Spliced(s, desc[..|desc| - 1], End(c))
  }

  /** Where the untouched prefix ends: the lowest edit's start. */
  function LowestStart(s: string, desc: seq<TextChange>): nat {
    if desc == [] then |s| else desc[|desc| - 1].start
  }

  /** Moving the point the reference starts from, within the unedited prefix. */
  lemma SplicedShift(s: string, desc: seq<TextChange>, from: nat, q: nat)
    requires DescendingDisjoint(s, desc)
    requires from <= q <= LowestStart(s, desc) && q <= |s|
    ensures Spliced(s, desc, from) == s[from..q] + Spliced(s, desc, q)
  {
    if desc != [] {
      var c := desc[|desc| - 1];
      assert s[from..c.start] == s[from..q] + s[q..c.start];
    } else {
      assert s[from..] == s[from..q] + s[q..];
    }
  }

  lemma DisjointPrefix(s: string, desc: seq<TextChange>)
    requires DescendingDisjoint(s, desc) && desc != []
    ensures DescendingDisjoint(s, desc[..|desc| - 1])
    ensures End(desc[|desc| - 1]) <= LowestStart(s, desc[..|desc| - 1])
  {
  }

  /** Applying the edits in descending order leaves the text before the lowest edit alone
      and, after it, exactly what the reference builds from there. */
  lemma {:induction false} ApplyInOrderShape(s: string, desc: seq<TextChange>)
    requires DescendingDisjoint(s, desc)
    ensures ApplyInOrder(s, desc) == s[..LowestStart(s, desc)] + Spliced(s, desc, LowestStart(s, desc))
  {
    if desc == [] {
      assert s[..|s|] == s;
    } else {
      DisjointPrefix(s, desc);
      ApplyInOrderShape(s, desc[..|desc| - 1]);
      ShapeStep(s, desc);
    }
  }

  /** The step of the induction: adding the lowest edit to the ones above it. */
  lemma ShapeStep(s: string, desc: seq<TextChange>)
    requires DescendingDisjoint(s, desc) && desc != []
    requires var d := desc[..|desc| - 1];
      ApplyInOrder(s, d) == s[..LowestStart(s, d)] + Spliced(s, d, LowestStart(s, d))
    ensures ApplyInOrder(s, desc) == s[..LowestStart(s, desc)] + Spliced(s, desc, LowestStart(s, desc))
  {
    var d := desc[..|desc| - 1];
    var c := desc[|desc| - 1];
    DisjointPrefix(s, desc);
    var p := LowestStart(s, d);
    var t := ApplyInOrder(s, d);
    var rest := Spliced(s, d, p);
    assert ApplyInOrder(s, desc) == s[..c.start] + c.newText + (s[End(c)..p] + rest) by {
      assert ApplyInOrder(s, desc) == ApplyChange(t, c);
      ChangeOnPrefix(s, t, c, p, rest);
    }
    var x := s[End(c)..p] + rest;
    assert Spliced(s, desc, c.start) == c.newText + x by {
      SplicedLowest(s, desc);
      SplicedShift(s, d, End(c), p);
    }
    assert LowestStart(s, desc) == c.start;
    Associative(s[..c.start], c.newText, x);
  }

  lemma Associative(a: string, b: string, c: string)
    ensures a + b + c == a + (b + c)
  {
  }

  /** The reference started at the lowest edit begins with that edit's new text. */
  lemma SplicedLowest(s: string, desc: seq<TextChange>)
    requires desc != [] && desc[|desc| - 1].start <= |s|
    ensures Spliced(s, desc, desc[|desc| - 1].start)
         == desc[|desc| - 1].newText + Spliced(s, desc[..|desc| - 1], End(desc[|desc| - 1]))
  {
    var c := desc[|desc| - 1];
    var e := Slice(s, c.start, c.start);
    assert |e| == 0;
    assert e + c.newText == c.newText;
  }

  /** One edit below `p` applied to a text that keeps the original up to `p`. */
  lemma ChangeOnPrefix(s: string, t: string, c: TextChange, p: nat, rest: string)
    requires End(c) <= p <= |s| && t == s[..p] + rest
    ensures ApplyChange(t, c) == s[..c.start] + c.newText + (s[End(c)..p] + rest)
  {
    assert t[..c.start] == s[..c.start];
    assert t[End(c)..] == s[End(c)..p] + rest;
  }

  /** Applying non-overlapping edits from the highest start down gives the same text as
      making every edit at its original offset. */
  lemma EditsAtOriginalOffsets(s: string, desc: seq<TextChange>)
    requires DescendingDisjoint(s, desc)
    ensures ApplyInOrder(s, desc) == Spliced(s, desc, 0)
  {
    ApplyInOrderShape(s, desc);
    SplicedShift(s, desc, 0, LowestStart(s, desc));
  }

  /** The reference ends with the original text after the highest edit. */
  lemma {:induction false} SplicedKeepsSuffix(s: string, desc: seq<TextChange>, from: nat)
    requires DescendingDisjoint(s, desc) && desc != []
    ensures var r := Spliced(s, desc, from);
      |r| >= |s| - End(desc[0]) && r[|r| - (|s| - End(desc[0]))..] == s[End(desc[0])..]
  {
    var c := desc[|desc| - 1];
    if |desc| > 1 {
      DisjointPrefix(s, desc);
      SplicedKeepsSuffix(s, desc[..|desc| - 1], End(c));
    }
  }

  /** Text outside every edited span survives: the result starts with the text before the
      lowest edit and ends with the text after the highest one. */
  lemma EditsKeepOutside(s: string, desc: seq<TextChange>)
    requires DescendingDisjoint(s, desc) && desc != []
    ensures var r := ApplyInOrder(s, desc);
      && LowestStart(s, desc) <= |r|
      && r[..LowestStart(s, desc)] == s[..LowestStart(s, desc)]
      && |r| >= |s| - End(desc[0])
      && r[|r| - (|s| - End(desc[0]))..] == s[End(desc[0])..]
  {
    var lo := LowestStart(s, desc);
    ApplyInOrderShape(s, desc);
    SplicedKeepsSuffix(s, desc, lo);
    EndsOfConcat(s[..lo], Spliced(s, desc, lo), |s| - End(desc[0]));
  }

  lemma EndsOfConcat(a: string, b: string, k: nat)
    requires k <= |b|
    ensures (a + b)[..|a|] == a
    ensures (a + b)[|a + b| - k..] == b[|b| - k..]
  {
  }

  /** The loop over the sorted edits, rebuilding `newScriptContent` from each. */
  method ApplyEdits(script: string, sorted: seq<TextChange>) returns (out: string)
    ensures out == ApplyInOrder(script, sorted)
  {
    out := script;
    var i := 0;
    while i < |sorted|
      invariant 0 <= i <= |sorted|
      invariant out == ApplyInOrder(script, sorted[..i])
    {
      assert sorted[..i + 1][..i] == sorted[..i];
      out := Slice(out, 0, sorted[i].start) + sorted[i].newText + Slice(out, sorted[i].start + sorted[i].length, |out|);
      i := i + 1;
    }
    assert sorted[..|sorted|] == sorted;
  }

  // ----- Sorting the edits -----

  predicate Descending(cs: seq<TextChange>) {
    forall i :: 0 <= i < |cs| - 1 ==> cs[i].start >= cs[i + 1].start
  }

  /** Places `c` into a descending list, after the entries with the same start. */
  function Insert(c: TextChange, desc: seq<TextChange>): (r: seq<TextChange>)
    requires Descending(desc)
    ensures Descending(r)
    ensures multiset(r) == multiset(desc) + multiset{c}
    ensures |r| == |desc| + 1
    ensures r != [] && (r[0] == c || (desc != [] && r[0] == desc[0]))
  {
    if desc == [] || c.start > desc[0].start then [c] + desc
    else
      var rest := Insert(c, desc[1..]);
      assert desc == [desc[0]] + desc[1..];
      [desc[0]] + rest
  }

  /** `[...changes].sort((a, b) => b.span.start - a.span.start)`. */
  function SortByStartDesc(cs: seq<TextChange>): (r: seq<TextChange>)
    ensures Descending(r)
    ensures multiset(r) == multiset(cs)
  {
    if cs == [] then []
    else
      assert cs == cs[..|cs| - 1] + [cs[|cs| - 1]];
      Insert(cs[|cs| - 1], SortByStartDesc(cs[..|cs| - 1]))
  }

  // ----- Counting import lines -----

  /** What JavaScript's multiline `^` accepts before a line. */
  predicate IsLineTerminator(c: char) {
    c == '\n' || c == '\r' || c == '\U{2028}' || c == '\U{2029}'
  }

  const IMPORT_PREFIX := "import "

  /** A match of `/^import /m` starts at `i`. */
  predicate ImportAt(s: string, i: nat)
    requires i <= |s|
  {
    (i == 0 || IsLineTerminator(s[i - 1])) && StartsWith(s[i..], IMPORT_PREFIX)
  }

  function CountFrom(s: string, i: nat): nat
    requires i <= |s|
    decreases |s| - i
  {
    if i == |s| then 0 else (if ImportAt(s, i) then 1 else 0) + CountFrom(s, i + 1)
  }

  /** `(s.match(/^import /gm) || []).length`. */
  function ImportLines(s: string): nat {
    CountFrom(s, 0)
  }

  predicate OneLine(s: string) {
    forall i :: 0 <= i < |s| ==> !IsLineTerminator(s[i])
  }

  lemma {:induction false} CountInLine(s: string, i: nat)
    requires OneLine(s) && 0 < i <= |s|
    ensures CountFrom(s, i) == 0
    decreases |s| - i
  {
    if i < |s| {
      CountInLine(s, i + 1);
    }
  }

  /** A single line counts once when it starts with `import `. */
  lemma OneLineCount(s: string)
    requires OneLine(s)
    ensures ImportLines(s) == if StartsWith(s, IMPORT_PREFIX) then 1 else 0
  {
    if s != [] {
      CountInLine(s, 1);
    }
  }

  /** A match cannot straddle a line terminator, so positions after the break count as in
      the second part. */
  lemma {:induction false} CountInSecond(a: string, t: char, b: string, j: nat)
    requires IsLineTerminator(t) && j <= |b|
    ensures CountFrom(a + [t] + b, |a| + 1 + j) == CountFrom(b, j)
    decreases |b| - j
  {
    var x := a + [t] + b;
    if j < |b| {
      CountInSecond(a, t, b, j + 1);
      assert x[|a| + 1 + j..] == b[j..];
      assert j > 0 ==> x[|a| + 1 + j - 1] == b[j - 1];
    }
  }

  lemma {:induction false} CountInFirst(a: string, t: char, b: string, i: nat)
    requires IsLineTerminator(t) && i <= |a|
    ensures CountFrom(a + [t] + b, i) == CountFrom(a, i) + CountFrom(b, 0)
    decreases |a| - i
  {
    var x := a + [t] + b;
    if i == |a| {
      assert !StartsWith(x[i..], IMPORT_PREFIX) by {
        assert x[i] == t;
        if |IMPORT_PREFIX| <= |x[i..]| {
          assert x[i..][..|IMPORT_PREFIX|][0] == t;
        }
      }
      CountInSecond(a, t, b, 0);
    } else {
      CountInFirst(a, t, b, i + 1);
      assert ImportAt(x, i) == ImportAt(a, i) by {
        assert i > 0 ==> x[i - 1] == a[i - 1];
        var w := x[i..];
        var v := a[i..];
        assert w == v + [t] + b;
        if StartsWith(w, IMPORT_PREFIX) && !StartsWith(v, IMPORT_PREFIX) {
          assert |v| < |IMPORT_PREFIX|;
          assert w[|v|] == t;
          assert w[..|IMPORT_PREFIX|][|v|] == IMPORT_PREFIX[|v|];
        }
        if StartsWith(v, IMPORT_PREFIX) {
          assert w[..|IMPORT_PREFIX|] == v[..|IMPORT_PREFIX|];
        }
      }
    }
  }

  /** The count is taken line by line: joining two texts with a line break adds their
      counts. */
  lemma ImportLinesOfLines(a: string, t: char, b: string)
    requires IsLineTerminator(t)
    ensures ImportLines(a + [t] + b) == ImportLines(a) + ImportLines(b)
  {
    CountInFirst(a, t, b, 0);
  }

  /** `Math.max(0, oldImportCount - newImportCount)`. */
  function UnusedCount(oldCount: nat, newCount: nat): (d: nat)
    ensures d > 0 <==> newCount < oldCount
    ensures d > 0 ==> newCount + d == oldCount
  {
    if oldCount > newCount then oldCount - newCount else 0
  }

  // ----- Svelte script regions -----

  /** A match of `/<script[^>]*>([\s\S]*?)<\/script>/`: where the opening tag starts, the tag,
      and the captured body. */
  datatype ScriptMatch = ScriptMatch(index: nat, openTag: string, body: string)

  /** The match describes `content`: the tag and then the body sit at `index`. */
  predicate MatchesContent(content: string, m: ScriptMatch) {
    && m.index + |m.openTag| + |m.body| <= |content|
    && content[m.index..m.index + |m.openTag|] == m.openTag
    && content[m.index + |m.openTag|..m.index + |m.openTag| + |m.body|] == m.body
  }

  /** `content.slice(0, start) + script + content.slice(end)`: only `[start, end)` changes. */
  function Splice(content: string, start: nat, end: nat, script: string): (r: string)
    ensures start <= end <= |content| ==>
      && r == content[..start] + script + content[end..]
      && r[..start] == content[..start]
      && r[start + |script|..] == content[end..]
  {
    Slice(content, 0, start) + script + Slice(content, end, |content|)
  }

  /** As written: `scriptStart = content.indexOf(scriptMatch[1])`, the first place the body's
      text occurs, which may lie before the script tag. */
  function ScriptStartAsWritten(content: string, m: ScriptMatch): (r: int)
    ensures r == -1 || (r >= 0 && OccursAt(content, m.body, r))
    ensures MatchesContent(content, m) ==> 0 <= r <= ScriptStart(m)
  {
    var r := IndexOf(content, m.body, 0);
    assert MatchesContent(content, m) ==> OccursAt(content, m.body, ScriptStart(m));
    r
  }

  /** The body's own position, just after the opening tag. */
  function ScriptStart(m: ScriptMatch): nat {
    m.index + |m.openTag|
  }

  /** When the body's text also appears earlier in the file, the position found is the
      earlier one and the splice rewrites the wrong part of the file. */
  lemma ScriptStartAsWrittenMisplaced()
    ensures var content := "a<script>a</script>";
      var m := ScriptMatch(1, "<script>", "a");
      && MatchesContent(content, m)
      && ScriptStartAsWritten(content, m) == 0
      && ScriptStart(m) == 9
      && Splice(content, 0, 1, "") != content[..ScriptStart(m)] + content[ScriptStart(m) + 1..]
  {
    var content := "a<script>a</script>";
    var m := ScriptMatch(1, "<script>", "a");
    assert OccursAt(content, m.body, 0);
    assert Splice(content, 0, 1, "")[0] == '<';
  }

  /** The position found is the body's own exactly when the body's text does not occur
      earlier in the file. */
  lemma ScriptStartAsWrittenAgrees(content: string, m: ScriptMatch)
    requires MatchesContent(content, m)
    ensures ScriptStartAsWritten(content, m) == ScriptStart(m)
            <==> forall i :: 0 <= i < ScriptStart(m) ==> !OccursAt(content, m.body, i)
  {
    assert OccursAt(content, m.body, ScriptStart(m));
  }

  /** The region starting at the body's own position is the body, and splicing the new
      script there keeps everything up to and including the opening tag. */
  lemma ScriptRegionIsBody(content: string, m: ScriptMatch, script: string)
    requires MatchesContent(content, m)
    ensures content[ScriptStart(m)..ScriptStart(m) + |m.body|] == m.body
    ensures var r := Splice(content, ScriptStart(m), ScriptStart(m) + |m.body|, script);
      && r[..ScriptStart(m)] == content[..ScriptStart(m)]
      && r[m.index..ScriptStart(m)] == m.openTag
  {
    var r := Splice(content, ScriptStart(m), ScriptStart(m) + |m.body|, script);
    assert r[m.index..ScriptStart(m)] == r[..ScriptStart(m)][m.index..];
  }

  // ----- Files -----

  /** A file found by the glob, with what the script reads about it: its text, the script
      match for a Svelte file, and the edits "organize imports" proposes for its script
      (`None` when the service returns no change set). */
  datatype SourceFile = SourceFile(
    path: string,
    content: string,
    scriptMatch: Option<ScriptMatch>,
    edits: Option<seq<TextChange>>)

  predicate IsSvelte(f: SourceFile) {
    |f.path| >= 7 && f.path[|f.path| - 7..] == ".svelte"
  }

  datatype Queued = Queued(path: string, content: string, newContent: string, unusedCount: nat)

  /** The script text and its region: the whole file, or for a Svelte file the body of its
      first script element; a Svelte file without one is skipped. */
  function ScriptOf(f: SourceFile): (r: Option<(string, nat, nat)>)
    ensures r.None? <==> IsSvelte(f) && f.scriptMatch.None?
    ensures r.Some? ==> r.value.1 + |r.value.0| == r.value.2
    ensures !IsSvelte(f) ==> r.value.0 == f.content && r.value.1 == 0 && r.value.2 == |f.content|
    ensures IsSvelte(f) && f.scriptMatch.Some? && MatchesContent(f.content, f.scriptMatch.value) ==>
      var m := f.scriptMatch.value;
      && r.value.0 == m.body
      && r.value.1 == ScriptStart(m)
      && r.value.2 <= |f.content|
      && f.content[r.value.1..r.value.2] == m.body
      && f.content[m.index..r.value.1] == m.openTag
  {
    if !IsSvelte(f) then Some((f.content, 0, |f.content|))
    else if f.scriptMatch.None? then None
    else
      var m := f.scriptMatch.value;
      Some((m.body, ScriptStart(m), ScriptStart(m) + |m.body|))
  }

  /** The number of import lines the file's edits remove, 0 when it is skipped. */
  function FileUnused(f: SourceFile): nat {
    match ScriptOf(f)
    case None => 0
    case Some((script, _, _)) =>
      if f.edits.None? then 0
      else UnusedCount(ImportLines(script), ImportLines(ApplyInOrder(script, SortByStartDesc(f.edits.value))))
  }

  /** What the loop queues for one file: the new text and the count, when the count is
      positive. */
  function PlanFile(f: SourceFile): (r: Option<Queued>)
    ensures r.Some? <==> FileUnused(f) > 0
    ensures r.Some? ==> r.value.path == f.path && r.value.content == f.content && r.value.unusedCount == FileUnused(f)
  {
    match ScriptOf(f)
    case None => None
    case Some((script, start, end)) =>
      if f.edits.None? then None
      else
        var newScript := ApplyInOrder(script, SortByStartDesc(f.edits.value));
        var d := UnusedCount(ImportLines(script), ImportLines(newScript));
        if d == 0 then None
        else Some(Queued(f.path, f.content, if IsSvelte(f) then Splice(f.content, start, end, newScript) else newScript, d))
  }

  /** The text written back for a file that is not a Svelte file: the edited file. */
  lemma PlanFileNewContent(f: SourceFile)
    requires PlanFile(f).Some? && !IsSvelte(f)
    ensures PlanFile(f).value.newContent == ApplyInOrder(f.content, SortByStartDesc(f.edits.value))
  {
  }

  /** The text written back for a Svelte file: the old text with only the script body
      replaced by the edited body. */
  lemma PlanSvelteNewContent(f: SourceFile)
    requires PlanFile(f).Some? && IsSvelte(f) && MatchesContent(f.content, f.scriptMatch.value)
    ensures var m := f.scriptMatch.value;
      var start := ScriptStart(m);
      PlanFile(f).value.newContent
        == Splice(f.content, start, start + |m.body|, ApplyInOrder(m.body, SortByStartDesc(f.edits.value)))
    ensures var m := f.scriptMatch.value;
      ScriptStart(m) + |m.body| <= |f.content|
  {
  }

  function Planned(files: seq<SourceFile>): seq<Queued> {
    if files == [] then []
    else
      var rest := Planned(files[..|files| - 1]);
      match PlanFile(files[|files| - 1])
      case None => rest
      case Some(q) => rest + [q]
  }

  function TotalUnused(queue: seq<Queued>): nat {
    if queue == [] then 0 else TotalUnused(queue[..|queue| - 1]) + queue[|queue| - 1].unusedCount
  }

  /** The queue is exactly the files whose edits remove an import line, in glob order. */
  lemma {:induction false} PlannedIsQueued(files: seq<SourceFile>)
    ensures forall q :: q in Planned(files) ==> q.unusedCount > 0 && exists f :: f in files && PlanFile(f) == Some(q)
    ensures forall f :: f in files && FileUnused(f) > 0 ==> PlanFile(f).value in Planned(files)
  {
    if files != [] {
      var init := files[..|files| - 1];
      PlannedIsQueued(init);
      assert files == init + [files[|files| - 1]];
    }
  }

  /** The total is zero exactly when nothing is queued. */
  lemma {:induction false} TotalZeroIffEmpty(files: seq<SourceFile>)
    ensures TotalUnused(Planned(files)) == 0 <==> Planned(files) == []
    ensures TotalUnused(Planned(files)) >= |Planned(files)|
  {
    if files != [] {
      TotalZeroIffEmpty(files[..|files| - 1]);
      var rest := Planned(files[..|files| - 1]);
      match PlanFile(files[|files| - 1])
      case None =>
      case Some(q) =>
        assert (rest + [q])[..|rest + [q]| - 1] == rest;
    }
  }

  lemma PlannedStep(files: seq<SourceFile>, i: nat)
    requires i < |files|
    ensures Planned(files[..i + 1])
            == Planned(files[..i]) + (if PlanFile(files[i]).Some? then [PlanFile(files[i]).value] else [])
  {
    assert files[..i + 1][..i] == files[..i];
  }

  /** The scan over the files: edits applied by the loop, the count accumulated in the
      running total, and each file with a positive count pushed onto the queue. */
  method Scan(files: seq<SourceFile>) returns (total: nat, queue: seq<Queued>)
    ensures queue == Planned(files)
    ensures total == TotalUnused(queue)
  {
    total := 0;
    queue := [];
    var i := 0;
    while i < |files|
      invariant 0 <= i <= |files|
      invariant queue == Planned(files[..i])
      invariant total == TotalUnused(queue)
    {
      var f := files[i];
      PlannedStep(files, i);
      var region := ScriptOf(f);
      if region.Some? && f.edits.Some? {
        var (script, start, end) := region.value;
        var newScript := ApplyEdits(script, SortByStartDesc(f.edits.value));
        var d := UnusedCount(ImportLines(script), ImportLines(newScript));
        if d > 0 {
          var finalContent := f.content;
          if IsSvelte(f) {
            finalContent := Splice(f.content, start, end, newScript);
          } else {
            finalContent := newScript;
          }
          assert PlanFile(f) == Some(Queued(f.path, f.content, finalContent, d));
          total := total + d;
          queue := queue + [Queued(f.path, f.content, finalContent, d)];
          assert queue[..|queue| - 1] == Planned(files[..i]);
        } else {
          assert PlanFile(f).None?;
        }
      } else {
        assert PlanFile(f).None?;
      }
      i := i + 1;
    }
    assert files[..|files|] == files;
  }

  // ----- Confirmation -----

  /** `answer.toLowerCase() === 'yes' || answer.toLowerCase() === 'y'`. */
  predicate Confirmed(answer: string) {
    ToLower(answer) == "yes" || ToLower(answer) == "y"
  }

  lemma LowerIs(c: char, l: char, u: char)
    requires 'a' <= l <= 'z' && u == (l as int - 32) as char
    ensures LowerAscii(c) == l <==> c == l || c == u
  {
  }

  /** The accepted answers are `y` and `yes` in any mix of cases, and nothing else. */
  lemma ConfirmedAnswers(answer: string)
    ensures Confirmed(answer) <==>
      || (|answer| == 1 && (answer[0] == 'y' || answer[0] == 'Y'))
      || (|answer| == 3 && (answer[0] == 'y' || answer[0] == 'Y') && (answer[1] == 'e' || answer[1] == 'E')
          && (answer[2] == 's' || answer[2] == 'S'))
  {
    if |answer| == 1 {
      LowerIs(answer[0], 'y', 'Y');
      assert ToLower(answer) == "y" <==> LowerAscii(answer[0]) == 'y';
    } else if |answer| == 3 {
      LowerIs(answer[0], 'y', 'Y');
      LowerIs(answer[1], 'e', 'E');
      LowerIs(answer[2], 's', 'S');
      assert ToLower(answer) == "yes" <==>
        LowerAscii(answer[0]) == 'y' && LowerAscii(answer[1]) == 'e' && LowerAscii(answer[2]) == 's';
    }
  }

  /** How a run ends: nothing to clean, cancelled at the prompt, or the queued files
      written, each path with its new text. */
  datatype Outcome = NothingToClean | Cancelled | Written(writes: seq<(string, string)>)

  function Finish(queue: seq<Queued>, total: nat, answer: string): (r: Outcome)
    ensures r.NothingToClean? <==> total == 0
    ensures r.Written? <==> total != 0 && Confirmed(answer)
    ensures r.Written? ==>
      && |r.writes| == |queue|
      && forall k :: 0 <= k < |queue| ==> r.writes[k] == (queue[k].path, queue[k].newContent)
  {
    if total == 0 then NothingToClean
    else if Confirmed(answer) then Written(seq(|queue|, k requires 0 <= k < |queue| => (queue[k].path, queue[k].newContent)))
    else Cancelled
  }

  /** A whole run writes a file only after a yes, and only the files whose edits remove an
      import line. */
  lemma RunWritesOnlyQueued(files: seq<SourceFile>, answer: string)
    ensures var queue := Planned(files);
      var r := Finish(queue, TotalUnused(queue), answer);
      && (r.Written? ==> Confirmed(answer) && queue != [])
      && (r.NothingToClean? <==> queue == [])
      && (r.Written? ==> forall w :: w in r.writes ==> exists f :: f in files && FileUnused(f) > 0 && f.path == w.0)
  {
    TotalZeroIffEmpty(files);
    PlannedIsQueued(files);
  }
}
