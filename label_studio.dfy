// Conversions between YOLO label files and Label Studio rectangle annotations:
// the import side (YOLO box to percentage box, and the label-file parser) and the
// per-result conversion of the export side.
module LabelStudio {
  import opened Results

  const ClassIdToName: map<int, string> := map[0 := "golf_ball", 1 := "putter"]
  const ClassNameToId: map<string, int> := map["golf_ball" := 0, "putter" := 1]

  // ---- class labels ----

  function DigitChar(d: nat): (c: char)
    requires d < 10
    ensures '0' <= c <= '9'
  {
    ('0' as int + d) as char
  }

  /// Decimal representation of a natural number, without leading zeros.
  function NatToString(n: nat): (s: string)
    ensures s != [] && forall i :: 0 <= i < |s| ==> '0' <= s[i] <= '9'
    decreases n
  {
    if n < 10 then [DigitChar(n)] else NatToString(n / 10) + [DigitChar(n % 10)]
  }

  /// Python's `f"{i}"` for an integer.
  function IntToString(i: int): string
  {
    if i < 0 then "-" + NatToString(-i) else NatToString(i)
  }

  /// `CLASS_ID_TO_NAME.get(class_id, f"class_{class_id}")`: the two known classes get their
  /// names, every other id a "class_<id>" label that is never a known name.
  function ClassLabel(classId: int): (name: string)
    ensures name == "golf_ball" <==> classId == 0
    ensures name == "putter" <==> classId == 1
    ensures name in ClassNameToId <==> classId in ClassIdToName
    ensures name in ClassNameToId ==> ClassNameToId[name] == classId
    ensures classId !in ClassIdToName ==> name == "class_" + IntToString(classId)
  {
    if classId in ClassIdToName then ClassIdToName[classId]
    else
      var name := "class_" + IntToString(classId);
      assert name[0] == 'c';
      name
  }

  // ---- boxes ----

  /// A Label Studio rectangle value: top-left corner and size in percent of the image.
  datatype BoxValue = BoxValue(x: real, y: real, width: real, height: real, rectanglelabels: seq<string>)

  /// One annotation result.
  datatype LsResult = LsResult(fromName: string, toName: string, kind: string, value: BoxValue)

  /// One YOLO label line: class and normalised centre and size.
  datatype YoloBox = YoloBox(classId: int, cx: real, cy: real, w: real, h: real)

  /// `yolo_to_ls_bbox`: the same rectangle as a percentage box labelled with the class name.
  function YoloToLsBbox(classId: int, cx: real, cy: real, w: real, h: real): (v: BoxValue)
    ensures v.x + v.width / 2.0 == cx * 100.0 && v.y + v.height / 2.0 == cy * 100.0
    ensures v.width / 100.0 == w && v.height / 100.0 == h
    ensures v.rectanglelabels == [ClassLabel(classId)]
  {
    BoxValue((cx - w / 2.0) * 100.0, (cy - h / 2.0) * 100.0, w * 100.0, h * 100.0, [ClassLabel(classId)])
  }

  /// The coordinate conversion of the export: percentage box back to a normalised centre and size.
  function LsToYolo(classId: int, v: BoxValue): (b: YoloBox)
    ensures b.classId == classId
    ensures YoloToLsBbox(classId, b.cx, b.cy, b.w, b.h) == v.(rectanglelabels := [ClassLabel(classId)])
  {
    YoloBox(classId, (v.x + v.width / 2.0) / 100.0, (v.y + v.height / 2.0) / 100.0, v.width / 100.0, v.height / 100.0)
  }

  /// Exporting an imported box gives back the YOLO box.
  lemma ExportInvertsImport(b: YoloBox)
    ensures LsToYolo(b.classId, YoloToLsBbox(b.classId, b.cx, b.cy, b.w, b.h)) == b
  {
  }

  /// Importing an exported box gives back the percentage box, when it is labelled with its class.
  lemma ImportInvertsExport(classId: int, v: BoxValue)
    requires v.rectanglelabels == [ClassLabel(classId)]
    ensures var b := LsToYolo(classId, v); YoloToLsBbox(b.classId, b.cx, b.cy, b.w, b.h) == v
  {
  }

  // ---- export of one task ----

  /// The export conversion of one result: skipped unless it is a rectangle whose first label
  /// is a known class name.
  function ExportResult(r: LsResult): (b: Option<YoloBox>)
    ensures b.Some? <==> r.kind == "rectanglelabels" && r.value.rectanglelabels != []
                         && r.value.rectanglelabels[0] in ClassNameToId
    ensures b.Some? ==> b.value == LsToYolo(ClassNameToId[r.value.rectanglelabels[0]], r.value)
    ensures b.Some? ==> b.value.classId in ClassIdToName
  {
    if r.kind != "rectanglelabels" then None
    else
      var labels := r.value.rectanglelabels;
      if labels == [] then None
      else if labels[0] !in ClassNameToId then None
      else Some(LsToYolo(ClassNameToId[labels[0]], r.value))
  }

  /// The label lines exported from a list of results, in order.
  function ExportResults(results: seq<LsResult>): (boxes: seq<YoloBox>)
    ensures |boxes| <= |results|
    ensures forall b :: b in boxes ==> b.classId in ClassIdToName
    decreases |results|
  {
    if results == [] then []
    else
      var last := ExportResult(results[|results| - 1]);
      ExportResults(results[..|results| - 1]) + (if last.Some? then [last.value] else [])
  }

  /// One annotation of a task and the task itself.
  datatype Annotation = Annotation(result: seq<LsResult>)
  datatype Task = Task(image: string, annotations: seq<Annotation>)

  /// The per-task loop of the export: no annotations means no label file (`None`); otherwise
  /// only the latest annotation is converted.
  method ExportTask(task: Task) returns (lines: Option<seq<YoloBox>>)
    ensures task.annotations == [] <==> lines.None?
    ensures lines.Some? ==> lines.value == ExportResults(task.annotations[|task.annotations| - 1].result)
  {
    if task.annotations == [] {
      return None;
    }
    var latest := task.annotations[|task.annotations| - 1];
    var results := latest.result;
    var out: seq<YoloBox> := [];
    for i := 0 to |results|
      invariant out == ExportResults(results[..i])
    {
      assert results[..i + 1][..i] == results[..i];
      var r := results[i];
      if r.kind != "rectanglelabels" {
        continue;
      }
      var labels := r.value.rectanglelabels;
      if labels == [] {
        continue;
      }
      var labelName := labels[0];
      if labelName !in ClassNameToId {
        continue;
      }
      var classId := ClassNameToId[labelName];
      var v := r.value;
      out := out + [YoloBox(classId, (v.x + v.width / 2.0) / 100.0, (v.y + v.height / 2.0) / 100.0,
                            v.width / 100.0, v.height / 100.0)];
    }
    assert results[..|results|] == results;
    return Some(out);
  }

  /// The label file a task exports, keyed by its image path: none without annotations,
  /// otherwise the lines of its latest annotation.
  function FileOf(task: Task): Option<(string, seq<YoloBox>)>
  {
    if task.annotations == [] then None
    else Some((task.image, ExportResults(task.annotations[|task.annotations| - 1].result)))
  }

  /// The label files of all tasks, in task order.
  function ExportedFiles(tasks: seq<Task>): seq<(string, seq<YoloBox>)>
    decreases |tasks|
  {
    if tasks == [] then []
    else
      var f := FileOf(tasks[|tasks| - 1]);
      ExportedFiles(tasks[..|tasks| - 1]) + (if f.Some? then [f.value] else [])
  }

  /// Every exported file belongs to an annotated task, every annotated task exports its
  /// file, and there are at most as many files as tasks.
  lemma {:induction false} ExportedFilesCharacterized(tasks: seq<Task>)
    ensures var files := ExportedFiles(tasks);
      |files| <= |tasks|
      && (forall f :: f in files ==> exists t :: t in tasks && t.annotations != [] && FileOf(t) == Some(f))
      && (forall t :: t in tasks && t.annotations != [] ==> FileOf(t).value in files)
    decreases |tasks|
  {
    if tasks != [] {
      var pre := tasks[..|tasks| - 1];
      ExportedFilesCharacterized(pre);
      assert tasks == pre + [tasks[|tasks| - 1]];
    }
  }

  /// The export loop over all tasks: one label file per annotated task, and the count of
  /// files written.
  method ExportAll(tasks: seq<Task>) returns (files: seq<(string, seq<YoloBox>)>, exported: nat)
    ensures files == ExportedFiles(tasks)
    ensures exported == |files|
  {
    files := [];
    exported := 0;
    for i := 0 to |tasks|
      invariant files == ExportedFiles(tasks[..i])
      invariant exported == |files|
    {
      assert tasks[..i + 1][..i] == tasks[..i];
      var lines := ExportTask(tasks[i]);
      if lines.None? {
        continue;
      }
      files := files + [(tasks[i].image, lines.value)];
      exported := exported + 1;
    }
    assert tasks[..|tasks|] == tasks;
  }

  /// The annotation result the importer builds for one YOLO box.
  function ImportResult(b: YoloBox): LsResult
  {
    LsResult("label", "image", "rectanglelabels", YoloToLsBbox(b.classId, b.cx, b.cy, b.w, b.h))
  }

  /// The boxes of the two known classes, in order.
  function KnownBoxes(boxes: seq<YoloBox>): (r: seq<YoloBox>)
    ensures forall b :: b in r <==> b in boxes && b.classId in ClassIdToName
    decreases |boxes|
  {
    if boxes == [] then []
    else
      var last := boxes[|boxes| - 1];
      KnownBoxes(boxes[..|boxes| - 1]) + (if last.classId in ClassIdToName then [last] else [])
  }

  /// The results the importer builds for a list of YOLO boxes, in order.
  function ImportResults(boxes: seq<YoloBox>): (rs: seq<LsResult>)
    ensures |rs| == |boxes|
    decreases |boxes|
  {
    if boxes == [] then [] else ImportResults(boxes[..|boxes| - 1]) + [ImportResult(boxes[|boxes| - 1])]
  }

  /// Import followed by export gives back exactly the boxes of known classes, in order; the
  /// boxes of other classes are labelled "class_<id>" on import and dropped on export.
  lemma {:induction false} ImportThenExport(boxes: seq<YoloBox>)
    ensures ExportResults(ImportResults(boxes)) == KnownBoxes(boxes)
    decreases |boxes|
  {
    if boxes != [] {
      var pre, last := boxes[..|boxes| - 1], boxes[|boxes| - 1];
      var imported := ImportResults(boxes);
      ImportThenExport(pre);
      assert imported[..|imported| - 1] == ImportResults(pre);
      assert imported[|imported| - 1] == ImportResult(last);
      ExportInvertsImport(last);
    }
  }

  // ---- parsing a YOLO label file ----

  /// Characters Python's `str.split()` and `str.strip()` treat as whitespace.
  predicate IsSpace(c: char)
  {
    c == ' ' || c == '\t' || c == '\n' || c == '\r' || c == '\U{0B}' || c == '\U{0C}'
    || c == '\U{1C}' || c == '\U{1D}' || c == '\U{1E}' || c == '\U{1F}' || c == '\U{85}' || c == '\U{A0}'
    || c == '\U{1680}' || ('\U{2000}' <= c <= '\U{200A}') || c == '\U{2028}' || c == '\U{2029}'
    || c == '\U{202F}' || c == '\U{205F}' || c == '\U{3000}'
  }

  /// Characters at which Python's `str.splitlines()` breaks a line ("\r\n" counts once).
  predicate IsLineBreak(c: char)
  {
    c == '\n' || c == '\r' || c == '\U{0B}' || c == '\U{0C}' || c == '\U{1C}' || c == '\U{1D}'
    || c == '\U{1E}' || c == '\U{85}' || c == '\U{2028}' || c == '\U{2029}'
  }

  /// `str.strip()`.
  function Strip(s: string): (t: string)
    ensures t == [] || (!IsSpace(t[0]) && !IsSpace(t[|t| - 1]))
    ensures (forall i :: 0 <= i < |s| ==> IsSpace(s[i])) ==> t == []
    decreases |s|
  {
    if s == [] then []
    else if IsSpace(s[0]) then Strip(s[1..])
    else if IsSpace(s[|s| - 1]) then Strip(s[..|s| - 1])
    else s
  }

  /// Length of the run of non-space characters at the front of `s`.
  function WordLength(s: string): (n: nat)
    ensures n <= |s| && forall i :: 0 <= i < n ==> !IsSpace(s[i])
    ensures n < |s| ==> IsSpace(s[n])
    decreases |s|
  {
    if s == [] || IsSpace(s[0]) then 0 else 1 + WordLength(s[1..])
  }

  /// `str.split()`: the maximal runs of non-space characters, in order.
  function Words(s: string): (ws: seq<string>)
    ensures forall k :: 0 <= k < |ws| ==> ws[k] != [] && forall i :: 0 <= i < |ws[k]| ==> !IsSpace(ws[k][i])
    decreases |s|
  {
    if s == [] then []
    else if IsSpace(s[0]) then Words(s[1..])
    else
      var n := WordLength(s);
      [s[..n]] + Words(s[n..])
  }

  /// Length of the text before the first line break.
  function LineLength(s: string): (n: nat)
    ensures n <= |s| && forall i :: 0 <= i < n ==> !IsLineBreak(s[i])
    ensures n < |s| ==> IsLineBreak(s[n])
    decreases |s|
  {
    if s == [] || IsLineBreak(s[0]) then 0 else 1 + LineLength(s[1..])
  }

  /// The number of characters the break at `n` takes: two for "\r\n", one otherwise.
  function BreakWidth(s: string, n: nat): (w: nat)
    requires n < |s|
    ensures 1 <= w <= 2 && n + w <= |s|
    ensures w == 2 <==> s[n] == '\r' && n + 1 < |s| && s[n + 1] == '\n'
  {
    if s[n] == '\r' && n + 1 < |s| && s[n + 1] == '\n' then 2 else 1
  }

  /// `str.splitlines()`.
  function SplitLines(s: string): (lines: seq<string>)
    ensures lines == [] <==> s == []
    decreases |s|
  {
    if s == [] then []
    else
      var n := LineLength(s);
      if n == |s| then [s]
      else
        var gap := BreakWidth(s, n);
        [s[..n]] + SplitLines(s[n + gap..])
  }

  /// `t` is the slice of `s` starting at `i`, with only whitespace around it.
  predicate SliceBetweenSpaces(s: string, t: string, i: int)
  {
    0 <= i <= |s| - |t| && t == s[i..i + |t|]
    && (forall k :: 0 <= k < i ==> IsSpace(s[k]))
    && (forall k :: i + |t| <= k < |s| ==> IsSpace(s[k]))
  }

  /// `Strip` removes exactly the leading and the trailing whitespace: the result is a slice
  /// of the text, everything before and after that slice is whitespace, and the slice
  /// neither starts nor ends with whitespace.
  lemma {:induction false} StripMeaning(s: string)
    ensures var t := Strip(s);
      (t == [] || (!IsSpace(t[0]) && !IsSpace(t[|t| - 1])))
      && exists i :: SliceBetweenSpaces(s, t, i)
    decreases |s|
  {
    var t := Strip(s);
    if s == [] {
      assert SliceBetweenSpaces(s, t, 0);
    } else if IsSpace(s[0]) {
      StripMeaning(s[1..]);
      var i :| SliceBetweenSpaces(s[1..], t, i);
      SliceAfterLeadingSpace(s, t, i);
    } else if IsSpace(s[|s| - 1]) {
      StripMeaning(s[..|s| - 1]);
      var i :| SliceBetweenSpaces(s[..|s| - 1], t, i);
      SliceBeforeTrailingSpace(s, t, i);
    } else {
      assert t == s[0..|t|];
      assert SliceBetweenSpaces(s, t, 0);
    }
  }

  lemma SliceAfterLeadingSpace(s: string, t: string, i: int)
    requires s != [] && IsSpace(s[0]) && SliceBetweenSpaces(s[1..], t, i)
    ensures SliceBetweenSpaces(s, t, i + 1)
  {
    assert t == s[i + 1..i + 1 + |t|];
    assert forall k :: 1 <= k < |s| ==> s[k] == s[1..][k - 1];
  }

  lemma SliceBeforeTrailingSpace(s: string, t: string, i: int)
    requires s != [] && IsSpace(s[|s| - 1]) && SliceBetweenSpaces(s[..|s| - 1], t, i)
    ensures SliceBetweenSpaces(s, t, i)
  {
    assert t == s[i..i + |t|];
  }

  /// The non-space characters of a text, in order.
  function NonSpaces(s: string): string
    decreases |s|
  {
    if s == [] then [] else (if IsSpace(s[0]) then [] else [s[0]]) + NonSpaces(s[1..])
  }

  /// Concatenation of a list of strings.
  function Concat(ws: seq<string>): string
    decreases |ws|
  {
    if ws == [] then [] else ws[0] + Concat(ws[1..])
  }

  lemma {:induction false} NonSpacesAppend(a: string, b: string)
    ensures NonSpaces(a + b) == NonSpaces(a) + NonSpaces(b)
    decreases |a|
  {
    if a == [] {
      assert a + b == b;
    } else {
      assert (a + b)[0] == a[0];
      assert (a + b)[1..] == a[1..] + b;
      NonSpacesAppend(a[1..], b);
    }
  }

  lemma {:induction false} NonSpacesOfWord(a: string)
    requires forall i :: 0 <= i < |a| ==> !IsSpace(a[i])
    ensures NonSpaces(a) == a
    decreases |a|
  {
    if a != [] {
      NonSpacesOfWord(a[1..]);
      assert a == [a[0]] + a[1..];
    }
  }

  lemma ConcatCons(w: string, ws: seq<string>)
    ensures Concat([w] + ws) == w + Concat(ws)
  {
    assert ([w] + ws)[0] == w;
    assert ([w] + ws)[1..] == ws;
  }

  /// The first word of a text that starts with a non-space character.
  lemma WordsCons(s: string)
    requires s != [] && !IsSpace(s[0])
    ensures 0 < WordLength(s) && Words(s) == [s[..WordLength(s)]] + Words(s[WordLength(s)..])
  {
  }

  /// The words, joined together, are the text with its whitespace removed.
  lemma {:induction false} WordsJoin(s: string)
    ensures Concat(Words(s)) == NonSpaces(s)
    decreases |s|
  {
    if s == [] {
    } else if IsSpace(s[0]) {
      WordsJoin(s[1..]);
    } else {
      WordsCons(s);
      var n := WordLength(s);
      var w, rest := s[..n], s[n..];
      WordsJoin(rest);
      ConcatCons(w, Words(rest));
      assert s == w + rest;
      NonSpacesAppend(w, rest);
      NonSpacesOfWord(w);
    }
  }

  lemma {:induction false} NonSpacesEmpty(s: string)
    ensures NonSpaces(s) == [] <==> forall i :: 0 <= i < |s| ==> IsSpace(s[i])
    decreases |s|
  {
    if s != [] {
      NonSpacesEmpty(s[1..]);
      assert forall i :: 1 <= i < |s| ==> s[i] == s[1..][i - 1];
    }
  }

  /// `Words` is `str.split()`: the words, joined together, are the text with its whitespace
  /// removed, and there are no words exactly when the text is all whitespace.
  lemma WordsMeaning(s: string)
    ensures Concat(Words(s)) == NonSpaces(s)
    ensures Words(s) == [] <==> forall i :: 0 <= i < |s| ==> IsSpace(s[i])
  {
    WordsJoin(s);
    NonSpacesEmpty(s);
    var ws := Words(s);
    if ws != [] {
      ConcatCons(ws[0], ws[1..]);
      assert ws == [ws[0]] + ws[1..];
    }
  }

  /// The text with every line break written as "\n" ("\r\n" counting as one break).
  function NormalizeBreaks(s: string): string
    decreases |s|
  {
    if s == [] then []
    else if |s| >= 2 && s[0] == '\r' && s[1] == '\n' then "\n" + NormalizeBreaks(s[2..])
    else if IsLineBreak(s[0]) then "\n" + NormalizeBreaks(s[1..])
    else [s[0]] + NormalizeBreaks(s[1..])
  }

  /// The lines, each followed by "\n".
  function Terminated(lines: seq<string>): string
    decreases |lines|
  {
    if lines == [] then [] else lines[0] + "\n" + Terminated(lines[1..])
  }

  lemma {:induction false} NormalizePlain(a: string, b: string)
    requires forall i :: 0 <= i < |a| ==> !IsLineBreak(a[i])
    ensures NormalizeBreaks(a + b) == a + NormalizeBreaks(b)
    decreases |a|
  {
    if a == [] {
      assert a + b == b;
    } else {
      assert (a + b)[0] == a[0];
      assert (a + b)[1..] == a[1..] + b;
      NormalizePlain(a[1..], b);
    }
  }

  /// "\n" when the text is non-empty and does not end with a line break, else nothing.
  function FinalBreak(s: string): string
  {
    if s == [] || IsLineBreak(s[|s| - 1]) then [] else "\n"
  }

  /// Normalising text that starts with a break (taking `gap` characters).
  lemma NormalizeAtBreak(tail: string, gap: nat)
    requires tail != [] && IsLineBreak(tail[0])
    requires gap == if tail[0] == '\r' && 1 < |tail| && tail[1] == '\n' then 2 else 1
    ensures gap <= |tail| && NormalizeBreaks(tail) == "\n" + NormalizeBreaks(tail[gap..])
  {
  }

  /// Normalising text whose first break is at `n` (taking `gap` characters).
  lemma BreakStep(s: string, n: nat, gap: nat)
    requires n < |s| && IsLineBreak(s[n]) && forall i :: 0 <= i < n ==> !IsLineBreak(s[i])
    requires gap == BreakWidth(s, n)
    ensures n + gap <= |s|
    ensures NormalizeBreaks(s) == s[..n] + "\n" + NormalizeBreaks(s[n + gap..])
  {
    var tail := s[n..];
    assert NormalizeBreaks(s) == s[..n] + NormalizeBreaks(tail) by {
      var head := s[..n];
      assert s == head + tail;
      assert forall i :: 0 <= i < |head| ==> head[i] == s[i];
      NormalizePlain(head, tail);
    }
    var r := NormalizeBreaks(s[n + gap..]);
    assert NormalizeBreaks(tail) == "\n" + r by {
      assert tail[0] == s[n];
      assert 1 < |tail| ==> tail[1] == s[n + 1];
      NormalizeAtBreak(tail, gap);
      assert tail[gap..] == s[n + gap..];
    }
    Assoc(s[..n], "\n", r);
  }

  lemma Assoc<T>(a: seq<T>, b: seq<T>, c: seq<T>)
    ensures a + b + c == a + (b + c)
  {
  }

  /// The final break is decided by the text after the first break.
  lemma FinalBreakStep(s: string, n: nat, gap: nat)
    requires n < |s| && IsLineBreak(s[n]) && n + gap <= |s| && 1 <= gap <= 2
    requires gap == 2 ==> s[n + 1] == '\n'
    ensures FinalBreak(s) == FinalBreak(s[n + gap..])
  {
    var rest := s[n + gap..];
    if rest != [] {
      assert s[|s| - 1] == rest[|rest| - 1];
    }
  }

  lemma TerminatedCons(line: string, lines: seq<string>)
    ensures Terminated([line] + lines) == line + "\n" + Terminated(lines)
  {
    assert ([line] + lines)[0] == line;
    assert ([line] + lines)[1..] == lines;
  }

  /// The first line of a text with a break at `n` (taking `gap` characters).
  lemma SplitLinesCons(s: string, n: nat, gap: nat)
    requires n == LineLength(s) && n < |s|
    requires gap == BreakWidth(s, n)
    ensures SplitLines(s) == [s[..n]] + SplitLines(s[n + gap..])
  {
  }

  /// No line contains a line break.
  lemma {:induction false} SplitLinesNoBreaks(s: string)
    ensures var lines := SplitLines(s);
      forall k :: 0 <= k < |lines| ==> forall i :: 0 <= i < |lines[k]| ==> !IsLineBreak(lines[k][i])
    decreases |s|
  {
    if s != [] {
      var n := LineLength(s);
      if n < |s| {
        var gap := BreakWidth(s, n);
        SplitLinesCons(s, n, gap);
        SplitLinesNoBreaks(s[n + gap..]);
      }
    }
  }

  /// `SplitLines` is `str.splitlines()`: writing each line followed by "\n" gives back the
  /// text with its breaks written as "\n", plus a final "\n" when the text does not
  /// already end with a break. Since no line contains a break, this fixes the lines.
  lemma {:induction false} SplitLinesMeaning(s: string)
    ensures NormalizeBreaks(s) + FinalBreak(s) == Terminated(SplitLines(s))
    decreases |s|
  {
    if s != [] {
      var n := LineLength(s);
      if n == |s| {
        NormalizePlain(s, []);
        assert s + [] == s;
        TerminatedCons(s, []);
      } else {
        var gap := BreakWidth(s, n);
        var rest := s[n + gap..];
        var line := s[..n];
        BreakStep(s, n, gap);
        SplitLinesCons(s, n, gap);
        FinalBreakStep(s, n, gap);
        SplitLinesMeaning(rest);
        TerminatedCons(line, SplitLines(rest));
        Assoc(line + "\n", NormalizeBreaks(rest), FinalBreak(rest));
      }
    }
  }

  /// `int(...)` or `float(...)` failed on a token.
  datatype ParseError = ValueError(token: string)

  /// One label line with at least five tokens, converted; `toInt` and `toFloat` stand for
  /// Python's `int` and `float` on a token, `None` meaning that they raise.
  function LineResult(parts: seq<string>, toInt: string -> Option<int>, toFloat: string -> Option<real>): (r: Result<LsResult, ParseError>)
    requires |parts| >= 5
    ensures r.Ok? ==> r.value.fromName == "label" && r.value.toName == "image" && r.value.kind == "rectanglelabels"
    ensures r.Ok? <==> toInt(parts[0]).Some? && toFloat(parts[1]).Some? && toFloat(parts[2]).Some?
                       && toFloat(parts[3]).Some? && toFloat(parts[4]).Some?
    ensures r.Ok? ==> r.value.value == YoloToLsBbox(toInt(parts[0]).value, toFloat(parts[1]).value,
                                                    toFloat(parts[2]).value, toFloat(parts[3]).value,
                                                    toFloat(parts[4]).value)
    ensures r.Ok? ==> r.value.value.rectanglelabels == [ClassLabel(toInt(parts[0]).value)]
    ensures toInt(parts[0]).None? ==> r == Err(ValueError(parts[0]))
    ensures r.Err? ==> r.error.token in parts[..5]
  {
    if toInt(parts[0]).None? then Err(ValueError(parts[0]))
    else if toFloat(parts[1]).None? then Err(ValueError(parts[1]))
    else if toFloat(parts[2]).None? then Err(ValueError(parts[2]))
    else if toFloat(parts[3]).None? then Err(ValueError(parts[3]))
    else if toFloat(parts[4]).None? then Err(ValueError(parts[4]))
    else
      var classId := toInt(parts[0]).value;
      var bbox := YoloToLsBbox(classId, toFloat(parts[1]).value, toFloat(parts[2]).value,
                               toFloat(parts[3]).value, toFloat(parts[4]).value);
      Ok(LsResult("label", "image", "rectanglelabels", bbox))
  }

  /// The token lists of the lines that have at least five tokens, in order.
  function LongLines(lines: seq<string>): (ls: seq<seq<string>>)
    ensures |ls| <= |lines|
    ensures forall k :: 0 <= k < |ls| ==> |ls[k]| >= 5
    decreases |lines|
  {
    if lines == [] then []
    else
      var parts := Words(Strip(lines[|lines| - 1]));
      LongLines(lines[..|lines| - 1]) + (if |parts| < 5 then [] else [parts])
  }

  /// Converts the token lists in order; the first failing conversion is the error.
  function ConvertAll(ls: seq<seq<string>>, toInt: string -> Option<int>, toFloat: string -> Option<real>): (r: Result<seq<LsResult>, ParseError>)
    requires forall k :: 0 <= k < |ls| ==> |ls[k]| >= 5
    ensures r.Ok? ==> |r.value| == |ls|
    decreases |ls|
  {
    if ls == [] then Ok([])
    else
      match ConvertAll(ls[..|ls| - 1], toInt, toFloat)
      case Err(e) => Err(e)
      case Ok(rs) =>
        match LineResult(ls[|ls| - 1], toInt, toFloat)
        case Err(e) => Err(e)
        case Ok(r) => Ok(rs + [r])
  }

  /// `parse_yolo_label` on the text of a label file.
  function ParsedLabel(text: string, toInt: string -> Option<int>, toFloat: string -> Option<real>): (r: Result<seq<LsResult>, ParseError>)
    ensures r.Ok? ==> |r.value| <= |SplitLines(Strip(text))|
  {
    var stripped := Strip(text);
    if stripped == [] then Ok([]) else ConvertAll(LongLines(SplitLines(stripped)), toInt, toFloat)
  }

  /// Converting one more token list: the earlier error stays, otherwise the new line's
  /// result is appended or its error reported.
  lemma ConvertStep(ls: seq<seq<string>>, parts: seq<string>, toInt: string -> Option<int>, toFloat: string -> Option<real>)
    requires forall k :: 0 <= k < |ls| ==> |ls[k]| >= 5
    requires |parts| >= 5
    ensures var before := ConvertAll(ls, toInt, toFloat);
            var line := LineResult(parts, toInt, toFloat);
            ConvertAll(ls + [parts], toInt, toFloat)
              == if before.Err? then before else if line.Err? then Err(line.error) else Ok(before.value + [line.value])
  {
    assert (ls + [parts])[..|ls|] == ls;
  }

  /// Conversion succeeds exactly when every line converts, and then gives one result per
  /// line, in order.
  lemma {:induction false} ConvertAllMeaning(ls: seq<seq<string>>, toInt: string -> Option<int>, toFloat: string -> Option<real>)
    requires forall k :: 0 <= k < |ls| ==> |ls[k]| >= 5
    ensures var r := ConvertAll(ls, toInt, toFloat);
      (r.Ok? <==> forall k :: 0 <= k < |ls| ==> LineResult(ls[k], toInt, toFloat).Ok?)
      && (r.Ok? ==> |r.value| == |ls| && forall k :: 0 <= k < |ls| ==> LineResult(ls[k], toInt, toFloat) == Ok(r.value[k]))
    decreases |ls|
  {
    if ls != [] {
      var pre := ls[..|ls| - 1];
      var parts := ls[|ls| - 1];
      ConvertAllMeaning(pre, toInt, toFloat);
      assert ls == pre + [parts];
      ConvertStep(pre, parts, toInt, toFloat);
    }
  }

  /// The token lists of one more line.
  lemma LongLinesStep(lines: seq<string>, i: nat)
    requires i < |lines|
    ensures var parts := Words(Strip(lines[i]));
            LongLines(lines[..i + 1]) == LongLines(lines[..i]) + (if |parts| < 5 then [] else [parts])
  {
    assert lines[..i + 1][..i] == lines[..i];
  }

  /// The kept token lists are exactly those of the lines with at least five tokens
  /// (`LongLinesStep` gives their order).
  lemma {:induction false} LongLinesCharacterized(lines: seq<string>)
    ensures forall p :: p in LongLines(lines) ==> exists l :: l in lines && p == Words(Strip(l)) && |p| >= 5
    ensures forall l :: l in lines && |Words(Strip(l))| >= 5 ==> Words(Strip(l)) in LongLines(lines)
    decreases |lines|
  {
    if lines != [] {
      var pre := lines[..|lines| - 1];
      var last := lines[|lines| - 1];
      var parts := Words(Strip(last));
      LongLinesCharacterized(pre);
      LongLinesStep(lines, |lines| - 1);
      assert lines[..|lines|] == lines;
      DropLast(lines);
      var kept := LongLines(lines);
      assert kept == LongLines(pre) + (if |parts| < 5 then [] else [parts]);
      forall p | p in kept
        ensures exists l :: l in lines && p == Words(Strip(l)) && |p| >= 5
      {
        if p in LongLines(pre) {
          var l :| l in pre && p == Words(Strip(l)) && |p| >= 5;
          assert l in lines;
        } else {
          assert p == parts && last in lines;
        }
      }
      forall l | l in lines && |Words(Strip(l))| >= 5
        ensures Words(Strip(l)) in kept
      {
        if l != last {
          assert l in pre;
        }
      }
    }
  }

  lemma DropLast<T>(s: seq<T>)
    requires s != []
    ensures s == s[..|s| - 1] + [s[|s| - 1]]
  {
  }

  /// Empty or whitespace-only text parses to no results.
  lemma BlankLabelFile(text: string, toInt: string -> Option<int>, toFloat: string -> Option<real>)
    requires forall i :: 0 <= i < |text| ==> IsSpace(text[i])
    ensures ParsedLabel(text, toInt, toFloat) == Ok([])
  {
  }

  /// The parser loop: lines with fewer than five tokens are skipped, every other line
  /// yields one rectangle result, and a token `int`/`float` rejects aborts the parse.
  method ParseYoloLabel(text: string, toInt: string -> Option<int>, toFloat: string -> Option<real>)
    returns (r: Result<seq<LsResult>, ParseError>)
    ensures r == ParsedLabel(text, toInt, toFloat)
  {
    var stripped := Strip(text);
    if stripped == [] {
      return Ok([]);
    }
    var lines := SplitLines(stripped);
    var results: seq<LsResult> := [];
    for i := 0 to |lines|
      invariant ConvertAll(LongLines(lines[..i]), toInt, toFloat) == Ok(results)
    {
      var parts := Words(Strip(lines[i]));
      if |parts| < 5 {
        LineStep(lines, i, toInt, toFloat);
        continue;
      }
      var line := LineResult(parts, toInt, toFloat);
      LineStep(lines, i, toInt, toFloat);
      if line.Err? {
        r := Err(line.error);
        ErrorPersists(lines, i + 1, toInt, toFloat);
        return;
      }
      results := results + [line.value];
    }
    assert lines[..|lines|] == lines;
    return Ok(results);
  }

  /// What reading line `i` does to the conversion of the lines before it.
  lemma LineStep(lines: seq<string>, i: nat, toInt: string -> Option<int>, toFloat: string -> Option<real>)
    requires i < |lines|
    ensures var parts := Words(Strip(lines[i]));
            var before := ConvertAll(LongLines(lines[..i]), toInt, toFloat);
            var after := ConvertAll(LongLines(lines[..i + 1]), toInt, toFloat);
            if |parts| < 5 then after == before
            else
              var line := LineResult(parts, toInt, toFloat);
              after == if before.Err? then before else if line.Err? then Err(line.error) else Ok(before.value + [line.value])
  {
    LongLinesStep(lines, i);
    var parts := Words(Strip(lines[i]));
    var ls := LongLines(lines[..i]);
    if |parts| >= 5 {
      assert LongLines(lines[..i + 1]) == ls + [parts];
      ConvertStep(ls, parts, toInt, toFloat);
    } else {
      assert LongLines(lines[..i + 1]) == ls;
    }
  }

  /// Once the lines read so far fail to convert, so do all the lines.
  lemma {:induction false} ErrorPersists(lines: seq<string>, i: nat, toInt: string -> Option<int>, toFloat: string -> Option<real>)
    requires i <= |lines| && ConvertAll(LongLines(lines[..i]), toInt, toFloat).Err?
    ensures ConvertAll(LongLines(lines), toInt, toFloat) == ConvertAll(LongLines(lines[..i]), toInt, toFloat)
    decreases |lines| - i
  {
    if i < |lines| {
      LineStep(lines, i, toInt, toFloat);
      ErrorPersists(lines, i + 1, toInt, toFloat);
    } else {
      assert lines[..i] == lines;
    }
  }
}
