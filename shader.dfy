/** Shader sources: the string helpers of the shader preprocessor (splitting on a delimiter,
    the file name of an include line, appending an included text), the preprocessing of a
    source with its include lines resolved, and the per-stage source store of a shader. */
module ShaderModel {
  import opened Common

  // ---------------------------------------------------------------------------------------
  // `std::string::find`.

  /** `d` occurs in `s` at position p. */
  predicate OccursAt(s: string, d: string, p: nat) {
    p + |d| <= |s| && s[p..p + |d|] == d
  }

  /** `s.find(d, from)`: the first position at or after `from` where `d` occurs. */
  function FindFrom(s: string, d: string, from: nat): (r: Option<nat>)
    ensures r.Some? ==> from <= r.value && OccursAt(s, d, r.value)
    decreases |s| - from
  {
    if from + |d| > |s| then None
    else if s[from..from + |d|] == d then Some(from)
    else FindFrom(s, d, from + 1)
  }

  /** The position found is the first occurrence at or after `from`; when nothing is found
      there is no occurrence at or after `from`. */
  lemma {:induction false} FindFromSpec(s: string, d: string, from: nat)
    ensures FindFrom(s, d, from).Some? ==> forall p :: from <= p < FindFrom(s, d, from).value ==> !OccursAt(s, d, p)
    ensures FindFrom(s, d, from).None? ==> forall p :: from <= p ==> !OccursAt(s, d, p)
    decreases |s| - from
  {
    if from + |d| <= |s| && s[from..from + |d|] != d {
      FindFromSpec(s, d, from + 1);
    }
  }

  // ---------------------------------------------------------------------------------------
  // `split_string`.

  /** `split_string` as written: after a delimiter found at `pos` the search resumes at
      `pos + 1`, whatever the delimiter's length. */
  function SplitAsWritten(s: string, d: string, prev: nat): (parts: seq<string>)
    requires |d| > 0 && prev <= |s|
    ensures |parts| >= 1
    decreases |s| - prev
  {
    match FindFrom(s, d, prev)
    case None => [s[prev..]]
    case Some(pos) => [s[prev..pos]] + SplitAsWritten(s, d, pos + 1)
  }

  /** The split the helper is meant to perform: the search resumes after the whole
      delimiter. */
  function Split(s: string, d: string, prev: nat): (parts: seq<string>)
    requires |d| > 0 && prev <= |s|
    ensures |parts| >= 1
    decreases |s| - prev
  {
    match FindFrom(s, d, prev)
    case None => [s[prev..]]
    case Some(pos) => [s[prev..pos]] + Split(s, d, pos + |d|)
  }

  /** `split_string(str, delimiter)`: the loop pushing the piece before each delimiter and
      then the rest. An empty delimiter makes the final `substr` throw, so the delimiter must
      not be empty. */
  method SplitString(str: string, delimiter: string) returns (strings: seq<string>)
    requires |delimiter| > 0
    ensures strings == SplitAsWritten(str, delimiter, 0)
    ensures |delimiter| == 1 ==> strings == Split(str, delimiter, 0)
  {
    strings := [];
    var prev := 0;
    var pos := FindFrom(str, delimiter, prev);
    while pos.Some?
      invariant prev <= |str|
      invariant pos == FindFrom(str, delimiter, prev)
      invariant strings + SplitAsWritten(str, delimiter, prev) == SplitAsWritten(str, delimiter, 0)
      decreases |str| - prev
    {
      strings := strings + [str[prev..pos.value]];
      prev := pos.value + 1;
      pos := FindFrom(str, delimiter, prev);
    }
    strings := strings + [str[prev..]];
    if |delimiter| == 1 {
      SplitOneCharAgrees(str, delimiter, 0);
    }
  }

  /** For a one-character delimiter, as written and as meant agree. */
  lemma {:induction false} SplitOneCharAgrees(s: string, d: string, prev: nat)
    requires |d| == 1 && prev <= |s|
    ensures SplitAsWritten(s, d, prev) == Split(s, d, prev)
    decreases |s| - prev
  {
    match FindFrom(s, d, prev)
    case None =>
    case Some(pos) =>
      SplitOneCharAgrees(s, d, pos + 1);
  }

  /** A two-character delimiter shows the difference: "a::b" split on "::" gives "a" and
      ":b" as written, where "a" and "b" are meant. */
  lemma SplitLongDelimiterCounterexample()
    ensures SplitAsWritten("a::b", "::", 0) == ["a", ":b"]
    ensures Split("a::b", "::", 0) == ["a", "b"]
  {
    var s, d := "a::b", "::";
    assert s[0..2][0] == 'a' && s[1..3] == "::" && s[2..4][1] == 'b';
    assert FindFrom(s, d, 0) == Some(1);
    assert FindFrom(s, d, 2) == None;
    assert FindFrom(s, d, 3) == None;
    assert s[0..1] == "a" && s[2..] == ":b" && s[3..] == "b";
  }

  /** The parts joined back with the delimiter between them. */
  function Join(parts: seq<string>, d: string): string
    decreases |parts|
  {
    if parts == [] then ""
    else if |parts| == 1 then parts[0]
    else parts[0] + d + Join(parts[1..], d)
  }

  /** `d` occurs nowhere in `s`. */
  predicate Free(s: string, d: string) {
    forall p :: 0 <= p <= |s| ==> !OccursAt(s, d, p)
  }

  /** A piece ending at the first occurrence after its start holds no occurrence. */
  lemma PieceIsFree(s: string, d: string, prev: nat, pos: nat)
    requires prev <= pos <= |s| && |d| > 0
    requires forall p :: prev <= p < pos ==> !OccursAt(s, d, p)
    ensures Free(s[prev..pos], d)
  {
    var piece := s[prev..pos];
    forall q | 0 <= q <= |piece|
      ensures !OccursAt(piece, d, q)
    {
      if q + |d| <= |piece| {
        var w, v := piece[q..q + |d|], s[prev + q..prev + q + |d|];
        forall i | 0 <= i < |d|
          ensures w[i] == v[i]
        {
        }
        assert w == v;
        assert prev <= prev + q < pos;
        assert !OccursAt(s, d, prev + q);
      }
    }
  }

  /** Dropping the first character keeps a text free of a one-character delimiter. */
  lemma FreeTail(s: string, d: string)
    requires |d| == 1 && s != [] && Free(s, d)
    ensures Free(s[1..], d) && s[0] != d[0]
  {
    assert s[0..1] == [s[0]] && !OccursAt(s, d, 0);
    forall p | 0 <= p <= |s[1..]|
      ensures !OccursAt(s[1..], d, p)
    {
      if p + 1 <= |s[1..]| {
        assert s[1..][p..p + 1] == s[p + 1..p + 2];
      }
      assert !OccursAt(s, d, p + 1);
    }
  }

  /** The split is undone by joining with the delimiter, and no part contains the
      delimiter. */
  lemma {:induction false} SplitJoin(s: string, d: string, prev: nat)
    requires |d| > 0 && prev <= |s|
    ensures Join(Split(s, d, prev), d) == s[prev..]
    ensures forall k :: 0 <= k < |Split(s, d, prev)| ==> Free(Split(s, d, prev)[k], d)
    decreases |s| - prev
  {
    FindFromSpec(s, d, prev);
    match FindFrom(s, d, prev)
    case None =>
      PieceIsFree(s, d, prev, |s|);
      assert s[prev..|s|] == s[prev..];
    case Some(pos) =>
      SplitJoin(s, d, pos + |d|);
      PieceIsFree(s, d, prev, pos);
      var rest := Split(s, d, pos + |d|);
      assert Split(s, d, prev)[1..] == rest;
      assert s[prev..] == s[prev..pos] + s[pos..pos + |d|] + s[pos + |d|..];
  }

  /** Number of occurrences of the character c. */
  function CountChar(s: string, c: char): nat
    decreases |s|
  {
    if s == [] then 0 else (if s[0] == c then 1 else 0) + CountChar(s[1..], c)
  }

  lemma {:induction false} CountCharAppend(a: string, b: string, c: char)
    ensures CountChar(a + b, c) == CountChar(a, c) + CountChar(b, c)
    decreases |a|
  {
    if a != [] {
      assert (a + b)[1..] == a[1..] + b && (a + b)[0] == a[0];
      CountCharAppend(a[1..], b, c);
    } else {
      assert a + b == b;
    }
  }

  /** For a one-character delimiter the number of parts is the number of occurrences plus one. */
  lemma {:induction false} SplitCount(s: string, d: string, prev: nat)
    requires |d| == 1 && prev <= |s|
    ensures |Split(s, d, prev)| == CountChar(s[prev..], d[0]) + 1
    decreases |s| - prev
  {
    FindFromSpec(s, d, prev);
    match FindFrom(s, d, prev)
    case None =>
      PieceIsFree(s, d, prev, |s|);
      NoOccurrenceNoChar(s[prev..|s|], d);
      assert s[prev..|s|] == s[prev..];
    case Some(pos) =>
      SplitCount(s, d, pos + 1);
      PieceIsFree(s, d, prev, pos);
      assert s[pos..pos + 1] == [s[pos]];
      CountAtDelimiter(s, d, prev, pos);
  }

  /** The text from `prev` holds one more delimiter character than the text after the first
      delimiter at `pos`. */
  lemma CountAtDelimiter(s: string, d: string, prev: nat, pos: nat)
    requires |d| == 1 && prev <= pos < |s| && s[pos] == d[0] && Free(s[prev..pos], d)
    ensures CountChar(s[prev..], d[0]) == CountChar(s[pos + 1..], d[0]) + 1
  {
    NoOccurrenceNoChar(s[prev..pos], d);
    assert s[prev..] == s[prev..pos] + ([s[pos]] + s[pos + 1..]);
    CountCharAppend(s[prev..pos], [s[pos]] + s[pos + 1..], d[0]);
    CountCharAppend([s[pos]], s[pos + 1..], d[0]);
  }

  lemma {:induction false} NoOccurrenceNoChar(s: string, d: string)
    requires |d| == 1 && Free(s, d)
    ensures CountChar(s, d[0]) == 0
    decreases |s|
  {
    if s != [] {
      FreeTail(s, d);
      NoOccurrenceNoChar(s[1..], d);
    }
  }

  /** The split properties the preprocessor relies on, for any one-character delimiter:
      at least one part, parts free of the delimiter, joined back into the input, and one part
      more than there are delimiters. */
  lemma SplitOneChar(s: string, d: string)
    requires |d| == 1
    ensures var parts := SplitAsWritten(s, d, 0);
      && |parts| >= 1
      && Join(parts, d) == s
      && (forall k :: 0 <= k < |parts| ==> Free(parts[k], d))
      && |parts| == CountChar(s, d[0]) + 1
  {
    SplitOneCharAgrees(s, d, 0);
    SplitJoin(s, d, 0);
    SplitCount(s, d, 0);
    assert s[0..] == s;
  }

  // ---------------------------------------------------------------------------------------
  // Include lines.

  /** `getIncludeFile`: the rest of the line after its first space, or "" for an empty line
      or one without a space. */
  function GetIncludeFile(line: string): (file: string)
    ensures |file| < |line| || file == ""
  {
    if line == [] then ""
    else
      match FindFrom(line, " ", 0)
      case None => ""
      case Some(pos) => line[pos + 1..]
  }

  /** The file name is everything after the first space; a line without a space names no
      file. */
  lemma GetIncludeFileSpec(line: string)
    ensures ' ' !in line ==> GetIncludeFile(line) == ""
    ensures ' ' in line ==> exists p :: 0 <= p < |line| && line[p] == ' ' && ' ' !in line[..p] && GetIncludeFile(line) == line[p + 1..]
  {
    if line != [] {
      FindFromSpec(line, " ", 0);
      match FindFrom(line, " ", 0)
      case None =>
        forall p | 0 <= p < |line|
          ensures line[p] != ' '
        {
          assert line[p..p + 1] == [line[p]];
          assert !OccursAt(line, " ", p);
        }
      case Some(pos) =>
        assert line[pos..pos + 1] == [line[pos]];
        forall p | 0 <= p < pos
          ensures line[..pos][p] != ' '
        {
          assert line[p..p + 1] == [line[p]];
          assert !OccursAt(line, " ", p);
        }
        assert ' ' !in line[..pos];
    }
  }

  /** A directive word without spaces, a space, then the file name: the file name comes back,
      spaces in it included. */
  lemma IncludeFileRoundTrip(directive: string, file: string)
    requires ' ' !in directive
    ensures GetIncludeFile(directive + " " + file) == file
  {
    var line := directive + " " + file;
    var k := |directive|;
    forall p | 0 <= p < k
      ensures !OccursAt(line, " ", p)
    {
      assert line[p..p + 1] == [directive[p]];
    }
    assert line[k..k + 1] == " ";
    assert OccursAt(line, " ", k);
    FindFromSpec(line, " ", 0);
    assert FindFrom(line, " ", 0) == Some(k);
    assert line[k + 1..] == file;
  }

  /** The text without its newline characters. */
  function StripNewlines(s: string): (r: string)
    ensures '\n' !in r
    decreases |s|
  {
    if s == [] then "" else (if s[0] == '\n' then "" else [s[0]]) + StripNewlines(s[1..])
  }

  lemma {:induction false} StripNewlinesAppend(a: string, b: string)
    ensures StripNewlines(a + b) == StripNewlines(a) + StripNewlines(b)
    decreases |a|
  {
    if a != [] {
      assert (a + b)[1..] == a[1..] + b && (a + b)[0] == a[0];
      StripNewlinesAppend(a[1..], b);
    } else {
      assert a + b == b;
    }
  }

  lemma {:induction false} StripNewlinesFree(s: string)
    requires Free(s, "\n")
    ensures StripNewlines(s) == s
    decreases |s|
  {
    if s != [] {
      FreeTail(s, "\n");
      StripNewlinesFree(s[1..]);
      assert s == [s[0]] + s[1..];
    }
  }

  lemma StripNewlineBetween(a: string, b: string)
    ensures StripNewlines(a + ("\n" + b)) == StripNewlines(a) + StripNewlines(b)
  {
    var nb := "\n" + b;
    assert nb != [] && nb[0] == '\n' && nb[1..] == b;
    assert StripNewlines(nb) == StripNewlines(b);
    StripNewlinesAppend(a, nb);
  }

  /** The parts concatenated without separator. */
  function Concat(parts: seq<string>): string
    decreases |parts|
  {
    if parts == [] then "" else Concat(parts[..|parts| - 1]) + parts[|parts| - 1]
  }

  lemma {:induction false} ConcatCons(p: string, rest: seq<string>)
    ensures Concat([p] + rest) == p + Concat(rest)
    decreases |rest|
  {
    if rest != [] {
      var init := rest[..|rest| - 1];
      assert ([p] + rest)[..|[p] + rest| - 1] == [p] + init;
      ConcatCons(p, init);
    }
  }

  /** The last line: no newline after `prev`. */
  lemma LastLine(s: string, prev: nat)
    requires prev <= |s| && FindFrom(s, "\n", prev).None?
    ensures Concat(Split(s, "\n", prev)) == StripNewlines(s[prev..])
  {
    FindFromSpec(s, "\n", prev);
    PieceIsFree(s, "\n", prev, |s|);
    assert s[prev..|s|] == s[prev..];
    StripNewlinesFree(s[prev..]);
    assert Split(s, "\n", prev) == [s[prev..]];
    assert Concat([s[prev..]]) == Concat([]) + s[prev..];
  }

  /** A line ending at the first newline after `prev`: the text from `prev` without newlines
      is that line followed by the rest without newlines. */
  lemma StripAtNewline(s: string, prev: nat, pos: nat)
    requires prev <= pos < |s| && OccursAt(s, "\n", pos)
    requires forall p :: prev <= p < pos ==> !OccursAt(s, "\n", p)
    ensures StripNewlines(s[prev..]) == s[prev..pos] + StripNewlines(s[pos + 1..])
  {
    PieceIsFree(s, "\n", prev, pos);
    StripNewlinesFree(s[prev..pos]);
    assert s[pos..pos + 1] == "\n";
    assert s[prev..] == s[prev..pos] + ("\n" + s[pos + 1..]);
    StripNewlineBetween(s[prev..pos], s[pos + 1..]);
  }

  /** The lines of a text split on newlines, concatenated, are the text without newlines. */
  lemma {:induction false} ConcatLines(s: string, prev: nat)
    requires prev <= |s|
    ensures Concat(Split(s, "\n", prev)) == StripNewlines(s[prev..])
    decreases |s| - prev
  {
    var found := FindFrom(s, "\n", prev);
    if found.None? {
      LastLine(s, prev);
    } else {
      ConcatLines(s, found.value + 1);
      InnerLine(s, prev, found.value);
    }
  }

  /** A line ending at the first newline after `prev`: if the lines after it concatenate to
      the rest without newlines, the lines from `prev` concatenate to the text from `prev`
      without newlines. */
  lemma InnerLine(s: string, prev: nat, pos: nat)
    requires prev <= |s| && FindFrom(s, "\n", prev) == Some(pos)
    requires Concat(Split(s, "\n", pos + 1)) == StripNewlines(s[pos + 1..])
    ensures Concat(Split(s, "\n", prev)) == StripNewlines(s[prev..])
  {
    var rest := Split(s, "\n", pos + 1);
    assert Split(s, "\n", prev) == [s[prev..pos]] + rest;
    ConcatCons(s[prev..pos], rest);
    FindFromSpec(s, "\n", prev);
    StripAtNewline(s, prev, pos);
  }

  /** `join_src`: the included text's lines are appended to the source, so the source grows
      by the included text without its newlines. */
  method JoinSrc(source: string, includeSource: string) returns (result: string)
    ensures result == source + StripNewlines(includeSource)
    ensures result[..|source|] == source
  {
    var src := SplitString(includeSource, "\n");
    result := source;
    var i := 0;
    while i < |src|
      invariant 0 <= i <= |src|
      invariant result == source + Concat(src[..i])
    {
      result := result + src[i];
      assert src[..i + 1][..i] == src[..i];
      i := i + 1;
    }
    assert src[..|src|] == src;
    ConcatLines(includeSource, 0);
    assert includeSource[0..] == includeSource;
  }

  // ---------------------------------------------------------------------------------------
  // Preprocessing.

  /** The marker of an include line. */
  const IncludeMarker: string := "osre_include"

  /** What one line contributes: a line without the marker itself; an include line the
      resolved text without newlines, or nothing if the file cannot be opened. */
  function LineOutput(line: string, resolve: string -> Option<string>): string {
    if FindFrom(line, IncludeMarker, 0).None? then line
    else
      match resolve(GetIncludeFile(line))
      case None => ""
      case Some(text) => StripNewlines(text)
  }

  /** The output of the line loop over `lines`. */
  function Preprocessed(lines: seq<string>, resolve: string -> Option<string>): string
    decreases |lines|
  {
    if lines == [] then ""
    else Preprocessed(lines[..|lines| - 1], resolve) + LineOutput(lines[|lines| - 1], resolve)
  }

  /** One more line: its output is appended to that of the lines before it. */
  lemma PreprocessedStep(lines: seq<string>, i: nat, resolve: string -> Option<string>)
    requires i < |lines|
    ensures Preprocessed(lines[..i + 1], resolve) == Preprocessed(lines[..i], resolve) + LineOutput(lines[i], resolve)
  {
    assert lines[..i + 1][..i] == lines[..i];
  }

  /** A source without include lines comes out as its lines run together. */
  lemma {:induction false} NoIncludesKeepsLines(lines: seq<string>, resolve: string -> Option<string>)
    requires forall k :: 0 <= k < |lines| ==> FindFrom(lines[k], IncludeMarker, 0).None?
    ensures Preprocessed(lines, resolve) == Concat(lines)
    decreases |lines|
  {
    if lines != [] {
      NoIncludesKeepsLines(lines[..|lines| - 1], resolve);
    }
  }

  /** Preprocessing a text with no include line is removing its newlines. */
  lemma NoIncludesStripsNewlines(text: string, resolve: string -> Option<string>)
    requires forall k :: 0 <= k < |Split(text, "\n", 0)| ==> FindFrom(Split(text, "\n", 0)[k], IncludeMarker, 0).None?
    ensures Preprocessed(Split(text, "\n", 0), resolve) == StripNewlines(text)
  {
    NoIncludesKeepsLines(Split(text, "\n", 0), resolve);
    ConcatLines(text, 0);
    assert text[0..] == text;
  }

  /** An include line whose file resolves contributes that file without newlines; one whose
      file does not resolve contributes nothing. */
  lemma IncludeLineOutput(directive: string, file: string, resolve: string -> Option<string>)
    requires ' ' !in directive && FindFrom(directive, IncludeMarker, 0).Some?
    ensures var line := directive + " " + file;
      LineOutput(line, resolve) == if resolve(file).Some? then StripNewlines(resolve(file).value) else ""
  {
    var line := directive + " " + file;
    IncludeFileRoundTrip(directive, file);
    var p := FindFrom(directive, IncludeMarker, 0).value;
    assert line[p..p + |IncludeMarker|] == directive[p..p + |IncludeMarker|];
    assert OccursAt(line, IncludeMarker, p);
    FindFromSpec(line, IncludeMarker, 0);
  }

  /** `ShaderPreprocessor`: the preprocessed source of the last file. */
  class ShaderPreprocessor {
    var source: string

    constructor ()
      ensures source == ""
    {
      source := "";
    }

    /** `preprocess(file)`: the source is cleared; for an invalid file or one that cannot be
        opened (`main` is its text, if it opens) the result is false. Otherwise each line of
        the text is appended without its newline, an include line being replaced by the
        included text (`resolve` stands for opening and reading a named file). */
    method Preprocess(fileValid: bool, main: Option<string>, resolve: string -> Option<string>) returns (ok: bool)
      modifies this
      ensures ok <==> fileValid && main.Some?
      ensures !ok ==> source == ""
      ensures ok ==> source == Preprocessed(Split(main.value, "\n", 0), resolve)
    {
      source := "";
      if !fileValid {
        return false;
      }
      if main.None? {
        return false;
      }
      var src := main.value;
      var lines := SplitString(src, "\n");
      var i := 0;
      while i < |lines|
        invariant 0 <= i <= |lines|
        invariant source == Preprocessed(lines[..i], resolve)
      {
        var currentLine := lines[i];
        var pos := FindFrom(currentLine, IncludeMarker, 0);
        PreprocessedStep(lines, i, resolve);
        if pos.None? {
          source := source + currentLine;
        } else {
          var includeFile := GetIncludeFile(currentLine);
          var includeText := resolve(includeFile);
          if includeText.Some? {
            source := JoinSrc(source, includeText.value);
          }
        }
        i := i + 1;
      }
      assert lines[..|lines|] == lines;
      return true;
    }
  }

  // ---------------------------------------------------------------------------------------
  // Shader stages.

  /** `ShaderType`: the index of a stage. */
  datatype ShaderType = VertexShader | FragmentShader | GeometryShader {
    function Index(): (i: nat)
      ensures i < MaxShaderTypes
    {
      match this
      case VertexShader => 0
      case FragmentShader => 1
      case GeometryShader => 2
    }
  }

  const MaxShaderTypes: nat := 3

  /** `Shader::CompileState`; `Updated` is 0, the value the constructor's zero fill gives. */
  datatype CompileState = Updated | Compiled | Error

  /** The per-stage sources and compile states of a shader. */
  datatype Stages = Stages(src: seq<string>, state: seq<CompileState>)

  predicate StagesValid(st: Stages) {
    |st.src| == MaxShaderTypes && |st.state| == MaxShaderTypes
  }

  /** The store of `setSource`: a changed text is stored and marks its stage updated; the
      same text changes nothing. */
  function SetStageSource(st: Stages, t: ShaderType, s: string): (r: Stages)
    requires StagesValid(st)
    ensures StagesValid(r)
  {
    var i := t.Index();
    if s != st.src[i] then Stages(st.src[i := s], st.state[i := Updated]) else st
  }

  /** After `setSource` the stage holds the text; a change marks it updated, and no other
      stage changes; setting the same text again changes nothing. */
  lemma SetStageSourceSpec(st: Stages, t: ShaderType, s: string)
    requires StagesValid(st)
    ensures var r := SetStageSource(st, t, s);
      && r.src[t.Index()] == s
      && (s != st.src[t.Index()] ==> r.state[t.Index()] == Updated)
      && (s == st.src[t.Index()] ==> r == st)
      && (forall i :: 0 <= i < MaxShaderTypes && i != t.Index() ==> r.src[i] == st.src[i] && r.state[i] == st.state[i])
      && SetStageSource(r, t, s) == r
  {
  }

  class Shader {
    var src: seq<string>
    var compileState: seq<CompileState>

    /** `Shader(name)`: no sources, every stage in the zero state. */
    constructor ()
      ensures src == ["", "", ""] && compileState == [Updated, Updated, Updated]
    {
      src := ["", "", ""];
      compileState := [Updated, Updated, Updated];
    }

    /** `setSource(type, src)`. */
    method SetSource(t: ShaderType, s: string)
      requires |src| == MaxShaderTypes && |compileState| == MaxShaderTypes
      modifies this
      ensures Stages(src, compileState) == SetStageSource(Stages(old(src), old(compileState)), t, s)
    {
      var i := t.Index();
      if s != src[i] {
        src := src[i := s];
        compileState := compileState[i := Updated];
      }
    }
  }
}
