/** The configuration text of src/brick/config.py: lines whose first
    non-space characters are `//` are dropped before the text goes to the
    JSON parser, and the file lives in `config.json` under the configured
    directory. Reading and writing the file and the JSON parse itself are
    left out: `JsonText` is the text handed to `json.loads`. */
module Config {
  import opened Values

  // ------------------------------------------------------------ splitlines()

  /** The line boundaries of MicroPython's `str.splitlines()`, which this
      file runs under: line feed and carriage return only. */
  predicate IsLineBreak(c: char) {
    c == '\n' || c == '\r'
  }

  predicate OneLine(s: string) {
    forall k :: 0 <= k < |s| ==> !IsLineBreak(s[k])
  }

  /** The index of the first line break at or after `i`, or the length. */
  function LineEnd(s: string, i: nat): (j: nat)
    requires i <= |s|
    ensures i <= j <= |s| && (j < |s| ==> IsLineBreak(s[j]))
    ensures forall k :: i <= k < j ==> !IsLineBreak(s[k])
    decreases |s| - i
  {
    if i == |s| || IsLineBreak(s[i]) then i else LineEnd(s, i + 1)
  }

  /** `s.splitlines()`: `\r\n` is one boundary, and a final boundary does
      not open an empty last line. */
  function SplitLines(s: string): (lines: seq<string>)
    ensures forall k :: 0 <= k < |lines| ==> OneLine(lines[k])
    decreases |s|
  {
    if s == [] then []
    else
      var i := LineEnd(s, 0);
      if i == |s| then [s]
      else
        var next := if s[i] == '\r' && i + 1 < |s| && s[i + 1] == '\n' then i + 2 else i + 1;
        [s[..i]] + SplitLines(s[next..])
  }

  /** A form feed does not end a line, so a comment marker after it is
      inside the first line and the whole text reaches the JSON parser. */
  lemma FormFeedKeepsLine()
    ensures var text := "{}" + [12 as char] + "// x";
            SplitLines(text) == [text] && JsonText(text) == text
  {
    var text := "{}" + [12 as char] + "// x";
    assert LineEnd(text, 0) == |text|;
    assert !IsComment(text) by {
      assert text[0] == '{';
    }
    assert Kept([text]) == [text] by {
      DroppedIffComment(text);
    }
  }

  /** Splitting the lines joined with `\n` gives them back, except that an
      empty last line disappears. */
  lemma {:induction false} SplitJoin(lines: seq<string>)
    requires forall k :: 0 <= k < |lines| ==> OneLine(lines[k])
    ensures SplitLines(Join(lines, "\n")) == if lines != [] && lines[|lines| - 1] == "" then lines[..|lines| - 1] else lines
  {
    if |lines| == 1 {
      SplitSingle(lines[0]);
    } else if |lines| > 1 {
      var a, rest := lines[0], lines[1..];
      var j := Join(rest, "\n");
      assert Join(lines, "\n") == a + "\n" + j;
      SplitFirstLine(a, j);
      SplitJoin(rest);
      assert lines == [a] + rest;
      assert lines[|lines| - 1] == rest[|rest| - 1];
      if rest[|rest| - 1] == "" {
        assert SplitLines(j) == rest[..|rest| - 1];
        assert lines[..|lines| - 1] == [a] + rest[..|rest| - 1];
      } else {
        assert SplitLines(j) == rest;
      }
    }
  }

  lemma SplitSingle(a: string)
    requires OneLine(a)
    ensures SplitLines(a) == if a == "" then [] else [a]
  {
    if a != "" {
      assert LineEnd(a, 0) == |a|;
    }
  }

  /** A line followed by `\n` splits off as the first line. */
  lemma SplitFirstLine(a: string, j: string)
    requires OneLine(a)
    ensures SplitLines(a + "\n" + j) == [a] + SplitLines(j)
  {
    var s := a + "\n" + j;
    assert s[|a|] == '\n';
    assert forall k :: 0 <= k < |a| ==> s[k] == a[k];
    assert LineEnd(s, 0) == |a| by {
      LineEndAt(s, 0, |a|);
    }
    assert s[..|a|] == a && s[|a| + 1..] == j;
  }

  lemma {:induction false} LineEndAt(s: string, i: nat, n: nat)
    requires i <= n < |s| && IsLineBreak(s[n]) && forall k :: i <= k < n ==> !IsLineBreak(s[k])
    ensures LineEnd(s, i) == n
    decreases n - i
  {
    if i < n {
      LineEndAt(s, i + 1, n);
    }
  }

  // ------------------------------------------------------------ comment lines

  /** Where `l.lstrip(' ')` starts: only spaces, not tabs, are stripped. */
  function SpacesEnd(l: string, i: nat): (j: nat)
    requires i <= |l|
    ensures i <= j <= |l| && (j < |l| ==> l[j] != ' ')
    decreases |l| - i
  {
    if i < |l| && l[i] == ' ' then SpacesEnd(l, i + 1) else i
  }

  /** `l.lstrip(' ').startswith('//')`. */
  predicate IsComment(l: string) {
    var i := SpacesEnd(l, 0);
    i + 1 < |l| && l[i] == '/' && l[i + 1] == '/'
  }

  /** Spaces, then `//`, then anything is a comment line. */
  lemma {:induction false} IndentedComment(indent: string, rest: string)
    requires forall k :: 0 <= k < |indent| ==> indent[k] == ' '
    ensures IsComment(indent + "//" + rest)
  {
    var l := indent + "//" + rest;
    SkipsIndent(l, |indent|, 0);
  }

  lemma {:induction false} SkipsIndent(l: string, n: nat, i: nat)
    requires i <= n < |l| && l[n] != ' ' && forall k :: i <= k < n ==> l[k] == ' '
    ensures SpacesEnd(l, i) == n
    decreases n - i
  {
    if i < n {
      SkipsIndent(l, n, i + 1);
    }
  }

  /** A line whose first character is neither a space nor a slash is kept,
      whatever `//` comes later in it. */
  lemma InlineCommentKept(c: char, rest: string)
    requires c != ' ' && c != '/'
    ensures !IsComment([c] + rest)
  {
  }

  /** A tab before `//` keeps the line. */
  lemma TabIndentKept(rest: string)
    ensures !IsComment("\t//" + rest)
  {
  }

  /** The list comprehension: the lines that are not comments, in order. */
  function Kept(lines: seq<string>): (kept: seq<string>)
    ensures |kept| <= |lines|
  {
    if lines == [] then []
    else
      var init := Kept(lines[..|lines| - 1]);
      if IsComment(lines[|lines| - 1]) then init else init + [lines[|lines| - 1]]
  }

  /** Every kept line is a line of the text that is not a comment, and every
      such line is kept. */
  lemma {:induction false} KeptMembers(lines: seq<string>)
    ensures forall k :: 0 <= k < |Kept(lines)| ==> !IsComment(Kept(lines)[k]) && Kept(lines)[k] in lines
    ensures forall l :: l in lines && !IsComment(l) ==> l in Kept(lines)
  {
    if lines != [] {
      var init := lines[..|lines| - 1];
      var last := lines[|lines| - 1];
      KeptMembers(init);
      assert lines == init + [last];
      assert forall l :: l in lines ==> l in init || l == last;
    }
  }

  lemma {:induction false} KeptOneLine(lines: seq<string>)
    requires forall k :: 0 <= k < |lines| ==> OneLine(lines[k])
    ensures forall k :: 0 <= k < |Kept(lines)| ==> OneLine(Kept(lines)[k])
  {
    if lines != [] {
      var init := lines[..|lines| - 1];
      assert forall k :: 0 <= k < |init| ==> init[k] == lines[k];
      KeptOneLine(init);
    }
  }

  /** One line is dropped exactly when it is a comment. */
  lemma DroppedIffComment(l: string)
    ensures Kept([l]) == [] <==> IsComment(l)
    ensures !IsComment(l) ==> Kept([l]) == [l]
  {
    assert [l][..0] == [];
  }

  /** Filtering keeps the order: filtering a concatenation is concatenating
      the filtered parts. */
  lemma {:induction false} KeptAppend(a: seq<string>, b: seq<string>)
    ensures Kept(a + b) == Kept(a) + Kept(b)
    decreases |b|
  {
    if b != [] {
      var b0 := b[..|b| - 1];
      assert (a + b)[..|a + b| - 1] == a + b0;
      KeptAppend(a, b0);
    } else {
      assert a + b == a;
    }
  }

  /** Text without comment lines keeps all its lines. */
  lemma {:induction false} KeptAllWithoutComments(lines: seq<string>)
    requires forall k :: 0 <= k < |lines| ==> !IsComment(lines[k])
    ensures Kept(lines) == lines
  {
    if lines != [] {
      var init := lines[..|lines| - 1];
      assert forall k :: 0 <= k < |init| ==> init[k] == lines[k];
      KeptAllWithoutComments(init);
      assert !IsComment(lines[|lines| - 1]);
      assert lines == init + [lines[|lines| - 1]];
    }
  }

  /** `'\n'.join(lines)` of `validate_config`, the text `json.loads` parses. */
  function JsonText(configText: string): string {
    Join(Kept(SplitLines(configText)), "\n")
  }

  /** The JSON parser sees no comment line. */
  lemma NoCommentReachesJson(configText: string)
    ensures forall l :: l in SplitLines(JsonText(configText)) ==> !IsComment(l)
  {
    var kept := Kept(SplitLines(configText));
    KeptMembers(SplitLines(configText));
    KeptOneLine(SplitLines(configText));
    SplitJoin(kept);
  }

  /** Each line of the JSON text is a non-comment line of the file, and
      every non-comment line except an empty last one is there. */
  lemma JsonTextLines(configText: string)
    ensures var lines := SplitLines(JsonText(configText));
            var kept := Kept(SplitLines(configText));
            lines == kept || (kept != [] && kept[|kept| - 1] == "" && lines == kept[..|kept| - 1])
  {
    var kept := Kept(SplitLines(configText));
    KeptOneLine(SplitLines(configText));
    SplitJoin(kept);
  }

  // ------------------------------------------------------------ the file

  /** The file name of `get_config_text` and `save_config`. */
  function ConfigPath(configDir: string): (path: string)
    ensures configDir == "" ==> path == "config.json"
    ensures configDir != "" ==> |path| == |configDir| + 12 && path[..|configDir|] == configDir && path[|configDir|..] == "/config.json"
  {
    if configDir != "" then configDir + "/config.json" else "config.json"
  }
}
