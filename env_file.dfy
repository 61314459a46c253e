/**
 * The `.env` rewrite of get_spotify_refresh_token.py: every line that starts
 * with `SPOTIPY_REFRESH_TOKEN` is replaced by the new token line, every other
 * line is written back unchanged, in order.
 */
module EnvFile {

  const Prefix := "SPOTIPY_REFRESH_TOKEN"

  /** `s.startswith(p)`. */
  predicate StartsWith(s: string, p: string)
  {
    |p| <= |s| && s[..|p|] == p
  }

  /** The line written in place of an old refresh-token line. */
  function TokenLine(token: string): (r: string)
  {
    Prefix + "=" + token + "\n"
  }

  /** A written token line is itself recognised as a token line. */
  lemma TokenLineHasPrefix(token: string)
    ensures StartsWith(TokenLine(token), Prefix)
  {
    assert TokenLine(token)[..|Prefix|] == Prefix;
  }

  /** What the loop body writes for one line. */
  function RewriteLine(line: string, token: string): (r: string)
  {
    if StartsWith(line, Prefix) then TokenLine(token) else line
  }

  /** The rewritten file as a sequence of lines: each line rewritten at its own index, none added or dropped. */
  function Rewritten(lines: seq<string>, token: string): (r: seq<string>)
    ensures |r| == |lines|
    ensures forall i :: 0 <= i < |lines| ==> r[i] == RewriteLine(lines[i], token)
  {
    if lines == [] then []
    else [RewriteLine(lines[0], token)] + Rewritten(lines[1..], token)
  }

  method RewriteEnv(lines: seq<string>, token: string) returns (written: seq<string>)
    ensures written == Rewritten(lines, token)
  {
    written := [];
    ghost var expected := Rewritten(lines, token);
    var i := 0;
    while i < |lines|
      invariant 0 <= i <= |lines|
      invariant |written| == i
      invariant forall k :: 0 <= k < i ==> written[k] == expected[k]
    {
      var line := lines[i];
      if StartsWith(line, Prefix) {
        written := written + [TokenLine(token)];
      } else {
        written := written + [line];
      }
      i := i + 1;
    }
  }

  /** At each index: a token line, even `SPOTIPY_REFRESH_TOKEN_X=…`, becomes the new token line; any other line stays. */
  lemma RewrittenAt(lines: seq<string>, token: string, i: nat)
    requires i < |lines|
    ensures StartsWith(lines[i], Prefix) ==> Rewritten(lines, token)[i] == TokenLine(token)
    ensures !StartsWith(lines[i], Prefix) ==> Rewritten(lines, token)[i] == lines[i]
  {
  }

  /** Without any token line, the file is written back exactly; no token line is appended. */
  lemma RewriteWithoutTokenLine(lines: seq<string>, token: string)
    requires forall i :: 0 <= i < |lines| ==> !StartsWith(lines[i], Prefix)
    ensures Rewritten(lines, token) == lines
  {
  }

  /** Rewriting twice with the same token is rewriting once. */
  lemma RewriteIdempotent(lines: seq<string>, token: string)
    ensures Rewritten(Rewritten(lines, token), token) == Rewritten(lines, token)
  {
    TokenLineHasPrefix(token);
  }

  /** The rewritten lines differ from the input only at token lines. */
  lemma RewriteChangesOnlyTokenLines(lines: seq<string>, token: string, i: nat)
    requires i < |lines|
    requires Rewritten(lines, token)[i] != lines[i]
    ensures StartsWith(lines[i], Prefix)
  {
  }

  // ---- The file as text: `readlines()` and the sequence of `write` calls ----

  /** Length of the first line of `text`, its newline included. */
  function FirstLineLength(text: string): (n: nat)
    requires text != []
    ensures 1 <= n <= |text|
    ensures '\n' !in text[..n - 1]
    ensures n < |text| ==> text[n - 1] == '\n'
  {
    if text[0] == '\n' || |text| == 1 then 1
    else
      var m := FirstLineLength(text[1..]);
      assert text[..m] == [text[0]] + text[1..][..m - 1];
      1 + m
  }

  /** A line as `readlines` produces it: non-empty, a newline only at the end, and ending in one unless it is the last. */
  ghost predicate LineShape(line: string, last: bool)
  {
    line != [] && '\n' !in line[..|line| - 1] && (!last ==> line[|line| - 1] == '\n')
  }

  ghost predicate LinesShape(lines: seq<string>)
  {
    forall i :: 0 <= i < |lines| ==> LineShape(lines[i], i == |lines| - 1)
  }

  /**
   * `file.readlines()`: the text cut after each newline; a last line may lack
   * one. Every line read is well shaped, and only the empty text has no lines.
   */
  function ReadLines(text: string): (r: seq<string>)
    ensures LinesShape(r)
    ensures r == [] <==> text == []
    decreases |text|
  {
    if text == [] then []
    else
      var n := FirstLineLength(text);
      var rest := ReadLines(text[n..]);
      ReadLinesStep(text, n, rest);
      [text[..n]] + rest
  }

  /** The first line cut off a text, followed by the well-shaped lines of the remainder, is well shaped. */
  lemma ReadLinesStep(text: string, n: nat, rest: seq<string>)
    requires text != [] && n == FirstLineLength(text)
    requires LinesShape(rest)
    requires rest == [] <==> text[n..] == []
    ensures LinesShape([text[..n]] + rest)
  {
    var lines := [text[..n]] + rest;
    assert text[..n][..n - 1] == text[..n - 1];
    forall i | 0 <= i < |lines|
      ensures LineShape(lines[i], i == |lines| - 1)
    {
      if i > 0 {
        assert lines[i] == rest[i - 1];
      }
    }
  }

  /**
   * The text that a sequence of `write` calls leaves in the file. Reading it
   * back gives the same lines when they are shaped as `readlines` makes them.
   */
  function Concat(lines: seq<string>): (r: string)
    ensures LinesShape(lines) ==> ReadLines(r) == lines
  {
    if lines == [] then []
    else
      var tail := Concat(lines[1..]);
      ConcatStep(lines, tail);
      lines[0] + tail
  }

  /** Writing one more well-shaped line in front of a text that reads back as the remaining lines. */
  lemma ConcatStep(lines: seq<string>, tail: string)
    requires lines != []
    requires LinesShape(lines[1..]) ==> ReadLines(tail) == lines[1..]
    requires |lines| == 1 ==> tail == []
    ensures LinesShape(lines) ==> ReadLines(lines[0] + tail) == lines
  {
    if LinesShape(lines) {
      var head := lines[0];
      var text := head + tail;
      assert LinesShape(lines[1..]) by {
        forall i | 0 <= i < |lines[1..]|
          ensures LineShape(lines[1..][i], i == |lines[1..]| - 1)
        {
          assert lines[1..][i] == lines[i + 1];
          assert LineShape(lines[i + 1], i + 1 == |lines| - 1);
        }
      }
      assert LineShape(head, |lines| == 1);
      FirstLineOfConcat(head, tail, |lines| == 1);
      assert text[..|head|] == head;
      assert text[|head|..] == tail;
      assert lines == [head] + lines[1..];
    }
  }

  /** Reading loses nothing: writing the lines back gives the text. */
  lemma {:induction false} ConcatReadLines(text: string)
    ensures Concat(ReadLines(text)) == text
    decreases |text|
  {
    if text != [] {
      var n := FirstLineLength(text);
      var lines := ReadLines(text);
      assert lines == [text[..n]] + ReadLines(text[n..]);
      assert lines[0] == text[..n];
      assert lines[1..] == ReadLines(text[n..]);
      ConcatReadLines(text[n..]);
      assert Concat(lines) == text[..n] + text[n..];
      assert text[..n] + text[n..] == text;
    }
  }

  lemma {:induction false} FirstLineOfConcat(head: string, tail: string, last: bool)
    requires LineShape(head, last)
    requires last ==> tail == []
    ensures FirstLineLength(head + tail) == |head|
    decreases |head|
  {
    var text := head + tail;
    if |head| > 1 {
      assert head[0] == head[..|head| - 1][0];
      assert text[0] == head[0] != '\n';
      assert text[1..] == head[1..] + tail;
      assert head[1..][..|head[1..]| - 1] == head[..|head| - 1][1..];
      FirstLineOfConcat(head[1..], tail, last);
    } else if last {
      assert text == head;
    }
  }

  /** A token line holds no newline but its last character, provided the token holds none. */
  lemma TokenLineShape(token: string, last: bool)
    requires '\n' !in token
    ensures LineShape(TokenLine(token), last)
  {
    var t := TokenLine(token);
    assert t[..|t| - 1] == Prefix + "=" + token;
    assert '\n' !in Prefix + "=";
  }

  /** With a token free of newlines, the rewrite keeps the lines well shaped. */
  lemma RewrittenShape(lines: seq<string>, token: string)
    ensures '\n' !in token && LinesShape(lines) ==> LinesShape(Rewritten(lines, token))
  {
    if '\n' in token || !LinesShape(lines) {
      return;
    }
    var r := Rewritten(lines, token);
    forall i | 0 <= i < |r|
      ensures LineShape(r[i], i == |r| - 1)
    {
      if StartsWith(lines[i], Prefix) {
        TokenLineShape(token, i == |r| - 1);
      } else {
        assert r[i] == lines[i];
      }
    }
  }

  /**
   * The whole script's effect on the file's text. With a token free of
   * newlines, reading the new file gives exactly the rewritten lines, so the
   * file keeps its number of lines.
   */
  function RewriteFile(text: string, token: string): (r: string)
    ensures '\n' !in token ==> ReadLines(r) == Rewritten(ReadLines(text), token)
    ensures '\n' !in token ==> |ReadLines(r)| == |ReadLines(text)|
  {
    var lines := ReadLines(text);
    RewrittenShape(lines, token);
    Concat(Rewritten(lines, token))
  }

  /**
   * Running the script twice with the same token leaves the file as one run
   * does, provided the token holds no newline.
   */
  lemma RewriteFileIdempotent(text: string, token: string)
    requires '\n' !in token
    ensures RewriteFile(RewriteFile(text, token), token) == RewriteFile(text, token)
  {
    RewriteIdempotent(ReadLines(text), token);
  }

  /** Two writes leave their texts one after the other. */
  lemma ConcatTwo(l1: string, l2: string)
    ensures Concat([l1, l2]) == l1 + l2
  {
    assert [l1, l2][1..] == [l2];
    assert Concat([l2]) == l2 + Concat([]);
  }

  /** A newline-free text with a newline appended is a well-shaped line anywhere in a file. */
  lemma NoNewlineShape(s: string, last: bool)
    requires '\n' !in s
    ensures LineShape(s + "\n", last)
  {
    assert (s + "\n")[..|s|] == s;
  }

  /** One run over a single token line leaves exactly the new token line. */
  lemma RewriteSingleTokenLine(prev: string, t: string)
    requires '\n' !in prev
    ensures RewriteFile(TokenLine(prev), t) == TokenLine(t)
  {
    var l0 := TokenLine(prev);
    TokenLineShape(prev, true);
    assert LinesShape([l0]);
    assert Concat([l0]) == l0 + Concat([]) == l0;
    TokenLineHasPrefix(prev);
    assert ReadLines(l0) == [l0];
    assert Rewritten([l0], t) == [TokenLine(t)];
    assert Concat([TokenLine(t)]) == TokenLine(t) + Concat([]) == TokenLine(t);
  }

  /** A token line whose token is split by a newline is read back as two lines. */
  lemma ReadSplitTokenLine(a: string, b: string)
    requires '\n' !in a && '\n' !in b
    ensures ReadLines(TokenLine(a + "\n" + b)) == [Prefix + "=" + a + "\n", b + "\n"]
  {
    var l1, l2 := Prefix + "=" + a + "\n", b + "\n";
    assert TokenLine(a + "\n" + b) == l1 + l2;
    ConcatTwo(l1, l2);
    assert '\n' !in Prefix + "=";
    NoNewlineShape(Prefix + "=" + a, false);
    NoNewlineShape(b, true);
    assert LinesShape([l1, l2]);
  }

  /**
   * The newline condition above is needed: a token `a\nb` is written as two
   * lines, the second run reads them as two lines, and the file grows.
   */
  lemma NewlineTokenNotIdempotent(prev: string, a: string, b: string)
    requires '\n' !in prev && '\n' !in a && '\n' !in b
    ensures var t := a + "\n" + b;
      RewriteFile(RewriteFile(TokenLine(prev), t), t) != RewriteFile(TokenLine(prev), t) &&
      |RewriteFile(RewriteFile(TokenLine(prev), t), t)| > |RewriteFile(TokenLine(prev), t)|
  {
    var t := a + "\n" + b;
    RewriteSingleTokenLine(prev, t);
    var once := TokenLine(t);
    ReadSplitTokenLine(a, b);
    var l1, l2 := Prefix + "=" + a + "\n", b + "\n";
    assert StartsWith(l1, Prefix) by { assert l1[..|Prefix|] == Prefix; }
    assert ReadLines(once) == [l1, l2];
    var second := RewriteLine(l2, t);
    assert Rewritten([l1, l2], t) == [TokenLine(t), second];
    var twice := RewriteFile(once, t);
    assert twice == Concat([TokenLine(t), second]);
    ConcatTwo(TokenLine(t), second);
    assert |twice| == |once| + |second|;
  }
}
