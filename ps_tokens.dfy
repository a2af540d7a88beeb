/**
 * Line splitting and tokenising of the PostScript parser: the getline
 * loop with carriage-return removal, the words operator>> extracts, and the
 * regrouping of a parenthesised string that contains spaces into one token.
 */
module PsTokens {
  import opened Numbers
  import opened StringUtils

  /** The line with one trailing carriage return removed, if it has one. */
  function StripCR(line: string): string
  {
    if line != [] && line[|line| - 1] == '\r' then line[..|line| - 1] else line
  }

  function StripAllCR(pieces: seq<string>): (r: seq<string>)
    ensures |r| == |pieces|
    ensures forall i :: 0 <= i < |r| ==> r[i] == StripCR(pieces[i])
  {
    if pieces == [] then [] else [StripCR(pieces[0])] + StripAllCR(pieces[1..])
  }

  /** The lines SplitLines returns for a text. */
  function Lines(content: string): seq<string>
  {
    StripAllCR(Pieces(content, '\n'))
  }

  /**
   * SplitLines: getline on '\n' until the stream is exhausted, dropping one
   * trailing '\r' from each line.
   */
  method SplitLines(content: string) returns (lines: seq<string>)
    ensures lines == Lines(content)
  {
    lines := [];
    var rest := content;
    while rest != []
      invariant lines + StripAllCR(Pieces(rest, '\n')) == Lines(content)
      decreases |rest|
    {
      var line;
      line, rest := NextLine(rest);
      lines := lines + [line];
    }
  }

  /** One getline call on the unread text, then the '\r' removal. */
  method NextLine(rest: string) returns (line: string, remaining: string)
    requires rest != []
    ensures |remaining| < |rest|
    ensures StripAllCR(Pieces(rest, '\n')) == [line] + StripAllCR(Pieces(remaining, '\n'))
  {
    var k := IndexOf(rest, '\n');
    line := rest[..k];
    ghost var piece := line;
    LinesStep(rest, k);
    remaining := if k < |rest| then rest[k + 1..] else [];
    if line != [] && line[|line| - 1] == '\r' {
      line := line[..|line| - 1];
    }
    assert line == StripCR(piece);
  }

  /** One getline call: the first piece, then the pieces of what follows. */
  lemma LinesStep(rest: string, k: nat)
    requires rest != [] && k == IndexOf(rest, '\n')
    ensures StripAllCR(Pieces(rest, '\n'))
      == [StripCR(rest[..k])] + StripAllCR(Pieces(if k < |rest| then rest[k + 1..] else [], '\n'))
  {
    if k == |rest| {
      assert rest[..k] == rest;
      assert Pieces(rest, '\n') == [rest[..k]] + [];
      StripAllCRCons(rest[..k], []);
    } else {
      var tail := Pieces(rest[k + 1..], '\n');
      assert Pieces(rest, '\n') == [rest[..k]] + tail;
      StripAllCRCons(rest[..k], tail);
    }
  }

  lemma StripAllCRCons(x: string, t: seq<string>)
    ensures StripAllCR([x] + t) == [StripCR(x)] + StripAllCR(t)
  {
    assert ([x] + t)[1..] == t;
  }

  /** Each line is its getline piece, less one trailing carriage return. */
  lemma LinesDropOneCR(content: string, i: nat)
    requires i < |Lines(content)|
    ensures |Lines(content)| == |Pieces(content, '\n')|
    ensures var p := Pieces(content, '\n')[i];
      if p != [] && p[|p| - 1] == '\r' then Lines(content)[i] + ['\r'] == p
      else Lines(content)[i] == p
  {
    var ps := Pieces(content, '\n');
    assert Lines(content) == StripAllCR(ps);
    var p := ps[i];
    assert Lines(content)[i] == StripCR(p);
    if p != [] && p[|p| - 1] == '\r' {
      DropLast(p);
    }
  }

  lemma DropLast(p: string)
    requires p != []
    ensures p[..|p| - 1] + [p[|p| - 1]] == p
  {
  }

  predicate NotCSpace(c: char) { !IsCSpace(c) }

  /**
   * The words successive `stream >> word` extractions yield: maximal runs
   * of characters that are not white space, in order.
   */
  function Words(s: string): (r: seq<string>)
    ensures forall i :: 0 <= i < |r| ==> r[i] != []
    decreases |s|
  {
    var i := SpanEnd(s, 0, IsCSpace);
    if i == |s| then []
    else
      var j := SpanEnd(s, i, NotCSpace);
      [s[i..j]] + Words(s[j..])
  }

  /** A word that opens a parenthesised string without closing it. */
  predicate Opens(w: string) { w != [] && w[0] == '(' && w[|w| - 1] != ')' }

  predicate Closes(w: string) { w != [] && w[|w| - 1] == ')' }

  /**
   * acc extended by " " + words[i], " " + words[i + 1], ... up to and
   * including the first word that closes, with the index after it.
   */
  function JoinFrom(words: seq<string>, acc: string, i: nat): (r: (string, nat))
    requires i <= |words|
    ensures i <= r.1 <= |words|
    decreases |words| - i
  {
    if i == |words| then (acc, i)
    else
      var acc' := acc + " " + words[i];
      if Closes(words[i]) then (acc', i + 1) else JoinFrom(words, acc', i + 1)
  }

  /** The tokens Tokenize builds from words[i..]. */
  function ReassembleFrom(words: seq<string>, i: nat): seq<string>
    requires i <= |words|
    decreases |words| - i
  {
    if i == |words| then []
    else if Opens(words[i]) then
      var (t, j) := JoinFrom(words, words[i], i + 1);
      [t] + ReassembleFrom(words, j)
    else [words[i]] + ReassembleFrom(words, i + 1)
  }

  function Reassemble(words: seq<string>): seq<string>
  {
    ReassembleFrom(words, 0)
  }

  /** The tokens of a line. */
  function Tokens(line: string): seq<string>
  {
    Reassemble(Words(line))
  }

  /**
   * Tokenize: reads words in turn; a word that opens a string takes the
   * following words, space separated, up to one that ends with ')'.
   */
  method Tokenize(line: string) returns (tokens: seq<string>)
    ensures tokens == Tokens(line)
  {
    var stream := Words(line);
    tokens := [];
    var i := 0;
    while i < |stream|
      invariant 0 <= i <= |stream|
      invariant tokens + ReassembleFrom(stream, i) == Reassemble(stream)
    {
      ghost var start := i;
      var token := stream[i];
      i := i + 1;
      if token[0] == '(' && token[|token| - 1] != ')' {
        token, i := ReadString(stream, token, i);
      }
      assert ReassembleFrom(stream, start) == [token] + ReassembleFrom(stream, i);
      assert tokens + [token] + ReassembleFrom(stream, i) == Reassemble(stream) by {
        Regroup3(tokens, [token], ReassembleFrom(stream, i));
      }
      tokens := tokens + [token];
    }
  }

  /** The inner loop of Tokenize: words are added, space separated, up to one that ends with ')'. */
  method ReadString(stream: seq<string>, first: string, from: nat) returns (token: string, i: nat)
    requires from <= |stream| && forall k :: 0 <= k < |stream| ==> stream[k] != []
    ensures (token, i) == JoinFrom(stream, first, from)
  {
    token, i := first, from;
    while i < |stream|
      invariant from <= i <= |stream|
      invariant JoinFrom(stream, token, i) == JoinFrom(stream, first, from)
    {
      var rest := stream[i];
      i := i + 1;
      token := token + " " + rest;
      if rest[|rest| - 1] == ')' {
        break;
      }
    }
  }

  /** The words joined with single spaces. */
  function Unwords(ws: seq<string>): string
  {
    if ws == [] then "" else if |ws| == 1 then ws[0] else ws[0] + " " + Unwords(ws[1..])
  }

  lemma {:induction false} UnwordsAppend(a: seq<string>, b: seq<string>)
    requires a != [] && b != []
    ensures Unwords(a + b) == Unwords(a) + " " + Unwords(b)
    decreases |a|
  {
    if |a| == 1 {
      assert (a + b)[1..] == b;
    } else {
      assert (a + b)[1..] == a[1..] + b;
      UnwordsAppend(a[1..], b);
    }
  }

  lemma {:induction false} JoinFromText(words: seq<string>, acc: string, i: nat)
    requires i <= |words|
    ensures Unwords([acc] + words[i..JoinFrom(words, acc, i).1]) == JoinFrom(words, acc, i).0
    decreases |words| - i
  {
    if i < |words| {
      var acc' := acc + " " + words[i];
      if Closes(words[i]) {
        assert [acc] + words[i..i + 1] == [acc, words[i]];
      } else {
        JoinFromText(words, acc', i + 1);
        var j := JoinFrom(words, acc', i + 1).1;
        if j == i + 1 {
          assert [acc'] + words[i + 1..j] == [acc'];
          assert [acc] + words[i..j] == [acc, words[i]];
        } else {
          assert [acc'] + words[i + 1..j] == [acc'] + words[i + 1..j];
          UnwordsAppend([acc], words[i..j]);
          UnwordsAppend([acc'], words[i + 1..j]);
          assert words[i..j] == [words[i]] + words[i + 1..j];
          UnwordsAppend([words[i]], words[i + 1..j]);
        }
      }
    } else {
      assert [acc] + words[i..i] == [acc];
    }
  }

  lemma {:induction false} ReassembleFromText(words: seq<string>, i: nat)
    requires i <= |words|
    ensures Unwords(ReassembleFrom(words, i)) == Unwords(words[i..])
    decreases |words| - i
  {
    if i < |words| {
      var j: nat;
      var t: string;
      if Opens(words[i]) {
        t, j := JoinFrom(words, words[i], i + 1).0, JoinFrom(words, words[i], i + 1).1;
        JoinFromText(words, words[i], i + 1);
        assert [words[i]] + words[i + 1..j] == words[i..j];
      } else {
        t, j := words[i], i + 1;
        assert [words[i]] == words[i..j];
      }
      assert Unwords(words[i..j]) == t;
      ReassembleFromText(words, j);
      assert ReassembleFrom(words, i) == [t] + ReassembleFrom(words, j);
      if j < |words| {
        assert words[i..] == words[i..j] + words[j..];
        assert ReassembleFrom(words, j) != [] by { assert words[j..] != []; }
        UnwordsAppend([t], ReassembleFrom(words, j));
        UnwordsAppend(words[i..j], words[j..]);
      } else {
        assert words[i..] == words[i..j];
        assert ReassembleFrom(words, j) == [];
        assert [t] + [] == [t];
      }
    }
  }

  /**
   * Regrouping loses and reorders nothing: the tokens, joined with single
   * spaces, spell the same text as the words.
   */
  lemma TokensKeepText(words: seq<string>)
    ensures Unwords(Reassemble(words)) == Unwords(words)
  {
    ReassembleFromText(words, 0);
    assert words[0..] == words;
  }

  /** A word that does not open a string is a token of its own. */
  lemma PlainWordKept(words: seq<string>, i: nat)
    requires i < |words| && !Opens(words[i])
    ensures ReassembleFrom(words, i) == [words[i]] + ReassembleFrom(words, i + 1)
  {
  }

  /** Regrouping never produces more tokens than there are words. */
  lemma {:induction false} ReassembleShorter(words: seq<string>, i: nat)
    requires i <= |words|
    ensures |ReassembleFrom(words, i)| <= |words| - i
    decreases |words| - i
  {
    if i < |words| {
      if Opens(words[i]) {
        ReassembleShorter(words, JoinFrom(words, words[i], i + 1).1);
      } else {
        ReassembleShorter(words, i + 1);
      }
    }
  }
}
