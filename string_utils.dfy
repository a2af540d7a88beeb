/**
 * The string helpers of the Utils namespace: case mapping, trimming,
 * splitting on a delimiter with std::getline semantics, search-and-replace,
 * prefix test and a strict decimal-number test.
 */
module StringUtils {
  import opened Numbers

  predicate IsUpper(c: char) { 'A' <= c <= 'Z' }
  predicate IsLower(c: char) { 'a' <= c <= 'z' }

  /** ::tolower in the "C" locale. */
  function LowerChar(c: char): char { if IsUpper(c) then (c as int + 32) as char else c }

  /** ::toupper in the "C" locale. */
  function UpperChar(c: char): char { if IsLower(c) then (c as int - 32) as char else c }

  function ToLower(s: string): (r: string)
    ensures |r| == |s|
    ensures forall i :: 0 <= i < |s| ==> !IsUpper(r[i])
    ensures forall i :: 0 <= i < |s| ==> r[i] == LowerChar(s[i])
  {
    if s == [] then [] else [LowerChar(s[0])] + ToLower(s[1..])
  }

  function ToUpper(s: string): (r: string)
    ensures |r| == |s|
    ensures forall i :: 0 <= i < |s| ==> !IsLower(r[i])
    ensures forall i :: 0 <= i < |s| ==> r[i] == UpperChar(s[i])
  {
    if s == [] then [] else [UpperChar(s[0])] + ToUpper(s[1..])
  }

  lemma ToLowerIdempotent(s: string)
    ensures ToLower(ToLower(s)) == ToLower(s)
  {
  }

  lemma ToUpperIdempotent(s: string)
    ensures ToUpper(ToUpper(s)) == ToUpper(s)
  {
  }

  /** The characters " \t\r\n" that Trim removes. */
  predicate IsTrimSpace(c: char) { c == ' ' || c == '\t' || c == '\r' || c == '\n' }

  predicate AllTrimSpace(s: string) { forall i :: 0 <= i < |s| ==> IsTrimSpace(s[i]) }

  /** find_first_not_of(" \t\r\n"), with |s| for npos. */
  function FirstNotSpace(s: string, i: nat): (j: nat)
    requires i <= |s|
    ensures i <= j <= |s|
    ensures forall k :: i <= k < j ==> IsTrimSpace(s[k])
    ensures j < |s| ==> !IsTrimSpace(s[j])
    decreases |s| - i
  {
    if i == |s| || !IsTrimSpace(s[i]) then i else FirstNotSpace(s, i + 1)
  }

  /** One past find_last_not_of(" \t\r\n") within s[..n]. */
  function EndNotSpace(s: string, n: nat): (j: nat)
    requires n <= |s|
    ensures j <= n
    ensures forall k :: j <= k < n ==> IsTrimSpace(s[k])
    ensures j > 0 ==> !IsTrimSpace(s[j - 1])
  {
    if n == 0 || !IsTrimSpace(s[n - 1]) then n else EndNotSpace(s, n - 1)
  }

  /**
   * Trim: the substring between the first and the last character that is
   * not a space, tab, carriage return or line feed.
   */
  function Trim(s: string): (r: string)
    ensures AllTrimSpace(s) <==> r == ""
    ensures r != "" ==> !IsTrimSpace(r[0]) && !IsTrimSpace(r[|r| - 1])
    ensures FirstNotSpace(s, 0) + |r| <= |s|
    ensures r == s[FirstNotSpace(s, 0)..FirstNotSpace(s, 0) + |r|]
    ensures AllTrimSpace(s[..FirstNotSpace(s, 0)])
    ensures AllTrimSpace(s[FirstNotSpace(s, 0) + |r|..])
  {
    var start := FirstNotSpace(s, 0);
    if start == |s| then ""
    else
      var end := EndNotSpace(s, |s|);
      assert start < end;
      s[start..end]
  }

  lemma TrimIdempotent(s: string)
    ensures Trim(Trim(s)) == Trim(s)
  {
    var t := Trim(s);
    if t != "" {
      assert FirstNotSpace(t, 0) == 0;
      assert EndNotSpace(t, |t|) == |t|;
    }
  }

  /** A string with no white space at either end is its own trim. */
  lemma TrimOfTrimmed(s: string)
    requires s != [] ==> !IsTrimSpace(s[0]) && !IsTrimSpace(s[|s| - 1])
    ensures Trim(s) == s
  {
    if s != [] {
      assert FirstNotSpace(s, 0) == 0;
      assert EndNotSpace(s, |s|) == |s|;
    }
  }

  /** Index of the first d in s, or |s|. */
  function IndexOf(s: string, d: char): (k: nat)
    ensures k <= |s|
    ensures forall i :: 0 <= i < k ==> s[i] != d
    ensures k < |s| ==> s[k] == d
  {
    if s == [] || s[0] == d then 0 else 1 + IndexOf(s[1..], d)
  }

  /**
   * The items std::getline(stream, item, d) yields in turn: the pieces
   * between delimiters, where a delimiter at the very end does not start
   * one more (empty) piece.
   */
  function Pieces(s: string, d: char): (r: seq<string>)
    ensures forall i :: 0 <= i < |r| ==> d !in r[i]
    ensures s == [] <==> r == []
    decreases |s|
  {
    if s == [] then []
    else
      var k := IndexOf(s, d);
      assert d !in s[..k];
      if k == |s| then [s] else [s[..k]] + Pieces(s[k + 1..], d)
  }

  /** Pieces joined with d separators. */
  function Join(pieces: seq<string>, d: char): string
  {
    if pieces == [] then "" else if |pieces| == 1 then pieces[0] else pieces[0] + [d] + Join(pieces[1..], d)
  }

  /** Joining the pieces recovers the text, up to one final delimiter. */
  lemma {:induction false} JoinPieces(s: string, d: char)
    ensures Join(Pieces(s, d), d) == s || Join(Pieces(s, d), d) + [d] == s
    decreases |s|
  {
    if s != [] {
      var k := IndexOf(s, d);
      if k < |s| {
        var head, rest := s[..k], s[k + 1..];
        assert s == head + [d] + rest;
        JoinPieces(rest, d);
        if rest == [] {
          assert Pieces(s, d) == [head];
        } else {
          var tail := Pieces(rest, d);
          assert Pieces(s, d) == [head] + tail;
          JoinCons(head, tail, d);
          JoinAround(head, d, rest, Join(tail, d));
        }
      }
    }
  }

  /** A piece in front of at least one more is followed by a separator. */
  lemma JoinCons(head: string, tail: seq<string>, d: char)
    requires tail != []
    ensures Join([head] + tail, d) == head + [d] + Join(tail, d)
  {
    assert ([head] + tail)[1..] == tail;
  }

  lemma JoinAround(head: string, d: char, rest: string, joined: string)
    requires joined == rest || joined + [d] == rest
    ensures head + [d] + joined == head + [d] + rest || head + [d] + joined + [d] == head + [d] + rest
  {
    if joined != rest {
      assert head + [d] + joined + [d] == head + [d] + (joined + [d]);
    }
  }

  function TrimAll(items: seq<string>): (r: seq<string>)
    ensures |r| == |items|
    ensures forall i :: 0 <= i < |r| ==> r[i] == Trim(items[i])
  {
    if items == [] then [] else [Trim(items[0])] + TrimAll(items[1..])
  }

  /** Pieces of a text whose first delimiter is at k. */
  lemma PiecesAt(s: string, d: char, k: nat)
    requires k < |s| && s[k] == d && d !in s[..k]
    ensures Pieces(s, d) == [s[..k]] + Pieces(s[k + 1..], d)
  {
    IndexOfFirst(s, d, k);
  }

  lemma PiecesNone(s: string, d: char)
    requires s != [] && d !in s
    ensures Pieces(s, d) == [s]
  {
    IndexOfFirst(s, d, |s|);
  }

  lemma {:induction false} IndexOfFirst(s: string, d: char, k: nat)
    requires k <= |s| && d !in s[..k] && (k < |s| ==> s[k] == d)
    ensures IndexOf(s, d) == k
  {
    if s != [] && s[0] != d {
      assert s[1..][..k - 1] == s[..k][1..];
      IndexOfFirst(s[1..], d, k - 1);
    }
  }

  /**
   * Split: every item std::getline yields, trimmed, in order.
   */
  method Split(str: string, delimiter: char) returns (result: seq<string>)
    ensures result == TrimAll(Pieces(str, delimiter))
  {
    result := [];
    var start := 0;
    var i := 0;
    while i < |str|
      invariant start <= i <= |str|
      invariant forall k :: start <= k < i ==> str[k] != delimiter
      invariant result + TrimAll(Pieces(str[start..], delimiter)) == TrimAll(Pieces(str, delimiter))
    {
      if str[i] == delimiter {
        assert result + [Trim(str[start..i])] + TrimAll(Pieces(str[i + 1..], delimiter))
          == TrimAll(Pieces(str, delimiter)) by {
          SplitStep(str, delimiter, start, i);
          Regroup3(result, [Trim(str[start..i])], TrimAll(Pieces(str[i + 1..], delimiter)));
        }
        result := result + [Trim(str[start..i])];
        start := i + 1;
      }
      i := i + 1;
    }
    SplitLast(str, delimiter, start);
    if start < |str| {
      result := result + [Trim(str[start..])];
    }
  }

  lemma Regroup3<T>(a: seq<T>, b: seq<T>, c: seq<T>)
    ensures a + b + c == a + (b + c)
  {
  }

  /** A delimiter at i ends the piece that starts at start. */
  lemma SplitStep(str: string, d: char, start: nat, i: nat)
    requires start <= i < |str| && str[i] == d
    requires forall k :: start <= k < i ==> str[k] != d
    ensures TrimAll(Pieces(str[start..], d)) == [Trim(str[start..i])] + TrimAll(Pieces(str[i + 1..], d))
  {
    var rest := str[start..];
    assert rest[..i - start] == str[start..i];
    assert d !in rest[..i - start];
    PiecesAt(rest, d, i - start);
    assert rest[i - start + 1..] == str[i + 1..];
    var tail := Pieces(str[i + 1..], d);
    assert Pieces(rest, d) == [str[start..i]] + tail;
    assert ([str[start..i]] + tail)[1..] == tail;
  }

  /** With no delimiter left, what remains is one last piece, if any. */
  lemma SplitLast(str: string, d: char, start: nat)
    requires start <= |str|
    requires forall k :: start <= k < |str| ==> str[k] != d
    ensures TrimAll(Pieces(str[start..], d)) == if start < |str| then [Trim(str[start..])] else []
  {
    if start < |str| {
      PiecesNone(str[start..], d);
    } else {
      assert str[start..] == [];
    }
  }

  /** Each piece of Split is trimmed. */
  lemma SplitPiecesTrimmed(str: string, delimiter: char, i: nat)
    requires i < |Pieces(str, delimiter)|
    ensures Trim(TrimAll(Pieces(str, delimiter))[i]) == TrimAll(Pieces(str, delimiter))[i]
  {
    TrimIdempotent(Pieces(str, delimiter)[i]);
  }

  /** from occurs in s at position k. */
  predicate OccursAt(s: string, from: string, k: nat)
  {
    k + |from| <= |s| && s[k..k + |from|] == from
  }

  /** std::string::find(from, pos), with |s| + 1 for npos. */
  function Find(s: string, from: string, pos: nat): (k: nat)
    requires pos <= |s| + 1
    ensures pos <= k
    ensures k <= |s| ==> OccursAt(s, from, k)
    ensures forall j :: pos <= j < k && j <= |s| ==> !OccursAt(s, from, j)
    ensures k > |s| ==> k == |s| + 1
    decreases |s| + 1 - pos
  {
    if pos > |s| then |s| + 1
    else if OccursAt(s, from, pos) then pos
    else Find(s, from, pos + 1)
  }

  /**
   * Left-to-right, non-overlapping replacement of every occurrence of a
   * non-empty from by to, read off character by character: the reference
   * meaning of Replace.
   */
  function ReplaceAll(s: string, from: string, to: string): string
    requires from != []
    decreases |s|
  {
    if |s| == 0 then s
    else if OccursAt(s, from, 0) then to + ReplaceAll(s[|from|..], from, to)
    else [s[0]] + ReplaceAll(s[1..], from, to)
  }

  lemma {:induction false} FindShift(s: string, from: string, pos: nat, p: string)
    requires pos <= |s|
    ensures Find(p + s, from, |p| + pos) == |p| + Find(s, from, pos)
    decreases |s| + 1 - pos
  {
    var t := p + s;
    assert t[|p|..] == s;
    assert OccursAt(t, from, |p| + pos) <==> OccursAt(s, from, pos) by {
      if |p| + pos + |from| <= |t| {
        assert t[|p| + pos..|p| + pos + |from|] == s[pos..pos + |from|];
      }
    }
    if !OccursAt(s, from, pos) && pos < |s| {
      FindShift(s, from, pos + 1, p);
    } else if !OccursAt(s, from, pos) {
      assert Find(t, from, |t| + 1) == |t| + 1;
    }
  }

  /**
   * Replace: an empty from leaves the text as is; otherwise the loop
   * replaces at each find and resumes after the inserted text.
   */
  method Replace(str: string, from: string, to: string) returns (result: string)
    ensures from == [] ==> result == str
    ensures from != [] ==> result == ReplaceAll(str, from, to)
  {
    if from == [] {
      return str;
    }
    result := str;
    var pos: nat := 0;
    pos := Find(result, from, pos);
    assert Reached(result, from, to, str, 0, pos);
    while pos <= |result|
      invariant pos <= |result| + 1
      invariant exists done: nat :: Reached(result, from, to, str, done, pos)
      decreases |result| + 1 - pos
    {
      ghost var done: nat :| Reached(result, from, to, str, done, pos);
      var before := result[..pos];
      var after := result[pos + |from|..];
      ReplaceStep(result, from, to, done, pos);
      result := before + to + after;
      pos := pos + |to|;
      assert result[..pos] == before + to;
      assert result[pos..] == after;
      FindShift(after, from, 0, before + to);
      pos := Find(result, from, pos);
      assert Reached(result, from, to, str, |before + to|, pos);
    }
    ghost var done: nat :| Reached(result, from, to, str, done, pos);
    NoMatchFrom(result, from, to, done);
  }

  /**
   * The loop state of Replace: result agrees with the reference up to done,
   * and pos is the next occurrence from done on.
   */
  ghost predicate Reached(result: string, from: string, to: string, str: string, done: nat, pos: nat)
    requires from != []
  {
    done <= pos && done <= |result|
      && result[..done] + ReplaceAll(result[done..], from, to) == ReplaceAll(str, from, to)
      && pos == Find(result, from, done)
  }

  /** One step of the loop, in terms of the reference definition. */
  lemma ReplaceStep(s: string, from: string, to: string, done: nat, pos: nat)
    requires from != [] && done <= pos <= |s| && pos == Find(s, from, done)
    ensures s[..done] + ReplaceAll(s[done..], from, to)
      == s[..pos] + to + ReplaceAll(s[pos + |from|..], from, to)
  {
    ReplaceUntil(s, from, to, done, pos);
    SliceParts(s, done, pos, pos + |from|);
    Regroup(s[..done], s[done..pos], to, ReplaceAll(s[pos + |from|..], from, to));
  }

  lemma SliceParts<T>(s: seq<T>, i: nat, j: nat, k: nat)
    requires i <= j <= k <= |s|
    ensures s[..i] + s[i..j] == s[..j]
  {
  }

  lemma Regroup<T>(a: seq<T>, b: seq<T>, c: seq<T>, d: seq<T>)
    ensures a + (b + c + d) == a + b + c + d
  {
  }

  /** from occurs in s[i..] at 0 exactly when it occurs in s at i. */
  lemma OccursShift(s: string, from: string, i: nat)
    requires i <= |s|
    ensures OccursAt(s[i..], from, 0) <==> OccursAt(s, from, i)
  {
    if i + |from| <= |s| {
      assert s[i..][0..|from|] == s[i..i + |from|];
    }
  }

  /**
   * Up to the first occurrence at k (none in between), the text is kept,
   * and the occurrence is replaced by to.
   */
  lemma {:induction false} ReplaceUntil(s: string, from: string, to: string, i: nat, k: nat)
    requires from != [] && i <= k && OccursAt(s, from, k)
    requires forall j :: i <= j < k ==> !OccursAt(s, from, j)
    ensures ReplaceAll(s[i..], from, to) == s[i..k] + to + ReplaceAll(s[k + |from|..], from, to)
    decreases k - i
  {
    OccursShift(s, from, i);
    if i == k {
      assert s[i..][|from|..] == s[k + |from|..];
      assert s[i..k] == [];
    } else {
      assert s[i..][1..] == s[i + 1..];
      ReplaceUntil(s, from, to, i + 1, k);
      assert s[i..k] == [s[i]] + s[i + 1..k];
    }
  }

  /** With no occurrence from i on, the rest is kept as it is. */
  lemma {:induction false} ReplaceNone(s: string, from: string, to: string, i: nat)
    requires from != [] && i <= |s|
    requires forall j :: i <= j <= |s| ==> !OccursAt(s, from, j)
    ensures ReplaceAll(s[i..], from, to) == s[i..]
    decreases |s| - i
  {
    OccursShift(s, from, i);
    if i < |s| {
      assert s[i..][1..] == s[i + 1..];
      ReplaceNone(s, from, to, i + 1);
      assert s[i..] == [s[i]] + s[i + 1..];
    }
  }

  /** The reference replacement agrees with the find-based one: text up to the first find, to, then the rest. */
  lemma ReplaceAllAt(t: string, from: string, to: string, k: nat)
    requires from != [] && k == Find(t, from, 0) && k <= |t|
    ensures ReplaceAll(t, from, to) == t[..k] + to + ReplaceAll(t[k + |from|..], from, to)
  {
    ReplaceUntil(t, from, to, 0, k);
    assert t[0..] == t && t[0..k] == t[..k];
  }

  /** With no occurrence from done on, the rest is unchanged. */
  lemma NoMatchFrom(s: string, from: string, to: string, done: nat)
    requires from != [] && done <= |s| && Find(s, from, done) > |s|
    ensures s[..done] + ReplaceAll(s[done..], from, to) == s
  {
    ReplaceNone(s, from, to, done);
    assert s == s[..done] + s[done..];
  }

  /** Replacing a text that does not occur changes nothing. */
  lemma ReplaceAbsent(s: string, from: string, to: string)
    requires from != [] && forall k :: 0 <= k <= |s| ==> !OccursAt(s, from, k)
    ensures ReplaceAll(s, from, to) == s
  {
    ReplaceNone(s, from, to, 0);
    assert s[0..] == s;
  }

  /** StartsWith: false for a longer prefix, else a character-wise comparison. */
  function StartsWith(s: string, prefix: string): (r: bool)
    ensures r <==> |prefix| <= |s| && forall i :: 0 <= i < |prefix| ==> s[i] == prefix[i]
  {
    if |prefix| > |s| then false else s[..|prefix|] == prefix
  }

  lemma StartsWithConcat(p: string, t: string)
    ensures StartsWith(p + t, p)
  {
  }

  function CountChar(s: string, c: char): nat
  {
    if s == [] then 0 else (if s[0] == c then 1 else 0) + CountChar(s[1..], c)
  }

  predicate NumberChar(c: char) { c == '.' || IsDigit(c) }

  /** The text after an optional leading sign. */
  function Unsigned(t: string): string
  {
    if t != [] && (t[0] == '+' || t[0] == '-') then t[1..] else t
  }

  /**
   * The shape IsNumber accepts, after trimming: an optional sign, then an
   * unsigned number.
   */
  predicate NumberShape(t: string)
  {
    UnsignedShape(Unsigned(t))
  }

  /** Only digits and '.', at most one '.', and at least one digit. */
  predicate UnsignedShape(b: string)
  {
    (forall i :: 0 <= i < |b| ==> NumberChar(b[i]))
      && CountChar(b, '.') <= 1
      && exists i :: 0 <= i < |b| && IsDigit(b[i])
  }

  lemma CountCharSnoc(s: string, c: char, x: char)
    ensures CountChar(s + [x], c) == CountChar(s, c) + (if x == c then 1 else 0)
  {
    if s != [] {
      assert (s + [x])[1..] == s[1..] + [x];
      CountCharSnoc(s[1..], c, x);
    }
  }

  lemma CountCharPrefix(s: string, c: char, i: nat)
    requires i <= |s|
    ensures CountChar(s[..i], c) <= CountChar(s, c)
    decreases |s| - i
  {
    if i < |s| {
      CountCharPrefix(s, c, i + 1);
      assert s[..i + 1] == s[..i] + [s[i]];
      CountCharSnoc(s[..i], c, s[i]);
    } else {
      assert s[..i] == s;
    }
  }

  /** IsNumber: an empty or blank text, or a lone sign, is not a number; otherwise the character loop decides. */
  method IsNumber(str: string) returns (r: bool)
    ensures r <==> NumberShape(Trim(str))
  {
    if |str| == 0 {
      return false;
    }
    var trimmed := Trim(str);
    if |trimmed| == 0 {
      return false;
    }
    var start := 0;
    if trimmed[0] == '+' || trimmed[0] == '-' {
      start := 1;
      if |trimmed| == 1 {
        assert Unsigned(trimmed) == [];
        return false;
      }
    }
    assert Unsigned(trimmed) == trimmed[start..];
    r := ScanNumber(trimmed, start);
  }

  /** The loop of IsNumber with has_decimal and has_digit, from start on. */
  method ScanNumber(trimmed: string, start: nat) returns (r: bool)
    requires start <= |trimmed|
    ensures r <==> UnsignedShape(trimmed[start..])
  {
    ghost var b := trimmed[start..];
    var hasDecimal := false;
    var hasDigit := false;
    var i := start;
    while i < |trimmed|
      invariant start <= i <= |trimmed|
      invariant forall k :: 0 <= k < i - start ==> NumberChar(b[k])
      invariant CountChar(b[..i - start], '.') == if hasDecimal then 1 else 0
      invariant hasDigit <==> exists k :: 0 <= k < i - start && IsDigit(b[k])
    {
      assert trimmed[i] == b[i - start];
      assert b[..i - start + 1] == b[..i - start] + [b[i - start]];
      CountCharSnoc(b[..i - start], '.', b[i - start]);
      if trimmed[i] == '.' {
        if hasDecimal {
          CountCharPrefix(b, '.', i - start + 1);
          return false;
        }
        hasDecimal := true;
      } else if IsDigit(trimmed[i]) {
        hasDigit := true;
      } else {
        assert !NumberChar(b[i - start]);
        return false;
      }
      i := i + 1;
    }
    assert b[..i - start] == b;
    return hasDigit;
  }
}
