/**
 * The few operations of Python's `str` and of text-mode file reading that the
 * configuration readers and the Notion client rely on, over `string` = `seq<char>`.
 */
module Strings {

  /**
   * The character sets the sources strip: `Whitespace`, the characters for
   * which Python's `str.isspace()` holds and which `str.strip()` without an
   * argument removes; `Quotes`, the argument of `strip('"\'')`; and the two
   * together.
   */
  datatype CharClass = Whitespace | Quotes | WhitespaceOrQuotes

  predicate IsSpace(c: char) {
    c == ' ' || '\t' <= c <= '\r' || '\U{1C}' <= c <= '\U{1F}' || c == '\U{85}' || c == '\U{A0}'
    || c == '\U{1680}' || '\U{2000}' <= c <= '\U{200A}' || c == '\U{2028}' || c == '\U{2029}'
    || c == '\U{202F}' || c == '\U{205F}' || c == '\U{3000}'
  }

  predicate In(c: char, cs: CharClass) {
    match cs
    case Whitespace => IsSpace(c)
    case Quotes => c == '"' || c == '\''
    case WhitespaceOrQuotes => IsSpace(c) || c == '"' || c == '\''
  }

  /** The two characters that end a line when a file is read in text mode. */
  predicate NoLineBreak(s: string) {
    '\n' !in s && '\r' !in s
  }

  // The trimming functions carry only a length bound; what they keep and
  // what they drop is stated by the lemmas after them, which a proof calls
  // when it needs them.

  /** `s.lstrip(cs)`: `s` without its leading run of characters from `cs`. */
  function TrimLeft(s: string, cs: CharClass): (r: string)
    ensures |r| <= |s|
  {
    if s != [] && In(s[0], cs) then TrimLeft(s[1..], cs) else s
  }

  /** What `TrimLeft` keeps is a suffix of `s` that does not start with a character of `cs`; all it drops is in `cs`. */
  lemma {:induction false} TrimLeftSuffix(s: string, cs: CharClass)
    ensures var r := TrimLeft(s, cs);
      r == s[|s| - |r|..] && (r != [] ==> !In(r[0], cs))
      && forall i :: 0 <= i < |s| - |r| ==> In(s[i], cs)
  {
    if s != [] && In(s[0], cs) {
      TrimLeftSuffix(s[1..], cs);
      var r := TrimLeft(s, cs);
      assert s[1..][|s| - 1 - |r|..] == s[|s| - |r|..];
      forall i | 0 <= i < |s| - |r|
        ensures In(s[i], cs)
      {
        if i > 0 {
          assert s[i] == s[1..][i - 1];
        }
      }
    }
  }

  /** `s.rstrip(cs)`: `s` without its trailing run of characters from `cs`. */
  function TrimRight(s: string, cs: CharClass): (r: string)
    ensures |r| <= |s|
  {
    if s != [] && In(s[|s| - 1], cs) then TrimRight(s[..|s| - 1], cs) else s
  }

  /** What `TrimRight` keeps is a prefix of `s` that does not end with a character of `cs`; all it drops is in `cs`. */
  lemma {:induction false} TrimRightPrefix(s: string, cs: CharClass)
    ensures var r := TrimRight(s, cs);
      r == s[..|r|] && (r != [] ==> !In(r[|r| - 1], cs))
      && forall i :: |r| <= i < |s| ==> In(s[i], cs)
  {
    if s != [] && In(s[|s| - 1], cs) {
      TrimRightPrefix(s[..|s| - 1], cs);
      var r := TrimRight(s, cs);
      assert s[..|s| - 1][..|r|] == s[..|r|];
      forall i | |r| <= i < |s|
        ensures In(s[i], cs)
      {
        if i < |s| - 1 {
          assert s[i] == s[..|s| - 1][i];
        }
      }
    }
  }

  /** `s.strip(cs)`: the part of `s` left once the leading and the trailing runs of characters from `cs` are cut off. */
  function Strip(s: string, cs: CharClass): (r: string)
    ensures |r| <= |s|
  {
    TrimRight(TrimLeft(s, cs), cs)
  }

  /** `s` neither starts nor ends with a character of `cs`. */
  predicate Bare(s: string, cs: CharClass) {
    s != [] ==> !In(s[0], cs) && !In(s[|s| - 1], cs)
  }

  /** Every strip is bare: it neither starts nor ends with a character of `cs`. */
  lemma StripBare(s: string, cs: CharClass)
    ensures Bare(Strip(s, cs), cs)
  {
    var l := TrimLeft(s, cs);
    var r := Strip(s, cs);
    TrimLeftSuffix(s, cs);
    TrimRightPrefix(l, cs);
    if r != [] {
      assert r[0] == l[0];
    }
  }

  /** The strip is empty exactly when every character of `s` is in `cs`. */
  lemma StripEmpty(s: string, cs: CharClass)
    ensures Strip(s, cs) == [] <==> forall i :: 0 <= i < |s| ==> In(s[i], cs)
  {
    var l := TrimLeft(s, cs);
    TrimLeftSuffix(s, cs);
    TrimRightPrefix(l, cs);
  }

  /** A string that neither starts nor ends with a character of `cs` is its own strip. */
  lemma StripUnchanged(s: string, cs: CharClass)
    requires Bare(s, cs)
    ensures Strip(s, cs) == s
  {
    if s != [] {
      assert TrimLeft(s, cs) == s;
    }
  }

  /** Stripping `s + [c]`, where `s` is bare and `c` is stripped, gives `s`: the line feed of a line goes, the value stays. */
  lemma StripLineEnd(s: string, c: char, cs: CharClass)
    requires Bare(s, cs) && In(c, cs)
    ensures Strip(s + [c], cs) == s
  {
    var t := s + [c];
    assert t[..|s|] == s;
    if s != [] {
      assert TrimLeft(t, cs) == t;
      assert TrimRight(s, cs) == s;
    } else {
      assert TrimLeft(t, cs) == TrimLeft(t[1..], cs);
      assert t[1..] == [];
    }
  }

  /** Whatever `Strip` keeps comes from `s`, so it has no line break when `s` has none. */
  lemma StripNoLineBreak(s: string, cs: CharClass)
    requires NoLineBreak(s)
    ensures NoLineBreak(Strip(s, cs))
  {
    var l := TrimLeft(s, cs);
    var r := Strip(s, cs);
    TrimLeftSuffix(s, cs);
    TrimRightPrefix(l, cs);
    assert forall i :: 0 <= i < |r| ==> r[i] == l[i] == s[|s| - |l| + i];
  }

  /** `s.startswith(p)`. */
  predicate StartsWith(s: string, p: string) {
    |p| <= |s| && s[..|p|] == p
  }

  /** `t` occurs in `s` starting at index `i`. */
  predicate OccursAt(s: string, t: string, i: nat) {
    i + |t| <= |s| && s[i..i + |t|] == t
  }

  /** Python's `t in s` on strings: `t` occurs in `s` as a contiguous substring. */
  predicate Contains(s: string, t: string) {
    exists i: nat :: i <= |s| && OccursAt(s, t, i)
  }

  /**
   * For a `t` that neither starts nor ends with a character of `cs`,
   * stripping `s` does not change whether `t` occurs in it.
   */
  lemma ContainsStrip(s: string, t: string, cs: CharClass)
    requires t != [] && Bare(t, cs)
    ensures Contains(Strip(s, cs), t) <==> Contains(s, t)
  {
    ContainsTrimLeft(s, t, cs);
    ContainsTrimRight(TrimLeft(s, cs), t, cs);
  }

  lemma ContainsTrimLeft(s: string, t: string, cs: CharClass)
    requires t != [] && Bare(t, cs)
    ensures Contains(TrimLeft(s, cs), t) <==> Contains(s, t)
  {
    if Contains(TrimLeft(s, cs), t) {
      ContainsOfTrimLeft(s, t, cs);
    }
    if Contains(s, t) {
      ContainsInTrimLeft(s, t, cs);
    }
  }

  lemma ContainsOfTrimLeft(s: string, t: string, cs: CharClass)
    requires Contains(TrimLeft(s, cs), t)
    ensures Contains(s, t)
  {
    var l := TrimLeft(s, cs);
    TrimLeftSuffix(s, cs);
    var i: nat :| i <= |l| && OccursAt(l, t, i);
    OccursInSuffix(s, |s| - |l|, t, i);
  }

  lemma ContainsInTrimLeft(s: string, t: string, cs: CharClass)
    requires t != [] && Bare(t, cs) && Contains(s, t)
    ensures Contains(TrimLeft(s, cs), t)
  {
    var l := TrimLeft(s, cs);
    TrimLeftSuffix(s, cs);
    var i: nat :| i <= |s| && OccursAt(s, t, i);
    assert s[i] == t[0];
    OccursInSuffix(s, |s| - |l|, t, i - (|s| - |l|));
  }

  /** `t` occurs at `i` in the suffix of `s` from `a` exactly when it occurs at `a + i` in `s`. */
  lemma OccursInSuffix(s: string, a: nat, t: string, i: nat)
    requires a <= |s|
    ensures OccursAt(s[a..], t, i) <==> OccursAt(s, t, a + i)
  {
    if a + i + |t| <= |s| {
      assert s[a..][i..i + |t|] == s[a + i..a + i + |t|];
    }
  }

  lemma ContainsTrimRight(s: string, t: string, cs: CharClass)
    requires t != [] && Bare(t, cs)
    ensures Contains(TrimRight(s, cs), t) <==> Contains(s, t)
  {
    var r := TrimRight(s, cs);
    TrimRightPrefix(s, cs);
    if Contains(r, t) {
      var i: nat :| i <= |r| && OccursAt(r, t, i);
      assert s[i..i + |t|] == r[i..i + |t|];
      assert OccursAt(s, t, i);
    }
    if Contains(s, t) {
      var i: nat :| i <= |s| && OccursAt(s, t, i);
      assert s[i + |t| - 1] == t[|t| - 1];
      assert r[i..i + |t|] == s[i..i + |t|];
      assert OccursAt(r, t, i);
    }
  }

  /** `t + rest` contains `t`. */
  lemma ContainsStart(t: string, rest: string)
    ensures Contains(t + rest, t)
  {
    assert OccursAt(t + rest, t, 0);
  }

  /** What occurs in `s` occurs in `p + s`. */
  lemma ContainsExtend(p: string, s: string, t: string)
    requires Contains(s, t)
    ensures Contains(p + s, t)
  {
    var i: nat :| i <= |s| && OccursAt(s, t, i);
    assert (p + s)[|p| + i..|p| + i + |t|] == s[i..i + |t|];
    assert OccursAt(p + s, t, |p| + i);
  }

  /** The index of the first `c` in `s`, or `|s|` when `s` has none. */
  function IndexOf(s: string, c: char): (i: nat)
    ensures i <= |s|
    ensures i < |s| ==> s[i] == c
    ensures forall j :: 0 <= j < i ==> s[j] != c
  {
    if s == [] || s[0] == c then 0 else 1 + IndexOf(s[1..], c)
  }

  /** `s.split(c, 1)[1]`: everything after the first `c`, which may itself contain `c`. */
  function AfterFirst(s: string, c: char): (r: string)
    requires c in s
    ensures |r| < |s| && r == s[|s| - |r|..]
    ensures s[|s| - |r| - 1] == c && c !in s[..|s| - |r| - 1]
  {
    s[IndexOf(s, c) + 1..]
  }

  /** When `s` starts with a key that ends in its only `c`, `split(c, 1)[1]` is what follows the key. */
  lemma AfterKey(s: string, key: string, c: char)
    requires StartsWith(s, key) && key != [] && key[|key| - 1] == c && c !in key[..|key| - 1]
    ensures c in s && AfterFirst(s, c) == s[|key|..]
  {
    assert s[|key| - 1] == c;
    assert s[..|key| - 1] == key[..|key| - 1];
  }

  /**
   * What a text-mode read with universal newlines returns for the bytes `s`:
   * every `"\r\n"` and every lone `"\r"` becomes `"\n"`.
   */
  function ReadNewlines(s: string): (r: string)
    ensures |r| <= |s|
  {
    if s == [] then []
    else if s[0] == '\r' then "\n" + ReadNewlines(if |s| > 1 && s[1] == '\n' then s[2..] else s[1..])
    else [s[0]] + ReadNewlines(s[1..])
  }

  /** After the read no carriage return is left. */
  lemma {:induction false} ReadNewlinesDropsCr(s: string)
    ensures '\r' !in ReadNewlines(s)
  {
    if s != [] {
      if s[0] == '\r' {
        ReadNewlinesDropsCr(if |s| > 1 && s[1] == '\n' then s[2..] else s[1..]);
      } else {
        ReadNewlinesDropsCr(s[1..]);
      }
    }
  }

  /** Text without a carriage return reads back unchanged. */
  lemma {:induction false} ReadNewlinesNoCr(s: string)
    requires '\r' !in s
    ensures ReadNewlines(s) == s
  {
    if s != [] {
      assert '\r' !in s[1..];
      ReadNewlinesNoCr(s[1..]);
    }
  }

  /** A part without a carriage return is read as it is, and the rest is read after it. */
  lemma {:induction false} ReadNewlinesPrefix(a: string, b: string)
    requires '\r' !in a
    ensures ReadNewlines(a + b) == a + ReadNewlines(b)
  {
    if a != [] {
      var s := a + b;
      assert s[0] == a[0] && a[0] != '\r';
      assert s[1..] == a[1..] + b;
      assert ReadNewlines(s) == [a[0]] + ReadNewlines(a[1..] + b);
      assert '\r' !in a[1..];
      ReadNewlinesPrefix(a[1..], b);
      assert a == [a[0]] + a[1..];
    } else {
      assert a + b == b;
    }
  }

  /**
   * The first carriage return becomes a line feed, and a line feed right
   * after it is dropped: `"\r\n"` and a lone `'\r'` both read as `'\n'`.
   */
  lemma ReadNewlinesCr(a: string, b: string)
    requires '\r' !in a
    ensures ReadNewlines(a + "\r" + b)
         == a + "\n" + ReadNewlines(if b != [] && b[0] == '\n' then b[1..] else b)
  {
    var t := "\r" + b;
    assert a + "\r" + b == a + t;
    ReadNewlinesPrefix(a, t);
    assert t[0] == '\r' && t[1..] == b;
    assert |t| > 1 && t[1] == '\n' ==> t[2..] == b[1..];
  }

  /**
   * Whatever precedes a line feed, the text after it is read on its own:
   * the read of `k + "\n" + y` ends with the read of `y`, even when `k`
   * ends in a carriage return that the line feed joins.
   */
  lemma {:induction false} ReadNewlinesAfterLineFeed(k: string, y: string)
    ensures |ReadNewlines(y)| <= |ReadNewlines(k + ("\n" + y))|
    ensures var r := ReadNewlines(k + ("\n" + y)); r[|r| - |ReadNewlines(y)|..] == ReadNewlines(y)
    decreases |k|
  {
    var s := k + ("\n" + y);
    if k == [] {
      assert s == "\n" + y;
      ReadNewlinesPrefix("\n", y);
    } else if k[0] != '\r' {
      assert s[1..] == k[1..] + ("\n" + y);
      ReadNewlinesAfterLineFeed(k[1..], y);
    } else if |k| == 1 {
      assert s[1] == '\n' && s[2..] == y;
    } else if k[1] == '\n' {
      assert s[2..] == k[2..] + ("\n" + y);
      ReadNewlinesAfterLineFeed(k[2..], y);
    } else {
      assert s[1..] == k[1..] + ("\n" + y);
      ReadNewlinesAfterLineFeed(k[1..], y);
    }
  }

  /** The strings of `ls` joined end to end. */
  function Concat(ls: seq<string>): string {
    if ls == [] then [] else ls[0] + Concat(ls[1..])
  }

  /**
   * Every line is non-empty and holds a `'\n'` only as its last character,
   * and every line but the last ends in one.
   */
  predicate LinesShaped(ls: seq<string>) {
    (forall k :: 0 <= k < |ls| ==> ls[k] != [] && '\n' !in ls[k][..|ls[k]| - 1])
    && forall k :: 0 <= k < |ls| - 1 ==> ls[k][|ls[k]| - 1] == '\n'
  }

  /**
   * The lines Python's `for line in f` yields for the text `s`: each keeps its
   * terminating `'\n'`, only the last may lack one, and no empty line is
   * produced after a final `'\n'`.
   */
  function Lines(s: string): (ls: seq<string>)
    decreases |s|
    ensures Concat(ls) == s && LinesShaped(ls)
  {
    if s == [] then []
    else
      var i := IndexOf(s, '\n');
      if i == |s| then
        assert Concat([s]) == s + Concat([]);
        [s]
      else
        var rest := Lines(s[i + 1..]);
        assert ([s[..i + 1]] + rest)[1..] == rest;
        [s[..i + 1]] + rest
  }

  /** A complete line, with its one `'\n'` at the end, is yielded first, ahead of the lines of what follows it. */
  lemma LinesAppend(line: string, rest: string)
    requires line != [] && line[|line| - 1] == '\n' && '\n' !in line[..|line| - 1]
    ensures Lines(line + rest) == [line] + Lines(rest)
  {
    var s := line + rest;
    assert s[..|line| - 1] == line[..|line| - 1];
    assert s[|line| - 1] == '\n';
    assert s[..|line|] == line;
    assert s[|line|..] == rest;
  }

  /** A line `key + value` without a line feed, followed by `"\n"`, is the first line yielded. */
  lemma LinesCons(key: string, value: string, rest: string)
    requires '\n' !in key && '\n' !in value
    ensures Lines(key + (value + ("\n" + rest))) == [key + value + "\n"] + Lines(rest)
  {
    var a := key + value;
    assert '\n' !in a;
    var s := a + "\n" + rest;
    assert key + (value + ("\n" + rest)) == s;
    assert s[|a|] == '\n';
    assert s[..|a|] == a;
    assert s[..|a| + 1] == a + "\n";
    assert s[|a| + 1..] == rest;
  }
}
