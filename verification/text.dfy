/** String helpers with the semantics of the JavaScript built-ins the bundler
    uses: `String.prototype.split` and `Array.prototype.join` with a literal
    separator, and the regular-expression replacement that removes a shebang line. */
module Text {

  /** Index of the first occurrence of `c` in `s`. */
  function IndexOf(s: string, c: char): (i: nat)
    requires c in s
    ensures i < |s| && s[i] == c && c !in s[..i]
  {
    if s[0] == c then 0 else 1 + IndexOf(s[1..], c)
  }

  /** The text before the first `c` (all of `s` when there is none). */
  function Before(s: string, c: char): (r: string)
    ensures r <= s && c !in r
    ensures c in s ==> |r| < |s| && s[|r|] == c
  {
    if c in s then s[..IndexOf(s, c)] else s
  }

  /** The text after the first `c`. */
  function After(s: string, c: char): (r: string)
    requires c in s
    ensures s == Before(s, c) + [c] + r
  {
    s[IndexOf(s, c) + 1..]
  }

  /** `s.split(c)`: the maximal runs of `s` that do not contain `c`. */
  function Split(s: string, c: char): (parts: seq<string>)
    ensures |parts| >= 1
    ensures forall i :: 0 <= i < |parts| ==> c !in parts[i]
    ensures |parts| >= 2 <==> c in s
    decreases |s|
  {
    if |s| == 0 then [""]
    else
      var rest := Split(s[1..], c);
      if s[0] == c then [""] + rest
      else [[s[0]] + rest[0]] + rest[1..]
  }

  /** `parts.join(sep)` */
  function JoinWith(parts: seq<string>, sep: string): string
  {
    if |parts| == 0 then ""
    else if |parts| == 1 then parts[0]
    else parts[0] + sep + JoinWith(parts[1..], sep)
  }

  /** Joining the fields of a split with the separator gives the text back. */
  lemma {:induction false} JoinSplit(s: string, c: char)
    ensures JoinWith(Split(s, c), [c]) == s
    decreases |s|
  {
    if |s| > 0 {
      var rest := Split(s[1..], c);
      JoinSplit(s[1..], c);
      if s[0] == c {
        assert Split(s, c) == [""] + rest;
        assert JoinWith(Split(s, c), [c]) == "" + [c] + JoinWith(rest, [c]);
        assert s == [s[0]] + s[1..];
      } else {
        var parts := Split(s, c);
        assert parts == [[s[0]] + rest[0]] + rest[1..];
        if |rest| == 1 {
          assert JoinWith(parts, [c]) == [s[0]] + rest[0];
        } else {
          assert JoinWith(rest, [c]) == rest[0] + [c] + JoinWith(rest[1..], [c]);
          assert parts[1..] == rest[1..];
          assert JoinWith(parts, [c]) == [s[0]] + rest[0] + [c] + JoinWith(rest[1..], [c]);
        }
        assert s == [s[0]] + s[1..];
      }
    }
  }

  /** The first field is the text before the first separator, and the other
      fields are the split of the text after it. */
  lemma {:induction false} SplitFields(s: string, c: char)
    ensures Split(s, c)[0] == Before(s, c)
    ensures c in s ==> Split(s, c)[1..] == Split(After(s, c), c)
    decreases |s|
  {
    if |s| > 0 && s[0] != c {
      SplitFields(s[1..], c);
      if c in s {
        assert c in s[1..];
        assert IndexOf(s, c) == 1 + IndexOf(s[1..], c);
        assert After(s, c) == After(s[1..], c);
      } else {
        assert c !in s[1..];
      }
      assert Before(s, c) == [s[0]] + Before(s[1..], c);
    } else if |s| > 0 {
      assert IndexOf(s, c) == 0;
    }
  }

  /** Splitting a join of separator-free fields gives the fields back. */
  lemma {:induction false} SplitJoin(parts: seq<string>, c: char)
    requires |parts| >= 1
    requires forall i :: 0 <= i < |parts| ==> c !in parts[i]
    ensures Split(JoinWith(parts, [c]), c) == parts
    decreases |parts|
  {
    if |parts| == 1 {
      SplitNoSeparator(parts[0], c);
    } else {
      var tail := JoinWith(parts[1..], [c]);
      var s := parts[0] + [c] + tail;
      assert JoinWith(parts, [c]) == s;
      SplitJoin(parts[1..], c);
      SplitPrefix(parts[0], tail, c);
      assert parts == [parts[0]] + parts[1..];
    }
  }

  lemma {:induction false} SplitNoSeparator(s: string, c: char)
    requires c !in s
    ensures Split(s, c) == [s]
    decreases |s|
  {
    if |s| > 0 {
      assert c !in s[1..];
      SplitNoSeparator(s[1..], c);
      assert s == [s[0]] + s[1..];
    }
  }

  lemma {:induction false} SplitPrefix(a: string, b: string, c: char)
    requires c !in a
    ensures Split(a + [c] + b, c) == [a] + Split(b, c)
    decreases |a|
  {
    var s := a + [c] + b;
    if |a| == 0 {
      assert s == [c] + b;
      assert s[1..] == b;
    } else {
      assert s[0] == a[0];
      assert s[1..] == a[1..] + [c] + b;
      assert c !in a[1..];
      SplitPrefix(a[1..], b, c);
      assert a == [a[0]] + a[1..];
    }
  }

  /** JavaScript's line terminators: what `.` in a regular expression does not match. */
  predicate IsLineTerminator(ch: char) {
    ch == '\n' || ch == '\r' || ch == '\U{2028}' || ch == '\U{2029}'
  }

  /** `s` without its leading characters up to, not including, the first line terminator. */
  function DropLine(s: string): (r: string)
    ensures |r| <= |s| && r == s[|s| - |r|..]
    ensures forall i :: 0 <= i < |s| - |r| ==> !IsLineTerminator(s[i])
    ensures r == [] || IsLineTerminator(r[0])
    decreases |s|
  {
    if |s| == 0 || IsLineTerminator(s[0]) then s else DropLine(s[1..])
  }

  /** The shebang replacement of the loader and the packager: a leading `#!`
      line loses its text but keeps its line terminator; any other text is
      left alone. */
  function StripShebang(s: string): (r: string)
  {
    if "#!" <= s then DropLine(s) else s
  }

  /** What the replacement removes is exactly a shebang line without its
      terminator, and what is left cannot start with another shebang, so
      stripping twice is stripping once. */
  lemma StripShebangSpec(s: string)
    ensures !("#!" <= s) ==> StripShebang(s) == s
    ensures var r := StripShebang(s);
      "#!" <= s ==>
        r == s[|s| - |r|..] && "#!" <= s[..|s| - |r|] &&
        (forall i :: 0 <= i < |s| - |r| ==> !IsLineTerminator(s[i])) &&
        (r == [] || IsLineTerminator(r[0]))
    ensures StripShebang(StripShebang(s)) == StripShebang(s)
  {
    var r := StripShebang(s);
    if "#!" <= s {
      assert s[0] == '#' && s[1] == '!';
      assert !IsLineTerminator(s[0]) && !IsLineTerminator(s[1]);
      assert |s| - |r| >= 2;
      assert s[..|s| - |r|][..2] == s[..2];
      assert r == [] || r[0] != '#';
    }
  }
}
