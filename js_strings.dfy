/** The few JavaScript string operations the application relies on, written out
    with JavaScript's own semantics: `split` with a one-character separator,
    `trim`, ASCII `toLowerCase`, and `length` counted in UTF-16 code units. */
module JsStrings {

  import opened Wrappers

  /** `s.split(sep)` for a one-character separator: always at least one
      piece, and no piece contains the separator. */
  function Split(s: string, sep: char): (parts: seq<string>)
    ensures |parts| >= 1
    ensures forall i :: 0 <= i < |parts| ==> sep !in parts[i]
    decreases |s|
  {
    if |s| == 0 then [""]
    else
      var rest := Split(s[1..], sep);
      if s[0] == sep then [""] + rest
      else [[s[0]] + rest[0]] + rest[1..]
  }

  /** `parts.join(sep)`. */
  function Join(parts: seq<string>, sep: char): string
    requires |parts| >= 1
    decreases |parts|
  {
    if |parts| == 1 then parts[0] else parts[0] + [sep] + Join(parts[1..], sep)
  }

  /** Joining the pieces of a split gives back the original text. */
  lemma {:induction false} JoinSplit(s: string, sep: char)
    ensures Join(Split(s, sep), sep) == s
    decreases |s|
  {
    if |s| > 0 {
      var rest := Split(s[1..], sep);
      JoinSplit(s[1..], sep);
      if s[0] == sep {
        assert Split(s, sep) == [""] + rest;
        assert ([""] + rest)[1..] == rest;
      } else {
        var parts := Split(s, sep);
        assert parts == [[s[0]] + rest[0]] + rest[1..];
        if |rest| == 1 {
          assert Join(parts, sep) == [s[0]] + rest[0];
        } else {
          assert parts[1..] == rest[1..];
          assert Join(rest, sep) == rest[0] + [sep] + Join(rest[1..], sep);
        }
      }
    }
  }

  /** Splitting a join of separator-free pieces gives back the pieces. */
  lemma {:induction false} SplitJoin(parts: seq<string>, sep: char)
    requires |parts| >= 1
    requires forall i :: 0 <= i < |parts| ==> sep !in parts[i]
    ensures Split(Join(parts, sep), sep) == parts
    decreases |parts|, |parts[0]|
  {
    if |parts[0]| > 0 {
      var head := parts[0];
      var shorter := [head[1..]] + parts[1..];
      SplitJoin(shorter, sep);
      assert Join(parts, sep) == [head[0]] + Join(shorter, sep) by {
        if |parts| > 1 {
          assert shorter[1..] == parts[1..];
        }
      }
      assert ([head[0]] + Join(shorter, sep))[1..] == Join(shorter, sep);
      assert [head[0]] + head[1..] == head;
      assert [[head[0]] + shorter[0]] + shorter[1..] == parts;
    } else if |parts| > 1 {
      SplitJoin(parts[1..], sep);
      assert Join(parts, sep) == [sep] + Join(parts[1..], sep);
      assert ([sep] + Join(parts[1..], sep))[1..] == Join(parts[1..], sep);
      assert [""] + parts[1..] == parts;
    }
  }

  /** The first piece of a split is the text before the first separator:
      a prefix of `s`, followed by the separator unless it is all of `s`. */
  lemma {:induction false} SplitFirst(s: string, sep: char)
    ensures var first := Split(s, sep)[0];
      && |first| <= |s|
      && first == s[..|first|]
      && (|first| < |s| ==> s[|first|] == sep)
    decreases |s|
  {
    if |s| > 0 && s[0] != sep {
      SplitFirst(s[1..], sep);
      var rest := Split(s[1..], sep);
      assert Split(s, sep)[0] == [s[0]] + rest[0];
      assert [s[0]] + s[1..][..|rest[0]|] == s[..|rest[0]| + 1];
    }
  }

  /** A text holding the separator splits into at least two pieces. */
  lemma SplitsWhenSeparatorPresent(s: string, sep: char)
    requires sep in s
    ensures |Split(s, sep)| >= 2
  {
    JoinSplit(s, sep);
  }

  /** After the first piece and its separator, the remaining pieces are
      the split of the rest of the text. */
  lemma {:induction false} SplitTail(s: string, sep: char)
    requires sep in s
    ensures var parts := Split(s, sep);
      && |parts| >= 2
      && |parts[0]| < |s|
      && parts[1..] == Split(s[|parts[0]| + 1..], sep)
    decreases |s|
  {
    SplitsWhenSeparatorPresent(s, sep);
    SplitFirst(s, sep);
    if s[0] != sep {
      var rest := Split(s[1..], sep);
      assert sep in s[1..] by {
        var i :| 0 <= i < |s| && s[i] == sep;
        assert s[1..][i - 1] == sep;
      }
      SplitTail(s[1..], sep);
      assert s[1..][|rest[0]| + 1..] == s[|rest[0]| + 2..];
    }
  }

  /** The last piece of `a + sep + b` is `b` when `b` holds no separator:
      `pop()` after a split returns the text after the last separator. */
  lemma {:induction false} SplitLastAfter(a: string, sep: char, b: string)
    requires sep !in b
    ensures var parts := Split(a + [sep] + b, sep);
      parts[|parts| - 1] == b
    decreases |a|
  {
    var s := a + [sep] + b;
    if |a| == 0 {
      assert s[0] == sep && s[1..] == b;
      SplitJoin([b], sep);
      assert Join([b], sep) == b;
    } else {
      SplitLastAfter(a[1..], sep, b);
      assert s[1..] == a[1..] + [sep] + b;
      assert s[1..][|a| - 1] == sep;
      SplitsWhenSeparatorPresent(s[1..], sep);
    }
  }

  /** The last element, as `pop()` returns it. */
  function Last(parts: seq<string>): string
    requires |parts| >= 1
  {
    parts[|parts| - 1]
  }

  /** `parts[i]`, which is `undefined` past the end in JavaScript. */
  function At(parts: seq<string>, i: nat): (r: Option<string>)
    ensures r.Some? <==> i < |parts|
    ensures r.Some? ==> r.value == parts[i]
  {
    if i < |parts| then Some(parts[i]) else None
  }

  /** The characters `String.prototype.trim` removes: the ECMAScript
      WhiteSpace and LineTerminator code points. */
  predicate IsWhiteSpace(c: char)
  {
    || c == '\t' || c == '\n' || c == '\U{000B}' || c == '\U{000C}' || c == '\r'
    || c == ' ' || c == '\U{00A0}' || c == '\U{1680}'
    || ('\U{2000}' <= c <= '\U{200A}')
    || c == '\U{2028}' || c == '\U{2029}' || c == '\U{202F}' || c == '\U{205F}'
    || c == '\U{3000}' || c == '\U{FEFF}'
  }

  /** Drops leading white space: the result is a suffix of `s` whose first
      character (if any) is not white space, and everything dropped is. */
  function TrimStart(s: string): (r: string)
    ensures |r| <= |s| && r == s[|s| - |r|..]
    ensures r == [] || !IsWhiteSpace(r[0])
    ensures forall k :: 0 <= k < |s| - |r| ==> IsWhiteSpace(s[k])
    decreases |s|
  {
    if |s| > 0 && IsWhiteSpace(s[0]) then TrimStart(s[1..]) else s
  }

  /** Drops trailing white space: the result is a prefix of `s` whose last
      character (if any) is not white space, and everything dropped is. */
  function TrimEnd(s: string): (r: string)
    ensures |r| <= |s| && r == s[..|r|]
    ensures r == [] || !IsWhiteSpace(r[|r| - 1])
    ensures forall k :: |r| <= k < |s| ==> IsWhiteSpace(s[k])
    decreases |s|
  {
    if |s| > 0 && IsWhiteSpace(s[|s| - 1]) then TrimEnd(s[..|s| - 1]) else s
  }

  /** `s.trim()`: no white space left at either end. */
  function Trim(s: string): (r: string)
    ensures |r| <= |s|
    ensures r == [] || (!IsWhiteSpace(r[0]) && !IsWhiteSpace(r[|r| - 1]))
  {
    TrimEnd(TrimStart(s))
  }

  /** Where the piece `trim` keeps begins and ends. */
  function TrimBounds(s: string): (b: (nat, nat))
    ensures b.0 <= b.1 <= |s|
    ensures Trim(s) == s[b.0..b.1]
  {
    var t := TrimStart(s);
    var i := |s| - |t|;
    SliceOfSuffix(s, i, |TrimEnd(t)|);
    (i, i + |TrimEnd(t)|)
  }

  /** Everything `trim` drops is white space. */
  lemma TrimDropsOnlyWhiteSpace(s: string)
    ensures forall k :: 0 <= k < TrimBounds(s).0 ==> IsWhiteSpace(s[k])
    ensures forall k :: TrimBounds(s).1 <= k < |s| ==> IsWhiteSpace(s[k])
  {
    var t := TrimStart(s);
    var (i, j) := TrimBounds(s);
    forall k | j <= k < |s|
      ensures IsWhiteSpace(s[k])
    {
      assert s[k] == t[k - i];
    }
  }

  /** `s.split(sep)[0].trim()` is a piece `s[i..j]` of the text before the
      first separator, which is at `c` (or `c` is the end of the text), and
      all that `trim` drops from `s[..c]` is white space. */
  lemma TrimFirstPiece(s: string, sep: char) returns (i: nat, j: nat, c: nat)
    ensures i <= j <= c <= |s| && Trim(Split(s, sep)[0]) == s[i..j]
    ensures c == |s| || s[c] == sep
    ensures forall k :: 0 <= k < c ==> s[k] != sep
    ensures forall k :: 0 <= k < i ==> IsWhiteSpace(s[k])
    ensures forall k :: j <= k < c ==> IsWhiteSpace(s[k])
  {
    var first := Split(s, sep)[0];
    SplitFirst(s, sep);
    TrimDropsOnlyWhiteSpace(first);
    i, j, c := TrimBounds(first).0, TrimBounds(first).1, |first|;
    SliceOfPrefix(s, c, i, j);
    forall k | 0 <= k < c
      ensures s[k] == first[k]
    {
    }
    forall k | 0 <= k < c
      ensures s[k] != sep
    {
      assert first[k] in first;
    }
  }

  lemma SliceOfSuffix<T>(s: seq<T>, i: nat, n: nat)
    requires i + n <= |s|
    ensures s[i..][..n] == s[i..i + n]
  {
  }

  lemma SliceOfPrefix<T>(s: seq<T>, m: nat, i: nat, j: nat)
    requires i <= j <= m <= |s|
    ensures s[..m][i..j] == s[i..j]
  {
  }

  /** ASCII case mapping of one character. */
  function LowerChar(c: char): char
  {
    if 'A' <= c <= 'Z' then (c as int + 32) as char else c
  }

  /** `s.toLowerCase()` restricted to ASCII letters: same length, every
      position mapped by `LowerChar`, so no ASCII capital survives. */
  function ToLower(s: string): (r: string)
    ensures |r| == |s|
    ensures forall i :: 0 <= i < |s| ==> r[i] == LowerChar(s[i])
    ensures forall i :: 0 <= i < |r| ==> !('A' <= r[i] <= 'Z')
  {
    seq(|s|, i requires 0 <= i < |s| => LowerChar(s[i]))
  }

  /** JavaScript's `s.length`: code points above U+FFFF take two UTF-16
      code units. */
  function Utf16Length(s: string): (n: nat)
    ensures |s| <= n <= 2 * |s|
    decreases |s|
  {
    if |s| == 0 then 0
    else (if s[0] as int > 0xFFFF then 2 else 1) + Utf16Length(s[1..])
  }

  /** For text in the Basic Multilingual Plane the JavaScript length is the
      number of characters. */
  lemma {:induction false} Utf16LengthBmp(s: string)
    requires forall i :: 0 <= i < |s| ==> s[i] as int <= 0xFFFF
    ensures Utf16Length(s) == |s|
    decreases |s|
  {
    if |s| > 0 {
      Utf16LengthBmp(s[1..]);
    }
  }
}
