/**
 * The string operations the application uses — `trim`, `toLowerCase`,
 * `includes`, `startsWith`, `split`, `join` and string ordering — restricted
 * to ASCII: whitespace is the six ASCII whitespace characters and only
 * 'A'..'Z' have a lower-case form.
 */
module Text {

  /** ASCII whitespace as `String.prototype.trim` removes it. */
  predicate IsSpace(c: char) {
    c == ' ' || c == '\t' || c == '\n' || c == '\r' || c as int == 0x0B || c as int == 0x0C
  }

  predicate AllSpace(s: string) {
    forall i :: 0 <= i < |s| ==> IsSpace(s[i])
  }

  /** Neither end of `s` is whitespace. */
  predicate IsTrimmed(s: string) {
    s == [] || (!IsSpace(s[0]) && !IsSpace(s[|s| - 1]))
  }

  /** `s` without its leading whitespace: the longest suffix not starting with a space. */
  function TrimStart(s: string): (r: string)
    ensures |r| <= |s| && r == s[|s| - |r|..]
    ensures AllSpace(s[..|s| - |r|])
    ensures r == [] || !IsSpace(r[0])
    decreases |s|
  {
    if s != [] && IsSpace(s[0]) then
      var r := TrimStart(s[1..]);
      assert s[..|s| - |r|] == [s[0]] + s[1..][..|s| - 1 - |r|];
      r
    else s
  }

  /** `s` without its trailing whitespace: the longest prefix not ending with a space. */
  function TrimEnd(s: string): (r: string)
    ensures |r| <= |s| && r == s[..|r|]
    ensures AllSpace(s[|r|..])
    ensures r == [] || !IsSpace(r[|r| - 1])
    decreases |s|
  {
    if s != [] && IsSpace(s[|s| - 1]) then
      var r := TrimEnd(s[..|s| - 1]);
      assert s[|r|..] == s[..|s| - 1][|r|..] + [s[|s| - 1]];
      r
    else s
  }

  /** How many whitespace characters `s` starts with. */
  function Lead(s: string): (n: nat)
    ensures n <= |s|
    ensures AllSpace(s[..n])
    ensures TrimStart(s) == s[n..]
  {
    |s| - |TrimStart(s)|
  }

  /** `String.prototype.trim`: `s` without whitespace at either end. */
  function Trim(s: string): (r: string)
    ensures IsTrimmed(r)
  {
    var t := TrimStart(s);
    var r := TrimEnd(t);
    assert r != [] ==> r[0] == t[0];
    r
  }

  /** `s` is whitespace, then `Trim(s)`, then whitespace. */
  lemma TrimParts(s: string)
    ensures Lead(s) + |Trim(s)| <= |s|
    ensures Trim(s) == s[Lead(s)..Lead(s) + |Trim(s)|]
    ensures AllSpace(s[..Lead(s)]) && AllSpace(s[Lead(s) + |Trim(s)|..])
  {
    var t := TrimStart(s);
    SuffixSlices(s, Lead(s), |TrimEnd(t)|);
  }

  lemma SuffixSlices(s: string, n: nat, m: nat)
    requires n + m <= |s|
    ensures s[n..][..m] == s[n..n + m] && s[n..][m..] == s[n + m..]
  {
  }

  /** Padding a trimmed string with whitespace on the left is undone by TrimStart. */
  lemma {:induction false} TrimStartPadded(a: string, t: string)
    requires AllSpace(a)
    requires t == [] || !IsSpace(t[0])
    ensures TrimStart(a + t) == t
    decreases |a|
  {
    if a == [] {
      assert a + t == t;
    } else {
      assert (a + t)[1..] == a[1..] + t;
      TrimStartPadded(a[1..], t);
    }
  }

  /** Padding a trimmed string with whitespace on the right is undone by TrimEnd. */
  lemma {:induction false} TrimEndPadded(t: string, b: string)
    requires AllSpace(b)
    requires t == [] || !IsSpace(t[|t| - 1])
    ensures TrimEnd(t + b) == t
    decreases |b|
  {
    if b == [] {
      assert t + b == t;
    } else {
      var n := |t + b|;
      assert (t + b)[..n - 1] == t + b[..|b| - 1];
      TrimEndPadded(t, b[..|b| - 1]);
    }
  }

  /** Trim removes exactly the whitespace around a trimmed, non-empty core. */
  lemma TrimPadded(a: string, p: string, b: string)
    requires AllSpace(a) && AllSpace(b)
    requires p != [] && IsTrimmed(p)
    ensures Trim(a + p + b) == p
  {
    assert a + p + b == a + (p + b);
    TrimStartPadded(a, p + b);
    TrimEndPadded(p, b);
  }

  /** ASCII lower case of one character. */
  function LowerChar(c: char): char {
    if 'A' <= c <= 'Z' then (c as int + 32) as char else c
  }

  /** `String.prototype.toLowerCase` on ASCII. */
  function Lower(s: string): string {
    seq(|s|, i requires 0 <= i < |s| => LowerChar(s[i]))
  }

  predicate IsLower(s: string) {
    Lower(s) == s
  }

  /** Lower-casing never changes whether a character is whitespace. */
  lemma LowerCharKeepsSpace(c: char)
    ensures IsSpace(LowerChar(c)) <==> IsSpace(c)
  {
  }

  lemma LowerIdempotent(s: string)
    ensures IsLower(Lower(s))
  {
  }

  /** Lower-casing distributes over concatenation. */
  lemma LowerConcat(a: string, b: string)
    ensures Lower(a + b) == Lower(a) + Lower(b)
  {
  }

  /** Whitespace has no upper case, so lower-casing leaves it alone. */
  lemma LowerOfSpace(a: string)
    requires AllSpace(a)
    ensures Lower(a) == a
  {
  }

  /** The ASCII facts lower-casing keeps: length, whitespace at the ends. */
  lemma LowerKeepsTrimmed(t: string)
    requires IsTrimmed(t)
    ensures IsTrimmed(Lower(t))
  {
    if t != [] {
      LowerCharKeepsSpace(t[0]);
      LowerCharKeepsSpace(t[|t| - 1]);
    }
  }

  /** `s.toLowerCase().trim()` and `s.trim().toLowerCase()` agree on ASCII. */
  lemma TrimLowerCommute(s: string)
    ensures Trim(Lower(s)) == Lower(Trim(s))
  {
    var k := Lead(s);
    var t := Trim(s);
    var a, b := s[..k], s[k + |t|..];
    TrimParts(s);
    SplitAround(s, k, |t|);
    LowerAround(a, t, b);
    if t == [] {
      assert a + Lower(t) + b == a + b;
      AllSpaceTrimsToEmpty(a + b);
    } else {
      LowerKeepsTrimmed(t);
      TrimPadded(a, Lower(t), b);
    }
  }

  lemma SplitAround(s: string, k: nat, m: nat)
    requires k + m <= |s|
    ensures s == s[..k] + s[k..k + m] + s[k + m..]
  {
  }

  /** Lower-casing a padded string lower-cases the middle only. */
  lemma LowerAround(a: string, t: string, b: string)
    requires AllSpace(a) && AllSpace(b)
    ensures Lower(a + t + b) == a + Lower(t) + b
  {
    LowerConcat(a + t, b);
    LowerConcat(a, t);
    LowerOfSpace(a);
    LowerOfSpace(b);
  }

  lemma AllSpaceTrimsToEmpty(s: string)
    requires AllSpace(s)
    ensures Trim(s) == []
  {
  }

  /** Trimming a trimmed string changes nothing. */
  lemma TrimTrimmed(s: string)
    requires IsTrimmed(s)
    ensures Trim(s) == s
  {
    if s == [] {
      AllSpaceTrimsToEmpty(s);
    } else {
      TrimPadded([], s, []);
      assert [] + s + [] == s;
    }
  }

  /** Trimming and lower-casing bring in no character that is not a letter. */
  lemma TrimLowerKeepsAbsent(s: string, c: char)
    requires c !in s && !('A' <= c <= 'Z') && !('a' <= c <= 'z')
    ensures c !in Lower(Trim(s))
  {
    var t := Trim(s);
    var k := Lead(s);
    TrimParts(s);
    forall i | 0 <= i < |t|
      ensures Lower(t)[i] != c
    {
      assert t[i] == s[k + i];
      assert s[k + i] in s;
    }
  }

  /** `s.startsWith(prefix)`. */
  predicate StartsWith(s: string, prefix: string) {
    |prefix| <= |s| && s[..|prefix|] == prefix
  }

  /** `sub` occurs in `s` starting at index `i`. */
  predicate InfixAt(s: string, sub: string, i: int) {
    0 <= i <= |s| - |sub| && s[i..i + |sub|] == sub
  }

  /** `s.includes(sub)`, computed by trying every start position in turn. */
  predicate Contains(s: string, sub: string)
    decreases |s|
  {
    StartsWith(s, sub) || (s != [] && Contains(s[1..], sub))
  }

  /** Contains agrees with the definition of an infix: some window of `s` equals `sub`. */
  lemma {:induction false} ContainsIffInfix(s: string, sub: string)
    ensures Contains(s, sub) <==> exists i :: InfixAt(s, sub, i)
    decreases |s|
  {
    if s != [] {
      ContainsIffInfix(s[1..], sub);
      if StartsWith(s, sub) {
        assert InfixAt(s, sub, 0);
      }
      if Contains(s[1..], sub) {
        var i :| InfixAt(s[1..], sub, i);
        assert InfixAt(s, sub, i + 1);
      }
      if exists i :: InfixAt(s, sub, i) {
        var i :| InfixAt(s, sub, i);
        if i > 0 {
          assert InfixAt(s[1..], sub, i - 1);
        } else {
          assert StartsWith(s, sub);
        }
      }
    } else {
      if exists i :: InfixAt(s, sub, i) {
        var i :| InfixAt(s, sub, i);
        assert StartsWith(s, sub);
      }
      if Contains(s, sub) {
        assert InfixAt(s, sub, 0);
      }
    }
  }

  /** The empty string is a substring of everything (`"x".includes("")` is true). */
  lemma ContainsEmpty(s: string)
    ensures Contains(s, [])
  {
    assert StartsWith(s, []);
  }

  /** `s.split(sep)` for a one-character separator: never empty, no part holds `sep`. */
  function Split(s: string, sep: char): (parts: seq<string>)
    ensures |parts| >= 1
    ensures forall p :: p in parts ==> sep !in p
    decreases |s|
  {
    if s == [] then [[]]
    else
      var rest := Split(s[1..], sep);
      if s[0] == sep then [[]] + rest else [[s[0]] + rest[0]] + rest[1..]
  }

  /** `parts.join(sep)`. */
  function Join(parts: seq<string>, sep: string): string
    decreases |parts|
  {
    if |parts| == 0 then []
    else if |parts| == 1 then parts[0]
    else parts[0] + sep + Join(parts[1..], sep)
  }

  /** A separator-free prefix ends up at the front of the first part. */
  lemma {:induction false} SplitPrefix(pad: string, x: string, sep: char)
    requires sep !in pad
    ensures Split(pad + x, sep) == [pad + Split(x, sep)[0]] + Split(x, sep)[1..]
    decreases |pad|
  {
    if pad != [] {
      assert (pad + x)[1..] == pad[1..] + x;
      SplitPrefix(pad[1..], x, sep);
      assert [pad[0]] + (pad[1..] + Split(x, sep)[0]) == pad + Split(x, sep)[0];
    } else {
      assert pad + x == x;
      assert pad + Split(x, sep)[0] == Split(x, sep)[0];
      assert [Split(x, sep)[0]] + Split(x, sep)[1..] == Split(x, sep);
    }
  }

  /** Splitting at a separator after a separator-free part yields that part first. */
  lemma {:induction false} SplitAtSeparator(a: string, b: string, sep: char)
    requires sep !in a
    ensures Split(a + [sep] + b, sep) == [a] + Split(b, sep)
  {
    assert a + [sep] + b == a + ([sep] + b);
    SplitPrefix(a, [sep] + b, sep);
    assert ([sep] + b)[0] == sep && ([sep] + b)[1..] == b;
    assert Split([sep] + b, sep) == [[]] + Split(b, sep);
    assert a + [] == a;
  }

  /**
   * Joining with `sep` followed by a padding, then splitting at `sep`,
   * gives back the parts, each but the first carrying the padding in front.
   */
  lemma {:induction false} SplitJoin(parts: seq<string>, sep: char, pad: string)
    requires |parts| >= 1
    requires forall p :: p in parts ==> sep !in p
    requires sep !in pad
    ensures Split(Join(parts, [sep] + pad), sep)
         == [parts[0]] + seq(|parts| - 1, i requires 0 <= i < |parts| - 1 => pad + parts[i + 1])
    decreases |parts|
  {
    var padded := seq(|parts| - 1, i requires 0 <= i < |parts| - 1 => pad + parts[i + 1]);
    if |parts| == 1 {
      SplitPartless(parts[0], sep);
    } else {
      var rest := Join(parts[1..], [sep] + pad);
      assert Join(parts, [sep] + pad) == parts[0] + [sep] + (pad + rest);
      SplitAtSeparator(parts[0], pad + rest, sep);
      SplitPrefix(pad, rest, sep);
      SplitJoin(parts[1..], sep, pad);
      var inner := Split(rest, sep);
      assert inner[0] == parts[1];
      assert [pad + inner[0]] + inner[1..] == padded;
    }
  }

  /** A string without the separator splits into itself alone. */
  lemma {:induction false} SplitPartless(s: string, sep: char)
    requires sep !in s
    ensures Split(s, sep) == [s]
    decreases |s|
  {
    if s != [] {
      SplitPartless(s[1..], sep);
      assert [s[0]] + s[1..] == s;
    }
  }

  /** Lexicographic order on code points: the model of `orderBy: 'asc'` on a text column. */
  predicate LexLe(a: string, b: string)
    decreases |a|
  {
    a == [] || (b != [] && (a[0] < b[0] || (a[0] == b[0] && LexLe(a[1..], b[1..]))))
  }

  lemma {:induction false} LexLeTotal(a: string, b: string)
    ensures LexLe(a, b) || LexLe(b, a)
    decreases |a|
  {
    if a != [] && b != [] && a[0] == b[0] {
      LexLeTotal(a[1..], b[1..]);
    }
  }

  lemma {:induction false} LexLeTransitive(a: string, b: string, c: string)
    requires LexLe(a, b) && LexLe(b, c)
    ensures LexLe(a, c)
    decreases |a|
  {
    if a != [] && a[0] == b[0] && b[0] == c[0] {
      LexLeTransitive(a[1..], b[1..], c[1..]);
    }
  }
}
