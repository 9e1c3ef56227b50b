/** The parts of Python's `str` that the converter relies on, over `seq<char>`.

    Character classes are the ASCII ones (`isalpha`, `isnumeric`, `lower`, `int`),
    except whitespace, which is Python's full `str.isspace` set. */
module PyStrings {
  import opened Wrappers

  // ---------------------------------------------------------------------------
  // Substrings: `p in s`

  /** Python's `p in s` for two strings. */
  function Contains(s: string, p: string): bool
    decreases |s|
  {
    if |p| > |s| then false
    else if s[..|p|] == p then true
    else Contains(s[1..], p)
  }

  /** `p` occurs in `s` starting at position `i`. */
  ghost predicate OccursAt(s: string, p: string, i: int)
  {
    0 <= i && i + |p| <= |s| && s[i..i + |p|] == p
  }

  /** `Contains` agrees with the positional definition of a substring. */
  lemma {:induction false} ContainsIff(s: string, p: string)
    ensures Contains(s, p) <==> exists i :: OccursAt(s, p, i)
    decreases |s|
  {
    if |p| > |s| {
      forall i | OccursAt(s, p, i) ensures false { }
    } else if s[..|p|] == p {
      assert OccursAt(s, p, 0);
    } else {
      ContainsIff(s[1..], p);
      if Contains(s[1..], p) {
        var i :| OccursAt(s[1..], p, i);
        assert s[1..][i..i + |p|] == s[i + 1..i + 1 + |p|];
        assert OccursAt(s, p, i + 1);
      } else {
        forall i | OccursAt(s, p, i) ensures false {
          if i != 0 {
            assert s[1..][i - 1..i - 1 + |p|] == s[i..i + |p|];
            assert OccursAt(s[1..], p, i - 1);
          }
        }
      }
    }
  }

  // ---------------------------------------------------------------------------
  // Counting, slicing, splitting, joining

  /** Python's `s.count(c)` for a one-character `c`. */
  function Count(s: string, c: char): (n: nat)
    ensures n <= |s|
    ensures n == 0 <==> c !in s
  {
    if s == [] then 0 else (if s[0] == c then 1 else 0) + Count(s[1..], c)
  }

  /** Python's `s[i:]`: past the end it is empty instead of an error. */
  function SliceFrom(s: string, i: nat): (r: string)
    ensures |r| == if i <= |s| then |s| - i else 0
    ensures forall k :: 0 <= k < |r| ==> r[k] == s[i + k]
  {
    if i <= |s| then s[i..] else []
  }

  /** Python's `s[i:j]` for `0 <= i <= j`: both ends are clipped to the string. */
  function Slice(s: string, i: nat, j: nat): (r: string)
    requires i <= j
    ensures |r| == (if j <= |s| then j else |s|) - (if i <= |s| then i else |s|)
    ensures forall k :: 0 <= k < |r| ==> r[k] == s[i + k]
  {
    var hi := if j <= |s| then j else |s|;
    var lo := if i <= hi then i else hi;
    s[lo..hi]
  }

  /** Python's `s.split(c)` for a one-character separator `c`. */
  function Split(s: string, c: char): (parts: seq<string>)
    ensures |parts| > 0
  {
    if s == [] then [""]
    else if s[0] == c then [""] + Split(s[1..], c)
    else
      var rest := Split(s[1..], c);
      [[s[0]] + rest[0]] + rest[1..]
  }

  /** Python's `sep.join(parts)`. */
  function Join(sep: string, parts: seq<string>): string
  {
    if |parts| == 0 then ""
    else if |parts| == 1 then parts[0]
    else parts[0] + sep + Join(sep, parts[1..])
  }

  /** `split` gives one part more than there are separators, and no part holds one. */
  lemma {:induction false} SplitParts(s: string, c: char)
    ensures |Split(s, c)| == Count(s, c) + 1
    ensures forall k :: 0 <= k < |Split(s, c)| ==> c !in Split(s, c)[k]
  {
    if s != [] {
      SplitParts(s[1..], c);
      var rest := Split(s[1..], c);
      if s[0] != c {
        assert Split(s, c)[0] == [s[0]] + rest[0];
        forall k | 1 <= k < |Split(s, c)| ensures c !in Split(s, c)[k] {
          assert Split(s, c)[k] == rest[k];
        }
      } else {
        forall k | 1 <= k < |Split(s, c)| ensures c !in Split(s, c)[k] {
          assert Split(s, c)[k] == rest[k - 1];
        }
      }
    }
  }

  /** Joining a non-empty tail after a first part puts the separator between them. */
  lemma JoinCons(sep: string, first: string, rest: seq<string>)
    requires |rest| > 0
    ensures Join(sep, [first] + rest) == first + sep + Join(sep, rest)
  {
    assert ([first] + rest)[1..] == rest;
  }

  /** Splitting on a character and joining on it again gives back the string. */
  lemma {:induction false} JoinSplit(s: string, c: char)
    ensures Join([c], Split(s, c)) == s
  {
    if s != [] {
      JoinSplit(s[1..], c);
      if s[0] == c {
        JoinSplitAtSeparator(s, c);
      } else {
        JoinSplitAtOther(s, c);
      }
    }
  }

  /** The inductive step of `JoinSplit` when the string starts with the separator. */
  lemma JoinSplitAtSeparator(s: string, c: char)
    requires s != [] && s[0] == c
    requires Join([c], Split(s[1..], c)) == s[1..]
    ensures Join([c], Split(s, c)) == s
  {
    var rest := Split(s[1..], c);
    assert Split(s, c) == [""] + rest;
    JoinCons([c], "", rest);
    assert s == [c] + s[1..];
  }

  /** The inductive step of `JoinSplit` when the string starts with another character. */
  lemma JoinSplitAtOther(s: string, c: char)
    requires s != [] && s[0] != c
    requires Join([c], Split(s[1..], c)) == s[1..]
    ensures Join([c], Split(s, c)) == s
  {
    var rest := Split(s[1..], c);
    JoinPrefixed([c], s[0], rest);
    assert s == [s[0]] + s[1..];
  }

  /** Putting a character in front of the first part puts it in front of the join. */
  lemma JoinPrefixed(sep: string, x: char, parts: seq<string>)
    requires |parts| > 0
    ensures Join(sep, [[x] + parts[0]] + parts[1..]) == [x] + Join(sep, parts)
  {
    var tail := parts[1..];
    if tail != [] {
      var j := Join(sep, tail);
      JoinCons(sep, [x] + parts[0], tail);
      assert parts == [parts[0]] + tail;
      JoinCons(sep, parts[0], tail);
      assert ([x] + parts[0]) + sep + j == [x] + (parts[0] + sep + j);
    }
  }

  /** A string without `c` is a single part. */
  lemma {:induction false} SplitNoSeparator(s: string, c: char)
    requires c !in s
    ensures Split(s, c) == [s]
  {
    if s != [] {
      SplitNoSeparator(s[1..], c);
      assert [s[0]] + s[1..] == s;
    }
  }

  /** Splitting `a + [c] + b`, where neither side holds `c`, gives the two sides. */
  lemma {:induction false} SplitAround(a: string, c: char, b: string)
    requires c !in a && c !in b
    ensures Split(a + [c] + b, c) == [a, b]
  {
    var s := a + [c] + b;
    if a == [] {
      assert s[1..] == b;
      SplitNoSeparator(b, c);
    } else {
      assert s[0] == a[0];
      assert s[1..] == a[1..] + [c] + b;
      SplitAround(a[1..], c, b);
      assert [a[0]] + a[1..] == a;
    }
  }

  /** A join ends with the end of its last part. */
  lemma {:induction false} JoinLast(sep: string, parts: seq<string>)
    requires |parts| > 0 && |parts[|parts| - 1]| > 0
    ensures |Join(sep, parts)| > 0
    ensures Join(sep, parts)[|Join(sep, parts)| - 1] == parts[|parts| - 1][|parts[|parts| - 1]| - 1]
  {
    if |parts| > 1 {
      JoinLast(sep, parts[1..]);
    }
  }

  /** Splitting `a + [c] + b`, where `a` holds no `c`, gives `a` and then the parts
      of `b`. */
  lemma {:induction false} SplitSeparated(a: string, c: char, b: string)
    requires c !in a
    ensures Split(a + [c] + b, c) == [a] + Split(b, c)
  {
    var s := a + [c] + b;
    if a == [] {
      assert s[1..] == b;
    } else {
      assert s[0] == a[0];
      assert s[1..] == a[1..] + [c] + b;
      SplitSeparated(a[1..], c, b);
      assert [a[0]] + a[1..] == a;
    }
  }

  /** Splitting at `c` undoes joining with `c` parts that hold no `c`. */
  lemma {:induction false} SplitJoin(parts: seq<string>, c: char)
    requires |parts| > 0
    requires forall k :: 0 <= k < |parts| ==> c !in parts[k]
    ensures Split(Join([c], parts), c) == parts
  {
    if |parts| == 1 {
      SplitNoSeparator(parts[0], c);
    } else {
      var rest := parts[1..];
      assert forall k :: 0 <= k < |rest| ==> rest[k] == parts[k + 1];
      SplitJoin(rest, c);
      SplitSeparated(parts[0], c, Join([c], rest));
      assert parts == [parts[0]] + rest;
    }
  }

  /** A string with exactly one `c` splits into the text before and after it. */
  lemma SplitOnce(s: string, c: char)
    requires Count(s, c) == 1
    ensures |Split(s, c)| == 2
    ensures Split(s, c)[0] + [c] + Split(s, c)[1] == s
  {
    SplitParts(s, c);
    JoinSplit(s, c);
    var parts := Split(s, c);
    assert Join([c], parts) == parts[0] + [c] + Join([c], parts[1..]);
  }

  // ---------------------------------------------------------------------------
  // Character classes, case, whitespace

  predicate IsDigit(c: char) { '0' <= c <= '9' }

  predicate IsLetter(c: char) { 'a' <= c <= 'z' || 'A' <= c <= 'Z' }

  /** Python's `s.isalpha()`: non-empty and only letters. */
  predicate IsAlpha(s: string)
  {
    |s| > 0 && forall k :: 0 <= k < |s| ==> IsLetter(s[k])
  }

  /** Python's `s.isnumeric()`: non-empty and only digits. */
  predicate IsNumeric(s: string)
  {
    |s| > 0 && forall k :: 0 <= k < |s| ==> IsDigit(s[k])
  }

  function LowerChar(c: char): char
  {
    if 'A' <= c <= 'Z' then (c as int + 32) as char else c
  }

  /** Python's `s.lower()`. */
  function Lower(s: string): (r: string)
    ensures |r| == |s|
    ensures forall k :: 0 <= k < |s| ==> r[k] == LowerChar(s[k])
  {
    seq(|s|, k requires 0 <= k < |s| => LowerChar(s[k]))
  }

  /** The characters for which Python's `str.isspace()` holds. */
  const Whitespace: set<char> :=
    {'\t', '\n', '\U{B}', '\U{C}', '\r', '\U{1C}', '\U{1D}', '\U{1E}', '\U{1F}', ' ',
     '\U{85}', '\U{A0}', '\U{1680}', '\U{2000}', '\U{2001}', '\U{2002}', '\U{2003}',
     '\U{2004}', '\U{2005}', '\U{2006}', '\U{2007}', '\U{2008}', '\U{2009}', '\U{200A}',
     '\U{2028}', '\U{2029}', '\U{202F}', '\U{205F}', '\U{3000}'}

  /** Python's `s.lstrip(chars)`, with the characters given as a set. */
  function LStrip(s: string, chars: set<char>): (r: string)
    ensures |r| <= |s| && r == s[|s| - |r|..]
    ensures r == [] || r[0] !in chars
    ensures forall k :: 0 <= k < |s| - |r| ==> s[k] in chars
  {
    if |s| > 0 && s[0] in chars then LStrip(s[1..], chars) else s
  }

  /** Python's `s.rstrip(chars)`, with the characters given as a set. */
  function RStrip(s: string, chars: set<char>): (r: string)
    ensures |r| <= |s| && r == s[..|r|]
    ensures r == [] || r[|r| - 1] !in chars
    ensures forall k :: |r| <= k < |s| ==> s[k] in chars
  {
    if |s| > 0 && s[|s| - 1] in chars then RStrip(s[..|s| - 1], chars) else s
  }

  /** Python's `s.strip()`. */
  function Strip(s: string): string
  {
    RStrip(LStrip(s, Whitespace), Whitespace)
  }

  /** Where the part `strip` keeps begins and ends. */
  function StripStart(s: string): nat
  {
    |s| - |LStrip(s, Whitespace)|
  }

  function StripEnd(s: string): nat
  {
    StripStart(s) + |Strip(s)|
  }

  /** `strip` keeps a contiguous middle part of the string and removes exactly the
      whitespace around it. */
  lemma StripShape(s: string)
    ensures StripStart(s) <= StripEnd(s) <= |s|
    ensures Strip(s) == s[StripStart(s)..StripEnd(s)]
    ensures forall k :: 0 <= k < StripStart(s) ==> s[k] in Whitespace
    ensures forall k :: StripEnd(s) <= k < |s| ==> s[k] in Whitespace
  {
    StripCharsShape(s, Whitespace);
  }

  /** The same for any set of stripped characters. */
  lemma StripCharsShape(s: string, chars: set<char>)
    ensures var l := LStrip(s, chars);
            var i := |s| - |l|;
            var j := i + |RStrip(l, chars)|;
            j <= |s| && RStrip(l, chars) == s[i..j] &&
            forall k :: j <= k < |s| ==> s[k] in chars
  {
    var l := LStrip(s, chars);
    var i := |s| - |l|;
    var j := i + |RStrip(l, chars)|;
    assert l == s[i..];
    forall k | j <= k < |s| ensures s[k] in chars {
      assert s[k] == l[k - i];
    }
  }

  /** What `strip` keeps neither begins nor ends with whitespace. */
  lemma StripEdges(s: string)
    ensures Strip(s) == [] || (Strip(s)[0] !in Whitespace && Strip(s)[|Strip(s)| - 1] !in Whitespace)
  {
    var l := LStrip(s, Whitespace);
    var r := Strip(s);
    if r != [] {
      assert r[0] == l[0];
    }
  }

  /** `strip` leaves a string that neither begins nor ends with whitespace as it is. */
  lemma StripUnpadded(s: string)
    requires s != [] && s[0] !in Whitespace && s[|s| - 1] !in Whitespace
    ensures Strip(s) == s
  {
  }

  // ---------------------------------------------------------------------------
  // Integers and their text: `str(i)` and `int(s)`

  function DigitChar(d: nat): char
    requires d < 10
  {
    "0123456789"[d]
  }

  function DigitValue(c: char): nat
    requires IsDigit(c)
  {
    c as int - '0' as int
  }

  /** Python's `str(n)` for a natural number: decimal digits, no leading zero. */
  function NatToString(n: nat): (r: string)
    ensures IsNumeric(r)
    decreases n
  {
    if n < 10 then [DigitChar(n)] else NatToString(n / 10) + [DigitChar(n % 10)]
  }

  /** Python's `str(i)` for an integer. */
  function IntToString(i: int): (r: string)
    ensures |r| > 0 && IsDigit(r[|r| - 1])
    ensures i >= 0 <==> IsDigit(r[0])
  {
    if i < 0 then "-" + NatToString(-i) else NatToString(i)
  }

  /** `str(i)` is digits after an optional minus sign. */
  lemma IntToStringChars(i: int)
    ensures forall k :: 0 <= k < |IntToString(i)| ==> IsDigit(IntToString(i)[k]) || (k == 0 && IntToString(i)[k] == '-')
  {
  }

  /** The digit text that Python's `int()` accepts after an optional sign: digits,
      with single underscores allowed between two digits. */
  predicate IsDigitGroup(s: string)
  {
    |s| > 0 && IsDigit(s[0]) && IsDigit(s[|s| - 1]) &&
    (forall k :: 0 <= k < |s| ==> IsDigit(s[k]) || s[k] == '_') &&
    (forall k :: 0 <= k < |s| - 1 ==> s[k] == '_' ==> s[k + 1] != '_')
  }

  /** The value of a digit text, with underscores ignored. */
  function DigitsValue(s: string): nat
    requires forall k :: 0 <= k < |s| ==> IsDigit(s[k]) || s[k] == '_'
  {
    if s == [] then 0
    else if s[|s| - 1] == '_' then DigitsValue(s[..|s| - 1])
    else DigitsValue(s[..|s| - 1]) * 10 + DigitValue(s[|s| - 1])
  }

  /** Python's `int(s)` on a string without surrounding whitespace: `None` where
      Python raises `ValueError`. */
  function ParseInt(s: string): Option<int>
  {
    if |s| > 0 && (s[0] == '+' || s[0] == '-') then
      var body := s[1..];
      var v: int := if IsDigitGroup(body) then DigitsValue(body) else 0;
      if IsDigitGroup(body) then Some(if s[0] == '-' then -v else v)
      else None
    else if IsDigitGroup(s) then Some(DigitsValue(s))
    else None
  }

  lemma {:induction false} DigitsValueOfNat(n: nat)
    ensures DigitsValue(NatToString(n)) == n
    decreases n
  {
    var s := NatToString(n);
    if n >= 10 {
      DigitsValueOfNat(n / 10);
      assert s[..|s| - 1] == NatToString(n / 10);
    }
  }

  lemma NumericIsDigitGroup(s: string)
    requires IsNumeric(s)
    ensures IsDigitGroup(s)
  {
  }

  /** `int` reads a plain digit string as its decimal value. */
  lemma ParseIntOfNumeric(t: string)
    requires IsNumeric(t)
    ensures ParseInt(t) == Some(DigitsValue(t))
  {
    NumericIsDigitGroup(t);
  }

  /** `int` reads a minus sign followed by digits as the negated value. */
  lemma ParseIntOfNegative(t: string)
    requires IsNumeric(t)
    ensures ParseInt("-" + t) == Some(-(DigitsValue(t) as int))
  {
    NumericIsDigitGroup(t);
    assert ("-" + t)[1..] == t;
  }

  /** `int(str(i)) == i`. */
  lemma ParseIntToString(i: int)
    ensures ParseInt(IntToString(i)) == Some(i)
  {
    if i < 0 {
      assert IntToString(i) == "-" + NatToString(-i);
      ParseIntOfNegative(NatToString(-i));
      DigitsValueOfNat(-i);
    } else {
      assert IntToString(i) == NatToString(i);
      ParseIntOfNumeric(NatToString(i));
      DigitsValueOfNat(i);
    }
  }
}
