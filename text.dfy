/**
 * The string operations the dashboard relies on, as the JavaScript runtime
 * defines them: `String.prototype.trim`, `split(',')`, the decimal rendering
 * of a non-negative integer in a template literal, and `toUpperCase`
 * (restricted to ASCII letters).
 */
module Text {

  /** The characters `String.prototype.trim` removes: ECMAScript WhiteSpace
      (TAB, VT, FF, ZWNBSP and every space separator) and LineTerminator
      (LF, CR, LS, PS). */
  predicate IsWhitespace(c: char) {
    || c == '\t' || c == '\n' || c == '\U{000B}' || c == '\U{000C}' || c == '\r'
    || c == ' ' || c == '\U{00A0}' || c == '\U{1680}'
    || ('\U{2000}' <= c <= '\U{200A}')
    || c == '\U{2028}' || c == '\U{2029}' || c == '\U{202F}' || c == '\U{205F}'
    || c == '\U{3000}' || c == '\U{FEFF}'
  }

  predicate AllWhitespace(s: string) {
    forall k :: 0 <= k < |s| ==> IsWhitespace(s[k])
  }

  /** Drops leading whitespace. */
  function TrimStart(s: string): string
    decreases |s|
  {
    if s != [] && IsWhitespace(s[0]) then TrimStart(s[1..]) else s
  }

  /** Drops trailing whitespace. */
  function TrimEnd(s: string): string
    decreases |s|
  {
    if s != [] && IsWhitespace(s[|s| - 1]) then TrimEnd(s[..|s| - 1]) else s
  }

  /** `s.trim()`: whitespace removed from both ends. */
  function Trim(s: string): (r: string)
    ensures |r| <= |s|
    ensures r != [] ==> !IsWhitespace(r[0]) && !IsWhitespace(r[|r| - 1])
  {
    TrimStartShape(s);
    TrimEndShape(TrimStart(s));
    TrimEnd(TrimStart(s))
  }

  /** TrimStart keeps a suffix of its input and cuts off only whitespace. */
  lemma {:induction false} TrimStartShape(s: string)
    ensures |TrimStart(s)| <= |s|
    ensures TrimStart(s) == s[|s| - |TrimStart(s)|..]
    ensures AllWhitespace(s[..|s| - |TrimStart(s)|])
    ensures TrimStart(s) != [] ==> !IsWhitespace(TrimStart(s)[0])
    decreases |s|
  {
    if s != [] && IsWhitespace(s[0]) {
      var t := s[1..];
      TrimStartShape(t);
      var n := |s| - |TrimStart(t)|;
      assert t[n - 1..] == s[n..];
      assert s[..n] == [s[0]] + t[..n - 1];
    }
  }

  /** TrimEnd keeps a prefix of its input and cuts off only whitespace. */
  lemma {:induction false} TrimEndShape(s: string)
    ensures |TrimEnd(s)| <= |s|
    ensures TrimEnd(s) == s[..|TrimEnd(s)|]
    ensures AllWhitespace(s[|TrimEnd(s)|..])
    ensures TrimEnd(s) != [] ==> !IsWhitespace(TrimEnd(s)[|TrimEnd(s)| - 1])
    decreases |s|
  {
    if s != [] && IsWhitespace(s[|s| - 1]) {
      var p := s[..|s| - 1];
      TrimEndShape(p);
      var n := |TrimEnd(p)|;
      assert p[..n] == s[..n];
      assert s[n..] == p[n..] + [s[|s| - 1]];
    }
  }

  /** `trim` keeps one contiguous slice of its input, everything cut off on
      either side is whitespace, and the slice neither starts nor ends with
      whitespace. */
  lemma TrimShape(s: string)
    ensures exists i, j :: 0 <= i <= j <= |s| && Trim(s) == s[i..j]
                           && AllWhitespace(s[..i]) && AllWhitespace(s[j..])
    ensures Trim(s) != [] ==> !IsWhitespace(Trim(s)[0]) && !IsWhitespace(Trim(s)[|Trim(s)| - 1])
  {
    TrimStartShape(s);
    var t := TrimStart(s);
    var i := |s| - |t|;
    TrimEndShape(t);
    var j := i + |TrimEnd(t)|;
    assert t[..j - i] == s[i..j];
    assert t[j - i..] == s[j..];
    assert Trim(s) == s[i..j];
    if Trim(s) != [] {
      assert Trim(s)[0] == t[0];
    }
  }

  /** A string that neither starts nor ends with whitespace is its own trim. */
  lemma {:induction false} TrimFixed(s: string)
    requires s != [] ==> !IsWhitespace(s[0]) && !IsWhitespace(s[|s| - 1])
    ensures Trim(s) == s
  {
  }

  lemma TrimIdempotent(s: string)
    ensures Trim(Trim(s)) == Trim(s)
  {
    TrimShape(s);
    TrimFixed(Trim(s));
  }

  /** `trim` yields the empty string exactly when its input is all whitespace. */
  lemma TrimEmptyIff(s: string)
    ensures Trim(s) == [] <==> AllWhitespace(s)
  {
    TrimShape(s);
    var i, j :| 0 <= i <= j <= |s| && Trim(s) == s[i..j]
                && AllWhitespace(s[..i]) && AllWhitespace(s[j..]);
    if Trim(s) == [] {
      assert i == j;
      forall k | 0 <= k < |s| ensures IsWhitespace(s[k]) {
        if k < i { assert s[k] == s[..i][k]; } else { assert s[k] == s[j..][k - j]; }
      }
    } else {
      assert !IsWhitespace(s[i]) by { assert s[i] == Trim(s)[0]; }
    }
  }

  /** `s.split(',')`: the maximal comma-free pieces, in order. Like the
      JavaScript method it never returns an empty list: `"".split(',')` is
      `[""]`. */
  function Split(s: string): (parts: seq<string>)
    ensures |parts| >= 1
    decreases |s|
  {
    if s == [] then [""]
    else if s[0] == ',' then [""] + Split(s[1..])
    else
      var rest := Split(s[1..]);
      [[s[0]] + rest[0]] + rest[1..]
  }

  /** `parts.join(',')`, the inverse of Split. */
  function Join(parts: seq<string>): string
    decreases |parts|
  {
    if parts == [] then ""
    else if |parts| == 1 then parts[0]
    else parts[0] + "," + Join(parts[1..])
  }

  /** The number of occurrences of `c` in `s`. */
  function Count(s: string, c: char): nat
    decreases |s|
  {
    if s == [] then 0 else (if s[0] == c then 1 else 0) + Count(s[1..], c)
  }

  predicate CommaFree(parts: seq<string>) {
    forall k :: 0 <= k < |parts| ==> ',' !in parts[k]
  }

  /** Splitting yields one piece more than there are commas, and no piece
      holds a comma. */
  lemma {:induction false} SplitCount(s: string)
    ensures |Split(s)| == Count(s, ',') + 1
    ensures CommaFree(Split(s))
    decreases |s|
  {
    if s != [] {
      SplitCount(s[1..]);
      var rest := Split(s[1..]);
      if s[0] != ',' {
        assert ',' !in [s[0]] + rest[0] by { assert ',' !in rest[0]; }
        forall k | 0 <= k < |Split(s)| ensures ',' !in Split(s)[k] {
          if k > 0 { assert Split(s)[k] == rest[k]; }
        }
      } else {
        forall k | 0 <= k < |Split(s)| ensures ',' !in Split(s)[k] {
          if k > 0 { assert Split(s)[k] == rest[k - 1]; }
        }
      }
    }
  }

  /** Joining the pieces with commas gives back the input. */
  lemma {:induction false} JoinSplit(s: string)
    ensures Join(Split(s)) == s
    decreases |s|
  {
    if s != [] {
      var t := s[1..];
      JoinSplit(t);
      JoinSplitStep(s[0], t);
      assert s == [s[0]] + t;
    }
  }

  /** One step of JoinSplit: the first character either is a separator or
      joins the first piece of the rest. */
  lemma JoinSplitStep(c: char, t: string)
    requires Join(Split(t)) == t
    ensures Join(Split([c] + t)) == [c] + t
  {
    var s := [c] + t;
    assert s[0] == c && s[1..] == t;
    var rest := Split(t);
    if c == ',' {
      assert Split(s) == [""] + rest;
      JoinCons("", rest);
    } else {
      var head := [c] + rest[0];
      assert Split(s) == [head] + rest[1..];
      JoinCons(head, rest[1..]);
      assert rest == [rest[0]] + rest[1..];
      JoinCons(rest[0], rest[1..]);
    }
  }

  /** Splitting the comma-join of comma-free pieces gives back the pieces,
      so Split is the only comma-free decomposition of its input. */
  lemma {:induction false} SplitJoin(parts: seq<string>)
    requires |parts| >= 1
    requires CommaFree(parts)
    ensures Split(Join(parts)) == parts
    decreases |parts|, |parts[0]|
  {
    var head := parts[0];
    if head == [] {
      if |parts| > 1 {
        var tail := parts[1..];
        assert Join(parts) == "," + Join(tail);
        assert CommaFree(tail) by {
          forall k | 0 <= k < |tail| ensures ',' !in tail[k] { assert tail[k] == parts[k + 1]; }
        }
        SplitJoin(tail);
        assert Join(parts)[1..] == Join(tail);
        assert parts == [""] + tail;
      }
    } else {
      assert ',' !in head by { assert head == parts[0]; }
      var shorter := [head[1..]] + parts[1..];
      assert CommaFree(shorter) by {
        forall k | 0 <= k < |shorter| ensures ',' !in shorter[k] {
          if k > 0 { assert shorter[k] == parts[k]; }
        }
      }
      JoinCons(head, parts[1..]);
      JoinCons(head[1..], parts[1..]);
      assert Join(parts) == [head[0]] + Join(shorter);
      SplitJoin(shorter);
      var s := Join(parts);
      assert s[0] == head[0] && s[1..] == Join(shorter);
      assert [head[0]] + head[1..] == head;
      assert parts == [head] + parts[1..];
    }
  }

  /** Join of a list whose head is `head`, written without the list case split. */
  lemma JoinCons(head: string, tail: seq<string>)
    ensures Join([head] + tail) == if tail == [] then head else head + "," + Join(tail)
  {
    if tail != [] {
      assert ([head] + tail)[1..] == tail;
    }
  }

  /** The decimal digit character for `d`. */
  function DigitChar(d: nat): (c: char)
    requires d < 10
    ensures '0' <= c <= '9'
  {
    ['0', '1', '2', '3', '4', '5', '6', '7', '8', '9'][d]
  }

  function DigitValue(c: char): nat
    requires '0' <= c <= '9'
  {
    (c as int - '0' as int) as nat
  }

  predicate IsDigits(s: string) {
    forall k :: 0 <= k < |s| ==> '0' <= s[k] <= '9'
  }

  /** The decimal rendering of `n` that a template literal `${n}` produces. */
  function NatToString(n: nat): (s: string)
    ensures |s| >= 1 && IsDigits(s)
    ensures s[0] == '0' ==> n == 0
    decreases n
  {
    if n < 10 then [DigitChar(n)] else NatToString(n / 10) + [DigitChar(n % 10)]
  }

  /** Reads a string of decimal digits back as a number. */
  function ParseDigits(s: string): nat
    requires IsDigits(s)
    decreases |s|
  {
    if s == [] then 0 else 10 * ParseDigits(s[..|s| - 1]) + DigitValue(s[|s| - 1])
  }

  lemma DigitRoundTrip(d: nat)
    requires d < 10
    ensures DigitValue(DigitChar(d)) == d
  {
  }

  /** Reading the decimal rendering back gives the number again, so the
      rendering loses nothing. */
  lemma {:induction false} ParseNatToString(n: nat)
    ensures ParseDigits(NatToString(n)) == n
    decreases n
  {
    var s := NatToString(n);
    if n < 10 {
      DigitRoundTrip(n);
      assert s[..0] == [];
    } else {
      ParseNatToString(n / 10);
      DigitRoundTrip(n % 10);
      assert s[..|s| - 1] == NatToString(n / 10);
    }
  }

  /** Distinct numbers have distinct renderings. */
  lemma NatToStringInjective(m: nat, n: nat)
    requires NatToString(m) == NatToString(n)
    ensures m == n
  {
    ParseNatToString(m);
    ParseNatToString(n);
  }

  predicate IsLowerAscii(c: char) {
    'a' <= c <= 'z'
  }

  function UpperChar(c: char): char {
    if IsLowerAscii(c) then (c as int - 32) as char else c
  }

  /** `s.toUpperCase()` for ASCII letters; every other character is left as it is. */
  function Upper(s: string): (r: string)
    ensures |r| == |s|
    ensures forall k :: 0 <= k < |r| ==> !IsLowerAscii(r[k])
    decreases |s|
  {
    if s == [] then "" else [UpperChar(s[0])] + Upper(s[1..])
  }

  /** Upper keeps the length, changes exactly the lower-case ASCII letters
      (each into its capital) and leaves no lower-case ASCII letter behind. */
  lemma {:induction false} UpperShape(s: string)
    ensures |Upper(s)| == |s|
    ensures forall k :: 0 <= k < |s| ==>
      (IsLowerAscii(s[k]) ==> Upper(s)[k] as int == s[k] as int - 32)
      && (!IsLowerAscii(s[k]) ==> Upper(s)[k] == s[k])
    ensures forall k :: 0 <= k < |s| ==> !IsLowerAscii(Upper(s)[k])
    decreases |s|
  {
    if s != [] {
      UpperShape(s[1..]);
      forall k | 0 <= k < |s|
        ensures (IsLowerAscii(s[k]) ==> Upper(s)[k] as int == s[k] as int - 32)
                && (!IsLowerAscii(s[k]) ==> Upper(s)[k] == s[k])
        ensures !IsLowerAscii(Upper(s)[k])
      {
        if k > 0 { assert Upper(s)[k] == Upper(s[1..])[k - 1]; }
      }
    }
  }

  lemma {:induction false} UpperIdempotent(s: string)
    ensures Upper(Upper(s)) == Upper(s)
    decreases |s|
  {
    if s != [] {
      UpperIdempotent(s[1..]);
      assert Upper(s)[1..] == Upper(s[1..]);
    }
  }
}
