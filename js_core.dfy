// Shared vocabulary for the model: JavaScript values and the handful of
// built-in string, array and number operations the dashboard relies on.

module JsCore {

  datatype Option<T> = None | Some(value: T)

  /** A JavaScript value as it arrives from JSON.parse or from an untyped
      property. `NaN` is kept apart from the finite numbers. */
  datatype JsValue =
    | Undefined
    | Null
    | Bool(b: bool)
    | Num(n: real)
    | NaN
    | Str(s: string)
    | Arr(items: seq<JsValue>)
    | Obj(fields: map<string, JsValue>)

  /** JavaScript truthiness (`if (v)`, `v || d`, `!v`). */
  predicate Truthy(v: JsValue)
  {
    match v
    case Undefined => false
    case Null => false
    case Bool(b) => b
    case Num(n) => n != 0.0
    case NaN => false
    case Str(s) => s != ""
    case Arr(_) => true
    case Obj(_) => true
  }

  /** Property access `v.key`: a TypeError (None) on null and undefined, the
      field of an object, and undefined for any other value. Built-in
      properties of primitives and arrays are not modelled. */
  function Get(v: JsValue, key: string): (r: Option<JsValue>)
    ensures r.None? <==> v.Undefined? || v.Null?
    ensures v.Obj? && key in v.fields ==> r == Some(v.fields[key])
  {
    match v
    case Undefined => None
    case Null => None
    case Obj(fields) => Some(if key in fields then fields[key] else Undefined)
    case _ => Some(Undefined)
  }

  function Min(a: int, b: int): int { if a <= b then a else b }

  /** `s.slice(0, end)`: a negative end counts back from the length, an end
      past the length stops at the length. */
  function SliceTo<T>(s: seq<T>, end: int): (r: seq<T>)
    ensures end >= 0 ==> |r| == Min(end, |s|)
    ensures end < 0 ==> |r| == (if |s| + end >= 0 then |s| + end else 0)
    ensures r <= s
  {
    var k := if end >= 0 then Min(end, |s|) else if |s| + end >= 0 then |s| + end else 0;
    s[..k]
  }

  /** `s.filter(y => y !== x)`: every occurrence of x removed. */
  function Without<T(==,!new)>(s: seq<T>, x: T): (r: seq<T>)
    ensures |r| <= |s|
    ensures forall y :: y in r <==> y in s && y != x
    decreases |s|
  {
    if s == [] then []
    else if s[0] == x then Without(s[1..], x)
    else [s[0]] + Without(s[1..], x)
  }

  lemma {:induction false} WithoutIdempotent<T(!new)>(s: seq<T>, x: T)
    ensures Without(Without(s, x), x) == Without(s, x)
    decreases |s|
  {
    if s != [] {
      WithoutIdempotent(s[1..], x);
      if s[0] != x {
        assert ([s[0]] + Without(s[1..], x))[1..] == Without(s[1..], x);
      }
    }
  }

  /** Removing x keeps every other value, each as often as before, in the
      same relative order: the result is exactly the elements unequal to x. */
  lemma {:induction false} WithoutKeepsOthers<T(!new)>(s: seq<T>, x: T, y: T)
    requires y != x
    ensures multiset(Without(s, x))[y] == multiset(s)[y]
    decreases |s|
  {
    if s != [] {
      WithoutKeepsOthers(s[1..], x, y);
      assert s == [s[0]] + s[1..];
    }
  }

  lemma {:induction false} WithoutAbsent<T(!new)>(s: seq<T>, x: T)
    requires x !in s
    ensures Without(s, x) == s
    decreases |s|
  {
    if s != [] {
      WithoutAbsent(s[1..], x);
      assert s == [s[0]] + s[1..];
    }
  }

  lemma {:induction false} WithoutAppend<T(!new)>(s: seq<T>, t: seq<T>, x: T)
    ensures Without(s + t, x) == Without(s, x) + Without(t, x)
    decreases |s|
  {
    if s == [] {
      assert s + t == t;
    } else {
      assert (s + t)[1..] == s[1..] + t;
      WithoutAppend(s[1..], t, x);
    }
  }

  /** a is b with some elements dropped and the rest kept in order. */
  predicate Subsequence<T(==)>(a: seq<T>, b: seq<T>)
    decreases |b|
  {
    if a == [] then true
    else if b == [] then false
    else if a[0] == b[0] then Subsequence(a[1..], b[1..])
    else Subsequence(a, b[1..])
  }

  lemma {:induction false} WithoutSubsequence<T(!new)>(s: seq<T>, x: T)
    ensures Subsequence(Without(s, x), s)
    decreases |s|
  {
    if s != [] {
      WithoutSubsequence(s[1..], x);
      if s[0] != x {
        assert ([s[0]] + Without(s[1..], x))[1..] == Without(s[1..], x);
      } else {
        SubsequenceSkip(Without(s[1..], x), s);
      }
    }
  }

  /** Dropping the head of b keeps a subsequence of its tail a subsequence of b. */
  lemma {:induction false} SubsequenceSkip<T>(a: seq<T>, b: seq<T>)
    requires b != [] && Subsequence(a, b[1..])
    ensures Subsequence(a, b)
    decreases |b|, 0
  {
    if a != [] && a[0] == b[0] {
      SubsequenceTail(a, b[1..]);
    }
  }

  lemma {:induction false} SubsequenceTail<T>(a: seq<T>, b: seq<T>)
    requires a != [] && Subsequence(a, b)
    ensures Subsequence(a[1..], b)
    decreases |b|, 1
  {
    if b != [] {
      if a[0] == b[0] {
        SubsequenceSkip(a[1..], b);
      } else {
        SubsequenceTail(a, b[1..]);
        SubsequenceSkip(a[1..], b);
      }
    }
  }

  /** A prefix is a subsequence; so is the whole sequence. */
  lemma {:induction false} PrefixSubsequence<T>(a: seq<T>, b: seq<T>)
    requires a <= b
    ensures Subsequence(a, b)
    decreases |b|
  {
    if a != [] {
      assert a[1..] <= b[1..];
      PrefixSubsequence(a[1..], b[1..]);
    }
  }

  lemma SubsequenceReflexive<T>(s: seq<T>)
    ensures Subsequence(s, s)
  {
    PrefixSubsequence(s, s);
  }

  lemma {:induction false} SubsequenceTransitive<T>(a: seq<T>, b: seq<T>, c: seq<T>)
    requires Subsequence(a, b) && Subsequence(b, c)
    ensures Subsequence(a, c)
    decreases |c|
  {
    if a != [] {
      if b[0] == c[0] {
        if a[0] == b[0] {
          SubsequenceTransitive(a[1..], b[1..], c[1..]);
        } else {
          SubsequenceTransitive(a, b[1..], c[1..]);
          SubsequenceSkip(a, c);
        }
      } else {
        SubsequenceTransitive(a, b, c[1..]);
        SubsequenceSkip(a, c);
      }
    }
  }

  /** The elements of a subsequence are elements of the sequence. */
  lemma {:induction false} SubsequenceMembers<T>(a: seq<T>, b: seq<T>)
    requires Subsequence(a, b)
    ensures forall x :: x in a ==> x in b
    decreases |b|
  {
    if a != [] {
      if a[0] == b[0] {
        SubsequenceMembers(a[1..], b[1..]);
        assert forall x :: x in a ==> x == a[0] || x in a[1..];
      } else {
        SubsequenceMembers(a, b[1..]);
      }
    }
  }

  predicate NoDuplicates<T(==)>(s: seq<T>)
  {
    forall i, j :: 0 <= i < j < |s| ==> s[i] != s[j]
  }

  lemma {:induction false} WithoutNoDuplicates<T(!new)>(s: seq<T>, x: T)
    requires NoDuplicates(s)
    ensures NoDuplicates(Without(s, x))
    decreases |s|
  {
    if s != [] {
      assert NoDuplicates(s[1..]) by {
        forall i, j | 0 <= i < j < |s[1..]| ensures s[1..][i] != s[1..][j] {
          assert s[1..][i] == s[i + 1] && s[1..][j] == s[j + 1];
        }
      }
      WithoutNoDuplicates(s[1..], x);
      if s[0] != x {
        var r := [s[0]] + Without(s[1..], x);
        assert s[0] !in s[1..] by {
          forall k | 0 <= k < |s[1..]| ensures s[1..][k] != s[0] {
            assert s[1..][k] == s[k + 1];
          }
        }
        assert s[0] !in Without(s[1..], x);
        forall i, j | 0 <= i < j < |r| ensures r[i] != r[j] {
          if i == 0 {
            assert r[j] == Without(s[1..], x)[j - 1];
          } else {
            assert r[i] == Without(s[1..], x)[i - 1] && r[j] == Without(s[1..], x)[j - 1];
          }
        }
      }
    }
  }

  /** Number of elements satisfying p (`s.filter(p).length`). */
  function CountWhere<T>(s: seq<T>, p: T -> bool): (r: nat)
    ensures r <= |s|
    decreases |s|
  {
    if s == [] then 0 else (if p(s[0]) then 1 else 0) + CountWhere(s[1..], p)
  }

  lemma {:induction false} CountWhereNone<T>(s: seq<T>, p: T -> bool)
    ensures CountWhere(s, p) == 0 <==> forall i :: 0 <= i < |s| ==> !p(s[i])
    decreases |s|
  {
    if s != [] {
      CountWhereNone(s[1..], p);
      assert forall i :: 1 <= i < |s| ==> s[i] == s[1..][i - 1];
    }
  }

  // ---------------------------------------------------------------- strings

  function DigitChar(d: nat): char
    requires d < 10
  {
    "0123456789"[d]
  }

  /** Decimal rendering of a natural number, as `${n}` or `String(n)` does. */
  function NatToString(n: nat): (r: string)
    ensures |r| >= 1
    ensures n >= 10 <==> |r| >= 2
    decreases n
  {
    if n < 10 then [DigitChar(n)] else NatToString(n / 10) + [DigitChar(n % 10)]
  }

  lemma {:induction false} NatToStringInjective(a: nat, b: nat)
    ensures NatToString(a) == NatToString(b) ==> a == b
    decreases a
  {
    if NatToString(a) == NatToString(b) {
      if a >= 10 && b >= 10 {
        var sa, sb := NatToString(a), NatToString(b);
        assert sa[|sa| - 1] == DigitChar(a % 10) && sb[|sb| - 1] == DigitChar(b % 10);
        assert a % 10 == b % 10;
        assert sa[..|sa| - 1] == NatToString(a / 10);
        assert sb[..|sb| - 1] == NatToString(b / 10);
        NatToStringInjective(a / 10, b / 10);
      } else if a < 10 && b < 10 {
        assert NatToString(a)[0] == DigitChar(a);
        assert NatToString(b)[0] == DigitChar(b);
      }
    }
  }

  lemma DigitCharIsDigit(d: nat)
    requires d < 10
    ensures '0' <= DigitChar(d) <= '9'
  {
    var digits := "0123456789";
    assert forall k :: 0 <= k < 10 ==> digits[k] == ('0' as int + k) as char;
  }

  /** A rendered natural number consists of decimal digits only. */
  lemma {:induction false} NatToStringDigits(n: nat)
    ensures forall i :: 0 <= i < |NatToString(n)| ==> '0' <= NatToString(n)[i] <= '9'
    decreases n
  {
    DigitCharIsDigit(n % 10);
    if n >= 10 {
      NatToStringDigits(n / 10);
    }
  }

  /** Decimal rendering of an integer, with a leading '-' when negative. */
  function IntToString(i: int): string
  {
    if i < 0 then "-" + NatToString(-i) else NatToString(i)
  }

  /** `parts.join(sep)`. */
  function Join(parts: seq<string>, sep: string): string
    decreases |parts|
  {
    if parts == [] then ""
    else if |parts| == 1 then parts[0]
    else parts[0] + sep + Join(parts[1..], sep)
  }

  /** Concatenation regrouped to the right. */
  lemma Regroup<T>(x: seq<T>, y: seq<T>, z: seq<T>)
    ensures x + y + z == x + (y + z)
  {
  }

  /** Joining one more part adds the separator and the part. */
  lemma {:induction false} JoinSnoc(parts: seq<string>, last: string, sep: string)
    requires parts != []
    ensures Join(parts + [last], sep) == Join(parts, sep) + sep + last
    decreases |parts|
  {
    if |parts| == 1 {
      assert (parts + [last])[1..] == [last];
    } else {
      assert (parts + [last])[1..] == parts[1..] + [last];
      JoinSnoc(parts[1..], last, sep);
    }
  }

  /** The remainder of a value in [0, 3n): itself below n, less n or 2n above. */
  lemma ModOfSmall(a: int, n: int)
    requires n > 0 && 0 <= a < 3 * n
    ensures a % n == (if a < n then a else if a < 2 * n then a - n else a - 2 * n)
  {
    var d := a / n;
    assert a == d * n + a % n && 0 <= a % n < n;
    MulSmall(d, n);
  }

  /** The products a small quotient can take, stated so that the caller's
      reasoning about them is linear. */
  lemma MulSmall(d: int, n: int)
    requires n > 0
    ensures d <= -1 ==> d * n <= -n
    ensures d == 0 ==> d * n == 0
    ensures d == 1 ==> d * n == n
    ensures d == 2 ==> d * n == 2 * n
    ensures d >= 3 ==> d * n >= 3 * n
  {
    if d <= -1 {
      assert (-1 - d) * n >= 0;
    } else if d >= 3 {
      assert (d - 3) * n >= 0;
    }
  }


  predicate IsUpperAscii(c: char) { 'A' <= c <= 'Z' }
  predicate IsLowerAscii(c: char) { 'a' <= c <= 'z' }

  function ToLowerChar(c: char): char
  {
    if IsUpperAscii(c) then (c as int + 32) as char else c
  }

  function ToUpperChar(c: char): char
  {
    if IsLowerAscii(c) then (c as int - 32) as char else c
  }

  /** `s.toLowerCase()` on the ASCII letters. */
  function ToLower(s: string): (r: string)
    ensures |r| == |s|
    ensures forall i :: 0 <= i < |s| ==> r[i] == ToLowerChar(s[i])
  {
    seq(|s|, i requires 0 <= i < |s| => ToLowerChar(s[i]))
  }

  /** `s.toUpperCase()` on the ASCII letters. */
  function ToUpper(s: string): (r: string)
    ensures |r| == |s|
    ensures forall i :: 0 <= i < |s| ==> r[i] == ToUpperChar(s[i])
  {
    seq(|s|, i requires 0 <= i < |s| => ToUpperChar(s[i]))
  }

  predicate StartsWith(s: string, prefix: string)
  {
    |prefix| <= |s| && s[..|prefix|] == prefix
  }

  /** Whether `small` occurs in `s` (`s.includes(small)`). */
  predicate Contains(s: string, small: string)
  {
    exists i | 0 <= i <= |s| - |small| :: OccursAt(s, small, i)
  }

  predicate OccursAt(s: string, small: string, i: int)
  {
    0 <= i <= |s| - |small| && s[i..i + |small|] == small
  }

  /** The characters JavaScript's `\s` class and `String.prototype.trim`
      treat as white space or line terminators. */
  predicate IsJsSpace(c: char)
  {
    c == ' ' || c == '\t' || c == '\n' || c == '\r' || c == '\U{000B}' || c == '\U{000C}'
    || c == '\U{00A0}' || c == '\U{1680}' || ('\U{2000}' <= c <= '\U{200A}')
    || c == '\U{2028}' || c == '\U{2029}' || c == '\U{202F}' || c == '\U{205F}'
    || c == '\U{3000}' || c == '\U{FEFF}'
  }

  // ---------------------------------------------------------------- parseInt

  /** The value of c as a digit in the given radix (10 or 16), if it is one. */
  function DigitValue(c: char, radix: nat): Option<nat>
  {
    if '0' <= c <= '9' && (c as int) - ('0' as int) < radix then Some((c as int) - ('0' as int))
    else if radix == 16 && 'a' <= c <= 'f' then Some((c as int) - ('a' as int) + 10)
    else if radix == 16 && 'A' <= c <= 'F' then Some((c as int) - ('A' as int) + 10)
    else None
  }

  /** The longest prefix of s made of digits of the radix. */
  function LeadingDigits(s: string, radix: nat): (r: string)
    ensures r <= s
    ensures forall i :: 0 <= i < |r| ==> DigitValue(r[i], radix).Some?
    ensures |r| < |s| ==> DigitValue(s[|r|], radix).None?
    decreases |s|
  {
    if s != [] && DigitValue(s[0], radix).Some? then [s[0]] + LeadingDigits(s[1..], radix) else []
  }

  /** The number a string of digits denotes, most significant first. */
  function DigitsToNat(d: string, radix: nat): nat
    requires forall i :: 0 <= i < |d| ==> DigitValue(d[i], radix).Some?
    decreases |d|
  {
    if d == [] then 0
    else DigitsToNat(d[..|d| - 1], radix) * radix + DigitValue(d[|d| - 1], radix).value
  }

  function TrimStart(s: string): (r: string)
    ensures |r| <= |s| && r == s[|s| - |r|..]
    ensures r != [] ==> !IsJsSpace(r[0])
    decreases |s|
  {
    if s != [] && IsJsSpace(s[0]) then TrimStart(s[1..]) else s
  }

  function TrimEnd(s: string): (r: string)
    ensures r <= s
    ensures r != [] ==> !IsJsSpace(r[|r| - 1])
    decreases |s|
  {
    if s != [] && IsJsSpace(s[|s| - 1]) then TrimEnd(s[..|s| - 1]) else s
  }

  /** A string that starts with a non-space character keeps it through `trim()`. */
  lemma {:induction false} TrimKeepsFirst(s: string)
    requires s != [] && !IsJsSpace(s[0])
    ensures Trim(s) != [] && Trim(s)[0] == s[0]
  {
    assert TrimStart(s) == s;
    TrimEndKeepsFirst(s);
  }

  lemma {:induction false} TrimEndKeepsFirst(s: string)
    requires s != [] && !IsJsSpace(s[0])
    ensures TrimEnd(s) != [] && TrimEnd(s)[0] == s[0]
    decreases |s|
  {
    if IsJsSpace(s[|s| - 1]) {
      assert |s| > 1;
      TrimEndKeepsFirst(s[..|s| - 1]);
    }
  }

  /** `s.trim()`. */
  function Trim(s: string): (r: string)
    ensures r != [] ==> !IsJsSpace(r[0]) && !IsJsSpace(r[|r| - 1])
  {
    TrimEnd(TrimStart(s))
  }

  /** `parseInt(s)` without a radix: leading white space and one sign are
      skipped, a `0x`/`0X` prefix selects hexadecimal, and the longest run of
      digits is read. None stands for NaN (no digits at all). */
  function ParseInt(s: string): Option<int>
  {
    var t := TrimStart(s);
    var negative := t != [] && t[0] == '-';
    var u := if t != [] && (t[0] == '-' || t[0] == '+') then t[1..] else t;
    var hex := |u| >= 2 && u[0] == '0' && (u[1] == 'x' || u[1] == 'X');
    var radix := if hex then 16 else 10;
    var ds := LeadingDigits(if hex then u[2..] else u, radix);
    var magnitude: int := if ds == [] then 0 else DigitsToNat(ds, radix);
    if ds == [] then None else Some(if negative then -magnitude else magnitude)
  }

  lemma {:induction false} DigitsOfNat(n: nat)
    ensures forall i :: 0 <= i < |NatToString(n)| ==> DigitValue(NatToString(n)[i], 10).Some?
    ensures DigitsToNat(NatToString(n), 10) == n
    decreases n
  {
    var s := NatToString(n);
    if n < 10 {
      assert s == [DigitChar(n)];
      assert s[..0] == [];
    } else {
      var q, d := n / 10, n % 10;
      DigitsOfNat(q);
      var p := NatToString(q);
      assert s == p + [DigitChar(d)];
      assert s[..|s| - 1] == p;
      assert s[|s| - 1] == DigitChar(d);
      forall i | 0 <= i < |s| ensures DigitValue(s[i], 10).Some? {
        if i < |s| - 1 {
          assert s[i] == p[i];
        }
      }
      assert DigitValue(DigitChar(d), 10) == Some(d);
      assert DigitsToNat(s, 10) == DigitsToNat(p, 10) * 10 + d;
      assert n == q * 10 + d;
    }
  }

  lemma {:induction false} LeadingDigitsAll(s: string, radix: nat)
    requires forall i :: 0 <= i < |s| ==> DigitValue(s[i], radix).Some?
    ensures LeadingDigits(s, radix) == s
    decreases |s|
  {
    if s != [] {
      LeadingDigitsAll(s[1..], radix);
    }
  }

  /** Reading back the decimal rendering of a natural number gives the number:
      `parseInt(String(n)) === n`. */
  lemma ParseIntOfNat(n: nat)
    ensures ParseInt(NatToString(n)) == Some(n)
  {
    var s := NatToString(n);
    DigitsOfNat(n);
    LeadingDigitsAll(s, 10);
    assert !IsJsSpace(s[0]) by {
      assert DigitValue(s[0], 10).Some?;
    }
    assert TrimStart(s) == s;
    if n >= 10 {
      assert ('0' <= s[0] <= '9');
    } else {
      assert |s| == 1;
    }
    assert s[0] != '-' && s[0] != '+';
    assert !(|s| >= 2 && s[0] == '0' && (s[1] == 'x' || s[1] == 'X')) by {
      if |s| >= 2 {
        assert DigitValue(s[1], 10).Some?;
      }
    }
  }
}
