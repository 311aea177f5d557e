/** The usual optional-value wrapper. */
module Optional {
  datatype Option<+T> = None | Some(value: T)
}

/**
 * String operations the stores and widgets rely on: `String.prototype.split`
 * on a single separator, `endsWith`, and the canonical decimal form of an
 * array index (the property keys JavaScript uses for array elements).
 */
module Text {
  import opened Optional

  /** `s.split(sep)` for a one-character separator: every separator cuts,
      empty pieces are kept, and the empty string splits to `[""]`. */
  function Split(s: string, sep: char): (r: seq<string>)
    ensures |r| >= 1
    ensures forall i | 0 <= i < |r| :: sep !in r[i]
  {
    if s == [] then [""]
    else if s[0] == sep then [""] + Split(s[1..], sep)
    else
      var rest := Split(s[1..], sep);
      [[s[0]] + rest[0]] + rest[1..]
  }

  /** `parts.join(sep)`, the inverse of Split. */
  function Join(parts: seq<string>, sep: char): string
    requires |parts| >= 1
  {
    if |parts| == 1 then parts[0] else parts[0] + [sep] + Join(parts[1..], sep)
  }

  /** Joining the pieces of a split gives the string back. */
  lemma {:induction false} JoinSplit(s: string, sep: char)
    ensures Join(Split(s, sep), sep) == s
  {
    if s == [] {
    } else if s[0] == sep {
      JoinSplit(s[1..], sep);
      assert s == [sep] + s[1..];
    } else {
      JoinSplit(s[1..], sep);
      var rest := Split(s[1..], sep);
      if |rest| == 1 {
        assert s == [s[0]] + s[1..];
      } else {
        assert ([[s[0]] + rest[0]] + rest[1..])[1..] == rest[1..];
        assert s == [s[0]] + s[1..];
      }
    }
  }

  /** Splitting a join of separator-free pieces gives the pieces back:
      a path written segment by segment is read back segment by segment. */
  lemma {:induction false} SplitJoin(parts: seq<string>, sep: char)
    requires |parts| >= 1
    requires forall i | 0 <= i < |parts| :: sep !in parts[i]
    ensures Split(Join(parts, sep), sep) == parts
  {
    if |parts| == 1 {
      SplitNoSeparator(parts[0], sep);
    } else {
      SplitJoin(parts[1..], sep);
      SplitPrefix(parts[0], Join(parts[1..], sep), sep);
      assert parts == [parts[0]] + parts[1..];
    }
  }

  /** A string without the separator is a single piece. */
  lemma {:induction false} SplitNoSeparator(s: string, sep: char)
    requires sep !in s
    ensures Split(s, sep) == [s]
  {
    if s != [] {
      SplitNoSeparator(s[1..], sep);
      assert s == [s[0]] + s[1..];
    }
  }

  /** A separator-free head followed by a separator becomes the first piece. */
  lemma {:induction false} SplitPrefix(head: string, tail: string, sep: char)
    requires sep !in head
    ensures Split(head + [sep] + tail, sep) == [head] + Split(tail, sep)
  {
    if head == [] {
      assert head + [sep] + tail == [sep] + tail;
    } else {
      var s := head + [sep] + tail;
      assert s[0] == head[0];
      assert s[1..] == head[1..] + [sep] + tail;
      SplitPrefix(head[1..], tail, sep);
      assert [head[0]] + head[1..] == head;
    }
  }

  /** `s.endsWith(suffix)`. */
  predicate EndsWith(s: string, suffix: string) {
    |suffix| <= |s| && s[|s| - |suffix|..] == suffix
  }

  /** EndsWith holds exactly when some prefix completes the string. */
  lemma EndsWithMeansSuffix(s: string, suffix: string)
    ensures EndsWith(s, suffix) <==> exists p: string :: s == p + suffix
  {
    if EndsWith(s, suffix) {
      assert s == s[..|s| - |suffix|] + suffix;
    }
    if p: string :| s == p + suffix {
      assert s[|s| - |suffix|..] == suffix;
    }
  }

  /** The largest array index JavaScript allows is 2^32 - 2. */
  const MaxArrayIndex: nat := 0xFFFF_FFFE

  function Digit(d: nat): char
    requires d < 10
  {
    "0123456789"[d]
  }

  predicate IsDigit(c: char) {
    '0' <= c <= '9'
  }

  function DigitValue(c: char): nat
    requires IsDigit(c)
  {
    (c - '0') as nat
  }

  /** The decimal form of `n`, as `String(n)` writes a non-negative integer. */
  function IndexKey(n: nat): (r: string)
    ensures |r| >= 1 && forall i | 0 <= i < |r| :: IsDigit(r[i])
    ensures r[0] == '0' ==> n == 0 && r == "0"
  {
    if n < 10 then [Digit(n)] else IndexKey(n / 10) + [Digit(n % 10)]
  }

  /** The value of a string of decimal digits. */
  function DecimalValue(s: string): nat
    requires forall i | 0 <= i < |s| :: IsDigit(s[i])
  {
    if s == [] then 0 else 10 * DecimalValue(s[..|s| - 1]) + DigitValue(s[|s| - 1])
  }

  /** The array index a property key denotes, if any: a canonical decimal
      numeral (no sign, no leading zero except "0" itself) below 2^32 - 1. */
  function IndexOf(key: string): Option<nat> {
    if |key| >= 1 && (forall i | 0 <= i < |key| :: IsDigit(key[i]))
       && (key[0] == '0' ==> key == "0") && DecimalValue(key) <= MaxArrayIndex
    then Some(DecimalValue(key))
    else None
  }

  lemma {:induction false} DecimalOfIndexKey(n: nat)
    ensures DecimalValue(IndexKey(n)) == n
  {
    if n >= 10 {
      DecimalOfIndexKey(n / 10);
      var k := IndexKey(n);
      assert k[..|k| - 1] == IndexKey(n / 10);
    }
  }

  /** Every index in range is denoted by its decimal key. */
  lemma IndexOfIndexKey(n: nat)
    requires n <= MaxArrayIndex
    ensures IndexOf(IndexKey(n)) == Some(n)
  {
    DecimalOfIndexKey(n);
  }

  lemma {:induction false} IndexKeyOfDecimal(s: string)
    requires |s| >= 1 && forall i | 0 <= i < |s| :: IsDigit(s[i])
    requires s[0] == '0' ==> s == "0"
    ensures IndexKey(DecimalValue(s)) == s
  {
    var p := s[..|s| - 1];
    if |s| == 1 {
      assert s == [s[0]];
    } else {
      assert p[0] == s[0];
      IndexKeyOfDecimal(p);
      DecimalPositive(p);
      assert s == p + [s[|s| - 1]];
    }
  }

  lemma {:induction false} DecimalPositive(s: string)
    requires |s| >= 1 && forall i | 0 <= i < |s| :: IsDigit(s[i])
    requires s[0] != '0'
    ensures DecimalValue(s) >= 1
  {
    if |s| > 1 {
      var p := s[..|s| - 1];
      assert p[0] == s[0];
      DecimalPositive(p);
    }
  }

  /** A key denotes index n only when it is exactly n's decimal form, so two
      different keys never address the same element. */
  lemma IndexKeyOfIndex(key: string)
    requires IndexOf(key).Some?
    ensures IndexKey(IndexOf(key).value) == key
  {
    IndexKeyOfDecimal(key);
  }

  lemma IndexKeyInjective(m: nat, n: nat)
    requires IndexKey(m) == IndexKey(n)
    ensures m == n
  {
    DecimalOfIndexKey(m);
    DecimalOfIndexKey(n);
  }
}
