/** Python string and list primitives the core relies on:
    `"".join`, `sep.join`, `str.split`, ASCII `str.lower`, `str(n)` for a
    natural number and the search for the last occurrence of a character. */
module Text {
  import opened Wrappers

  /** The concatenation of `parts` in order, built as the source's
      `text += part` loop builds it: the last part goes on last. */
  function Concat(parts: seq<string>): string
  {
    if parts == [] then "" else Concat(parts[..|parts| - 1]) + parts[|parts| - 1]
  }

  /** `sep.join(parts)`. */
  function Join(parts: seq<string>, sep: string): string
  {
    if parts == [] then ""
    else if |parts| == 1 then parts[0]
    else parts[0] + sep + Join(parts[1..], sep)
  }

  /** `s.split(c)` for a one-character separator: the pieces between the
      occurrences of `c`; an empty string splits into one empty piece. */
  function Split(s: string, c: char): (r: seq<string>)
    ensures |r| > 0
  {
    if s == [] then [""]
    else if s[0] == c then [""] + Split(s[1..], c)
    else
      var rest := Split(s[1..], c);
      [[s[0]] + rest[0]] + rest[1..]
  }

  /** Joining with the empty separator is the same as concatenating, so the
      accumulating loop and `"".join` agree. */
  lemma {:induction false} ConcatIsJoin(parts: seq<string>)
    ensures Concat(parts) == Join(parts, "")
  {
    if |parts| > 1 {
      var init := parts[..|parts| - 1];
      ConcatIsJoin(init);
      ConcatIsJoin(parts[1..]);
      assert parts[1..][..|parts[1..]| - 1] == init[1..];
      ConcatIsJoin(init[1..]);
      if |init| > 1 {
        JoinEmptySnoc(init[1..], parts[|parts| - 1]);
      }
      JoinEmptySnoc(init, parts[|parts| - 1]);
      assert init + [parts[|parts| - 1]] == parts;
    }
  }

  /** Appending one part to an empty-separator join appends its text. */
  lemma {:induction false} JoinEmptySnoc(parts: seq<string>, x: string)
    requires parts != []
    ensures Join(parts + [x], "") == Join(parts, "") + x
  {
    if |parts| > 1 {
      assert (parts + [x])[1..] == parts[1..] + [x];
      JoinEmptySnoc(parts[1..], x);
    } else {
      assert (parts + [x])[1..] == [x];
    }
  }

  /** Splitting a piece free of the separator gives that piece back. */
  lemma {:induction false} SplitPlain(p: string, c: char, rest: string)
    requires c !in p
    ensures Split(p + [c] + rest, c) == [p] + Split(rest, c)
  {
    if p == [] {
      assert p + [c] + rest == [c] + rest;
      assert ([c] + rest)[1..] == rest;
    } else {
      assert (p + [c] + rest)[1..] == p[1..] + [c] + rest;
      SplitPlain(p[1..], c, rest);
      assert [p[0]] + p[1..] == p;
    }
  }

  /** A string free of the separator splits into itself alone. */
  lemma {:induction false} SplitWhole(p: string, c: char)
    requires c !in p
    ensures Split(p, c) == [p]
  {
    if p != [] {
      SplitWhole(p[1..], c);
      assert [p[0]] + p[1..] == p;
    }
  }

  /** `sep.join` with a one-character separator is undone by `split`, as long
      as there is at least one part and no part contains the separator. */
  lemma {:induction false} SplitJoin(parts: seq<string>, c: char)
    requires parts != []
    requires forall i :: 0 <= i < |parts| ==> c !in parts[i]
    ensures Split(Join(parts, [c]), c) == parts
  {
    if |parts| == 1 {
      SplitWhole(parts[0], c);
    } else {
      SplitJoin(parts[1..], c);
      SplitPlain(parts[0], c, Join(parts[1..], [c]));
      assert [parts[0]] + parts[1..] == parts;
    }
  }

  /** Splitting at a separator splits the text on either side of it
      independently. */
  lemma {:induction false} SplitConcat(a: string, c: char, b: string)
    ensures Split(a + [c] + b, c) == Split(a, c) + Split(b, c)
  {
    if a == [] {
      SplitCons(c, b, c);
      assert a + [c] + b == [c] + b;
    } else {
      var t := a[1..] + [c] + b;
      assert a + [c] + b == [a[0]] + t;
      assert a == [a[0]] + a[1..];
      SplitConcat(a[1..], c, b);
      SplitCons(a[0], t, c);
      SplitCons(a[0], a[1..], c);
      var sa, sb := Split(a[1..], c), Split(b, c);
      PieceShift(a[0], c, sa, sb);
    }
  }

  lemma {:induction false} PieceShift(x: char, c: char, sa: seq<string>, sb: seq<string>)
    requires |sa| > 0
    ensures x != c ==> [[x] + (sa + sb)[0]] + (sa + sb)[1..] == [[x] + sa[0]] + sa[1..] + sb
  {
    assert (sa + sb)[1..] == sa[1..] + sb;
  }

  /** One step of the split: a separator starts a new piece, any other
      character joins the first piece. */
  lemma {:induction false} SplitCons(x: char, t: string, c: char)
    ensures Split([x] + t, c)
         == if x == c then [""] + Split(t, c) else [[x] + Split(t, c)[0]] + Split(t, c)[1..]
  {
    assert ([x] + t)[0] == x && ([x] + t)[1..] == t;
  }

  /** A string with a separator in it splits into at least two pieces, the
      last of which is what follows the final separator. */
  lemma {:induction false} SplitLast(p: string, c: char, q: string)
    requires c !in q
    ensures |Split(p + [c] + q, c)| >= 2
    ensures Split(p + [c] + q, c)[|Split(p + [c] + q, c)| - 1] == q
  {
    var s := p + [c] + q;
    if p == [] {
      assert s == [c] + q && s[1..] == q;
      SplitWhole(q, c);
    } else {
      assert s[0] == p[0] && s[1..] == p[1..] + [c] + q;
      SplitLast(p[1..], c, q);
    }
  }

  /** The last piece of `s.split(c)` is the text after the last `c`, or all
      of `s` when it has none. */
  lemma {:induction false} SplitLastPiece(s: string, c: char)
    ensures LastIndexOf(s, c).Some? ==>
              Split(s, c)[|Split(s, c)| - 1] == s[LastIndexOf(s, c).value + 1..]
    ensures LastIndexOf(s, c).None? ==> Split(s, c)[|Split(s, c)| - 1] == s
  {
    match LastIndexOf(s, c)
    case None =>
      SplitWhole(s, c);
    case Some(k) =>
      var q := s[k + 1..];
      assert c !in q by {
        forall j | 0 <= j < |q| ensures q[j] != c {
          assert q[j] == s[k + 1 + j];
        }
      }
      assert s == s[..k] + [c] + s[k + 1..];
      SplitLast(s[..k], c, s[k + 1..]);
  }

  /** The characters Python's `str.lower` maps for ASCII letters. */
  function LowerChar(ch: char): char
  {
    if 'A' <= ch <= 'Z' then (ch as int - 'A' as int + 'a' as int) as char else ch
  }

  /** `s.lower()` restricted to ASCII letters; every other character is kept. */
  function Lower(s: string): (r: string)
    ensures |r| == |s|
    ensures forall i :: 0 <= i < |s| ==> r[i] == LowerChar(s[i])
  {
    seq(|s|, i requires 0 <= i < |s| => LowerChar(s[i]))
  }

  /** The index of the last occurrence of `c` in `s`, if any. */
  function LastIndexOf(s: string, c: char): (r: Option<nat>)
    ensures r.Some? ==> r.value < |s| && s[r.value] == c
    ensures r.Some? ==> forall j :: r.value < j < |s| ==> s[j] != c
    ensures r.None? ==> c !in s
  {
    if s == [] then None
    else if s[|s| - 1] == c then Some(|s| - 1)
    else LastIndexOf(s[..|s| - 1], c)
  }

  /** The index of the first occurrence of `c` in `s`, if any. */
  function FindChar(s: string, c: char): (r: Option<nat>)
    ensures r.Some? ==> r.value < |s| && s[r.value] == c
    ensures r.Some? ==> forall j :: 0 <= j < r.value ==> s[j] != c
    ensures r.None? ==> c !in s
  {
    if s == [] then None
    else if s[0] == c then Some(0)
    else match FindChar(s[1..], c)
      case None => None
      case Some(k) => Some(k + 1)
  }

  /** The first `c` after a text free of `c` is the one right after it. */
  lemma {:induction false} FindCharAfter(p: string, c: char, rest: string)
    requires c !in p
    ensures FindChar(p + [c] + rest, c) == Some(|p|)
  {
    var s := p + [c] + rest;
    if p != [] {
      assert s[1..] == p[1..] + [c] + rest;
      FindCharAfter(p[1..], c, rest);
    }
  }

  /** The decimal digit for `d`. */
  function DigitChar(d: nat): char
    requires d < 10
  {
    ('0' as int + d) as char
  }

  /** `str(n)` for a natural number: its decimal digits, no leading zeros. */
  function NatToString(n: nat): (r: string)
    ensures |r| > 0
    ensures forall i :: 0 <= i < |r| ==> '0' <= r[i] <= '9'
    ensures |r| > 1 ==> r[0] != '0'
  {
    if n < 10 then [DigitChar(n)] else NatToString(n / 10) + [DigitChar(n % 10)]
  }

  /** The value of a string of decimal digits, or `None` if it is empty or
      holds a non-digit. */
  function ParseNat(s: string): Option<nat>
  {
    if s == [] || !('0' <= s[|s| - 1] <= '9') then None
    else if |s| == 1 then Some(s[0] as int - '0' as int)
    else match ParseNat(s[..|s| - 1])
      case None => None
      case Some(high) => Some(high * 10 + (s[|s| - 1] as int - '0' as int))
  }

  /** Reading back the decimal text of `n` yields `n`. */
  lemma {:induction false} ParseNatToString(n: nat)
    ensures ParseNat(NatToString(n)) == Some(n)
  {
    if n >= 10 {
      ParseNatToString(n / 10);
      var s := NatToString(n);
      assert s[..|s| - 1] == NatToString(n / 10);
    }
  }
}
