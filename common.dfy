/** Failure-compatible wrappers and the sub-list order shared by every module of the model. */
module Common {

  datatype Option<+T> = None | Some(value: T)

  datatype Result<+T, +E> = Ok(value: T) | Err(error: E)

  // ----------------------------------------------------------- sub-lists

  /** `a` is `b` with some elements left out: an order-preserving sub-list. */
  predicate SubList<T(==)>(a: seq<T>, b: seq<T>)
    decreases |b|
  {
    if a == [] then true
    else if b == [] then false
    else if a[0] == b[0] then SubList(a[1..], b[1..])
    else SubList(a, b[1..])
  }

  /** Putting the same element in front of both lists keeps a sub-list. */
  lemma SubListCons<T>(x: T, a: seq<T>, b: seq<T>)
    requires SubList(a, b)
    ensures SubList([x] + a, [x] + b)
  {
    assert ([x] + a)[1..] == a && ([x] + b)[1..] == b;
  }

  /** A sub-list stays one when the longer list gains a head. */
  lemma {:induction false} SubListSkip<T>(a: seq<T>, x: T, b: seq<T>)
    requires SubList(a, b)
    ensures SubList(a, [x] + b)
    decreases |b|, 1
  {
    if a != [] && a[0] == x {
      assert ([x] + b)[1..] == b;
      if b != [] && a[0] == b[0] {
        SubListSkip(a[1..], b[0], b[1..]);
        assert [b[0]] + b[1..] == b;
      } else if b != [] {
        SubListTail(a, b);
      }
    } else {
      assert ([x] + b)[1..] == b;
    }
  }

  /** Dropping the head of a sub-list keeps it a sub-list. */
  lemma {:induction false} SubListTail<T>(a: seq<T>, b: seq<T>)
    requires a != [] && SubList(a, b)
    ensures SubList(a[1..], b)
    decreases |b|, 0
  {
    if a[0] == b[0] {
      SubListSkip(a[1..], b[0], b[1..]);
      assert [b[0]] + b[1..] == b;
    } else {
      SubListTail(a, b[1..]);
      SubListSkip(a[1..], b[0], b[1..]);
      assert [b[0]] + b[1..] == b;
    }
  }
}

/**
 * String operations the source takes from its language's library
 * (Python `in`, `find`, `rfind`, `split`, `join`; JavaScript `trim`,
 * `split`, `includes`, `toLowerCase`, `padStart`), written out so that
 * the modules built on them can be proved.
 */
module Text {
  import opened Common

  // ---------------------------------------------------------------- search

  /** `p` occurs in `s` starting at index `i`. */
  predicate OccursAt(s: string, p: string, i: nat)
  {
    i + |p| <= |s| && s[i..i + |p|] == p
  }

  /** The first occurrence of `p` in `s` at or after `from`. */
  function FindFrom(s: string, p: string, from: nat): (r: Option<nat>)
    decreases |s| - from
    ensures r.Some? ==> from <= r.value && OccursAt(s, p, r.value)
    ensures r.Some? ==> forall j :: from <= j < r.value ==> !OccursAt(s, p, j)
    ensures r.None? ==> forall j :: from <= j ==> !OccursAt(s, p, j)
  {
    if from + |p| > |s| then None
    else if s[from..from + |p|] == p then Some(from)
    else FindFrom(s, p, from + 1)
  }

  /** Python `s.find(p)` / JavaScript `s.indexOf(p)`, with None for -1. */
  function Find(s: string, p: string): Option<nat>
  {
    FindFrom(s, p, 0)
  }

  /** Python `p in s` / JavaScript `s.includes(p)`. */
  predicate Contains(s: string, p: string)
  {
    Find(s, p).Some?
  }

  lemma ContainsIff(s: string, p: string)
    ensures Contains(s, p) <==> exists i :: OccursAt(s, p, i)
  {
    if Contains(s, p) {
      assert OccursAt(s, p, Find(s, p).value);
    }
  }

  lemma ContainsAt(s: string, p: string, i: nat)
    requires OccursAt(s, p, i)
    ensures Contains(s, p)
  {
    ContainsIff(s, p);
  }

  /** An occurrence inside a slice of `s` is an occurrence in `s`, shifted by the slice's start. */
  lemma OccursInSlice(s: string, lo: nat, hi: nat, p: string, j: nat)
    requires lo <= hi <= |s| && OccursAt(s[lo..hi], p, j)
    ensures OccursAt(s, p, lo + j)
  {
    forall t | 0 <= t < |p|
      ensures s[lo + j + t] == p[t]
    {
      assert s[lo..hi][j..j + |p|][t] == p[t];
    }
    assert s[lo + j..lo + j + |p|] == p;
  }

  /** Occurrence is transitive: a pattern inside a pattern inside `s` is inside `s`. */
  lemma {:induction false} ContainsTrans(s: string, q: string, p: string)
    requires Contains(s, q) && Contains(q, p)
    ensures Contains(s, p)
  {
    var i := Find(s, q).value;
    var j := Find(q, p).value;
    assert s[i..i + |q|] == q;
    OccursInSlice(s, i, i + |q|, p, j);
    ContainsAt(s, p, i + j);
  }

  /** The empty pattern occurs in every string. */
  lemma ContainsEmpty(s: string)
    ensures Contains(s, "")
  {
    assert OccursAt(s, "", 0);
    ContainsAt(s, "", 0);
  }

  /** Index of the first `c` in `s`. */
  function IndexOfChar(s: string, c: char): (r: Option<nat>)
    ensures r.Some? ==> r.value < |s| && s[r.value] == c && c !in s[..r.value]
    ensures r.None? <==> c !in s
  {
    if |s| == 0 then None
    else if s[0] == c then Some(0)
    else
      match IndexOfChar(s[1..], c)
      case None => None
      case Some(k) => assert s[..k + 1] == [s[0]] + s[1..][..k]; Some(k + 1)
  }

  /** Index of the last `c` in `s` (Python `rfind`). */
  function LastIndexOfChar(s: string, c: char): (r: Option<nat>)
    ensures r.Some? ==> r.value < |s| && s[r.value] == c && c !in s[r.value + 1..]
    ensures r.None? <==> c !in s
  {
    if |s| == 0 then None
    else if s[|s| - 1] == c then Some(|s| - 1)
    else
      var r := LastIndexOfChar(s[..|s| - 1], c);
      assert s == s[..|s| - 1] + [s[|s| - 1]];
      r
  }

  /** An occurrence of `p` in `s[start..]` is an occurrence in `s`, shifted by `start`, and back. */
  lemma OccursShift(s: string, start: nat, p: string, k: nat)
    requires start <= k && start <= |s|
    ensures OccursAt(s, p, k) <==> OccursAt(s[start..], p, k - start)
  {
    if k + |p| <= |s| {
      assert s[start..][k - start..k - start + |p|] == s[k..k + |p|];
    }
  }

  /**
   * `piece` is what `split(sep)[1]` returns: the text that starts right
   * after the first occurrence of `sep` and runs up to the next
   * occurrence starting there, or to the end when there is none.
   */
  ghost predicate AfterFirst(s: string, sep: string, piece: string)
    requires Contains(s, sep)
  {
    var start := Find(s, sep).value + |sep|;
    var end := start + |piece|;
    end <= |s| && s[start..end] == piece
    && (end == |s| || OccursAt(s, sep, end))
    && forall k :: start <= k < end ==> !OccursAt(s, sep, k)
  }

  /**
   * Python `s.split(sep)[1]`: the text between the first and the second
   * occurrence of `sep` (or the end of `s`); None where Python raises
   * IndexError because `sep` does not occur.
   */
  function SecondPiece(s: string, sep: string): (r: Option<string>)
    requires |sep| > 0
    ensures r.Some? <==> Contains(s, sep)
    ensures r.Some? ==> !Contains(r.value, sep)
    ensures r.Some? ==> AfterFirst(s, sep, r.value)
  {
    match Find(s, sep)
    case None => None
    case Some(i) =>
      var start := i + |sep|;
      var rest := s[start..];
      match Find(rest, sep)
      case None =>
        assert forall k :: start <= k < |s| ==> !OccursAt(s, sep, k) by {
          forall k | start <= k < |s| ensures !OccursAt(s, sep, k) {
            OccursShift(s, start, sep, k);
          }
        }
        assert s[start..start + |rest|] == rest;
        Some(rest)
      case Some(j) =>
        var piece := rest[..j];
        assert !Contains(piece, sep) by {
          if Contains(piece, sep) {
            var k := Find(piece, sep).value;
            assert rest[0..j] == piece;
            OccursInSlice(rest, 0, j, sep, k);
          }
        }
        OccursShift(s, start, sep, start + j);
        assert forall k :: start <= k < start + j ==> !OccursAt(s, sep, k) by {
          forall k | start <= k < start + j ensures !OccursAt(s, sep, k) {
            OccursShift(s, start, sep, k);
          }
        }
        assert s[start..start + j] == piece;
        Some(piece)
  }

  /** A string containing `p + q` contains `p`. */
  lemma ContainsOfLonger(s: string, p: string, q: string)
    requires Contains(s, p + q)
    ensures Contains(s, p)
  {
    PrefixContains(p, q);
    ContainsTrans(s, p + q, p);
  }

  /** A marker followed by a payload free of the marker splits back into that payload. */
  lemma {:induction false} SecondPieceOfMarked(marker: string, payload: string)
    requires |marker| > 0 && !Contains(payload, marker)
    ensures SecondPiece(marker + payload, marker) == Some(payload)
  {
    var s := marker + payload;
    assert OccursAt(s, marker, 0);
    assert Find(s, marker) == Some(0);
    assert s[|marker|..] == payload;
  }

  /** A string starting with `p` contains `p`. */
  lemma PrefixContains(p: string, rest: string)
    ensures Contains(p + rest, p)
  {
    assert OccursAt(p + rest, p, 0);
    ContainsAt(p + rest, p, 0);
  }

  // ------------------------------------------------------------ join, split

  /** Python `sep.join(parts)` / JavaScript `parts.join(sep)`. */
  function Join(parts: seq<string>, sep: string): (r: string)
    ensures |parts| == 0 ==> r == ""
    ensures |parts| == 1 ==> r == parts[0]
  {
    if |parts| == 0 then ""
    else if |parts| == 1 then parts[0]
    else parts[0] + sep + Join(parts[1..], sep)
  }

  /** The concatenation of a list of strings, folded from the left (`"".join(parts)`). */
  function Concat(parts: seq<string>): string
  {
    if parts == [] then "" else Concat(parts[..|parts| - 1]) + parts[|parts| - 1]
  }

  /** Joining one more part adds the separator and that part at the end. */
  lemma {:induction false} JoinAppend(parts: seq<string>, p: string, sep: string)
    requires |parts| >= 1
    ensures Join(parts + [p], sep) == Join(parts, sep) + sep + p
  {
    var all := parts + [p];
    assert all[0] == parts[0] && all[1..] == parts[1..] + [p];
    if |parts| > 1 {
      JoinAppend(parts[1..], p, sep);
    }
  }

  /** JavaScript `s.split(c)` on a one-character separator: never empty. */
  function Split(s: string, c: char): (r: seq<string>)
    ensures |r| >= 1
    ensures forall k :: 0 <= k < |r| ==> c !in r[k]
  {
    if |s| == 0 then [""]
    else
      var rest := Split(s[1..], c);
      if s[0] == c then [""] + rest
      else [[s[0]] + rest[0]] + rest[1..]
  }

  /** Gluing text to the front of the first part glues it to the front of the join. */
  lemma JoinPrefixFirst(x: string, parts: seq<string>, sep: string)
    requires |parts| >= 1
    ensures Join([x + parts[0]] + parts[1..], sep) == x + Join(parts, sep)
  {
    var glued := [x + parts[0]] + parts[1..];
    if |parts| > 1 {
      assert glued[0] == x + parts[0] && glued[1..] == parts[1..];
    }
  }

  /** Splitting at a character and joining the pieces with it gives the text back. */
  lemma {:induction false} SplitJoin(s: string, c: char)
    ensures Join(Split(s, c), [c]) == s
  {
    if |s| > 0 {
      var rest := Split(s[1..], c);
      SplitJoin(s[1..], c);
      if s[0] == c {
        var parts := [""] + rest;
        assert parts[0] == "" && parts[1..] == rest;
        assert s == [c] + s[1..];
      } else {
        JoinPrefixFirst([s[0]], rest, [c]);
        assert s == [s[0]] + s[1..];
      }
    }
  }

  /** A string without the separator splits into itself. */
  lemma {:induction false} SplitNoSeparator(s: string, c: char)
    requires c !in s
    ensures Split(s, c) == [s]
  {
    if |s| > 0 {
      SplitNoSeparator(s[1..], c);
      assert [s[0]] + s[1..] == s;
    }
  }

  /** How `Split` unfolds on a string with a known first character. */
  lemma SplitCons(x: char, t: string, c: char)
    ensures Split([x] + t, c) ==
      if x == c then [""] + Split(t, c) else [[x] + Split(t, c)[0]] + Split(t, c)[1..]
  {
    var s := [x] + t;
    assert s[0] == x && s[1..] == t;
  }

  /**
   * Splitting a concatenation: every piece of `a` but the last is final,
   * and the last piece of `a` continues into `b`.
   */
  lemma {:induction false} SplitAppend(a: string, b: string, c: char)
    ensures var sa := Split(a, c);
      Split(a + b, c) == sa[..|sa| - 1] + Split(sa[|sa| - 1] + b, c)
  {
    if |a| == 0 {
      assert a + b == b;
    } else {
      var x, a1 := a[0], a[1..];
      assert a == [x] + a1;
      assert a + b == [x] + (a1 + b);
      SplitAppend(a1, b, c);
      var r1 := Split(a1, c);
      SplitAppendCons(x, a1, b, c, r1, Split(a1 + b, c), Split(r1[|r1| - 1] + b, c));
    }
  }

  /** The inductive step of SplitAppend: one more character in front of `a`. */
  lemma SplitAppendCons(x: char, a1: string, b: string, c: char, r1: seq<string>, r: seq<string>, tail: seq<string>)
    requires r1 == Split(a1, c) && r == Split(a1 + b, c) && tail == Split(r1[|r1| - 1] + b, c)
    requires r == r1[..|r1| - 1] + tail
    ensures var sa := Split([x] + a1, c);
      Split([x] + (a1 + b), c) == sa[..|sa| - 1] + Split(sa[|sa| - 1] + b, c)
  {
    SplitCons(x, a1, c);
    SplitCons(x, a1 + b, c);
    if x != c && |r1| == 1 {
      assert r1[..0] == [];
      SplitAppendShort(x, b, c, r1[0], r, Split([x] + a1, c), Split([x] + (a1 + b), c));
    } else {
      SplitAppendStep(x, r1, r, tail, c);
    }
  }

  /** The inductive step of SplitAppend when `a` has a single piece that does not start with the separator. */
  lemma SplitAppendShort(x: char, b: string, c: char, piece: string, r: seq<string>, sa: seq<string>, ra: seq<string>)
    requires x != c && r == Split(piece + b, c)
    requires sa == [[x] + piece] && ra == [[x] + r[0]] + r[1..]
    ensures ra == sa[..|sa| - 1] + Split(sa[|sa| - 1] + b, c)
  {
    SplitCons(x, piece + b, c);
    assert [x] + piece + b == [x] + (piece + b);
  }

  /** The sequence bookkeeping of one step of SplitAppend, when the first piece is not the last. */
  lemma SplitAppendStep(x: char, r1: seq<string>, r: seq<string>, tail: seq<string>, c: char)
    requires |r1| >= 1 && |tail| >= 1
    requires r == r1[..|r1| - 1] + tail
    requires |r1| > 1 || x == c
    ensures var sa := if x == c then [""] + r1 else [[x] + r1[0]] + r1[1..];
      var ra := if x == c then [""] + r else [[x] + r[0]] + r[1..];
      ra == sa[..|sa| - 1] + tail && sa[|sa| - 1] == r1[|r1| - 1]
  {
  }

  // -------------------------------------------------------------- trimming

  /** The characters JavaScript's `trim` and the regular expression `\s` treat as white space. */
  predicate IsSpace(c: char)
  {
    c == ' ' || c == '\t' || c == '\n' || c == '\r' || c == '\U{000B}' || c == '\U{000C}'
    || c == '\U{00A0}' || c == '\U{1680}' || ('\U{2000}' <= c <= '\U{200A}')
    || c == '\U{2028}' || c == '\U{2029}' || c == '\U{202F}' || c == '\U{205F}'
    || c == '\U{3000}' || c == '\U{FEFF}'
  }

  predicate AllSpace(s: string)
  {
    forall k :: 0 <= k < |s| ==> IsSpace(s[k])
  }

  function TrimStart(s: string): (r: string)
    ensures |r| <= |s| && r == s[|s| - |r|..]
    ensures AllSpace(s[..|s| - |r|])
    ensures |r| > 0 ==> !IsSpace(r[0])
  {
    if |s| > 0 && IsSpace(s[0]) then
      var r := TrimStart(s[1..]);
      var n := |s| - |r|;
      assert s[1..][n - 1..] == s[n..];
      assert s[..n] == [s[0]] + s[1..][..n - 1];
      r
    else s
  }

  function TrimEnd(s: string): (r: string)
    ensures |r| <= |s| && r == s[..|r|]
    ensures AllSpace(s[|r|..])
    ensures |r| > 0 ==> !IsSpace(r[|r| - 1])
  {
    if |s| > 0 && IsSpace(s[|s| - 1]) then
      var r := TrimEnd(s[..|s| - 1]);
      assert s[..|s| - 1][..|r|] == s[..|r|];
      assert s[|r|..] == s[..|s| - 1][|r|..] + [s[|s| - 1]];
      r
    else s
  }

  /** JavaScript `s.trim()`. */
  function Trim(s: string): (r: string)
    ensures |r| <= |s|
    ensures |r| > 0 ==> !IsSpace(r[0]) && !IsSpace(r[|r| - 1])
    ensures r == "" <==> AllSpace(s)
  {
    var t := TrimStart(s);
    var r := TrimEnd(t);
    if r == "" then
      assert t[0..] == t;
      assert t == "";
      assert s[..|s|] == s;
      r
    else
      assert !AllSpace(s) by {
        assert t[0] == s[|s| - |t|];
      }
      r
  }

  /** Trimming a string padded by white space on both sides leaves its core, when the core is not padded itself. */
  lemma TrimPadded(lead: string, core: string, trail: string)
    requires AllSpace(lead) && AllSpace(trail)
    requires |core| > 0 && !IsSpace(core[0]) && !IsSpace(core[|core| - 1])
    ensures Trim(lead + core + trail) == core
  {
    calc {
      Trim(lead + core + trail);
      TrimEnd(TrimStart(lead + core + trail));
      { assert lead + core + trail == lead + (core + trail);
        assert (core + trail)[0] == core[0];
        TrimStartPadded(lead, core + trail); }
      TrimEnd(core + trail);
      { TrimEndPadded(core, trail); }
      core;
    }
  }

  lemma {:induction false} TrimStartPadded(lead: string, rest: string)
    requires AllSpace(lead)
    requires |rest| > 0 && !IsSpace(rest[0])
    ensures TrimStart(lead + rest) == rest
  {
    if |lead| > 0 {
      assert (lead + rest)[0] == lead[0];
      assert (lead + rest)[1..] == lead[1..] + rest;
      TrimStartPadded(lead[1..], rest);
    } else {
      assert lead + rest == rest;
    }
  }

  lemma {:induction false} TrimEndPadded(core: string, trail: string)
    requires AllSpace(trail)
    requires |core| > 0 && !IsSpace(core[|core| - 1])
    ensures TrimEnd(core + trail) == core
  {
    if |trail| > 0 {
      var s := core + trail;
      assert s[|s| - 1] == trail[|trail| - 1];
      assert s[..|s| - 1] == core + trail[..|trail| - 1];
      TrimEndPadded(core, trail[..|trail| - 1]);
    } else {
      assert core + trail == core;
    }
  }

  // ------------------------------------------------------------ lower case

  /** JavaScript `toLowerCase` on one character (ASCII letters only). */
  function LowerChar(c: char): char
  {
    if 'A' <= c <= 'Z' then (c as int + 32) as char else c
  }

  function ToLower(s: string): (r: string)
    ensures |r| == |s|
    ensures forall k :: 0 <= k < |s| ==> r[k] == LowerChar(s[k])
  {
    seq(|s|, k requires 0 <= k < |s| => LowerChar(s[k]))
  }

  /** Lower-casing keeps occurrences: if `p` occurs in `s`, lower(`p`) occurs in lower(`s`). */
  lemma LowerKeepsContains(s: string, p: string)
    requires Contains(s, p)
    ensures Contains(ToLower(s), ToLower(p))
  {
    var i := Find(s, p).value;
    assert ToLower(s)[i..i + |p|] == ToLower(p) by {
      assert s[i..i + |p|] == p;
      forall k | 0 <= k < |p| ensures ToLower(s)[i..i + |p|][k] == ToLower(p)[k] {
        assert s[i + k] == p[k];
      }
    }
    ContainsAt(ToLower(s), ToLower(p), i);
  }

  // ------------------------------------------------------ decimal numerals

  function DigitChar(d: nat): char
    requires d < 10
  {
    ('0' as int + d) as char
  }

  /** JavaScript `String(n)` for a non-negative integer. */
  function NatToString(n: nat): (r: string)
    ensures |r| >= 1
    ensures forall k :: 0 <= k < |r| ==> '0' <= r[k] <= '9'
    ensures n > 0 ==> r[0] != '0'
  {
    if n < 10 then [DigitChar(n)]
    else NatToString(n / 10) + [DigitChar(n % 10)]
  }

  /** The value of a string of decimal digits. */
  function DecimalValue(s: string): nat
    requires forall k :: 0 <= k < |s| ==> '0' <= s[k] <= '9'
  {
    if |s| == 0 then 0
    else 10 * DecimalValue(s[..|s| - 1]) + (s[|s| - 1] as int - '0' as int)
  }

  lemma {:induction false} NatToStringValue(n: nat)
    ensures DecimalValue(NatToString(n)) == n
  {
    if n >= 10 {
      NatToStringValue(n / 10);
      var s := NatToString(n);
      assert s[..|s| - 1] == NatToString(n / 10);
    }
  }

  /** Numbers below 1000 have at most three digits. */
  lemma NatToStringShort(n: nat)
    requires n < 1000
    ensures |NatToString(n)| <= 3
  {
    if n >= 10 {
      assert |NatToString(n / 10)| <= 2 by {
        if n / 10 >= 10 {
          assert |NatToString(n / 10 / 10)| == 1;
        }
      }
    }
  }

  /** JavaScript `s.padStart(width, fill)`. */
  function PadStart(s: string, width: nat, fill: char): (r: string)
    ensures |r| == if |s| >= width then |s| else width
    ensures r[|r| - |s|..] == s
    ensures forall k :: 0 <= k < |r| - |s| ==> r[k] == fill
  {
    if |s| >= width then s else seq(width - |s|, _ => fill) + s
  }

  /** Leading zeros do not change a decimal value. */
  lemma {:induction false} LeadingZerosValue(zeros: nat, s: string)
    requires forall k :: 0 <= k < |s| ==> '0' <= s[k] <= '9'
    ensures var z := seq(zeros, _ => '0') + s;
      (forall k :: 0 <= k < |z| ==> '0' <= z[k] <= '9') && DecimalValue(z) == DecimalValue(s)
  {
    var z := seq(zeros, _ => '0') + s;
    if |s| == 0 {
      LeadingZerosOnly(zeros);
      assert z == seq(zeros, _ => '0');
    } else {
      LeadingZerosValue(zeros, s[..|s| - 1]);
      assert z[..|z| - 1] == seq(zeros, _ => '0') + s[..|s| - 1];
      assert z[|z| - 1] == s[|s| - 1];
    }
  }

  lemma {:induction false} LeadingZerosOnly(zeros: nat)
    ensures DecimalValue(seq(zeros, _ => '0')) == 0
  {
    if zeros > 0 {
      var z := seq(zeros, _ => '0');
      assert z[..zeros - 1] == seq(zeros - 1, _ => '0');
      LeadingZerosOnly(zeros - 1);
    }
  }
}
