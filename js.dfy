/**
 * The JavaScript built-ins that the clients and the handlers rely on, written
 * out: truthiness and `||`, template-literal stringification, `Array.join`,
 * the default order of `Array.sort`, ASCII `toLowerCase`, decimal
 * stringification of numbers, and plain objects used as string-keyed records.
 *
 * `Split` is not used by the source: it is the inverse of `Join` with which
 * the lemmas read the strings the signer builds back into their fields.
 */
module Js {
  import opened Wrappers

  // ---------------------------------------------------------------------------
  // Truthiness

  /** `if (v)` on an optional string: `undefined` and `""` are falsy. */
  predicate Truthy(v: Option<string>) {
    v.Some? && v.value != ""
  }

  /** `a || b` on optional strings: `a` when it is truthy, otherwise `b` as it is. */
  function Or(a: Option<string>, b: Option<string>): Option<string> {
    if Truthy(a) then a else b
  }

  /** `a || d` with a literal default `d`. */
  function OrDefault(a: Option<string>, d: string): string {
    if Truthy(a) then a.value else d
  }

  /** `n || d` on an optional number: `undefined` and `0` are falsy. */
  function NumberOr(n: Option<int>, d: int): int {
    if n.Some? && n.value != 0 then n.value else d
  }

  /** A template literal `${v}`: the string itself, or the text "undefined". */
  function Str(v: Option<string>): string {
    if v.Some? then v.value else "undefined"
  }

  /** A `${key}:${value}` line avoids a character that neither part nor "undefined" holds. */
  lemma LineAvoids(key: string, v: Option<string>, c: char)
    requires c !in key && c != ':' && c !in "undefined"
    requires v.Some? ==> c !in v.value
    ensures c !in key + ":" + Str(v)
  {
  }

  /** A sequence of four items is the display of those items. */
  lemma FourItems<T>(s: seq<T>, a: T, b: T, c: T, d: T)
    requires |s| == 4 && s[0] == a && s[1] == b && s[2] == c && s[3] == d
    ensures s == [a, b, c, d]
  {
  }

  // ---------------------------------------------------------------------------
  // Array.join and its inverse

  /** `parts.join(sep)`. */
  function Join(parts: seq<string>, sep: string): string {
    if |parts| == 0 then ""
    else if |parts| == 1 then parts[0]
    else parts[0] + sep + Join(parts[1..], sep)
  }

  /** The pieces of `s` between occurrences of `sep` (as `s.split(sep)`). */
  function Split(s: string, sep: char): (parts: seq<string>)
    ensures |parts| >= 1
    decreases |s|
  {
    if |s| == 0 then [""]
    else
      var rest := Split(s[1..], sep);
      if s[0] == sep then [""] + rest else [[s[0]] + rest[0]] + rest[1..]
  }

  /** No part contains the character `c`. */
  predicate Avoid(parts: seq<string>, c: char) {
    forall i :: 0 <= i < |parts| ==> c !in parts[i]
  }

  /** No property value contains the character `c`. */
  predicate ValuesAvoid(h: Props, c: char) {
    forall i :: 0 <= i < |h| ==> c !in h[i].1
  }

  /** Six items as blocks of three, one and two. */
  lemma SixAsBlocks<T>(a: T, b: T, c: T, d: T, e: T, f: T)
    ensures [a, b, c, d, e, f] == [a, b, c] + [d] + [e, f]
  {
  }

  /** A single item followed by a pair, after two blocks, is a triple after them. */
  lemma TripleTail<T>(head: seq<T>, l: seq<T>, z: T, x: T, y: T)
    ensures head + l + [z] + [x, y] == head + l + [z, x, y]
  {
  }

  /** A space before a labelled text is the spaced label before the text. */
  lemma Respace(tag: string, spaced: string, x: string)
    requires spaced == " " + tag
    ensures " " + (tag + x) == spaced + x
  {
  }

  lemma AvoidAppend(xs: seq<string>, ys: seq<string>, c: char)
    requires Avoid(xs, c) && Avoid(ys, c)
    ensures Avoid(xs + ys, c)
  {
  }

  lemma {:induction false} SplitWithout(s: string, c: char)
    requires c !in s
    ensures Split(s, c) == [s]
    decreases |s|
  {
    if |s| > 0 {
      SplitWithout(s[1..], c);
      assert [s[0]] + s[1..] == s;
    }
  }

  lemma {:induction false} SplitAt(a: string, c: char, b: string)
    requires c !in a
    ensures Split(a + [c] + b, c) == [a] + Split(b, c)
    decreases |a|
  {
    var s := a + [c] + b;
    if |a| == 0 {
      assert s[1..] == b;
    } else {
      assert s[1..] == a[1..] + [c] + b;
      SplitAt(a[1..], c, b);
      assert [a[0]] + a[1..] == a;
    }
  }

  /** Splitting a join on a separator that no part contains gives the parts back. */
  lemma {:induction false} SplitJoin(parts: seq<string>, c: char)
    requires |parts| >= 1 && Avoid(parts, c)
    ensures Split(Join(parts, [c]), c) == parts
    decreases |parts|
  {
    if |parts| == 1 {
      SplitWithout(parts[0], c);
    } else {
      SplitJoin(parts[1..], c);
      SplitAt(parts[0], c, Join(parts[1..], [c]));
      assert [parts[0]] + parts[1..] == parts;
    }
  }

  /** A character in none of the parts nor the separator is not in the join. */
  lemma {:induction false} JoinAvoids(parts: seq<string>, sep: string, c: char)
    requires Avoid(parts, c) && c !in sep
    ensures c !in Join(parts, sep)
    decreases |parts|
  {
    if |parts| > 1 {
      JoinAvoids(parts[1..], sep, c);
    }
  }

  /** Each string with a space in front. */
  function Spaced(xs: seq<string>): (r: seq<string>)
    ensures |r| == |xs|
    decreases |xs|
  {
    if |xs| == 0 then [] else [" " + xs[0]] + Spaced(xs[1..])
  }

  /** A space in front of a string that splits into pieces goes onto the first piece. */
  lemma {:induction false} SplitSpace(s: string, c: char)
    requires c != ' '
    ensures Split(" " + s, c) == [" " + Split(s, c)[0]] + Split(s, c)[1..]
  {
    assert (" " + s)[1..] == s;
  }

  /** Parts joined by a character and a space read back as the parts, all but the first behind a space. */
  lemma {:induction false} SplitJoinSpaced(parts: seq<string>, c: char)
    requires |parts| >= 1 && Avoid(parts, c) && c != ' '
    ensures Split(Join(parts, [c, ' ']), c) == [parts[0]] + Spaced(parts[1..])
    decreases |parts|
  {
    if |parts| == 1 {
      SplitWithout(parts[0], c);
    } else {
      var rest := parts[1..];
      SplitJoinSpaced(rest, c);
      assert Join(parts, [c, ' ']) == parts[0] + [c] + (" " + Join(rest, [c, ' ']));
      SplitAt(parts[0], c, " " + Join(rest, [c, ' ']));
      SplitSpace(Join(rest, [c, ' ']), c);
      assert Spaced(rest) == [" " + rest[0]] + Spaced(rest[1..]);
    }
  }

  /** Four parts joined by a character and a space. */
  lemma SplitJoinSpaced4(a: string, b: string, d: string, e: string, c: char)
    requires c != ' ' && c !in a && c !in b && c !in d && c !in e
    ensures Split(Join([a, b, d, e], [c, ' ']), c) == [a, " " + b, " " + d, " " + e]
  {
    var parts := [a, b, d, e];
    SplitJoinSpaced(parts, c);
    var tail := parts[1..];
    assert tail[2..][1..] == [];
    assert Spaced(tail[2..]) == [" " + e];
    assert Spaced(tail[1..]) == [" " + d] + Spaced(tail[2..]);
    assert Spaced(tail) == [" " + b] + Spaced(tail[1..]);
  }

  /** Four pieces with the separator between them split back into the pieces. */
  lemma SplitFour(a: string, b: string, d: string, e: string, c: char)
    requires c !in a && c !in b && c !in d && c !in e
    ensures Split(a + [c] + b + [c] + d + [c] + e, c) == [a, b, d, e]
  {
    assert a + [c] + b + [c] + d + [c] + e == a + [c] + (b + [c] + d + [c] + e);
    SplitAt(a, c, b + [c] + d + [c] + e);
    SplitThree(b, d, e, c);
  }

  /** Three pieces with the separator between them split back into the pieces. */
  lemma SplitThree(a: string, b: string, d: string, c: char)
    requires c !in a && c !in b && c !in d
    ensures Split(a + [c] + b + [c] + d, c) == [a, b, d]
  {
    assert a + [c] + b + [c] + d == a + [c] + (b + [c] + d);
    SplitAt(a, c, b + [c] + d);
    SplitAt(b, c, d);
    SplitWithout(d, c);
  }

  /** Joining a concatenation joins the two halves around one separator. */
  lemma {:induction false} JoinAppend(xs: seq<string>, ys: seq<string>, sep: string)
    requires |xs| >= 1 && |ys| >= 1
    ensures Join(xs + ys, sep) == Join(xs, sep) + sep + Join(ys, sep)
    decreases |xs|
  {
    if |xs| == 1 {
      assert (xs + ys)[1..] == ys;
    } else {
      assert (xs + ys)[1..] == xs[1..] + ys;
      JoinAppend(xs[1..], ys, sep);
    }
  }

  /**
   * A field that is itself a join ended by the separator (a block of lines
   * followed by a blank line) splices in as its lines and an empty field.
   */
  lemma JoinBlock(head: seq<string>, lines: seq<string>, rest: seq<string>, sep: string)
    requires |head| >= 1 && |lines| >= 1 && |rest| >= 1
    ensures Join(head + [Join(lines, sep) + sep] + rest, sep) == Join(head + lines + [""] + rest, sep)
  {
    var h, b, r := Join(head, sep), Join(lines, sep), Join(rest, sep);
    assert Join(head + [b + sep] + rest, sep) == h + sep + (b + sep + sep + r) by {
      JoinThree(head, [b + sep], rest, sep);
    }
    assert Join(head + lines + [""] + rest, sep) == h + sep + (b + sep + ("" + sep + r)) by {
      assert head + lines + [""] + rest == head + lines + ([""] + rest);
      JoinThree(head, lines, [""] + rest, sep);
      JoinAppend([""], rest, sep);
    }
    EmptyField(h, b, r, sep);
  }

  lemma EmptyField(h: string, b: string, r: string, sep: string)
    ensures h + sep + (b + sep + ("" + sep + r)) == h + sep + (b + sep + sep + r)
  {
    assert "" + sep + r == sep + r;
  }

  lemma JoinThree(xs: seq<string>, ys: seq<string>, zs: seq<string>, sep: string)
    requires |xs| >= 1 && |ys| >= 1 && |zs| >= 1
    ensures Join(xs + ys + zs, sep) == Join(xs, sep) + sep + (Join(ys, sep) + sep + Join(zs, sep))
  {
    assert xs + ys + zs == xs + (ys + zs);
    JoinAppend(xs, ys + zs, sep);
    JoinAppend(ys, zs, sep);
  }

  // ---------------------------------------------------------------------------
  // The default order of Array.sort: character by character, a prefix first.
  // Dafny compares characters by code point, which is JavaScript's UTF-16
  // code-unit order for the ASCII header names sorted here.

  /** `a` sorts no later than `b`. */
  predicate NotAfter(a: string, b: string)
    decreases |a|
  {
    |a| == 0 || (|b| > 0 && (a[0] < b[0] || (a[0] == b[0] && NotAfter(a[1..], b[1..]))))
  }

  lemma {:induction false} NotAfterReflexive(a: string)
    ensures NotAfter(a, a)
    decreases |a|
  {
    if |a| > 0 {
      NotAfterReflexive(a[1..]);
    }
  }

  lemma {:induction false} NotAfterTotal(a: string, b: string)
    ensures NotAfter(a, b) || NotAfter(b, a)
    decreases |a|
  {
    if |a| > 0 && |b| > 0 && a[0] == b[0] {
      NotAfterTotal(a[1..], b[1..]);
    }
  }

  lemma {:induction false} NotAfterAntisymmetric(a: string, b: string)
    requires NotAfter(a, b) && NotAfter(b, a)
    ensures a == b
    decreases |a|
  {
    if |a| > 0 {
      NotAfterAntisymmetric(a[1..], b[1..]);
      assert a == [a[0]] + a[1..] && b == [b[0]] + b[1..];
    }
  }

  lemma {:induction false} NotAfterTransitive(a: string, b: string, c: string)
    requires NotAfter(a, b) && NotAfter(b, c)
    ensures NotAfter(a, c)
    decreases |a|
  {
    if |a| > 0 && a[0] == b[0] && b[0] == c[0] {
      NotAfterTransitive(a[1..], b[1..], c[1..]);
    }
  }

  predicate Sorted(s: seq<string>) {
    forall i, j :: 0 <= i < j < |s| ==> NotAfter(s[i], s[j])
  }

  /** Four strings in order, each no later than the next, are sorted. */
  lemma SortedFour(a: string, b: string, c: string, d: string)
    requires NotAfter(a, b) && NotAfter(b, c) && NotAfter(c, d)
    ensures Sorted([a, b, c, d])
  {
    NotAfterTransitive(a, b, c);
    NotAfterTransitive(b, c, d);
    NotAfterTransitive(a, c, d);
  }

  lemma SortedCons(y: string, r: seq<string>)
    requires Sorted(r)
    requires forall k :: 0 <= k < |r| ==> NotAfter(y, r[k])
    ensures Sorted([y] + r)
  {
  }

  /** What `r` holds beyond `s` is `x`, so a bound on `s` and on `x` bounds `r`. */
  lemma {:induction false} BoundCarries(y: string, s: seq<string>, x: string, r: seq<string>)
    requires forall k :: 0 <= k < |s| ==> NotAfter(y, s[k])
    requires NotAfter(y, x)
    requires multiset(r) == multiset(s) + multiset{x}
    ensures forall k :: 0 <= k < |r| ==> NotAfter(y, r[k])
  {
    forall k | 0 <= k < |r|
      ensures NotAfter(y, r[k])
    {
      assert r[k] in multiset(r);
      if r[k] != x {
        assert r[k] in multiset(s);
        var m :| 0 <= m < |s| && s[m] == r[k];
      }
    }
  }

  /** Inserts `x` into the sorted `s` at the first place it fits. */
  function Insert(x: string, s: seq<string>): (r: seq<string>)
    requires Sorted(s)
    ensures multiset(r) == multiset(s) + multiset{x}
    ensures Sorted(r)
    decreases |s|
  {
    if |s| == 0 then [x]
    else if NotAfter(x, s[0]) then
      assert forall k :: 0 <= k < |s| ==> NotAfter(x, s[k]) by {
        forall k | 0 <= k < |s| ensures NotAfter(x, s[k]) {
          if k > 0 { NotAfterTransitive(x, s[0], s[k]); }
        }
      }
      SortedCons(x, s);
      assert s == [s[0]] + s[1..];
      [x] + s
    else
      NotAfterTotal(x, s[0]);
      var rest := Insert(x, s[1..]);
      BoundCarries(s[0], s[1..], x, rest);
      SortedCons(s[0], rest);
      assert s == [s[0]] + s[1..];
      [s[0]] + rest
  }

  /** `keys.sort()` with the default comparison, as an insertion sort. */
  function Sort(s: seq<string>): (r: seq<string>)
    ensures Sorted(r) && multiset(r) == multiset(s)
    decreases |s|
  {
    if |s| == 0 then []
    else
      assert s == [s[0]] + s[1..];
      Insert(s[0], Sort(s[1..]))
  }

  lemma LeastFirst(s: seq<string>, x: string)
    requires Sorted(s) && x in s
    ensures NotAfter(s[0], x)
  {
    var m :| 0 <= m < |s| && s[m] == x;
    if m == 0 {
      NotAfterReflexive(x);
    }
  }

  /**
   * The order is total, so a list has only one sorted arrangement: whatever
   * algorithm the JavaScript engine uses, its result is the one `Sort` gives.
   */
  lemma {:induction false} SortedUnique(a: seq<string>, b: seq<string>)
    requires Sorted(a) && Sorted(b) && multiset(a) == multiset(b)
    ensures a == b
    decreases |a|
  {
    assert |a| == |multiset(a)| == |multiset(b)| == |b|;
    if |a| > 0 {
      assert a[0] == b[0] by {
        assert b[0] in multiset(a) && a[0] in multiset(b);
        LeastFirst(a, b[0]);
        LeastFirst(b, a[0]);
        NotAfterAntisymmetric(a[0], b[0]);
      }
      SameTails(a, b);
      SortedUnique(a[1..], b[1..]);
      assert a == [a[0]] + a[1..] && b == [b[0]] + b[1..];
    }
  }

  /** Two sequences with the same elements and the same head have tails with the same elements. */
  lemma SameTails<T>(a: seq<T>, b: seq<T>)
    requires |a| > 0 && |b| > 0 && a[0] == b[0] && multiset(a) == multiset(b)
    ensures multiset(a[1..]) == multiset(b[1..])
  {
    assert a == [a[0]] + a[1..] && b == [b[0]] + b[1..];
    assert multiset(a[1..]) == multiset(a) - multiset{a[0]};
    assert multiset(b[1..]) == multiset(b) - multiset{b[0]};
  }

  // ---------------------------------------------------------------------------
  // toLowerCase on ASCII letters

  function LowerChar(c: char): char {
    if 'A' <= c <= 'Z' then (c as int + 32) as char else c
  }

  /** `s.toLowerCase()`, for the ASCII letters that header names use. */
  function ToLower(s: string): (r: string)
    ensures |r| == |s|
    ensures forall i :: 0 <= i < |r| ==> !('A' <= r[i] <= 'Z')
    decreases |s|
  {
    if |s| == 0 then "" else [LowerChar(s[0])] + ToLower(s[1..])
  }

  /** Lower-casing works character by character. */
  lemma {:induction false} ToLowerAt(s: string)
    ensures forall i :: 0 <= i < |s| ==> ToLower(s)[i] == LowerChar(s[i])
    decreases |s|
  {
    if |s| > 0 {
      ToLowerAt(s[1..]);
    }
  }

  /** `s.toLowerCase() === t`, character by character. */
  predicate LowerIs(s: string, t: string) {
    |s| == |t| && forall i :: 0 <= i < |s| ==> LowerChar(s[i]) == t[i]
  }

  /** Lower-casing introduces no character other than a lower-case letter. */
  lemma ToLowerAvoids(s: string, c: char)
    requires c !in s && !('a' <= c <= 'z')
    ensures c !in ToLower(s)
  {
    ToLowerAt(s);
    forall i | 0 <= i < |s|
      ensures ToLower(s)[i] != c
    {
      assert s[i] != c;
    }
  }

  /** The character-wise comparison is the comparison with `toLowerCase()`. */
  lemma LowerIsToLower(s: string, t: string)
    ensures LowerIs(s, t) <==> ToLower(s) == t
  {
    ToLowerAt(s);
  }

  // ---------------------------------------------------------------------------
  // `${n}` for a non-negative integer

  predicate IsDigit(c: char) {
    '0' <= c <= '9'
  }

  predicate AllDigits(s: string) {
    forall i :: 0 <= i < |s| ==> IsDigit(s[i])
  }

  function DigitChar(d: nat): char
    requires d < 10
  {
    ('0' as int + d) as char
  }

  /** The decimal text of `n`, without leading zeros. */
  function Decimal(n: nat): (s: string)
    ensures |s| >= 1 && AllDigits(s)
    ensures (s[0] == '0') == (n == 0)
    decreases n
  {
    if n < 10 then [DigitChar(n)] else Decimal(n / 10) + [DigitChar(n % 10)]
  }

  /** The number a string of decimal digits denotes. */
  function DecimalValue(s: string): nat
    requires AllDigits(s)
    decreases |s|
  {
    if |s| == 0 then 0 else DecimalValue(s[..|s| - 1]) * 10 + (s[|s| - 1] as int - '0' as int)
  }

  lemma {:induction false} DecimalRoundTrip(n: nat)
    ensures DecimalValue(Decimal(n)) == n
    decreases n
  {
    if n >= 10 {
      DecimalRoundTrip(n / 10);
      var s := Decimal(n);
      assert s[..|s| - 1] == Decimal(n / 10);
    }
  }

  // ---------------------------------------------------------------------------
  // Plain objects with string values, in insertion order

  /** A JavaScript object whose property values are strings. */
  type Props = seq<(string, string)>

  /** `Object.keys(h)`. */
  function Keys(h: Props): seq<string>
    decreases |h|
  {
    if |h| == 0 then [] else [h[0].0] + Keys(h[1..])
  }

  /** `h[k]`: the value of property `k`, if there is one. */
  function Get(h: Props, k: string): (v: Option<string>)
    ensures v.Some? <==> k in Keys(h)
    decreases |h|
  {
    if |h| == 0 then None else if h[0].0 == k then Some(h[0].1) else Get(h[1..], k)
  }

  /** `h[k] = v`: overwrites an existing property in place, otherwise appends it. */
  function Put(h: Props, k: string, v: string): (r: Props)
    ensures Get(r, k) == Some(v)
    ensures forall k' :: k' != k ==> Get(r, k') == Get(h, k')
    ensures Keys(r) == if k in Keys(h) then Keys(h) else Keys(h) + [k]
    decreases |h|
  {
    if |h| == 0 then [(k, v)]
    else if h[0].0 == k then [(k, v)] + h[1..]
    else
      var rest := Put(h[1..], k, v);
      assert ([h[0]] + rest)[1..] == rest;
      [h[0]] + rest
  }

  /** Assigning a property the object does not have appends it. */
  lemma {:induction false} PutNew(h: Props, k: string, v: string)
    requires k !in Keys(h)
    ensures Put(h, k, v) == h + [(k, v)]
    decreases |h|
  {
    if |h| > 0 {
      assert k !in Keys(h[1..]);
      PutNew(h[1..], k, v);
      assert [h[0]] + (h[1..] + [(k, v)]) == h + [(k, v)];
    }
  }

  /** The first property with a given name supplies its value. */
  lemma {:induction false} GetFirst(h: Props, i: nat)
    requires i < |h|
    requires forall j :: 0 <= j < i ==> h[j].0 != h[i].0
    ensures Get(h, h[i].0) == Some(h[i].1)
    decreases i
  {
    if i > 0 {
      GetFirst(h[1..], i - 1);
    }
  }

  /** A property value avoids a character that no value of the object contains. */
  lemma {:induction false} GetAvoids(h: Props, k: string, c: char)
    requires forall i :: 0 <= i < |h| ==> c !in h[i].1
    ensures Get(h, k).Some? ==> c !in Get(h, k).value
    decreases |h|
  {
    if |h| > 0 && h[0].0 != k {
      GetAvoids(h[1..], k, c);
    }
  }

  /** `Object.keys(h)` lists the property names in order, one per property. */
  lemma {:induction false} KeysAt(h: Props)
    ensures |Keys(h)| == |h|
    ensures forall i :: 0 <= i < |h| ==> Keys(h)[i] == h[i].0
    decreases |h|
  {
    if |h| > 0 {
      KeysAt(h[1..]);
    }
  }
}
