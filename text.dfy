/** Helpers shared by the Go services and the TypeScript front end, of two kinds. Text
    helpers: Go's byte strings, `strings.ReplaceAll` with an empty replacement,
    `strings.Split`, `strings.TrimSpace`, `strings.TrimPrefix`, substring search, ASCII
    lower-casing and `%d` formatting. Generic sequence operations over any element type:
    subsequences, order-preserving filtering (`Array.filter`, Go's filter loops) and
    first-appearance de-duplication (`new Set`, Go's seen-map loop). */
module Text {

  /** A Go `string` is a sequence of bytes; each byte is modelled as the character with the
      same code (so UTF-8 text appears split into its bytes, and only codes below 256 occur
      in the values the services see). */
  type GoString = string

  predicate IsDigit(c: char) { '0' <= c <= '9' }

  predicate AllDigits(s: string) { forall i :: 0 <= i < |s| ==> IsDigit(s[i]) }

  predicate IsAscii(s: string) { forall i :: 0 <= i < |s| ==> s[i] as int < 128 }

  /** The value of a decimal digit character. */
  function DigitValue(c: char): int { c as int - '0' as int }

  /** The value of every character of `s`, as `int(r - '0')` computes it. */
  function DigitValues(s: string): (ds: seq<int>)
    ensures |ds| == |s|
    ensures AllDigits(s) ==> forall i :: 0 <= i < |ds| ==> 0 <= ds[i] <= 9
  {
    seq(|s|, i requires 0 <= i < |s| => DigitValue(s[i]))
  }

  // ---------------------------------------------------------------------------------
  // Removing every occurrence of one element (`strings.ReplaceAll(s, " ", "")`)

  function RemoveAll<T(==)>(s: seq<T>, x: T): (r: seq<T>)
    ensures x !in r
    ensures |r| <= |s|
    ensures forall x :: x in r ==> x in s
  {
    if s == [] then [] else (if s[0] == x then [] else [s[0]]) + RemoveAll(s[1..], x)
  }

  /** Concatenation is associative. */
  lemma AppendAssoc<T>(x: seq<T>, y: seq<T>, z: seq<T>)
    ensures (x + y) + z == x + (y + z)
  {
    assert forall i :: 0 <= i < |x| + |y| + |z| ==> ((x + y) + z)[i] == (x + (y + z))[i];
  }

  lemma {:induction false} RemoveAllAppend<T>(a: seq<T>, b: seq<T>, x: T)
    ensures RemoveAll(a + b, x) == RemoveAll(a, x) + RemoveAll(b, x)
  {
    if a == [] {
      assert a + b == b;
    } else {
      assert (a + b)[0] == a[0];
      assert (a + b)[1..] == a[1..] + b;
      RemoveAllAppend(a[1..], b, x);
    }
  }

  /** An element inserted anywhere is removed again. */
  lemma RemoveAllInserted<T>(a: seq<T>, x: T, b: seq<T>)
    ensures RemoveAll(a + [x] + b, x) == RemoveAll(a + b, x)
  {
    RemoveAllAppend(a + [x], b, x);
    RemoveAllAppend(a, [x], x);
    RemoveAllAppend(a, b, x);
  }

  /** Removing a different element leaves an inserted one in place. */
  lemma RemoveAllKeeps<T>(a: seq<T>, x: T, b: seq<T>, y: T)
    requires x != y
    ensures RemoveAll(a + [x] + b, y) == RemoveAll(a, y) + [x] + RemoveAll(b, y)
  {
    RemoveAllAppend(a + [x], b, y);
    RemoveAllAppend(a, [x], y);
  }

  /** Removing an element that does not occur changes nothing. */
  lemma {:induction false} RemoveAllAbsent<T>(s: seq<T>, x: T)
    requires x !in s
    ensures RemoveAll(s, x) == s
  {
    if s != [] {
      assert s[1..] + [] == s[1..];
      RemoveAllAbsent(s[1..], x);
      assert [s[0]] + s[1..] == s;
    }
  }

  // ---------------------------------------------------------------------------------
  // Splitting on a separator (`strings.Split(s, "/")`)

  function Count<T(==)>(s: seq<T>, x: T): nat
  {
    if s == [] then 0 else (if s[0] == x then 1 else 0) + Count(s[1..], x)
  }

  /** The pieces of `s` between occurrences of `sep`; there is always at least one. */
  function Split<T(==)>(s: seq<T>, sep: T): (parts: seq<seq<T>>)
    ensures |parts| == Count(s, sep) + 1
    ensures forall k :: 0 <= k < |parts| ==> sep !in parts[k]
  {
    if s == [] then [[]]
    else
      var rest := Split(s[1..], sep);
      if s[0] == sep then [[]] + rest else [[s[0]] + rest[0]] + rest[1..]
  }

  /** The inverse of `Split`: the pieces glued back together with the separator. */
  function Join<T>(parts: seq<seq<T>>, sep: T): seq<T>
  {
    if parts == [] then [] else if |parts| == 1 then parts[0]
    else parts[0] + [sep] + Join(parts[1..], sep)
  }

  lemma {:induction false} JoinSplit<T>(s: seq<T>, sep: T)
    ensures Join(Split(s, sep), sep) == s
  {
    if s != [] {
      JoinSplit(s[1..], sep);
      var rest := Split(s[1..], sep);
      if s[0] == sep {
        assert Split(s, sep)[1..] == rest;
        assert s == [] + [sep] + s[1..];
      } else {
        var parts := Split(s, sep);
        assert parts[1..] == rest[1..];
        if |rest| == 1 {
          assert Join(parts, sep) == [s[0]] + rest[0];
        } else {
          assert Join(rest, sep) == rest[0] + [sep] + Join(rest[1..], sep);
          assert Join(parts, sep) == [s[0]] + rest[0] + [sep] + Join(rest[1..], sep);
        }
        assert s == [s[0]] + s[1..];
      }
    }
  }

  /** With exactly one separator, `Split` gives the text before it and the text after it. */
  lemma {:induction false} SplitOne<T>(s: seq<T>, sep: T) returns (k: nat)
    requires Count(s, sep) == 1
    ensures k < |s| && s[k] == sep
    ensures Split(s, sep) == [s[..k], s[k + 1..]]
  {
    assert s != [];
    var rest := Split(s[1..], sep);
    if s[0] == sep {
      k := 0;
      CountZeroSplit(s[1..], sep);
      assert s[1..] == s[k + 1..];
    } else {
      var j := SplitOne(s[1..], sep);
      k := j + 1;
      assert s[1..][..j] == s[1..k];
      assert [s[0]] + s[1..k] == s[..k];
      assert s[1..][j + 1..] == s[k + 1..];
    }
  }

  /** Text with a single separator splits into the parts on either side of it. */
  lemma {:induction false} SplitAround<T>(a: seq<T>, sep: T, b: seq<T>)
    requires sep !in a && sep !in b
    ensures Split(a + [sep] + b, sep) == [a, b]
  {
    var s := a + [sep] + b;
    if a == [] {
      assert s[1..] == b;
      CountAbsent(b, sep);
      CountZeroSplit(b, sep);
    } else {
      assert s[1..] == a[1..] + [sep] + b;
      SplitAround(a[1..], sep, b);
      assert [a[0]] + a[1..] == a;
    }
  }

  lemma {:induction false} CountAbsent<T>(s: seq<T>, x: T)
    requires x !in s
    ensures Count(s, x) == 0
  {
    if s != [] {
      assert x !in s[1..];
      CountAbsent(s[1..], x);
    }
  }

  lemma {:induction false} CountZeroSplit<T>(s: seq<T>, sep: T)
    requires Count(s, sep) == 0
    ensures Split(s, sep) == [s]
  {
    if s != [] {
      CountZeroSplit(s[1..], sep);
      assert [s[0]] + s[1..] == s;
    }
  }

  // ---------------------------------------------------------------------------------
  // Trimming white space (`strings.TrimSpace`, ASCII white space only)

  predicate IsSpace(c: char) { c == ' ' || 9 <= c as int <= 13 }

  function TrimLeft(s: GoString): (r: GoString)
    ensures r != [] ==> !IsSpace(r[0])
    ensures |r| <= |s| && r == s[|s| - |r|..]
  {
    if s != [] && IsSpace(s[0]) then TrimLeft(s[1..]) else s
  }

  function TrimRight(s: GoString): (r: GoString)
    ensures r != [] ==> !IsSpace(r[|r| - 1])
    ensures |r| <= |s| && r == s[..|r|]
  {
    if s != [] && IsSpace(s[|s| - 1]) then TrimRight(s[..|s| - 1]) else s
  }

  /** `strings.TrimSpace`: a slice of `s` that neither starts nor ends with white space;
      `TrimSpaceSlice` shows that only leading and trailing white space is cut off. */
  function TrimSpace(s: GoString): (r: GoString)
    ensures r != [] ==> !IsSpace(r[0]) && !IsSpace(r[|r| - 1])
    ensures |r| <= |s| && (|r| == |s| ==> r == s)
  {
    TrimRight(TrimLeft(s))
  }

  /** Everything `TrimLeft` drops is white space. */
  lemma {:induction false} TrimLeftDropsSpace(s: GoString)
    ensures forall k :: 0 <= k < |s| - |TrimLeft(s)| ==> IsSpace(s[k])
  {
    if s != [] && IsSpace(s[0]) {
      TrimLeftDropsSpace(s[1..]);
    }
  }

  /** Everything `TrimRight` drops is white space. */
  lemma {:induction false} TrimRightDropsSpace(s: GoString)
    ensures forall k :: |TrimRight(s)| <= k < |s| ==> IsSpace(s[k])
  {
    if s != [] && IsSpace(s[|s| - 1]) {
      TrimRightDropsSpace(s[..|s| - 1]);
    }
  }

  /** `TrimSpace(s)` is the middle slice `s[i..j]` of `s`, and every byte before `i` and
      from `j` on is white space. */
  lemma TrimSpaceSlice(s: GoString)
    ensures var i := |s| - |TrimLeft(s)|; var j := i + |TrimSpace(s)|;
      j <= |s| && TrimSpace(s) == s[i..j] &&
      (forall k :: 0 <= k < i ==> IsSpace(s[k])) &&
      (forall k :: j <= k < |s| ==> IsSpace(s[k]))
  {
    TrimSpaceIsMiddle(s);
    TrimLeftDropsSpace(s);
    TrimSpaceDropsTail(s);
  }

  lemma TrimSpaceIsMiddle(s: GoString)
    ensures var i := |s| - |TrimLeft(s)|;
      i + |TrimSpace(s)| <= |s| && TrimSpace(s) == s[i..i + |TrimSpace(s)|]
  {
    var l := TrimLeft(s);
    var r := TrimRight(l);
    var i := |s| - |l|;
    assert l == s[i..] && r == l[..|r|];
    assert s[i..][..|r|] == s[i..i + |r|];
  }

  lemma TrimSpaceDropsTail(s: GoString)
    ensures forall k :: |s| - |TrimLeft(s)| + |TrimSpace(s)| <= k < |s| ==> IsSpace(s[k])
  {
    var l := TrimLeft(s);
    var i := |s| - |l|;
    TrimRightDropsSpace(l);
    forall k | i + |TrimRight(l)| <= k < |s| ensures IsSpace(s[k]) {
      assert s[k] == l[k - i];
    }
  }

  /** Trimming leaves nothing exactly when the text is all white space. */
  lemma TrimSpaceEmpty(s: GoString)
    ensures TrimSpace(s) == [] <==> forall k :: 0 <= k < |s| ==> IsSpace(s[k])
  {
    TrimSpaceSlice(s);
    var i := |s| - |TrimLeft(s)|;
    if TrimSpace(s) != [] {
      assert TrimSpace(s)[0] == s[i];
    }
  }

  /** Text without white space at either end is left alone. */
  lemma TrimSpaceNoSpace(s: GoString)
    requires s != [] ==> !IsSpace(s[0]) && !IsSpace(s[|s| - 1])
    ensures TrimSpace(s) == s
  {
  }

  // ---------------------------------------------------------------------------------
  // Prefixes and substrings

  /** `strings.TrimPrefix`: drops one leading `p` when `s` starts with it. */
  function TrimPrefix<T(==)>(s: seq<T>, p: seq<T>): (r: seq<T>)
    ensures p <= s ==> s == p + r
    ensures !(p <= s) ==> r == s
  {
    if p <= s then s[|p|..] else s
  }

  /** `strings.Contains` / `String.prototype.includes`: `sub` occurs in `s`. */
  predicate Contains<T(==)>(s: seq<T>, sub: seq<T>)
  {
    exists i :: 0 <= i <= |s| && sub <= s[i..]
  }

  lemma ContainsEmpty<T>(s: seq<T>)
    ensures Contains(s, [])
  {
    assert [] <= s[0..];
  }

  // ---------------------------------------------------------------------------------
  // ASCII lower-casing (`strings.ToLower`, `toLowerCase` on ASCII text)

  function LowerChar(c: char): char
  {
    if 'A' <= c <= 'Z' then (c as int + 32) as char else c
  }

  function ToLower(s: string): (r: string)
    ensures |r| == |s|
  {
    seq(|s|, i requires 0 <= i < |s| => LowerChar(s[i]))
  }

  /** Case-insensitive substring test, as both services and the catalogue write it. */
  predicate ContainsFold(s: string, sub: string)
  {
    Contains(ToLower(s), ToLower(sub))
  }

  /** Every text contains the empty search, whatever its case. */
  lemma ContainsFoldEmpty(s: string)
    ensures ContainsFold(s, "")
  {
    assert ToLower("") == [];
    ContainsEmpty(ToLower(s));
  }

  // ---------------------------------------------------------------------------------
  // `%d` formatting of a natural number

  function DigitChar(d: nat): char
    requires d < 10
  {
    ('0' as int + d) as char
  }

  function Decimal(n: nat): (r: string)
    ensures |r| >= 1 && AllDigits(r)
    ensures n >= 10 ==> |r| >= 2
  {
    if n < 10 then [DigitChar(n)] else Decimal(n / 10) + [DigitChar(n % 10)]
  }

  /** Different numbers print differently, so counters give distinct identifiers. */
  lemma {:induction false} DecimalInjective(m: nat, n: nat)
    requires Decimal(m) == Decimal(n)
    ensures m == n
  {
    if m >= 10 && n >= 10 {
      var dm, dn := Decimal(m), Decimal(n);
      assert dm[|dm| - 1] == DigitChar(m % 10);
      assert dn[|dn| - 1] == DigitChar(n % 10);
      assert dm[..|dm| - 1] == Decimal(m / 10);
      assert dn[..|dn| - 1] == Decimal(n / 10);
      DecimalInjective(m / 10, n / 10);
    } else if m < 10 && n < 10 {
      assert Decimal(m)[0] == DigitChar(m);
    }
  }

  /** A fixed prefix followed by a counter identifies the counter value. */
  lemma TaggedDecimalInjective(tag: string, m: nat, n: nat)
    requires tag + Decimal(m) == tag + Decimal(n)
    ensures m == n
  {
    assert Decimal(m) == (tag + Decimal(m))[|tag|..];
    assert Decimal(n) == (tag + Decimal(n))[|tag|..];
    DecimalInjective(m, n);
  }

  // ---------------------------------------------------------------------------------
  // Order-preserving filtering and subsequences

  /** `xs` is obtained from `ys` by deleting elements. */
  predicate IsSubsequence<T(==)>(xs: seq<T>, ys: seq<T>)
    decreases |ys|
  {
    if xs == [] then true
    else if ys == [] then false
    else (xs[0] == ys[0] && IsSubsequence(xs[1..], ys[1..])) || IsSubsequence(xs, ys[1..])
  }

  /** The elements of `xs` that satisfy `keep`, in their original order. */
  function Filter<T>(xs: seq<T>, keep: T -> bool): (r: seq<T>)
    ensures |r| <= |xs|
  {
    if xs == [] then [] else (if keep(xs[0]) then [xs[0]] else []) + Filter(xs[1..], keep)
  }

  lemma {:induction false} FilterMembers<T>(xs: seq<T>, keep: T -> bool, x: T)
    ensures x in Filter(xs, keep) <==> x in xs && keep(x)
  {
    if xs != [] {
      FilterMembers(xs[1..], keep, x);
      assert x in xs <==> x == xs[0] || x in xs[1..];
    }
  }

  lemma {:induction false} FilterIsSubsequence<T>(xs: seq<T>, keep: T -> bool)
    ensures IsSubsequence(Filter(xs, keep), xs)
  {
    if xs != [] {
      FilterIsSubsequence(xs[1..], keep);
      var r := Filter(xs, keep);
      if keep(xs[0]) {
        assert r[0] == xs[0] && r[1..] == Filter(xs[1..], keep);
      } else {
        assert r == Filter(xs[1..], keep);
      }
    }
  }

  lemma {:induction false} FilterAll<T>(xs: seq<T>, keep: T -> bool)
    requires forall i :: 0 <= i < |xs| ==> keep(xs[i])
    ensures Filter(xs, keep) == xs
  {
    if xs != [] {
      FilterAll(xs[1..], keep);
      assert [xs[0]] + xs[1..] == xs;
    }
  }

  /** Two tests that agree on every element keep the same elements. */
  lemma {:induction false} FilterSame<T>(xs: seq<T>, f: T -> bool, g: T -> bool)
    requires forall i :: 0 <= i < |xs| ==> f(xs[i]) == g(xs[i])
    ensures Filter(xs, f) == Filter(xs, g)
  {
    if xs != [] {
      FilterSame(xs[1..], f, g);
    }
  }

  // ---------------------------------------------------------------------------------
  // Distinct elements in order of first appearance

  predicate NoDuplicates<T(==)>(xs: seq<T>)
  {
    forall i, j :: 0 <= i < j < |xs| ==> xs[i] != xs[j]
  }

  /** The index of the first occurrence of `x` in `xs`. */
  function FirstIndex<T(==)>(xs: seq<T>, x: T): (k: nat)
    requires x in xs
    ensures k < |xs| && xs[k] == x && x !in xs[..k]
  {
    if xs[0] == x then 0 else 1 + FirstIndex(xs[1..], x)
  }

  /** Each element once, kept at its first appearance (a Go "seen" map, a JS `Set`). */
  function Dedup<T(==)>(xs: seq<T>): (r: seq<T>)
    decreases |xs|
  {
    if xs == [] then []
    else
      var d := Dedup(xs[..|xs| - 1]);
      if xs[|xs| - 1] in d then d else d + [xs[|xs| - 1]]
  }

  lemma DedupSnoc<T>(xs: seq<T>, x: T)
    ensures Dedup(xs + [x]) == if x in Dedup(xs) then Dedup(xs) else Dedup(xs) + [x]
  {
    assert (xs + [x])[..|xs|] == xs;
  }

  lemma {:induction false} DedupMembers<T>(xs: seq<T>)
    ensures forall x :: x in Dedup(xs) <==> x in xs
  {
    if xs != [] {
      var init := xs[..|xs| - 1];
      DedupMembers(init);
      assert xs == init + [xs[|xs| - 1]];
    }
  }

  lemma {:induction false} DedupNoDuplicates<T>(xs: seq<T>)
    ensures NoDuplicates(Dedup(xs))
  {
    if xs != [] {
      DedupNoDuplicates(xs[..|xs| - 1]);
    }
  }

  /** The results are ordered by where each first occurs in the input. */
  lemma DedupFirstAppearanceOrder<T>(xs: seq<T>)
    ensures forall i, j | 0 <= i < j < |Dedup(xs)| ::
      Dedup(xs)[i] in xs && Dedup(xs)[j] in xs &&
      FirstIndex(xs, Dedup(xs)[i]) < FirstIndex(xs, Dedup(xs)[j])
  {
    forall i, j | 0 <= i < j < |Dedup(xs)|
      ensures Dedup(xs)[i] in xs && Dedup(xs)[j] in xs &&
        FirstIndex(xs, Dedup(xs)[i]) < FirstIndex(xs, Dedup(xs)[j])
    {
      DedupOrderAt(xs, i, j);
    }
  }

  lemma {:induction false} DedupOrderAt<T>(xs: seq<T>, i: nat, j: nat)
    requires i < j < |Dedup(xs)|
    ensures Dedup(xs)[i] in xs && Dedup(xs)[j] in xs &&
      FirstIndex(xs, Dedup(xs)[i]) < FirstIndex(xs, Dedup(xs)[j])
  {
    var init, last := xs[..|xs| - 1], xs[|xs| - 1];
    var d := Dedup(init);
    assert xs == init + [last];
    DedupElement(init, i);
    FirstIndexPrefix(init, [last], d[i]);
    if j < |d| {
      DedupOrderAt(init, i, j);
      DedupElement(init, j);
      FirstIndexPrefix(init, [last], d[j]);
    } else {
      DedupMembers(init);
      assert Dedup(xs) == d + [last] && last !in init;
      assert forall m :: 0 <= m < |init| ==> xs[m] == init[m];
      assert FirstIndex(xs, last) == |init|;
    }
  }

  lemma DedupElement<T>(xs: seq<T>, i: nat)
    requires i < |Dedup(xs)|
    ensures Dedup(xs)[i] in xs
  {
    DedupMembers(xs);
    assert Dedup(xs)[i] in Dedup(xs);
  }

  lemma {:induction false} FirstIndexPrefix<T>(a: seq<T>, b: seq<T>, x: T)
    requires x in a
    ensures x in a + b && FirstIndex(a + b, x) == FirstIndex(a, x)
  {
    if a[0] != x {
      assert (a + b)[1..] == a[1..] + b;
      FirstIndexPrefix(a[1..], b, x);
    }
  }
}
