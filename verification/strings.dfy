/** The few string operations of Go's standard library that the core relies
    on: `strings.Split` on a one-character separator, decimal formatting of
    a non-negative integer (`fmt.Sprintf("%d", i)`), `path.Join` of two
    elements and `filepath.Base`. */
module Strings {
  import opened Wrappers

  /** Number of occurrences of `c` in `s`. */
  function Count(s: string, c: char): nat
  {
    if |s| == 0 then 0 else (if s[0] == c then 1 else 0) + Count(s[1..], c)
  }

  /** `strings.Split(s, string(sep))`: the pieces between separators, in
      order. Like Go, splitting the empty string gives one empty piece. */
  function Split(s: string, sep: char): (parts: seq<string>)
    ensures |parts| >= 1
  {
    if |s| == 0 then [""]
    else
      var rest := Split(s[1..], sep);
      if s[0] == sep then [""] + rest
      else [[s[0]] + rest[0]] + rest[1..]
  }

  /** `strings.Join(parts, string(sep))` for a non-empty list of pieces. */
  function Join(parts: seq<string>, sep: char): string
    requires |parts| >= 1
  {
    if |parts| == 1 then parts[0] else parts[0] + [sep] + Join(parts[1..], sep)
  }

  /** Splitting yields one more piece than there are separators. */
  lemma {:induction false} SplitLength(s: string, sep: char)
    ensures |Split(s, sep)| == Count(s, sep) + 1
  {
    if |s| > 0 {
      SplitLength(s[1..], sep);
    }
  }

  /** No piece contains the separator. */
  lemma {:induction false} SplitPiecesAreFree(s: string, sep: char)
    ensures forall i :: 0 <= i < |Split(s, sep)| ==> sep !in Split(s, sep)[i]
  {
    if |s| > 0 {
      SplitPiecesAreFree(s[1..], sep);
      var rest := Split(s[1..], sep);
      if s[0] != sep {
        assert sep !in rest[0];
        assert sep !in [s[0]] + rest[0];
      }
    }
  }

  /** Joining the pieces with the separator gives back the input. */
  lemma {:induction false} JoinSplit(s: string, sep: char)
    ensures Join(Split(s, sep), sep) == s
  {
    if |s| > 0 {
      JoinSplit(s[1..], sep);
      var rest := Split(s[1..], sep);
      if s[0] == sep {
        assert Split(s, sep) == [""] + rest;
        assert ([""] + rest)[1..] == rest;
        assert s == [s[0]] + s[1..];
      } else {
        var parts := Split(s, sep);
        assert parts == [[s[0]] + rest[0]] + rest[1..];
        if |rest| == 1 {
          assert s == [s[0]] + s[1..];
        } else {
          assert parts[1..] == rest[1..];
          assert Join(rest, sep) == rest[0] + [sep] + Join(rest[1..], sep);
          assert s == [s[0]] + s[1..];
        }
      }
    }
  }

  /** A string without the separator splits into itself alone. */
  lemma {:induction false} SplitWithoutSeparator(s: string, sep: char)
    requires sep !in s
    ensures Split(s, sep) == [s]
  {
    if |s| > 0 {
      assert sep !in s[1..];
      SplitWithoutSeparator(s[1..], sep);
      assert [s[0]] + s[1..] == s;
    }
  }

  /** Splitting `k + sep + v`, where `k` has no separator, gives `k`
      followed by the pieces of `v`. */
  lemma {:induction false} SplitAtFirst(k: string, v: string, sep: char)
    requires sep !in k
    ensures Split(k + [sep] + v, sep) == [k] + Split(v, sep)
  {
    if |k| == 0 {
      assert k + [sep] + v == [sep] + v;
      assert ([sep] + v)[1..] == v;
    } else {
      assert sep !in k[1..];
      SplitAtFirst(k[1..], v, sep);
      var s := k + [sep] + v;
      assert s[0] == k[0];
      assert s[1..] == k[1..] + [sep] + v;
      assert [k[0]] + k[1..] == k;
    }
  }

  /** The two pieces of `s` when it splits on `sep` into exactly two, as
      the parsers of `key=value` and `measurement.field` require. */
  function SplitPair(s: string, sep: char): (r: Option<(string, string)>)
    ensures r.Some? <==> Count(s, sep) == 1
    ensures r.Some? ==> sep !in r.value.0 && sep !in r.value.1 && r.value.0 + [sep] + r.value.1 == s
  {
    var parts := Split(s, sep);
    SplitLength(s, sep);
    if |parts| != 2 then None
    else
      SplitPiecesAreFree(s, sep);
      JoinSplit(s, sep);
      assert parts[1..] == [parts[1]];
      Some((parts[0], parts[1]))
  }

  /** Pieces without the separator, joined by it, split back into
      themselves. */
  lemma SplitPairRoundTrip(k: string, v: string, sep: char)
    requires sep !in k && sep !in v
    ensures SplitPair(k + [sep] + v, sep) == Some((k, v))
  {
    SplitAtFirst(k, v, sep);
    SplitWithoutSeparator(v, sep);
  }

  /** Every item split into its two pieces, in order; `None` as soon as
      one item does not split into exactly two. */
  function SplitPairs(items: seq<string>, sep: char): (r: Option<seq<(string, string)>>)
    ensures r.Some? <==> forall i :: 0 <= i < |items| ==> Count(items[i], sep) == 1
    ensures r.Some? ==> |r.value| == |items| &&
                        forall i :: 0 <= i < |items| ==> SplitPair(items[i], sep) == Some(r.value[i])
  {
    if |items| == 0 then Some([])
    else match SplitPair(items[0], sep)
      case None => None
      case Some(p) =>
        match SplitPairs(items[1..], sep)
        case None =>
          assert forall i :: 1 <= i < |items| ==> items[i] == items[1..][i - 1];
          None
        case Some(ps) => Some([p] + ps)
  }

  /** Each pair joined by the separator, in order. */
  function JoinPairs(pairs: seq<(string, string)>, sep: char): (r: seq<string>)
    ensures |r| == |pairs|
    ensures forall i :: 0 <= i < |pairs| ==> r[i] == pairs[i].0 + [sep] + pairs[i].1
  {
    if |pairs| == 0 then [] else [pairs[0].0 + [sep] + pairs[0].1] + JoinPairs(pairs[1..], sep)
  }

  /** Pairs whose pieces hold no separator, joined by it, split back into
      the same pairs. */
  lemma SplitPairsRoundTrip(pairs: seq<(string, string)>, sep: char)
    requires forall i :: 0 <= i < |pairs| ==> sep !in pairs[i].0 && sep !in pairs[i].1
    ensures SplitPairs(JoinPairs(pairs, sep), sep) == Some(pairs)
  {
    var items := JoinPairs(pairs, sep);
    forall i | 0 <= i < |pairs|
      ensures SplitPair(items[i], sep) == Some(pairs[i])
    {
      SplitPairRoundTrip(pairs[i].0, pairs[i].1, sep);
    }
    var r := SplitPairs(items, sep);
    assert r.Some?;
    forall i | 0 <= i < |pairs|
      ensures r.value[i] == pairs[i]
    {
      assert Some(r.value[i]) == SplitPair(items[i], sep);
    }
    assert r.value == pairs;
  }

  /** The character of decimal digit `d`. */
  function DigitChar(d: nat): (c: char)
    requires d < 10
    ensures '0' <= c <= '9'
  {
    (48 + d) as char
  }

  predicate IsDigits(s: string)
  {
    forall i :: 0 <= i < |s| ==> '0' <= s[i] <= '9'
  }

  /** `fmt.Sprintf("%d", n)` for a non-negative `n`. */
  function Decimal(n: nat): (s: string)
    ensures |s| >= 1 && IsDigits(s)
  {
    if n < 10 then [DigitChar(n)] else Decimal(n / 10) + [DigitChar(n % 10)]
  }

  /** The number a string of decimal digits denotes. */
  function DecimalValue(s: string): nat
    requires IsDigits(s)
  {
    if |s| == 0 then 0
    else DecimalValue(s[..|s| - 1]) * 10 + ((s[|s| - 1] as int) - 48)
  }

  /** Reading back the decimal rendering of `n` gives `n`. */
  lemma {:induction false} DecimalRoundTrip(n: nat)
    ensures DecimalValue(Decimal(n)) == n
  {
    if n >= 10 {
      DecimalRoundTrip(n / 10);
      var s := Decimal(n);
      assert s[..|s| - 1] == Decimal(n / 10);
    }
  }

  /** Distinct numbers have distinct decimal renderings. */
  lemma DecimalInjective(m: nat, n: nat)
    requires Decimal(m) == Decimal(n)
    ensures m == n
  {
    DecimalRoundTrip(m);
    DecimalRoundTrip(n);
  }

  /** `path.Join(a, b)`: empty elements are dropped and the rest joined with
      a slash. Lexical cleaning (`..`, doubled slashes) is not modelled. */
  function PathJoin(a: string, b: string): string
  {
    if a == "" then b else if b == "" then a else a + "/" + b
  }

  /** Joining under one non-empty directory keeps distinct non-empty names
      apart. */
  lemma PathJoinInjective(dir: string, a: string, b: string)
    requires dir != "" && a != "" && b != ""
    requires PathJoin(dir, a) == PathJoin(dir, b)
    ensures a == b
  {
    assert a == PathJoin(dir, a)[|dir| + 1..];
    assert b == PathJoin(dir, b)[|dir| + 1..];
  }

  /** `p` with its trailing slashes removed. */
  function TrimTrailingSlashes(p: string): (t: string)
    ensures |t| <= |p| && t == p[..|t|]
    ensures |t| > 0 ==> t[|t| - 1] != '/'
  {
    if |p| > 0 && p[|p| - 1] == '/' then TrimTrailingSlashes(p[..|p| - 1]) else p
  }

  /** The text after the last slash of `p` (all of `p` when it has none). */
  function AfterLastSlash(p: string): (r: string)
    ensures '/' !in r
    ensures |r| <= |p| && r == p[|p| - |r|..]
  {
    if |p| == 0 || p[|p| - 1] == '/' then ""
    else AfterLastSlash(p[..|p| - 1]) + [p[|p| - 1]]
  }

  /** After a directory ending in a slash, the text after the last slash
      is a slash-free name itself. */
  lemma {:induction false} AfterLastSlashOfName(dir: string, name: string)
    requires |dir| > 0 && dir[|dir| - 1] == '/'
    requires '/' !in name
    ensures AfterLastSlash(dir + name) == name
  {
    if |name| == 0 {
      assert dir + name == dir;
    } else {
      var init := name[..|name| - 1];
      assert (dir + name)[..|dir + name| - 1] == dir + init;
      assert (dir + name)[|dir + name| - 1] == name[|name| - 1];
      AfterLastSlashOfName(dir, init);
      assert init + [name[|name| - 1]] == name;
    }
  }

  /** `filepath.Base(p)`: the last element of a slash-separated path. */
  function Base(p: string): (r: string)
    ensures r != ""
    ensures r == "/" || '/' !in r
  {
    if p == "" then "."
    else
      var t := TrimTrailingSlashes(p);
      if t == "" then "/" else AfterLastSlash(t)
  }

  /** The base of a slash-free name under a directory is the name. */
  lemma BaseOfName(dir: string, name: string)
    requires |dir| > 0 && dir[|dir| - 1] == '/'
    requires name != "" && '/' !in name
    ensures Base(dir + name) == name
  {
    assert (dir + name)[|dir + name| - 1] == name[|name| - 1];
    assert TrimTrailingSlashes(dir + name) == dir + name;
    AfterLastSlashOfName(dir, name);
  }
}
