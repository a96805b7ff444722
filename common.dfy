/** Small value types and the string operations of Python's `str` that the
    modelled code relies on (`in`, `lower`, `strip`, `split`, `join`, slicing). */
module Common {

  datatype Option<T> = None | Some(value: T)
  {
    /** `x if x is not None else default`. */
    function GetOr(default: T): T
    {
      if Some? then value else default
    }
  }

  /** The result of an operation that may raise: `Err` carries `str(exception)`. */
  datatype Result<T> = Ok(value: T) | Err(error: string)

  /** A JSON-like configuration value (the `Any` of the Python dictionaries). */
  datatype Value = Str(s: string) | Num(n: int) | Flag(b: bool) | Null

  /** Python truthiness of a configuration value. */
  predicate Truthy(v: Value)
  {
    match v
    case Str(s) => s != ""
    case Num(n) => n != 0
    case Flag(b) => b
    case Null => false
  }

  /** `Str(s)` when `s` is truthy, otherwise `None`: Python's `x or None` for strings. */
  function NonEmpty(s: Option<string>): (r: Option<string>)
    ensures r.Some? <==> s.Some? && s.value != ""
    ensures r.Some? ==> r.value == s.value
  {
    if s.Some? && s.value != "" then s else None
  }

  function MinReal(a: real, b: real): (r: real)
    ensures r <= a && r <= b && (r == a || r == b)
  {
    if a <= b then a else b
  }

  // ---------------------------------------------------------------------------
  // Decimal rendering (`str(int)`)
  // ---------------------------------------------------------------------------

  function DigitChar(d: nat): (c: char)
    requires d < 10
    ensures '0' <= c <= '9'
  {
    "0123456789"[d]
  }

  function NatToString(n: nat): (s: string)
    ensures |s| >= 1
    ensures forall i :: 0 <= i < |s| ==> '0' <= s[i] <= '9'
  {
    if n < 10 then [DigitChar(n)] else NatToString(n / 10) + [DigitChar(n % 10)]
  }

  function IntToString(n: int): (s: string)
    ensures |s| >= 1
    ensures n < 0 <==> s[0] == '-'
    ensures forall i :: 0 <= i < |s| ==> s[i] == '-' || '0' <= s[i] <= '9'
  {
    if n < 0 then "-" + NatToString(-n) else NatToString(n)
  }

  /** `str(v)` / f-string rendering of a configuration value. */
  function ValueText(v: Value): string
  {
    match v
    case Str(s) => s
    case Num(n) => IntToString(n)
    case Flag(b) => if b then "True" else "False"
    case Null => "None"
  }

  // ---------------------------------------------------------------------------
  // Substring search (`sub in s`)
  // ---------------------------------------------------------------------------

  predicate IsPrefix(p: string, s: string)
  {
    |p| <= |s| && s[..|p|] == p
  }

  lemma PrefixOfConcat(p: string, rest: string)
    ensures IsPrefix(p, p + rest)
  {
    assert (p + rest)[..|p|] == p;
  }

  lemma PrefixTrans(p: string, s: string, t: string)
    requires IsPrefix(p, s) && IsPrefix(s, t)
    ensures IsPrefix(p, t)
  {
    assert t[..|p|] == t[..|s|][..|p|];
  }

  /** A common start keeps a prefix a prefix. */
  lemma PrefixUnderHead(h: string, p: string, s: string)
    requires IsPrefix(p, s)
    ensures IsPrefix(h + p, h + s)
  {
    assert (h + s)[..|h + p|] == h + s[..|p|];
  }

  /** A suffix seen at the end of a concatenation. */
  lemma SuffixOfConcat(s: string, suffix: string)
    ensures (s + suffix)[|s + suffix| - |suffix|..] == suffix
  {
  }

  /** Python's `sub in s` for strings. */
  predicate Contains(s: string, sub: string)
    decreases |s|
  {
    IsPrefix(sub, s) || (|s| > 0 && Contains(s[1..], sub))
  }

  lemma {:induction false} ContainsAt(s: string, sub: string, i: nat)
    requires i + |sub| <= |s| && s[i..i + |sub|] == sub
    ensures Contains(s, sub)
    decreases i
  {
    if i == 0 {
      assert s[..|sub|] == sub;
    } else {
      assert s[1..][i - 1..i - 1 + |sub|] == s[i..i + |sub|];
      ContainsAt(s[1..], sub, i - 1);
    }
  }

  /** Every string contains itself at the front of any extension. */
  lemma ContainsPrefix(p: string, rest: string)
    ensures Contains(p + rest, p)
  {
    ContainsAt(p + rest, p, 0);
  }

  /** `any(w in s for w in words)`. */
  predicate AnyContained(words: seq<string>, s: string)
  {
    exists i :: 0 <= i < |words| && Contains(s, words[i])
  }

  /** `sum(1 for w in words if w in s)`. */
  function CountContained(words: seq<string>, s: string): (n: nat)
    ensures n <= |words|
    ensures n > 0 <==> AnyContained(words, s)
  {
    if words == [] then 0
    else
      var rest := CountContained(words[1..], s);
      assert AnyContained(words, s) <==> Contains(s, words[0]) || AnyContained(words[1..], s) by {
        if AnyContained(words[1..], s) {
          var i :| 0 <= i < |words[1..]| && Contains(s, words[1..][i]);
          assert Contains(s, words[i + 1]);
        }
        if AnyContained(words, s) && !Contains(s, words[0]) {
          var i :| 0 <= i < |words| && Contains(s, words[i]);
          assert i > 0 && words[1..][i - 1] == words[i];
        }
      }
      (if Contains(s, words[0]) then 1 else 0) + rest
  }

  /** Counting the keywords of a list with one more keyword at the end. */
  lemma {:induction false} CountContainedSnoc(words: seq<string>, w: string, s: string)
    ensures CountContained(words + [w], s) == CountContained(words, s) + (if Contains(s, w) then 1 else 0)
  {
    if words != [] {
      assert (words + [w])[1..] == words[1..] + [w];
      CountContainedSnoc(words[1..], w, s);
    }
  }

  // ---------------------------------------------------------------------------
  // Case and whitespace
  // ---------------------------------------------------------------------------

  function LowerChar(c: char): char
  {
    if 'A' <= c <= 'Z' then (c as int + 32) as char else c
  }

  /** `str.lower()` on the ASCII range; other characters are kept (the modelled
      keyword tables are Japanese, which has no case). */
  function Lower(s: string): (r: string)
    ensures |r| == |s|
  {
    if s == [] then [] else [LowerChar(s[0])] + Lower(s[1..])
  }

  lemma {:induction false} LowerAt(s: string, i: nat)
    requires i < |s|
    ensures Lower(s)[i] == LowerChar(s[i])
  {
    if i > 0 {
      LowerAt(s[1..], i - 1);
    }
  }

  /** A string without ASCII capitals is its own lower case. */
  lemma {:induction false} LowerNoCapitals(s: string)
    requires forall i :: 0 <= i < |s| ==> !('A' <= s[i] <= 'Z')
    ensures Lower(s) == s
  {
    if s != [] {
      LowerNoCapitals(s[1..]);
    }
  }

  /** Lower-casing twice is lower-casing once. */
  lemma {:induction false} LowerIdempotent(s: string)
    ensures Lower(Lower(s)) == Lower(s)
  {
    if s != [] {
      LowerIdempotent(s[1..]);
      assert Lower(s)[1..] == Lower(s[1..]);
    }
  }

  /** The characters `str.isspace()` accepts, which `str.strip()` removes. */
  const Whitespace: set<char> := {
    '\t', '\n', '\U{000B}', '\U{000C}', '\r', '\U{001C}', '\U{001D}', '\U{001E}', '\U{001F}', ' ',
    '\U{0085}', '\U{00A0}', '\U{1680}', '\U{2000}', '\U{2001}', '\U{2002}', '\U{2003}', '\U{2004}',
    '\U{2005}', '\U{2006}', '\U{2007}', '\U{2008}', '\U{2009}', '\U{200A}', '\U{2028}', '\U{2029}',
    '\U{202F}', '\U{205F}', '\U{3000}'}

  function TrimLeft(s: string, cs: set<char>): (r: string)
    ensures |r| <= |s| && r == s[|s| - |r|..]
    ensures r != [] ==> r[0] !in cs
    ensures forall i :: 0 <= i < |s| - |r| ==> s[i] in cs
  {
    if |s| > 0 && s[0] in cs then TrimLeft(s[1..], cs) else s
  }

  function TrimRight(s: string, cs: set<char>): (r: string)
    ensures |r| <= |s| && r == s[..|r|]
    ensures r != [] ==> r[|r| - 1] !in cs
    ensures forall i :: |r| <= i < |s| ==> s[i] in cs
  {
    if |s| > 0 && s[|s| - 1] in cs then TrimRight(s[..|s| - 1], cs) else s
  }

  /** Python's `s.strip(chars)`: drop every leading and trailing character in `cs`. */
  function StripSet(s: string, cs: set<char>): (r: string)
    ensures r != [] ==> r[0] !in cs && r[|r| - 1] !in cs
    ensures |r| <= |s|
  {
    TrimRight(TrimLeft(s, cs), cs)
  }

  /** Python's `s.strip()`. */
  function Strip(s: string): string
  {
    StripSet(s, Whitespace)
  }

  // ---------------------------------------------------------------------------
  // Splitting, joining, slicing
  // ---------------------------------------------------------------------------

  /** Index of the first occurrence of `c` in `s`. */
  function IndexOf(s: string, c: char): (r: Option<nat>)
    ensures r.Some? ==> r.value < |s| && s[r.value] == c && c !in s[..r.value]
    ensures r.None? ==> c !in s
  {
    if s == [] then None
    else if s[0] == c then Some(0)
    else match IndexOf(s[1..], c)
      case None => None
      case Some(i) => Some(i + 1)
  }

  /** Python's `s.split(sep)` for a one-character separator. */
  function Split(s: string, sep: char): (r: seq<string>)
    ensures |r| >= 1
    ensures forall i :: 0 <= i < |r| ==> sep !in r[i]
    decreases |s|
  {
    match IndexOf(s, sep)
    case None => [s]
    case Some(i) => [s[..i]] + Split(s[i + 1..], sep)
  }

  /** Python's `sep.join(parts)`. */
  function Join(parts: seq<string>, sep: string): string
  {
    if parts == [] then ""
    else if |parts| == 1 then parts[0]
    else parts[0] + sep + Join(parts[1..], sep)
  }

  /** `", ".join(items) if items else "なし"`, as the prompts render a list. */
  function ListOrNone(items: seq<string>): string
  {
    if items == [] then "なし" else Join(items, ", ")
  }

  /** "なし" shows exactly when the list is empty, as long as no item is empty or
      itself begins with "な". */
  lemma ListOrNoneEmpty(items: seq<string>)
    requires forall i :: 0 <= i < |items| ==> items[i] != "" && items[i][0] != 'な'
    ensures ListOrNone(items) == "なし" <==> items == []
  {
    if items != [] {
      var r := Join(items, ", ");
      assert r[0] == items[0][0];
    }
  }

  /** A header and lines free of a character make a list free of it. */
  lemma ConsFree(h: string, lines: seq<string>, c: char)
    requires c !in h
    requires forall k :: 0 <= k < |lines| ==> c !in lines[k]
    ensures forall i :: 0 <= i < |lines| + 1 ==> c !in ([h] + lines)[i]
  {
    forall i | 0 <= i < |lines| + 1 ensures c !in ([h] + lines)[i] {
      if i > 0 {
        assert ([h] + lines)[i] == lines[i - 1];
      }
    }
  }

  /** Splitting and re-joining with the same separator gives the string back. */
  lemma {:induction false} JoinSplit(s: string, sep: char)
    ensures Join(Split(s, sep), [sep]) == s
    decreases |s|
  {
    match IndexOf(s, sep)
    case None =>
    case Some(i) =>
      var rest := Split(s[i + 1..], sep);
      var parts := [s[..i]] + rest;
      assert Split(s, sep) == parts;
      assert parts[0] == s[..i] && parts[1..] == rest && |parts| > 1;
      assert Join(parts, [sep]) == s[..i] + [sep] + Join(rest, [sep]);
      JoinSplit(s[i + 1..], sep);
      assert s == s[..i] + [sep] + s[i + 1..];
  }

  /** The first occurrence of `c` is the one with none before it. */
  lemma IndexOfAt(s: string, c: char, i: nat)
    requires i < |s| && s[i] == c && c !in s[..i]
    ensures IndexOf(s, c) == Some(i)
  {
  }

  /** Joining parts free of the separator and splitting again gives the parts back. */
  lemma {:induction false} SplitJoin(parts: seq<string>, sep: char)
    requires |parts| >= 1
    requires forall i :: 0 <= i < |parts| ==> sep !in parts[i]
    ensures Split(Join(parts, [sep]), sep) == parts
  {
    if |parts| > 1 {
      var rest := Join(parts[1..], [sep]);
      var s := Join(parts, [sep]);
      assert s == parts[0] + [sep] + rest;
      assert s[..|parts[0]|] == parts[0];
      IndexOfAt(s, sep, |parts[0]|);
      assert s[|parts[0]| + 1..] == rest;
      SplitJoin(parts[1..], sep);
    }
  }

  /** Python's `xs[-n:]` for any integer `n` (note `xs[-0:]` is the whole list). */
  function PyTail<T>(xs: seq<T>, n: int): (r: seq<T>)
    ensures |r| <= |xs| && r == xs[|xs| - |r|..]
  {
    if n == 0 then xs
    else if n > 0 then (if n >= |xs| then xs else xs[|xs| - n..])
    else (if -n >= |xs| then [] else xs[-n..])
  }

  /** For a positive bound, `xs[-n:]` keeps exactly the `min(n, |xs|)` last elements. */
  lemma PyTailPositive<T>(xs: seq<T>, n: int)
    requires n > 0
    ensures |PyTail(xs, n)| == if |xs| < n then |xs| else n
  {
  }

  /** The "append, then keep the newest `cap`" pattern used by every bounded history. */
  function AppendBounded<T>(xs: seq<T>, x: T, cap: nat): (r: seq<T>)
    requires cap > 0
    ensures |r| == if |xs| + 1 <= cap then |xs| + 1 else cap
    ensures r != [] && r[|r| - 1] == x
    ensures r == (xs + [x])[|xs| + 1 - |r|..]
  {
    var h := xs + [x];
    if |h| > cap then PyTail(h, cap) else h
  }

  predicate Distinct<T(==)>(s: seq<T>)
  {
    forall i, j :: 0 <= i < j < |s| ==> s[i] != s[j]
  }

  /** Python's `max(range(len(vals)), key=vals.__getitem__)`: the index of the
      first largest value (later equal values do not replace it). */
  function FirstMaxIndex(vals: seq<real>): (i: nat)
    requires |vals| > 0
    ensures i < |vals|
    ensures forall j :: 0 <= j < |vals| ==> vals[j] <= vals[i]
    ensures forall j :: 0 <= j < i ==> vals[j] < vals[i]
  {
    if |vals| == 1 then 0
    else
      var best := FirstMaxIndex(vals[..|vals| - 1]);
      assert forall j :: 0 <= j < |vals| - 1 ==> vals[..|vals| - 1][j] == vals[j];
      if vals[|vals| - 1] > vals[best] then |vals| - 1 else best
  }

  /** `random.choice(pool)` for the draw `pick`: every element can be drawn. */
  function Pick<T>(pool: seq<T>, pick: nat): (r: T)
    requires pool != []
    ensures r in pool
  {
    pool[pick % |pool|]
  }

  /** `[f(x) for x in xs]`. */
  function Map<A, B>(xs: seq<A>, f: A -> B): (r: seq<B>)
    ensures |r| == |xs|
    ensures forall i :: 0 <= i < |xs| ==> r[i] == f(xs[i])
  {
    seq(|xs|, i requires 0 <= i < |xs| => f(xs[i]))
  }

  /** Mapping a list with one more element at the end. */
  lemma MapSnoc<A, B>(xs: seq<A>, x: A, f: A -> B)
    ensures Map(xs + [x], f) == Map(xs, f) + [f(x)]
  {
  }

  /** The one-character strings of `s` in order (`for char in s: yield char`). */
  function Chars(s: string): (r: seq<string>)
    ensures |r| == |s|
    ensures forall i :: 0 <= i < |s| ==> r[i] == [s[i]]
  {
    seq(|s|, i requires 0 <= i < |s| => [s[i]])
  }

  /** `"".join(parts)`. */
  function Concat(parts: seq<string>): string
  {
    if parts == [] then [] else Concat(parts[..|parts| - 1]) + parts[|parts| - 1]
  }

  /** Streaming a text character by character and joining the chunks gives it back. */
  lemma {:induction false} ConcatChars(s: string)
    ensures Concat(Chars(s)) == s
  {
    if s != [] {
      var n := |s| - 1;
      assert Chars(s)[..n] == Chars(s[..n]);
      ConcatChars(s[..n]);
      assert s == s[..n] + [s[n]];
    }
  }

  /** `[x for x in s if keep(x)]`. */
  function Filter<T(!new)>(s: seq<T>, keep: T -> bool): (r: seq<T>)
    ensures |r| <= |s|
    ensures forall x :: x in r <==> x in s && keep(x)
  {
    if s == [] then []
    else Filter(s[..|s| - 1], keep) + (if keep(s[|s| - 1]) then [s[|s| - 1]] else [])
  }
}
