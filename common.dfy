/** Shared vocabulary of the model: optional values, server outcomes, and the
    handful of sequence and string operations the client code relies on
    (`filter`, `find`, `new Set(..)` de-duplication, `trim`, `toLowerCase`,
    `includes`, `split`, and JavaScript's `<` on strings). */
module Common {

  /** `null`/`undefined` versus a present value. */
  datatype Option<T> = None | Some(value: T)

  /** What a server round trip produced: a usable payload, or any failure
      (network rejection, non-2xx status, `success: false`, unparsable body),
      carrying the message the screen would surface. */
  datatype Outcome<T> = Ok(payload: T) | Failed(message: string)

  /** The banner a form shows after an action: nothing yet, a success
      message, or the reason the action was refused or failed. */
  datatype Notice<P> = Silent | Confirmed | Refused(problem: P)

  // ---------------------------------------------------------------------
  // Sequences
  // ---------------------------------------------------------------------

  /** `Array.prototype.filter`. */
  function Filter<T(!new)>(f: T -> bool, s: seq<T>): (r: seq<T>)
    ensures |r| <= |s|
    ensures forall x :: x in r <==> x in s && f(x)
  {
    if s == [] then [] else (if f(s[0]) then [s[0]] else []) + Filter(f, s[1..])
  }

  lemma {:induction false} FilterAppend<T(!new)>(f: T -> bool, a: seq<T>, b: seq<T>)
    ensures Filter(f, a + b) == Filter(f, a) + Filter(f, b)
  {
    if a == [] {
      assert a + b == b;
    } else {
      assert (a + b)[1..] == a[1..] + b;
      FilterAppend(f, a[1..], b);
    }
  }

  lemma {:induction false} FilterKeepsAll<T(!new)>(f: T -> bool, s: seq<T>)
    requires forall i :: 0 <= i < |s| ==> f(s[i])
    ensures Filter(f, s) == s
  {
    if s != [] {
      FilterKeepsAll(f, s[1..]);
    }
  }

  /** Filtering depends only on which elements the predicate accepts. */
  lemma {:induction false} FilterSame<T(!new)>(f: T -> bool, g: T -> bool, s: seq<T>)
    requires forall i :: 0 <= i < |s| ==> f(s[i]) == g(s[i])
    ensures Filter(f, s) == Filter(g, s)
  {
    if s != [] {
      FilterSame(f, g, s[1..]);
    }
  }

  /** Filtering keeps the relative order of the elements it keeps. */
  lemma FilterKeepsOrder<T(!new)>(f: T -> bool, s: seq<T>, a: nat, b: nat)
    requires a < b < |s| && f(s[a]) && f(s[b])
    ensures exists x, y :: 0 <= x < y < |Filter(f, s)| && Filter(f, s)[x] == s[a] && Filter(f, s)[y] == s[b]
  {
    var p, q := s[..b], s[b..];
    assert s == p + q;
    FilterAppend(f, p, q);
    var fp := Filter(f, p);
    assert s[a] == p[a];
    var x :| 0 <= x < |fp| && fp[x] == s[a];
    assert q[0] == s[b];
    assert Filter(f, q)[0] == s[b];
    var r := Filter(f, s);
    assert r[x] == s[a] && r[|fp|] == s[b];
  }

  /** `Array.prototype.find`: the first element satisfying `f`, if any. */
  function Find<T>(f: T -> bool, s: seq<T>): (r: Option<T>)
    ensures r.None? <==> forall i :: 0 <= i < |s| ==> !f(s[i])
    ensures r.Some? ==> exists i :: 0 <= i < |s| && s[i] == r.value && f(s[i]) &&
                                    forall j :: 0 <= j < i ==> !f(s[j])
  {
    if s == [] then None
    else if f(s[0]) then Some(s[0])
    else
      var r := Find(f, s[1..]);
      assert r.Some? ==> exists i :: 1 <= i < |s| && s[i] == r.value && f(s[i]) &&
                                     forall j :: 0 <= j < i ==> !f(s[j]) by {
        if r.Some? {
          var i :| 0 <= i < |s[1..]| && s[1..][i] == r.value && f(s[1..][i]) &&
                   forall j :: 0 <= j < i ==> !f(s[1..][j]);
          assert forall j :: 1 <= j < i + 1 ==> !f(s[j]) by {
            forall j | 1 <= j < i + 1 ensures !f(s[j]) { assert s[j] == s[1..][j - 1]; }
          }
        }
      }
      r
  }

  ghost predicate NoDuplicates<T>(s: seq<T>) {
    forall i, j :: 0 <= i < j < |s| ==> s[i] != s[j]
  }

  /** `Array.from(new Set(s))`: each value once, in first-occurrence order. */
  function Distinct<T(==,!new)>(s: seq<T>): (r: seq<T>)
    ensures forall x :: x in r <==> x in s
    ensures NoDuplicates(r)
    ensures |r| <= |s|
  {
    if s == [] then []
    else
      var d := Distinct(s[..|s| - 1]);
      assert s == s[..|s| - 1] + [s[|s| - 1]];
      if s[|s| - 1] in d then d else d + [s[|s| - 1]]
  }

  /** `Distinct(s[..k])` is a prefix of `Distinct(s)`. */
  lemma {:induction false} DistinctPrefix<T(!new)>(s: seq<T>, k: nat)
    requires k <= |s|
    ensures |Distinct(s[..k])| <= |Distinct(s)| && Distinct(s[..k]) == Distinct(s)[..|Distinct(s[..k])|]
    decreases |s| - k
  {
    if k < |s| {
      DistinctPrefix(s, k + 1);
      assert s[..k + 1][..k] == s[..k];
    } else {
      assert s[..k] == s;
    }
  }

  /** The values come out in the order of their first occurrences: when the
      value at j occurs there for the first time, every earlier value is
      listed before it. */
  lemma {:induction false} DistinctKeepsFirstOrder<T(!new)>(s: seq<T>, i: nat, j: nat)
    requires i < j < |s| && s[j] !in s[..j]
    ensures exists a, b :: 0 <= a < b < |Distinct(s)| && Distinct(s)[a] == s[i] && Distinct(s)[b] == s[j]
  {
    var p := s[..j];
    DistinctPrefix(s, j + 1);
    var d := Distinct(p);
    assert s[..j + 1][..j] == p;
    assert s[..j + 1][j] == s[j];
    assert Distinct(s[..j + 1]) == d + [s[j]] by {
      assert s[j] !in d;
    }
    assert s[i] in p;
    var a :| 0 <= a < |d| && d[a] == s[i];
    var r := Distinct(s);
    assert r[..|d| + 1] == d + [s[j]];
    assert r[a] == r[..|d| + 1][a] && r[|d|] == r[..|d| + 1][|d|];
  }

  lemma {:induction false} DistinctOfDistinct<T(!new)>(s: seq<T>)
    requires NoDuplicates(s)
    ensures Distinct(s) == s
  {
    if s != [] {
      var p := s[..|s| - 1];
      assert NoDuplicates(p);
      DistinctOfDistinct(p);
      assert s[|s| - 1] !in p by {
        forall i | 0 <= i < |p| ensures p[i] != s[|s| - 1] { assert p[i] == s[i]; }
      }
      assert s == p + [s[|s| - 1]];
    }
  }

  // ---------------------------------------------------------------------
  // Strings
  // ---------------------------------------------------------------------

  /** The characters `String.prototype.trim` and the regular-expression class
      `\s` treat as white space (the ASCII ones and the common Unicode spaces). */
  predicate IsWhitespace(c: char) {
    c == ' ' || c == '\t' || c == '\n' || c == '\r' || c == '\U{000B}' || c == '\U{000C}' ||
    c == '\U{00A0}' || c == '\U{1680}' || ('\U{2000}' <= c <= '\U{200A}') ||
    c == '\U{2028}' || c == '\U{2029}' || c == '\U{202F}' || c == '\U{205F}' ||
    c == '\U{3000}' || c == '\U{FEFF}'
  }

  /** `trimStart`: drop leading white space. */
  function TrimStart(s: string): string
  {
    if s != [] && IsWhitespace(s[0]) then TrimStart(s[1..]) else s
  }

  /** `trimEnd`: drop trailing white space. */
  function TrimEnd(s: string): string
  {
    if s != [] && IsWhitespace(s[|s| - 1]) then TrimEnd(s[..|s| - 1]) else s
  }

  /** `String.prototype.trim`. */
  function Trim(s: string): string {
    TrimEnd(TrimStart(s))
  }

  predicate AllWhitespace(s: string) {
    forall i :: 0 <= i < |s| ==> IsWhitespace(s[i])
  }

  /** Where `TrimStart` cuts: everything before the cut is white space and
      the character at it, if any, is not. */
  lemma {:induction false} TrimStartCut(s: string) returns (k: nat)
    ensures k <= |s| && TrimStart(s) == s[k..]
    ensures forall i :: 0 <= i < k ==> IsWhitespace(s[i])
    ensures k < |s| ==> !IsWhitespace(s[k])
  {
    if s != [] && IsWhitespace(s[0]) {
      var j := TrimStartCut(s[1..]);
      k := j + 1;
      assert s[1..][j..] == s[k..];
      forall i | 0 < i < k ensures IsWhitespace(s[i]) { assert s[i] == s[1..][i - 1]; }
      if k < |s| { assert s[k] == s[1..][j]; }
    } else {
      k := 0;
    }
  }

  /** `TrimStart` removes a prefix made only of white space and stops at the
      first other character. */
  lemma TrimStartShape(s: string)
    ensures TrimStart(s) == [] || !IsWhitespace(TrimStart(s)[0])
    ensures exists k :: 0 <= k <= |s| && TrimStart(s) == s[k..] && AllWhitespace(s[..k])
  {
    var k := TrimStartCut(s);
    if k < |s| { assert TrimStart(s)[0] == s[k]; }
    assert AllWhitespace(s[..k]) by {
      forall i | 0 <= i < k ensures IsWhitespace(s[..k][i]) { assert s[..k][i] == s[i]; }
    }
  }

  /** Where `TrimEnd` cuts: everything from the cut on is white space and
      the character before it, if any, is not. */
  lemma {:induction false} TrimEndCut(s: string) returns (k: nat)
    ensures k <= |s| && TrimEnd(s) == s[..k]
    ensures forall i :: k <= i < |s| ==> IsWhitespace(s[i])
    ensures 0 < k ==> !IsWhitespace(s[k - 1])
  {
    if s != [] && IsWhitespace(s[|s| - 1]) {
      var p := s[..|s| - 1];
      k := TrimEndCut(p);
      assert p[..k] == s[..k];
      forall i | k <= i < |s| - 1 ensures IsWhitespace(s[i]) { assert s[i] == p[i]; }
      if 0 < k { assert s[k - 1] == p[k - 1]; }
    } else {
      k := |s|;
      assert s[..|s|] == s;
    }
  }

  /** `TrimEnd` removes a suffix made only of white space and stops at the
      last other character. */
  lemma TrimEndShape(s: string)
    ensures TrimEnd(s) == [] || !IsWhitespace(TrimEnd(s)[|TrimEnd(s)| - 1])
    ensures exists k :: 0 <= k <= |s| && TrimEnd(s) == s[..k] && AllWhitespace(s[k..])
  {
    var k := TrimEndCut(s);
    if 0 < k { assert TrimEnd(s)[k - 1] == s[k - 1]; }
    assert AllWhitespace(s[k..]) by {
      forall i | 0 <= i < |s| - k ensures IsWhitespace(s[k..][i]) { assert s[k..][i] == s[k + i]; }
    }
  }

  lemma {:induction false} TrimStartBlank(s: string)
    ensures TrimStart(s) == [] <==> AllWhitespace(s)
  {
    if s != [] && IsWhitespace(s[0]) {
      TrimStartBlank(s[1..]);
      assert AllWhitespace(s) <==> AllWhitespace(s[1..]) by {
        if AllWhitespace(s[1..]) {
          forall i | 0 <= i < |s| ensures IsWhitespace(s[i]) { if i > 0 { assert s[i] == s[1..][i - 1]; } }
        }
      }
    }
  }

  lemma {:induction false} TrimEndBlank(s: string)
    ensures TrimEnd(s) == [] <==> AllWhitespace(s)
  {
    if s != [] && IsWhitespace(s[|s| - 1]) {
      var p := s[..|s| - 1];
      TrimEndBlank(p);
      assert AllWhitespace(s) <==> AllWhitespace(p) by {
        if AllWhitespace(p) {
          forall i | 0 <= i < |s| ensures IsWhitespace(s[i]) { if i < |s| - 1 { assert s[i] == p[i]; } }
        }
      }
    }
  }

  /** A string trims to "" exactly when every character in it is white space. */
  lemma TrimEmptyIffBlank(s: string)
    ensures Trim(s) == "" <==> AllWhitespace(s)
  {
    TrimStartBlank(s);
    TrimEndBlank(TrimStart(s));
    if TrimStart(s) != "" {
      TrimStartShape(s);
      assert !AllWhitespace(TrimStart(s));
    }
  }

  /** A trimmed string that is not empty has white space at neither end. */
  lemma TrimEnds(s: string)
    requires Trim(s) != ""
    ensures !IsWhitespace(Trim(s)[0]) && !IsWhitespace(Trim(s)[|Trim(s)| - 1])
  {
    var t := TrimStart(s);
    TrimStartShape(s);
    TrimEndShape(t);
    var k :| 0 <= k <= |t| && TrimEnd(t) == t[..k] && AllWhitespace(t[k..]);
    assert Trim(s)[0] == t[0];
  }

  /** A string without white space at either end trims to itself. */
  lemma {:induction false} TrimUntrimmed(s: string)
    requires s == [] || (!IsWhitespace(s[0]) && !IsWhitespace(s[|s| - 1]))
    ensures Trim(s) == s
  {
  }

  /** `message || fallback`: the message when it is not empty. */
  function MessageOr(message: string, fallback: string): (r: string)
    ensures message != "" ==> r == message
    ensures message == "" ==> r == fallback
  {
    if message != "" then message else fallback
  }

  /** The status column of the stage entry tables: "submitted" reads
      "Submitted", any other status "Assigned". */
  function StageStatus(s: string): (r: string)
    ensures r == "Submitted" || r == "Assigned"
    ensures r == "Submitted" <==> s == "submitted"
  {
    if s == "submitted" then "Submitted" else "Assigned"
  }

  /** `toLowerCase` on the ASCII letters; other characters are left as they are. */
  function LowerChar(c: char): char {
    if 'A' <= c <= 'Z' then (c as int + 32) as char else c
  }

  function Lower(s: string): (r: string)
    ensures |r| == |s| && forall i :: 0 <= i < |s| ==> r[i] == LowerChar(s[i])
  {
    seq(|s|, i requires 0 <= i < |s| => LowerChar(s[i]))
  }

  /** `s.includes(t)`. */
  predicate Contains(s: string, t: string)
    decreases |s|
  {
    (|t| <= |s| && s[..|t|] == t) || (s != [] && Contains(s[1..], t))
  }

  /** `t` occurring at position `k` of `s` is enough for `s.includes(t)`. */
  lemma {:induction false} ContainsAt(s: string, t: string, k: nat)
    requires k + |t| <= |s| && s[k..k + |t|] == t
    ensures Contains(s, t)
    decreases k
  {
    if k > 0 {
      assert s[1..][k - 1..k - 1 + |t|] == s[k..k + |t|];
      ContainsAt(s[1..], t, k - 1);
    }
  }

  /** What a string includes, any extension of it includes too. */
  lemma {:induction false} ContainsAppend(s: string, t: string, u: string)
    requires Contains(s, t)
    ensures Contains(s + u, t)
    decreases |s|
  {
    if |t| <= |s| && s[..|t|] == t {
      assert (s + u)[..|t|] == t;
    } else {
      assert (s + u)[1..] == s[1..] + u;
      ContainsAppend(s[1..], t, u);
    }
  }

  /** JavaScript's `a < b` on strings: lexicographic order on the characters. */
  predicate StringLess(a: string, b: string)
    decreases |a|
  {
    if a == [] then b != []
    else if b == [] then false
    else if a[0] != b[0] then a[0] < b[0]
    else StringLess(a[1..], b[1..])
  }

  /** Position of the first occurrence of `c`, like `indexOf`. */
  function IndexOf(s: string, c: char): (r: Option<nat>)
    ensures r.None? <==> c !in s
    ensures r.Some? ==> r.value < |s| && s[r.value] == c && c !in s[..r.value]
  {
    if s == [] then None
    else if s[0] == c then Some(0)
    else
      match IndexOf(s[1..], c)
      case None => None
      case Some(i) => assert s[..i + 1] == [s[0]] + s[1..][..i]; Some(i + 1)
  }

  /** `s.split(sep)` for a one-character separator: always at least one part. */
  function Split(s: string, sep: char): (r: seq<string>)
    ensures |r| >= 1
    ensures forall k :: 0 <= k < |r| ==> sep !in r[k]
    decreases |s|
  {
    match IndexOf(s, sep)
    case None => [s]
    case Some(i) => [s[..i]] + Split(s[i + 1..], sep)
  }

  /** `parts.join(sep)`. */
  function Join(parts: seq<string>, sep: char): string
    requires |parts| >= 1
  {
    if |parts| == 1 then parts[0] else parts[0] + [sep] + Join(parts[1..], sep)
  }

  /** Splitting and joining again gives back the original string. */
  lemma {:induction false} SplitJoin(s: string, sep: char)
    ensures Join(Split(s, sep), sep) == s
    decreases |s|
  {
    var o := IndexOf(s, sep);
    if o.Some? {
      var i := o.value;
      var rest := s[i + 1..];
      var parts := Split(rest, sep);
      assert Split(s, sep) == [s[..i]] + parts;
      SplitJoin(rest, sep);
      JoinCons(s[..i], parts, sep);
      assert Join(Split(s, sep), sep) == s[..i] + [sep] + rest;
      assert s == s[..i] + [sep] + rest;
    }
  }

  lemma JoinCons(head: string, tail: seq<string>, sep: char)
    requires |tail| >= 1
    ensures Join([head] + tail, sep) == head + [sep] + Join(tail, sep)
  {
    assert ([head] + tail)[1..] == tail;
  }

  /** The first part of a split is exactly the text before the first separator. */
  lemma SplitHead(pre: string, sep: char, rest: string)
    requires sep !in pre
    ensures Split(pre + [sep] + rest, sep)[0] == pre
  {
    var s := pre + [sep] + rest;
    assert s[|pre|] == sep;
    assert s[..|pre|] == pre;
    assert IndexOf(s, sep) == Some(|pre|);
  }

  lemma SplitNoSeparator(s: string, sep: char)
    requires sep !in s
    ensures Split(s, sep) == [s]
  {
  }
}
