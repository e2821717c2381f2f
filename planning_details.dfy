/** The display rules of `components/pages/PlaningDetails.tsx`: the badge
    colour of a planning status, the status label, and the "-" shown for a
    missing date or metric. */
module PlanningDetails {
  import opened Common

  /** The badge colour: a lookup in the three known statuses, grey for any
      other value and for a missing status. */
  function StatusColor(status: Option<string>): (r: string)
    ensures status == Some("completed") ==> r == "bg-green-500"
    ensures status == Some("in_progress") ==> r == "bg-blue-500"
    ensures status == Some("on_hold") ==> r == "bg-yellow-500"
    ensures status.None? || status.value !in {"completed", "in_progress", "on_hold"} ==> r == "bg-gray-500"
  {
    var key := if status.Some? then status.value else "";
    if key == "completed" then "bg-green-500"
    else if key == "in_progress" then "bg-blue-500"
    else if key == "on_hold" then "bg-yellow-500"
    else "bg-gray-500"
  }

  /** `s.replace("_", " ")`: a string pattern replaces its first occurrence
      only. */
  function ReplaceFirstUnderscore(s: string): (r: string)
    ensures |r| == |s|
    ensures '_' !in s ==> r == s
  {
    match IndexOf(s, '_')
    case None => s
    case Some(i) => s[..i] + " " + s[i + 1..]
  }

  /** Only the first underscore becomes a space: everything before it and
      after it is kept. */
  lemma ReplaceFirstShape(s: string)
    requires '_' in s
    ensures exists i :: 0 <= i < |s| && s[i] == '_' && '_' !in s[..i] &&
                        ReplaceFirstUnderscore(s) == s[..i] + " " + s[i + 1..]
  {
    var i := IndexOf(s, '_').value;
    assert s[i] == '_' && '_' !in s[..i];
  }

  /** `\w`: an ASCII letter, digit or underscore. */
  predicate IsWordChar(c: char) {
    ('a' <= c <= 'z') || ('A' <= c <= 'Z') || ('0' <= c <= '9') || c == '_'
  }

  function UpperChar(c: char): char {
    if 'a' <= c <= 'z' then (c as int - 32) as char else c
  }

  /** Position `i` is matched by `\b\w`: a word character with no word
      character before it. */
  predicate WordStart(s: string, i: int)
    requires 0 <= i < |s|
  {
    IsWordChar(s[i]) && (i == 0 || !IsWordChar(s[i - 1]))
  }

  /** `s.replace(/\b\w/g, l => l.toUpperCase())`. */
  function CapitalizeWords(s: string): (r: string)
    ensures |r| == |s|
    ensures forall i :: 0 <= i < |s| ==> r[i] == (if WordStart(s, i) then UpperChar(s[i]) else s[i])
  {
    seq(|s|, i requires 0 <= i < |s| => if WordStart(s, i) then UpperChar(s[i]) else s[i])
  }

  /** The label under the badge; nothing when the status is missing. */
  function StatusLabel(status: Option<string>): (r: Option<string>)
    ensures r.None? <==> status.None?
    ensures r.Some? ==> |r.value| == |status.value|
  {
    match status
    case None => None
    case Some(s) => Some(CapitalizeWords(ReplaceFirstUnderscore(s)))
  }

  /** Upper-casing keeps a character a word character and keeps a
      non-word character as it is. */
  lemma UpperKeepsWordness(c: char)
    ensures IsWordChar(UpperChar(c)) <==> IsWordChar(c)
    ensures !IsWordChar(c) ==> UpperChar(c) == c
  {
  }

  /** Capitalising changes no character other than the first of each word,
      and that one only in case; so capitalising twice is capitalising once,
      and lower-casing undoes exactly what it did to letters. */
  lemma CapitalizeWordsProperties(s: string)
    ensures CapitalizeWords(CapitalizeWords(s)) == CapitalizeWords(s)
    ensures Lower(CapitalizeWords(s)) == Lower(s)
  {
    var r := CapitalizeWords(s);
    forall i | 0 <= i < |s| ensures IsWordChar(r[i]) <==> IsWordChar(s[i]) {
      UpperKeepsWordness(s[i]);
    }
    var rr := CapitalizeWords(r);
    forall i | 0 <= i < |s| ensures rr[i] == r[i] {
      assert WordStart(r, i) <==> WordStart(s, i);
    }
    forall i | 0 <= i < |s| ensures Lower(r)[i] == Lower(s)[i] {
      if WordStart(s, i) { assert r[i] == UpperChar(s[i]); }
    }
  }

  /** A word of lower-case ASCII letters. */
  predicate LowerWord(w: string) {
    w != [] && forall i :: 0 <= i < |w| ==> 'a' <= w[i] <= 'z'
  }

  /** The word with its first letter in upper case. */
  function Title(w: string): (r: string)
    requires w != []
    ensures |r| == |w| && r[1..] == w[1..]
  {
    [UpperChar(w[0])] + w[1..]
  }

  /** A space is a word boundary, so the two sides are capitalised on
      their own. */
  lemma CapitalizeAroundSpace(x: string, y: string)
    ensures CapitalizeWords(x + " " + y) == CapitalizeWords(x) + " " + CapitalizeWords(y)
  {
    var t := x + " " + y;
    var r := CapitalizeWords(t);
    var e := CapitalizeWords(x) + " " + CapitalizeWords(y);
    forall i | 0 <= i < |x| ensures r[i] == e[i] {
      assert t[i] == x[i];
      if i > 0 { assert t[i - 1] == x[i - 1]; }
      assert WordStart(t, i) <==> WordStart(x, i);
    }
    assert r[|x|] == e[|x|];
    forall i | |x| < i < |t| ensures r[i] == e[i] {
      var j := i - |x| - 1;
      assert t[i] == y[j];
      if j > 0 { assert t[i - 1] == y[j - 1]; }
      assert WordStart(t, i) <==> WordStart(y, j);
    }
  }

  /** A lower-case word is capitalised to its title case. */
  lemma CapitalizeLowerWord(w: string)
    requires LowerWord(w)
    ensures CapitalizeWords(w) == Title(w)
  {
    var r := CapitalizeWords(w);
    forall i | 0 <= i < |w| ensures r[i] == Title(w)[i] {
      if i > 0 { assert WordStart(w, i) <==> false; }
    }
  }

  /** The first underscore of `a + "_" + b` is the one after `a` when `a`
      has none. */
  lemma ReplaceJoined(a: string, b: string)
    requires '_' !in a
    ensures ReplaceFirstUnderscore(a + "_" + b) == a + " " + b
  {
    var s := a + "_" + b;
    assert s[|a|] == '_';
    assert s[..|a|] == a && s[|a| + 1..] == b;
  }

  /** A status made of two lower-case words joined by "_" (as
      "in_progress" and "on_hold" are) reads as the two words in title case
      with a space between them. */
  lemma TwoWordLabel(a: string, b: string)
    requires LowerWord(a) && LowerWord(b)
    ensures StatusLabel(Some(a + "_" + b)) == Some(Title(a) + " " + Title(b))
  {
    ReplaceJoined(a, b);
    CapitalizeAroundSpace(a, b);
    CapitalizeLowerWord(a);
    CapitalizeLowerWord(b);
  }

  /** A second underscore stays, and since '_' is a word character the
      letter after it is not capitalised: "a_b_c" reads "A B_c". */
  lemma SecondUnderscoreKept()
    ensures StatusLabel(Some("a_b_c")) == Some("A B_c")
  {
    var s := "a_b_c";
    assert IndexOf(s, '_') == Some(1);
    var t := ReplaceFirstUnderscore(s);
    assert t == s[..1] + " " + s[2..];
    assert t[0] == 'a' && t[1] == ' ' && t[2] == 'b' && t[3] == '_' && t[4] == 'c';
    var r := CapitalizeWords(t);
    assert r[0] == 'A' && r[1] == ' ' && r[2] == 'B' && r[3] == '_' && r[4] == 'c';
    assert r == "A B_c";
  }

  /** `formatDate`: "-" for an empty string or an invalid date; `locale`
      stands for `toLocaleString("en-GB", ...)` and gives `None` when the
      text is not a valid date. */
  function FormatDate(dateStr: string, locale: string -> Option<string>): (r: string)
    ensures dateStr == "" ==> r == "-"
    ensures dateStr != "" && locale(dateStr).None? ==> r == "-"
    ensures dateStr != "" && locale(dateStr).Some? ==> r == locale(dateStr).value
  {
    if dateStr == "" then "-"
    else match locale(dateStr)
      case None => "-"
      case Some(text) => text
  }

  /** `value ?? "-"`: only a missing value shows "-"; an empty or zero value
      is shown as it is. */
  function Cell(value: Option<string>): (r: string)
    ensures value.None? ==> r == "-"
    ensures value.Some? ==> r == value.value
  {
    if value.Some? then value.value else "-"
  }

  /** A percentage cell: `x != null ? `${x.toFixed(2)}%` : "-"`, with
      `fixed` standing for `toFixed(2)`. */
  function PercentCell(x: Option<real>, fixed: real -> string): (r: string)
    ensures x.None? <==> r == "-"
    ensures x.Some? ==> r == fixed(x.value) + "%"
  {
    if x.Some? then
      var text := fixed(x.value) + "%";
      assert text[|text| - 1] == '%';
      text
    else "-"
  }

  /** A money cell: `x != null ? `₹${x.toFixed(2)}` : "-"`. */
  function RupeeCell(x: Option<real>, fixed: real -> string): (r: string)
    ensures x.None? <==> r == "-"
    ensures x.Some? ==> r == "\U{20B9}" + fixed(x.value)
  {
    if x.Some? then
      var text := "\U{20B9}" + fixed(x.value);
      assert text[0] == '\U{20B9}';
      text
    else "-"
  }
}
