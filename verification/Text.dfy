/** Whitespace, words and whitespace runs: what `std::istream >> std::string` sees of a text. */
module Text {

  datatype Option<+T> = None | Some(value: T)

  lemma ConcatAssoc<T>(a: seq<T>, b: seq<T>, c: seq<T>)
    ensures a + (b + c) == a + b + c
  {
  }

  function MapSeq<T(!new), U>(xs: seq<T>, f: T -> U): (r: seq<U>)
    ensures |r| == |xs| && forall i :: 0 <= i < |xs| ==> r[i] == f(xs[i])
  {
    seq(|xs|, i requires 0 <= i < |xs| => f(xs[i]))
  }

  /** `std::isspace` in the C locale. */
  predicate IsSpace(c: char) {
    c == ' ' || c == '\t' || c == '\n' || c == '\r' || c == '\U{0B}' || c == '\U{0C}'
  }

  predicate NoSpace(s: string) {
    forall i :: 0 <= i < |s| ==> !IsSpace(s[i])
  }

  predicate AllSpace(s: string) {
    forall i :: 0 <= i < |s| ==> IsSpace(s[i])
  }

  /** The text can follow a complete word. */
  predicate WordEnd(s: string) {
    s == "" || IsSpace(s[0])
  }

  predicate NonEmptyWords(ws: seq<string>) {
    forall i :: 0 <= i < |ws| ==> ws[i] != ""
  }

  /** Length of the leading whitespace run. */
  function LeadSpace(s: string): (n: nat)
    ensures n <= |s| && AllSpace(s[..n])
    ensures n < |s| ==> !IsSpace(s[n])
  {
    if s == "" || !IsSpace(s[0]) then 0
    else
      var m := LeadSpace(s[1..]);
      assert s[..m + 1] == [s[0]] + s[1..][..m];
      m + 1
  }

  /** Length of the leading run of non-whitespace. */
  function LeadWord(s: string): (n: nat)
    ensures n <= |s| && NoSpace(s[..n])
    ensures n < |s| ==> IsSpace(s[n])
  {
    if s == "" || IsSpace(s[0]) then 0
    else
      var m := LeadWord(s[1..]);
      assert s[..m + 1] == [s[0]] + s[1..][..m];
      m + 1
  }

  /** The words that repeated extraction from a stream over `s` yields. */
  function Words(s: string): (ws: seq<string>)
    ensures NonEmptyWords(ws)
    ensures forall i :: 0 <= i < |ws| ==> NoSpace(ws[i])
    decreases |s|
  {
    if s == "" then []
    else if IsSpace(s[0]) then Words(s[1..])
    else
      var n := LeadWord(s);
      [s[..n]] + Words(s[n..])
  }

  lemma {:induction false} WordsAfterSpace(a: string, s: string)
    requires AllSpace(a)
    ensures Words(a + s) == Words(s)
  {
    if a == "" {
      assert a + s == s;
    } else {
      assert (a + s)[1..] == a[1..] + s;
      WordsAfterSpace(a[1..], s);
    }
  }

  lemma {:induction false} LeadWordIs(w: string, s: string)
    requires NoSpace(w) && WordEnd(s)
    ensures LeadWord(w + s) == |w|
  {
    if w == "" {
      assert w + s == s;
    } else {
      assert (w + s)[1..] == w[1..] + s;
      LeadWordIs(w[1..], s);
    }
  }

  lemma WordsOfWord(w: string, s: string)
    requires w != "" && NoSpace(w) && WordEnd(s)
    ensures Words(w + s) == [w] + Words(s)
  {
    LeadWordIs(w, s);
    assert (w + s)[..|w|] == w && (w + s)[|w|..] == s;
  }

  /** Words of a text cut at a word boundary. */
  lemma {:induction false} WordsSplit(a: string, b: string)
    requires WordEnd(b)
    ensures Words(a + b) == Words(a) + Words(b)
    decreases |a|
  {
    if a == "" {
      assert a + b == b;
    } else if IsSpace(a[0]) {
      assert (a + b)[1..] == a[1..] + b;
      WordsSplit(a[1..], b);
    } else {
      var n := LeadWord(a);
      var w, rest := a[..n], a[n..];
      assert a == w + rest;
      WordsSplit(rest, b);
      assert a + b == w + (rest + b);
      assert WordEnd(rest + b);
      WordsOfWord(w, rest + b);
      assert Words(a) == [w] + Words(rest);
    }
  }

  lemma {:induction false} WordsOfSpace(a: string)
    requires AllSpace(a)
    ensures Words(a) == []
  {
    WordsAfterSpace(a, "");
    assert a + "" == a;
  }

  // ---------------------------------------------------------------------------
  // Whitespace runs

  /** Every maximal whitespace run replaced by one space. */
  function Collapse(s: string): (r: string)
    decreases |s|
  {
    if s == "" then ""
    else if IsSpace(s[0]) then
      var n := LeadSpace(s);
      " " + Collapse(s[n..])
    else [s[0]] + Collapse(s[1..])
  }

  /** Whitespace occurs only as isolated single spaces. */
  predicate Normal(s: string) {
    && (forall i :: 0 <= i < |s| && IsSpace(s[i]) ==> s[i] == ' ')
    && (forall i :: 0 < i < |s| ==> !(IsSpace(s[i - 1]) && IsSpace(s[i])))
  }

  lemma {:induction false} CollapseNormal(s: string)
    ensures Normal(Collapse(s))
    ensures s != "" ==> Collapse(s) != "" && (IsSpace(Collapse(s)[0]) <==> IsSpace(s[0]))
    decreases |s|
  {
    if s == "" {
    } else if IsSpace(s[0]) {
      var rest := s[LeadSpace(s)..];
      CollapseNormal(rest);
      var c := Collapse(rest);
      assert Collapse(s) == " " + c;
      forall i | 0 < i < |" " + c| ensures !(IsSpace((" " + c)[i - 1]) && IsSpace((" " + c)[i])) {
        assert (" " + c)[i] == c[i - 1];
        if i > 1 { assert (" " + c)[i - 1] == c[i - 2]; }
      }
    } else {
      CollapseNormal(s[1..]);
      var c := Collapse(s[1..]);
      assert Collapse(s) == [s[0]] + c;
      forall i | 0 < i < |[s[0]] + c| ensures !(IsSpace(([s[0]] + c)[i - 1]) && IsSpace(([s[0]] + c)[i])) {
        assert ([s[0]] + c)[i] == c[i - 1];
        if i > 1 { assert ([s[0]] + c)[i - 1] == c[i - 2]; }
      }
    }
  }

  /** `Normal` is exactly the set of texts that collapsing leaves alone. */
  lemma {:induction false} NormalIffCollapsed(s: string)
    ensures Normal(s) <==> Collapse(s) == s
  {
    if Normal(s) {
      NormalIsFixed(s);
    } else if Collapse(s) == s {
      CollapseNormal(s);
    }
  }

  lemma {:induction false} NormalIsFixed(s: string)
    requires Normal(s)
    ensures Collapse(s) == s
    decreases |s|
  {
    if s == "" {
    } else {
      var t := s[1..];
      assert Normal(t) by {
        forall i | 0 < i < |t| ensures !(IsSpace(t[i - 1]) && IsSpace(t[i])) {
          assert t[i] == s[i + 1] && t[i - 1] == s[i];
        }
      }
      NormalIsFixed(t);
      assert s == [s[0]] + t;
      if IsSpace(s[0]) {
        assert |s| > 1 ==> !IsSpace(s[1]);
        assert LeadSpace(t) == 0;
        assert LeadSpace(s) == 1;
      }
    }
  }

  /** Normal text has no line break, so it cannot cut a frame. */
  lemma NormalHasNoNewline(s: string)
    requires Normal(s)
    ensures '\n' !in s
  {
    if '\n' in s {
      var i :| 0 <= i < |s| && s[i] == '\n';
      assert IsSpace(s[i]);
    }
  }

  lemma NoSpaceIsNormal(s: string)
    requires NoSpace(s)
    ensures Normal(s)
  {
  }

  /** Number of non-whitespace characters. */
  function Solid(s: string): (n: nat) {
    if s == "" then 0 else (if IsSpace(s[0]) then 0 else 1) + Solid(s[1..])
  }

  lemma {:induction false} SolidConcat(a: string, b: string)
    ensures Solid(a + b) == Solid(a) + Solid(b)
  {
    if a == "" {
      assert a + b == b;
    } else {
      assert (a + b)[1..] == a[1..] + b;
      SolidConcat(a[1..], b);
    }
  }

  lemma {:induction false} SolidOfSpace(a: string)
    requires AllSpace(a)
    ensures Solid(a) == 0
  {
    if a != "" { SolidOfSpace(a[1..]); }
  }

  /** Collapsing loses whitespace only. */
  lemma {:induction false} SolidCollapse(s: string)
    ensures Solid(Collapse(s)) == Solid(s)
    decreases |s|
  {
    if s == "" {
    } else if IsSpace(s[0]) {
      var n := LeadSpace(s);
      SolidCollapse(s[n..]);
      assert s == s[..n] + s[n..];
      SolidConcat(s[..n], s[n..]);
      SolidOfSpace(s[..n]);
      SolidConcat(" ", Collapse(s[n..]));
    } else {
      SolidCollapse(s[1..]);
      SolidConcat([s[0]], Collapse(s[1..]));
    }
  }

  /** Words joined by one space. */
  function Join(ws: seq<string>): (r: string) {
    if ws == [] then ""
    else if |ws| == 1 then ws[0]
    else ws[0] + " " + Join(ws[1..])
  }

  lemma {:induction false} CollapseWord(w: string, s: string)
    requires NoSpace(w)
    ensures Collapse(w + s) == w + Collapse(s)
  {
    if w == "" {
      assert w + s == s;
    } else {
      assert (w + s)[1..] == w[1..] + s;
      CollapseWord(w[1..], s);
    }
  }

  lemma {:induction false} CollapseSpaces(a: string, s: string)
    requires a != "" && AllSpace(a) && (s == "" || !IsSpace(s[0]))
    ensures Collapse(a + s) == " " + Collapse(s)
  {
    LeadSpaceIs(a, s);
    assert (a + s)[|a|..] == s;
  }

  lemma {:induction false} LeadSpaceIs(a: string, s: string)
    requires AllSpace(a) && (s == "" || !IsSpace(s[0]))
    ensures LeadSpace(a + s) == |a|
  {
    if a == "" {
      assert a + s == s;
    } else {
      assert (a + s)[1..] == a[1..] + s;
      LeadSpaceIs(a[1..], s);
    }
  }

  lemma FirstWord(s: string) returns (w: string, rest: string)
    requires s != "" && !IsSpace(s[0])
    ensures s == w + rest && w != "" && Words(s) == [w] + Words(rest) && Collapse(s) == w + Collapse(rest)
    ensures rest == "" || IsSpace(rest[0])
  {
    var n := LeadWord(s);
    w, rest := s[..n], s[n..];
    assert s == w + rest && n > 0;
    WordsOfWord(w, rest);
    CollapseWord(w, rest);
  }

  lemma FirstGap(rest: string) returns (gap: string, tail: string)
    requires rest != "" && IsSpace(rest[0]) && !IsSpace(rest[|rest| - 1])
    ensures rest == gap + tail && gap != "" && tail != "" && !IsSpace(tail[0]) && tail[|tail| - 1] == rest[|rest| - 1]
    ensures Words(rest) == Words(tail) && Collapse(rest) == " " + Collapse(tail)
  {
    var m := LeadSpace(rest);
    gap, tail := rest[..m], rest[m..];
    assert rest == gap + tail;
    WordsAfterSpace(gap, tail);
    CollapseSpaces(gap, tail);
  }

  /** Between a solid first and a solid last character, the words carry the whole collapsed text. */
  lemma {:induction false} JoinOfWords(s: string)
    requires s != "" && !IsSpace(s[0]) && !IsSpace(s[|s| - 1])
    ensures Words(s) != [] && Join(Words(s)) == Collapse(s)
    decreases |s|
  {
    var w, rest := FirstWord(s);
    if rest == "" {
      assert Words(s) == [w];
    } else {
      assert rest[|rest| - 1] == s[|s| - 1];
      var gap, tail := FirstGap(rest);
      JoinOfWords(tail);
      JoinCons(w, Words(tail));
      ConcatAssoc(w, " ", Collapse(tail));
    }
  }

  lemma JoinCons(w: string, ws: seq<string>)
    requires ws != []
    ensures Join([w] + ws) == w + " " + Join(ws)
  {
    assert ([w] + ws)[1..] == ws;
  }
}
