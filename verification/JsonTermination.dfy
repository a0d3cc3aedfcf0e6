/**
  When the parser returns. Its array loop repeats for ever at an element of which nothing can be read;
  this is the only way not to return, on any text.
*/
module JsonTermination {
  import opened Text
  import opened Numbers
  import opened Json

  /** Nothing can be read here: no value, no number and no comma starts with this character. */
  predicate NothingAt(s: string, p: nat)
    requires p < |s|
  {
    && !IsSpace(s[p]) && s[p] !in {'"', '[', '{', 't', 'f', 'n', ','}
    && ScanNumber(s, p) == NoNumber
  }

  /** An array iteration gets stuck exactly where nothing can be read, or where its value never ends. */
  lemma ItemStuck(s: string, p: nat)
    requires p < |s| && s[p] != ']'
    ensures PItem(s, p) == Stuck <==> PValue(s, p) == Diverges || NothingAt(s, p)
  {
    if IsSpace(s[p]) {
      assert SkipWs(s, p) > p;
    } else {
      assert SkipWs(s, p) == p;
    }
  }

  /** Parsing the value at `p` begins an array element at `r`, at any depth. */
  ghost predicate ValueElement(s: string, p: nat, r: nat)
    decreases Room(s, p), 2
  {
    var q := SkipWs(s, p);
    && q < |s|
    && ((s[q] == '[' && LoopElement(s, SkipWs(s, q + 1), r)) || (s[q] == '{' && MemberElement(s, SkipWs(s, q + 1), r)))
  }

  ghost predicate LoopElement(s: string, p: nat, r: nat)
    requires p <= |s|
    decreases Room(s, p), 4
  {
    && p < |s| && s[p] != ']'
    && (r == p || ValueElement(s, p, r) || (PItem(s, p).Turn? && LoopElement(s, PItem(s, p).next, r)))
  }

  ghost predicate MemberElement(s: string, p: nat, r: nat)
    requires p <= |s|
    decreases Room(s, p), 4
  {
    && p < |s| && s[p] != '}'
    && (ValueElement(s, MemberValue(s, p), r) || (PMember(s, p).Turn? && MemberElement(s, PMember(s, p).next, r)))
  }

  /** Where the value of the member at `p` starts. */
  function MemberValue(s: string, p: nat): (u: nat)
    ensures u > p || u > |s|
  {
    SkipWs(s, StrLoop(s, p + 1, "").1) + 1
  }

  lemma MemberStuck(s: string, p: nat)
    requires p < |s|
    ensures PMember(s, p) == Stuck <==> PValue(s, MemberValue(s, p)) == Diverges
  {
  }

  ghost predicate Blocked(s: string, r: nat) {
    r < |s| && NothingAt(s, r)
  }

  /** An element at which nothing can be read keeps the parser from returning. */
  lemma {:induction false} BlockedValue(s: string, p: nat, r: nat)
    requires ValueElement(s, p, r) && Blocked(s, r)
    ensures PValue(s, p) == Diverges
    decreases Room(s, p), 2
  {
    var q := SkipWs(s, p);
    if s[q] == '[' {
      BlockedLoop(s, SkipWs(s, q + 1), [], r);
    } else {
      BlockedMembers(s, SkipWs(s, q + 1), map[], r);
    }
  }

  lemma {:induction false} BlockedLoop(s: string, p: nat, acc: seq<JsonVal>, r: nat)
    requires p <= |s| && LoopElement(s, p, r) && Blocked(s, r)
    ensures ArrLoop(s, p, acc) == Diverges
    decreases Room(s, p), 4
  {
    ItemStuck(s, p);
    if ValueElement(s, p, r) {
      BlockedValue(s, p, r);
    } else if r != p {
      BlockedLoop(s, PItem(s, p).next, acc + [PItem(s, p).value], r);
    }
  }

  lemma {:induction false} BlockedMembers(s: string, p: nat, acc: map<string, JsonVal>, r: nat)
    requires p <= |s| && MemberElement(s, p, r) && Blocked(s, r)
    ensures ObjLoop(s, p, acc) == Diverges
    decreases Room(s, p), 4
  {
    MemberStuck(s, p);
    if ValueElement(s, MemberValue(s, p), r) {
      BlockedValue(s, MemberValue(s, p), r);
    } else {
      var turn := PMember(s, p);
      BlockedMembers(s, turn.next, acc[turn.key := turn.value], r);
    }
  }

  /** A parser that does not return has come to such an element. */
  lemma {:induction false} FindBlocked(s: string, p: nat) returns (r: nat)
    requires PValue(s, p) == Diverges
    ensures ValueElement(s, p, r) && Blocked(s, r)
    decreases Room(s, p), 2
  {
    var q := SkipWs(s, p);
    if s[q] == '[' {
      r := FindBlockedLoop(s, SkipWs(s, q + 1), []);
    } else {
      r := FindBlockedMembers(s, SkipWs(s, q + 1), map[]);
    }
  }

  lemma {:induction false} FindBlockedLoop(s: string, p: nat, acc: seq<JsonVal>) returns (r: nat)
    requires p <= |s| && ArrLoop(s, p, acc) == Diverges
    ensures LoopElement(s, p, r) && Blocked(s, r)
    decreases Room(s, p), 4
  {
    ItemStuck(s, p);
    if PValue(s, p) == Diverges {
      r := FindBlocked(s, p);
    } else if NothingAt(s, p) {
      r := p;
    } else {
      r := FindBlockedLoop(s, PItem(s, p).next, acc + [PItem(s, p).value]);
    }
  }

  lemma {:induction false} FindBlockedMembers(s: string, p: nat, acc: map<string, JsonVal>) returns (r: nat)
    requires p <= |s| && ObjLoop(s, p, acc) == Diverges
    ensures MemberElement(s, p, r) && Blocked(s, r)
    decreases Room(s, p), 4
  {
    MemberStuck(s, p);
    if PValue(s, MemberValue(s, p)) == Diverges {
      r := FindBlocked(s, MemberValue(s, p));
    } else {
      var turn := PMember(s, p);
      r := FindBlockedMembers(s, turn.next, acc[turn.key := turn.value]);
    }
  }

  /** On every text: the parser does not return exactly when it begins an array element of which nothing can be read. */
  lemma DivergesExactly(s: string, p: nat)
    ensures PValue(s, p) == Diverges <==> exists r :: ValueElement(s, p, r) && Blocked(s, r)
  {
    if PValue(s, p) == Diverges {
      var r := FindBlocked(s, p);
    }
    if exists r :: ValueElement(s, p, r) && Blocked(s, r) {
      var r :| ValueElement(s, p, r) && Blocked(s, r);
      BlockedValue(s, p, r);
    }
  }

  /** The element at which a text is blocked stands behind an opening bracket, so a text without one is never blocked. */
  lemma {:induction false} ElementNeedsBracket(s: string, p: nat, r: nat)
    requires '[' !in s
    ensures !ValueElement(s, p, r)
    decreases Room(s, p), 2
  {
    var q := SkipWs(s, p);
    if q < |s| && s[q] == '{' {
      MemberNeedsBracket(s, SkipWs(s, q + 1), r);
    }
  }

  lemma {:induction false} MemberNeedsBracket(s: string, p: nat, r: nat)
    requires '[' !in s && p <= |s|
    ensures !MemberElement(s, p, r)
    decreases Room(s, p), 4
  {
    if p < |s| && s[p] != '}' {
      ElementNeedsBracket(s, MemberValue(s, p), r);
      if PMember(s, p).Turn? {
        MemberNeedsBracket(s, PMember(s, p).next, r);
      }
    }
  }

  lemma ReturnsWithoutArrays(s: string, p: nat)
    requires '[' !in s
    ensures PValue(s, p).Done?
  {
    forall r ensures !ValueElement(s, p, r) {
      ElementNeedsBracket(s, p, r);
    }
    DivergesExactly(s, p);
  }

  /** The shortest blocked text. */
  lemma DivergesOutsideGrammar()
    ensures PValue("[x", 0) == Diverges
  {
    var s := "[x";
    assert SkipWs(s, 0) == 0 && SkipWs(s, 1) == 1;
    assert LoopElement(s, 1, 1) && Blocked(s, 1);
    assert ValueElement(s, 0, 1);
    DivergesExactly(s, 0);
  }
}
