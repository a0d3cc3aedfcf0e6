/**
  The printed grammar: documents with any whitespace between their tokens, their text and their
  value. On the text of every such document the parser returns the document's value and stops
  exactly behind it.
*/
module JsonGrammar {
  import opened Text
  import opened Tokens
  import opened Numbers
  import opened Json

  datatype Doc =
    | DNull
    | DBool(b: bool)
    | DNum(n: int)
    | DStr(s: string)
    | DArr(open: string, items: Items)
    | DObj(open: string, members: Members)

  /** `after` follows the value; `gap` follows the comma, if there is a next item. */
  datatype Items = INil | ICons(value: Doc, after: string, gap: string, rest: Items)

  datatype Members =
    | MNil
    | MCons(key: string, afterKey: string, beforeValue: string, value: Doc, after: string, gap: string, rest: Members)

  predicate DocWf(d: Doc) {
    match d
    case DArr(open, items) => AllSpace(open) && ItemsWf(items)
    case DObj(open, members) => AllSpace(open) && MembersWf(members)
    case _ => true
  }

  predicate ItemsWf(items: Items) {
    match items
    case INil => true
    case ICons(v, after, gap, rest) => DocWf(v) && AllSpace(after) && AllSpace(gap) && ItemsWf(rest)
  }

  predicate MembersWf(members: Members) {
    match members
    case MNil => true
    case MCons(_, afterKey, beforeValue, v, after, gap, rest) =>
      && AllSpace(afterKey) && AllSpace(beforeValue) && DocWf(v) && AllSpace(after) && AllSpace(gap)
      && MembersWf(rest)
  }

  function DocText(d: Doc): string
    decreases d, 0
  {
    match d
    case DNull => "null"
    case DBool(b) => if b then "true" else "false"
    case DNum(n) => IntText(n)
    case DStr(s) => Quote(s)
    case DArr(open, items) => "[" + open + ItemsText(items) + "]"
    case DObj(open, members) => "{" + open + MembersText(members) + "}"
  }

  function ItemsText(items: Items): string
    decreases items, 0
  {
    match items
    case INil => ""
    case ICons(v, after, gap, rest) => DocText(v) + (after + MoreItems(gap, rest))
  }

  function MoreItems(gap: string, rest: Items): string
    decreases rest, 1
  {
    if rest.INil? then "" else "," + (gap + ItemsText(rest))
  }

  function MembersText(members: Members): string
    decreases members, 0
  {
    match members
    case MNil => ""
    case MCons(key, afterKey, beforeValue, v, after, gap, rest) =>
      Quote(key) + (afterKey + (":" + (beforeValue + (DocText(v) + (after + MoreMembers(gap, rest))))))
  }

  function MoreMembers(gap: string, rest: Members): string
    decreases rest, 1
  {
    if rest.MNil? then "" else "," + (gap + MembersText(rest))
  }

  function DocValue(d: Doc): JsonVal {
    match d
    case DNull => Null
    case DBool(b) => Bool(b)
    case DNum(n) => Num(Printed(n))
    case DStr(s) => Str(s)
    case DArr(_, items) => Arr(ItemsValue(items))
    case DObj(_, members) => Obj(MembersValue(members, map[]))
  }

  function ItemsValue(items: Items): seq<JsonVal> {
    match items
    case INil => []
    case ICons(v, _, _, rest) => [DocValue(v)] + ItemsValue(rest)
  }

  /** A repeated key keeps its last value. */
  function MembersValue(members: Members, acc: map<string, JsonVal>): map<string, JsonVal> {
    match members
    case MNil => acc
    case MCons(key, _, _, v, _, _, rest) => MembersValue(rest, acc[key := DocValue(v)])
  }

  // ---------------------------------------------------------------------------
  // Text at a position

  predicate Occurs(s: string, p: nat, t: string) {
    p + |t| <= |s| && forall i :: 0 <= i < |t| ==> s[p + i] == t[i]
  }

  lemma OccursSplit(s: string, p: nat, a: string, b: string)
    requires Occurs(s, p, a + b)
    ensures Occurs(s, p, a) && Occurs(s, p + |a|, b)
  {
    forall i | 0 <= i < |a| ensures s[p + i] == a[i] {
      assert a[i] == (a + b)[i];
    }
    forall i | 0 <= i < |b| ensures s[p + |a| + i] == b[i] {
      assert b[i] == (a + b)[|a| + i];
    }
  }

  lemma OccursSplit3(s: string, p: nat, a: string, b: string, c: string)
    requires Occurs(s, p, a + (b + c))
    ensures Occurs(s, p, a) && Occurs(s, p + |a|, b) && Occurs(s, p + |a| + |b|, c)
  {
    OccursSplit(s, p, a, b + c);
    OccursSplit(s, p + |a|, b, c);
  }

  lemma OccursHead(s: string, p: nat, t: string)
    requires Occurs(s, p, t) && t != ""
    ensures p < |s| && s[p] == t[0]
  {
  }

  lemma {:induction false} SkipWsOver(s: string, p: nat, w: string)
    requires Occurs(s, p, w) && AllSpace(w)
    requires p + |w| < |s| ==> !IsSpace(s[p + |w|])
    ensures SkipWs(s, p) == p + |w|
    decreases |w|
  {
    if w != "" {
      assert w == [w[0]] + w[1..];
      OccursSplit(s, p, [w[0]], w[1..]);
      OccursHead(s, p, w);
      SkipWsOver(s, p + 1, w[1..]);
    }
  }

  /** Reading back an escaped string. */
  lemma {:induction false} StrLoopOver(s: string, p: nat, v: string, acc: string)
    requires Occurs(s, p, Escape(v) + "\"")
    ensures StrLoop(s, p, acc) == (acc + v, p + |Escape(v)| + 1)
    decreases |v|
  {
    if v == "" {
      OccursHead(s, p, Escape(v) + "\"");
      assert acc + v == acc;
    } else {
      var c := v[0];
      var head := if c == '\\' || c == '"' then ['\\', c] else [c];
      var rest := Escape(v[1..]) + "\"";
      assert Escape(v) + "\"" == head + rest;
      OccursSplit(s, p, head, rest);
      OccursHead(s, p, head);
      if |head| == 2 {
        assert s[p + 1] == head[1];
      }
      StrLoopOver(s, p + |head|, v[1..], acc + [c]);
      assert acc + [c] + v[1..] == acc + v by { assert v == [c] + v[1..]; }
    }
  }

  /** No character at the position continues a number. */
  predicate NumberEnds(s: string, p: nat) {
    p < |s| ==> !IsDigit(s[p]) && s[p] != '.' && s[p] != 'e' && s[p] != 'E'
  }

  lemma {:induction false} DigitsOver(s: string, p: nat, digits: string)
    requires Occurs(s, p, digits) && AllDigits(digits)
    requires p + |digits| < |s| ==> !IsDigit(s[p + |digits|])
    ensures DigitsEnd(s, p) == p + |digits|
    decreases |digits|
  {
    if digits != "" {
      assert digits == [digits[0]] + digits[1..];
      OccursSplit(s, p, [digits[0]], digits[1..]);
      OccursHead(s, p, digits);
      DigitsOver(s, p + 1, digits[1..]);
    }
  }

  lemma ScanDigits(s: string, p: nat, n: nat, negative: bool)
    requires Occurs(s, p, NatText(n)) && NumberEnds(s, p + |NatText(n)|)
    ensures ScanUnsigned(s, p, negative) == Number(Decimal(negative, n, 0), p + |NatText(n)|)
    ensures p < |s| && IsDigit(s[p])
  {
    var text := NatText(n);
    var e := p + |text|;
    OccursHead(s, p, text);
    DigitsOver(s, p, text);
    assert s[p..e] == text;
    PlainDigits(s, p, e, negative);
    NatTextValue(n);
  }

  /** Digits without a fraction or an exponent. */
  lemma PlainDigits(s: string, p: nat, e: nat, negative: bool)
    requires p < e <= |s| && e == DigitsEnd(s, p) && NumberEnds(s, e)
    ensures ScanUnsigned(s, p, negative) == Number(Decimal(negative, NatOf(s[p..e]), 0), e)
  {
    assert ScanFraction(s, e) == ("", e);
    assert ScanExponent(s, e) == (0, e);
    assert s[p..e] + "" == s[p..e];
  }

  /** The printed digits of an integer are read back, and the cursor stops behind them. */
  lemma ScanNumberOver(s: string, p: nat, n: int)
    requires Occurs(s, p, IntText(n)) && NumberEnds(s, p + |IntText(n)|)
    ensures ScanNumber(s, p) == Number(Printed(n), p + |IntText(n)|)
    ensures IntText(n)[0] == '-' || IsDigit(IntText(n)[0])
  {
    OccursHead(s, p, IntText(n));
    if n < 0 {
      OccursSplit(s, p, "-", NatText(-n));
      ScanDigits(s, p + 1, -n, true);
    } else {
      ScanDigits(s, p, n, false);
    }
  }

  lemma DocHead(d: Doc)
    ensures DocText(d) != "" && !IsSpace(DocText(d)[0])
    ensures DocText(d)[0] != ']' && DocText(d)[0] != '}' && DocText(d)[0] != ','
  {
    if d.DNum? {
      assert d.n >= 0 ==> IsDigit(NatText(d.n)[0]);
      assert d.n < 0 ==> IntText(d.n)[0] == '-';
    }
  }

  // ---------------------------------------------------------------------------
  // Parsing

  /** `after` and what follows the value cannot continue a number. */
  lemma AfterValue(s: string, p: nat, after: string, more: string)
    requires Occurs(s, p, after + more) && AllSpace(after)
    requires more != "" && (more[0] == ',' || more[0] == ']' || more[0] == '}')
    ensures NumberEnds(s, p) && SkipWs(s, p) == p + |after|
    ensures Occurs(s, p + |after|, more)
  {
    OccursSplit(s, p, after, more);
    OccursHead(s, p + |after|, more);
    SkipWsOver(s, p, after);
    if after != "" {
      OccursHead(s, p, after);
    }
  }

  /** Leading whitespace makes no difference to a value. */
  lemma SkipWsTwice(s: string, p: nat)
    ensures PValue(s, p) == PValue(s, SkipWs(s, p))
  {
    assert SkipWs(s, SkipWs(s, p)) == SkipWs(s, p);
  }

  /** The parser on any document of the grammar, wherever it stands and whatever whitespace precedes it. */
  lemma {:induction false} ParseDoc(s: string, p: nat, w: string, d: Doc)
    requires DocWf(d) && AllSpace(w) && Occurs(s, p, w + DocText(d))
    requires NumberEnds(s, p + |w| + |DocText(d)|)
    ensures PValue(s, p) == Done(DocValue(d), p + |w| + |DocText(d)|)
    decreases d, 1
  {
    var q := p + |w|;
    OccursSplit(s, p, w, DocText(d));
    DocHead(d);
    OccursHead(s, q, DocText(d));
    SkipWsOver(s, p, w);
    ParseDocAt(s, q, d);
    SkipWsTwice(s, p);
  }

  lemma ParseNumberAt(s: string, q: nat, n: int)
    requires Occurs(s, q, IntText(n)) && NumberEnds(s, q + |IntText(n)|)
    ensures PValue(s, q) == Done(Num(Printed(n)), q + |IntText(n)|)
  {
    ScanNumberOver(s, q, n);
    OccursHead(s, q, IntText(n));
    NumberHere(s, q, Printed(n), q + |IntText(n)|);
  }

  /** A digit or a minus sign starts a number. */
  lemma NumberHere(s: string, q: nat, n: Numeral, end: nat)
    requires q < |s| && (s[q] == '-' || IsDigit(s[q])) && ScanNumber(s, q) == Number(n, end)
    ensures PValue(s, q) == Done(Num(n), end)
  {
    assert SkipWs(s, q) == q;
    NumberStart(s[q]);
  }

  lemma NumberStart(c: char)
    requires c == '-' || IsDigit(c)
    ensures c != '"' && c != '[' && c != '{' && c != 't' && c != 'f' && c != 'n'
  {
  }

  lemma ParseStringAt(s: string, q: nat, v: string)
    requires Occurs(s, q, Quote(v))
    ensures PValue(s, q) == Done(Str(v), q + |Quote(v)|)
  {
    QuotedAt(s, q, v, "");
    assert Quote(v) + "" == Quote(v);
    OccursHead(s, q, Quote(v));
  }

  /** A quoted string and the text behind it. */
  lemma QuotedAt(s: string, q: nat, v: string, rest: string)
    requires Occurs(s, q, Quote(v) + rest)
    ensures StrLoop(s, q + 1, "") == (v, q + |Quote(v)|)
    ensures Occurs(s, q + |Quote(v)|, rest)
  {
    OccursSplit(s, q, Quote(v), rest);
    assert Quote(v) == "\"" + (Escape(v) + "\"");
    OccursSplit(s, q, "\"", Escape(v) + "\"");
    StrLoopOver(s, q + 1, v, "");
    assert "" + v == v;
  }

  /** An opening bracket, whitespace, and the rest of the document. */
  lemma OpenAt(s: string, q: nat, p: nat, bracket: string, open: string, rest: string)
    requires |bracket| == 1 && !IsSpace(bracket[0]) && p == q + 1 + |open|
    requires AllSpace(open) && rest != "" && !IsSpace(rest[0]) && Occurs(s, q, bracket + (open + rest))
    ensures p < |s| && Occurs(s, p, rest) && s[q] == bracket[0] && SkipWs(s, q) == q && SkipWs(s, q + 1) == p
  {
    OccursSplit3(s, q, bracket, open, rest);
    OccursHead(s, q, bracket);
    OccursHead(s, p, rest);
    SkipWsOver(s, q + 1, open);
  }

  lemma ParseWordAt(s: string, q: nat, d: Doc)
    requires (d.DNull? || d.DBool?) && Occurs(s, q, DocText(d))
    ensures PValue(s, q) == Done(DocValue(d), q + |DocText(d)|)
  {
    OccursHead(s, q, DocText(d));
  }

  lemma {:induction false} ParseDocAt(s: string, q: nat, d: Doc)
    requires DocWf(d) && Occurs(s, q, DocText(d))
    requires NumberEnds(s, q + |DocText(d)|)
    ensures PValue(s, q) == Done(DocValue(d), q + |DocText(d)|)
    decreases d, 0
  {
    match d
    case DNull => ParseWordAt(s, q, d);
    case DBool(_) => ParseWordAt(s, q, d);
    case DNum(n) => ParseNumberAt(s, q, n);
    case DStr(v) => ParseStringAt(s, q, v);
    case DArr(open, items) => ParseArrayAt(s, q, open, items);
    case DObj(open, members) => ParseObjectAt(s, q, open, members);
  }

  lemma OpenArray(s: string, q: nat, p: nat, open: string, items: Items)
    requires AllSpace(open) && Occurs(s, q, "[" + open + ItemsText(items) + "]") && p == q + 1 + |open|
    ensures p <= |s| && PValue(s, q) == ArrLoop(s, p, []) && Occurs(s, p, "" + ItemsText(items) + "]")
  {
    var rest := ItemsText(items) + "]";
    assert "[" + open + ItemsText(items) + "]" == "[" + (open + rest);
    ItemsHead(items);
    OpenAt(s, q, p, "[", open, rest);
    assert "" + ItemsText(items) + "]" == rest;
  }

  lemma {:induction false} ParseArrayAt(s: string, q: nat, open: string, items: Items)
    requires AllSpace(open) && ItemsWf(items) && Occurs(s, q, "[" + open + ItemsText(items) + "]")
    ensures PValue(s, q) == Done(Arr(ItemsValue(items)), q + |open| + |ItemsText(items)| + 2)
    decreases items, 3
  {
    var p := q + 1 + |open|;
    OpenArray(s, q, p, open, items);
    ParseItems(s, p, "", items, []);
    assert [] + ItemsValue(items) == ItemsValue(items);
  }

  lemma OpenObject(s: string, q: nat, p: nat, open: string, members: Members)
    requires AllSpace(open) && Occurs(s, q, "{" + open + MembersText(members) + "}") && p == q + 1 + |open|
    ensures p <= |s| && PValue(s, q) == ObjLoop(s, p, map[]) && Occurs(s, p, MembersText(members) + "}")
  {
    var rest := MembersText(members) + "}";
    assert "{" + open + MembersText(members) + "}" == "{" + (open + rest);
    MembersHead(members);
    OpenAt(s, q, p, "{", open, rest);
  }

  lemma {:induction false} ParseObjectAt(s: string, q: nat, open: string, members: Members)
    requires AllSpace(open) && MembersWf(members) && Occurs(s, q, "{" + open + MembersText(members) + "}")
    ensures PValue(s, q) == Done(Obj(MembersValue(members, map[])), q + |open| + |MembersText(members)| + 2)
    decreases members, 3
  {
    var p := q + 1 + |open|;
    OpenObject(s, q, p, open, members);
    ParseMembers(s, p, members, map[]);
  }

  lemma MembersHead(members: Members)
    ensures (MembersText(members) + "}")[0] == if members.MNil? then '}' else '"'
  {
  }

  lemma ItemsHead(items: Items)
    ensures ItemsText(items) == "" || !IsSpace(ItemsText(items)[0])
  {
    if items.ICons? {
      DocHead(items.value);
    }
  }

  /** One array iteration, given where its value ends and what stands behind it. */
  lemma ItemTurn(s: string, p: nat, value: JsonVal, end: nat, acc: seq<JsonVal>)
    requires p < end && SkipWs(s, end) < |s| && end <= |s| && s[p] != ']'
    requires PValue(s, p) == Done(value, end)
    ensures var r := SkipWs(s, end);
            ArrLoop(s, p, acc) == ArrLoop(s, if s[r] == ',' then r + 1 else r, acc + [value])
  {
    var r := SkipWs(s, end);
    assert PItem(s, p) == Turn("", value, if s[r] == ',' then r + 1 else r);
  }

  /** The array loop from any iteration on. */
  lemma {:induction false} ParseItems(s: string, p: nat, w: string, items: Items, acc: seq<JsonVal>)
    requires ItemsWf(items) && AllSpace(w) && (items.INil? ==> w == "")
    requires Occurs(s, p, w + ItemsText(items) + "]")
    ensures p <= |s|
    ensures ArrLoop(s, p, acc) == Done(Arr(acc + ItemsValue(items)), p + |w| + |ItemsText(items)| + 1)
    decreases items, 0
  {
    match items
    case INil =>
      assert w + ItemsText(items) + "]" == "]";
      OccursHead(s, p, "]");
      assert acc + [] == acc;
    case ICons(v, after, gap, rest) =>
      var more := MoreItems(gap, rest) + "]";
      assert w + ItemsText(items) + "]" == w + DocText(v) + (after + more);
      var r := ItemAt(s, p, w, v, after, more, acc);
      var acc' := acc + [DocValue(v)];
      ConcatAssoc(acc, [DocValue(v)], ItemsValue(rest));
      if rest.INil? {
        assert more == "]";
        assert acc' + ItemsValue(rest) == acc';
        ArrayEnds(s, r, acc');
      } else {
        assert more == "," + (gap + ItemsText(rest) + "]");
        OccursSplit(s, r, ",", gap + ItemsText(rest) + "]");
        ParseItems(s, r + 1, gap, rest, acc');
      }
  }

  lemma ArrayEnds(s: string, p: nat, acc: seq<JsonVal>)
    requires p < |s| && s[p] == ']'
    ensures ArrLoop(s, p, acc) == Done(Arr(acc), p + 1)
  {
  }

  /** One item of an array and the comma or bracket behind it, at `r`. */
  lemma {:induction false} ItemAt(s: string, p: nat, w: string, v: Doc, after: string, more: string, acc: seq<JsonVal>)
    returns (r: nat)
    requires AllSpace(w) && DocWf(v) && AllSpace(after) && more != "" && (more[0] == ',' || more[0] == ']')
    requires Occurs(s, p, w + DocText(v) + (after + more))
    ensures r == p + |w| + |DocText(v)| + |after| && Occurs(s, r, more) && r < |s| && s[r] == more[0]
    ensures ArrLoop(s, p, acc) == ArrLoop(s, if s[r] == ',' then r + 1 else r, acc + [DocValue(v)])
    decreases v, 2
  {
    var body := w + DocText(v);
    OccursSplit(s, p, body, after + more);
    DocHead(v);
    OccursHead(s, p, body);
    assert body[0] == if w != "" then w[0] else DocText(v)[0];
    var q := p + |body|;
    AfterValue(s, q, after, more);
    ParseDoc(s, p, w, v);
    r := q + |after|;
    OccursHead(s, r, more);
    ItemTurn(s, p, DocValue(v), q, acc);
  }

  /** The object loop from any iteration on. */
  lemma {:induction false} ParseMembers(s: string, p: nat, members: Members, acc: map<string, JsonVal>)
    requires MembersWf(members) && Occurs(s, p, MembersText(members) + "}")
    ensures p <= |s|
    ensures ObjLoop(s, p, acc) == Done(Obj(MembersValue(members, acc)), p + |MembersText(members)| + 1)
    decreases members, 0
  {
    match members
    case MNil =>
      assert MembersText(members) + "}" == "}";
      OccursHead(s, p, "}");
    case MCons(key, afterKey, beforeValue, v, after, gap, rest) =>
      var more := MoreMembers(gap, rest) + "}";
      MemberText(key, afterKey, beforeValue, v, after, gap, rest);
      var r, next := MemberAt(s, p, key, afterKey, beforeValue, v, after, more, acc);
      ParseMoreMembers(s, r, next, gap, rest, acc[key := DocValue(v)]);
  }

  /** What follows a member: the closing brace, or a comma and the other members. */
  lemma {:induction false} ParseMoreMembers(s: string, r: nat, next: nat, gap: string, rest: Members, acc: map<string, JsonVal>)
    requires AllSpace(gap) && MembersWf(rest) && Occurs(s, r, MoreMembers(gap, rest) + "}")
    requires r < |s| && next == if s[r] == ',' then r + 1 else r
    ensures ObjLoop(s, SkipWs(s, next), acc) ==
            Done(Obj(MembersValue(rest, acc)), r + |MoreMembers(gap, rest)| + 1)
    decreases rest, 1
  {
    if rest.MNil? {
      assert MoreMembers(gap, rest) + "}" == "}";
      OccursHead(s, r, "}");
      ObjectEnds(s, r, acc);
    } else {
      var p := r + 1 + |gap|;
      CommaThenMembers(s, r, p, gap, rest);
      ParseMembers(s, p, rest, acc);
    }
  }

  lemma CommaThenMembers(s: string, r: nat, p: nat, gap: string, rest: Members)
    requires rest.MCons? && AllSpace(gap) && Occurs(s, r, MoreMembers(gap, rest) + "}") && r < |s| && p == r + 1 + |gap|
    ensures s[r] == ',' && SkipWs(s, r + 1) == p && Occurs(s, p, MembersText(rest) + "}")
    ensures |MoreMembers(gap, rest)| == 1 + |gap| + |MembersText(rest)|
  {
    MembersHead(rest);
    assert MoreMembers(gap, rest) + "}" == "," + (gap + (MembersText(rest) + "}"));
    CommaAt(s, r, gap, MembersText(rest) + "}");
  }

  lemma CommaAt(s: string, r: nat, gap: string, tail: string)
    requires Occurs(s, r, "," + (gap + tail)) && AllSpace(gap) && tail != "" && !IsSpace(tail[0])
    ensures s[r] == ',' && SkipWs(s, r + 1) == r + 1 + |gap| && Occurs(s, r + 1 + |gap|, tail)
  {
    OccursSplit3(s, r, ",", gap, tail);
    OccursHead(s, r, ",");
    OccursHead(s, r + 1 + |gap|, tail);
    SkipWsOver(s, r + 1, gap);
  }

  lemma MemberText(key: string, afterKey: string, beforeValue: string, v: Doc, after: string, gap: string, rest: Members)
    ensures MembersText(MCons(key, afterKey, beforeValue, v, after, gap, rest)) + "}" ==
            Quote(key) + (afterKey + (":" + (beforeValue + DocText(v) + (after + (MoreMembers(gap, rest) + "}")))))
  {
    Reassociate(Quote(key), afterKey, ":", beforeValue, DocText(v), after, MoreMembers(gap, rest), "}");
  }

  lemma Reassociate(a: string, b: string, c: string, d: string, e: string, f: string, g: string, h: string)
    ensures a + (b + (c + (d + (e + (f + g))))) + h == a + (b + (c + (d + e + (f + (g + h)))))
  {
    ConcatAssoc(f, g, h);
    ConcatAssoc(d, e, f + g);
    ConcatAssoc(d + e, f + g, h);
    ConcatAssoc(c, d + e + (f + g), h);
    ConcatAssoc(b, c + (d + e + (f + g)), h);
    ConcatAssoc(a, b + (c + (d + e + (f + g))), h);
  }

  lemma ObjectEnds(s: string, p: nat, acc: map<string, JsonVal>)
    requires p < |s| && s[p] == '}'
    ensures SkipWs(s, p) == p && ObjLoop(s, p, acc) == Done(Obj(acc), p + 1)
  {
  }

  /** One object iteration, given where its parts end. */
  lemma MemberTurn(s: string, p: nat, key: string, u: nat, value: JsonVal, end: nat, acc: map<string, JsonVal>)
    requires p < end <= |s| && s[p] != '}' && SkipWs(s, end) < |s|
    requires StrLoop(s, p + 1, "").0 == key && SkipWs(s, StrLoop(s, p + 1, "").1) + 1 == u
    requires PValue(s, u) == Done(value, end)
    ensures var r := SkipWs(s, end);
            ObjLoop(s, p, acc) == ObjLoop(s, SkipWs(s, if s[r] == ',' then r + 1 else r), acc[key := value])
  {
    var r := SkipWs(s, end);
    assert PMember(s, p) == Turn(key, value, SkipWs(s, if s[r] == ',' then r + 1 else r));
  }

  /** The key and the colon. */
  lemma KeyAt(s: string, p: nat, key: string, afterKey: string, rest: string) returns (u: nat)
    requires AllSpace(afterKey) && Occurs(s, p, Quote(key) + (afterKey + (":" + rest)))
    ensures p < |s| && s[p] == '"' && u == p + |Quote(key)| + |afterKey| + 1 && Occurs(s, u, rest)
    ensures StrLoop(s, p + 1, "").0 == key && SkipWs(s, StrLoop(s, p + 1, "").1) + 1 == u
  {
    OccursHead(s, p, Quote(key) + (afterKey + (":" + rest)));
    QuotedAt(s, p, key, afterKey + (":" + rest));
    var q := p + |Quote(key)|;
    OccursSplit(s, q, afterKey, ":" + rest);
    OccursHead(s, q + |afterKey|, ":" + rest);
    SkipWsOver(s, q, afterKey);
    OccursSplit(s, q + |afterKey|, ":", rest);
    u := q + |afterKey| + 1;
  }

  /** One member of an object and the comma or brace behind it, at `r`. */
  lemma {:induction false} MemberAt(s: string, p: nat, key: string, afterKey: string, beforeValue: string, v: Doc,
                                    after: string, more: string, acc: map<string, JsonVal>)
    returns (r: nat, next: nat)
    requires AllSpace(afterKey) && AllSpace(beforeValue) && DocWf(v) && AllSpace(after)
    requires more != "" && (more[0] == ',' || more[0] == '}')
    requires Occurs(s, p, Quote(key) + (afterKey + (":" + (beforeValue + DocText(v) + (after + more)))))
    ensures r == p + |Quote(key)| + |afterKey| + 1 + |beforeValue| + |DocText(v)| + |after|
    ensures Occurs(s, r, more) && r < |s| && s[r] == more[0]
    ensures next == if s[r] == ',' then r + 1 else r
    ensures p <= |s| && ObjLoop(s, p, acc) == ObjLoop(s, SkipWs(s, next), acc[key := DocValue(v)])
    decreases v, 2
  {
    var body := beforeValue + DocText(v);
    var u := KeyAt(s, p, key, afterKey, body + (after + more));
    OccursSplit(s, u, body, after + more);
    var e := u + |body|;
    AfterValue(s, e, after, more);
    ParseDoc(s, u, beforeValue, v);
    r := e + |after|;
    OccursHead(s, r, more);
    next := if s[r] == ',' then r + 1 else r;
    MemberTurn(s, p, key, u, DocValue(v), e, acc);
  }

  lemma WholeText(t: string, after: string)
    requires AllSpace(after)
    ensures Occurs(t + after, 0, t) && NumberEnds(t + after, |t|)
  {
  }

  /**
    The whole text: for every document of the grammar with whitespace around it, the parser
    terminates, returns the document's value and stops exactly behind the document.
  */
  lemma ParseText(s: string, before: string, d: Doc, after: string)
    requires DocWf(d) && AllSpace(before) && AllSpace(after) && s == before + DocText(d) + after
    ensures PValue(s, 0) == Done(DocValue(d), |before| + |DocText(d)|)
  {
    WholeText(before + DocText(d), after);
    ParseDoc(s, 0, before, d);
  }

  /** The grammar is unambiguous up to value. */
  lemma SameTextSameValue(d: Doc, e: Doc)
    requires DocWf(d) && DocWf(e) && DocText(d) == DocText(e)
    ensures DocValue(d) == DocValue(e)
  {
    var s := DocText(d);
    assert "" + s + "" == s;
    ParseText(s, "", d, "");
    ParseText(s, "", e, "");
  }
}
