/**
  The save file's parser: a cursor over the text and mutually recursive descent. `PValue` and its
  companions give the parser's result on every text, including those on which it never returns; the
  class `JsonParser` is the imperative parser, proved against them.
*/
module Json {
  import opened Text
  import opened Numbers

  /** A parsed value. Reading a part that a value does not have gives that part's default. */
  datatype JsonVal =
    | Null
    | Bool(b: bool)
    | Num(n: Numeral)
    | Str(s: string)
    | Arr(items: seq<JsonVal>)
    | Obj(members: map<string, JsonVal>)
  {
    function Get(key: string): JsonVal {
      if Obj? && key in members then members[key] else Null
    }

    function AsStr(): string {
      if Str? then s else ""
    }

    /** The double that was read, cast to an integer. */
    function AsNum(): int {
      if Num? then Truncate(DoubleOf(n)) else 0
    }

    function AsArray(): seq<JsonVal> {
      if Arr? then items else []
    }

    function AsObject(): map<string, JsonVal> {
      if Obj? then members else map[]
    }
  }

  // ---------------------------------------------------------------------------
  // What the parser computes

  /** `Diverges`: an array iteration that consumes nothing, and so repeats for ever. */
  datatype Parsed = Done(value: JsonVal, pos: nat) | Diverges

  function Clamp(s: string, p: nat): nat {
    if p < |s| then p else |s|
  }

  function Room(s: string, p: nat): nat {
    |s| - Clamp(s, p)
  }

  function SkipWs(s: string, p: nat): (q: nat)
    ensures Clamp(s, p) <= q <= |s|
    ensures q < |s| ==> !IsSpace(s[q])
    decreases Room(s, p)
  {
    if p >= |s| then |s| else if IsSpace(s[p]) then SkipWs(s, p + 1) else p
  }

  /** Reading at the end of a `std::string` gives the terminating zero; beyond it nothing may be read. */
  function At(s: string, p: nat): char
    requires p <= |s|
  {
    if p < |s| then s[p] else '\0'
  }

  function StrLoop(s: string, p: nat, acc: string): (r: (string, nat))
    ensures r.1 > p
    decreases Room(s, p)
  {
    if p < |s| && s[p] != '"' then
      if s[p] == '\\' then StrLoop(s, p + 2, acc + [At(s, p + 1)]) else StrLoop(s, p + 1, acc + [s[p]])
    else (acc, p + 1)
  }

  function SkipComma(s: string, p: nat): (q: nat)
    requires p <= |s|
    ensures p <= q <= |s|
  {
    if At(s, p) == ',' then p + 1 else p
  }

  function PValue(s: string, p: nat): (r: Parsed)
    ensures r.Done? ==> r.pos >= Clamp(s, p)
    decreases Room(s, p), 2
  {
    var q := SkipWs(s, p);
    if q >= |s| then Done(Null, q)
    else match s[q]
      case '"' => var (text, end) := StrLoop(s, q + 1, ""); Done(Str(text), end)
      case '[' => ArrLoop(s, SkipWs(s, q + 1), [])
      case '{' => ObjLoop(s, SkipWs(s, q + 1), map[])
      case 't' => Done(Bool(true), q + 4)
      case 'f' => Done(Bool(false), q + 5)
      case 'n' => Done(Null, q + 4)
      case _ =>
        match ScanNumber(s, q)
        case NoNumber => Done(Num(ZERO), q)
        case Number(n, end) => Done(Num(n), end)
  }

  /** One loop iteration: an array element (whose key is empty) or an object member, and the next position. */
  datatype Turn = Turn(key: string, value: JsonVal, next: nat) | Stuck

  function PItem(s: string, p: nat): (r: Turn)
    requires p < |s|
    ensures r.Turn? ==> p < r.next <= |s|
    decreases Room(s, p), 3
  {
    match PValue(s, p)
    case Done(v, q) =>
      var next := SkipComma(s, SkipWs(s, q));
      if next == p then Stuck else Turn("", v, next)
    case Diverges => Stuck
  }

  function PMember(s: string, p: nat): (r: Turn)
    requires p < |s|
    ensures r.Turn? ==> p < r.next <= |s|
    decreases Room(s, p), 3
  {
    var (key, afterKey) := StrLoop(s, p + 1, "");
    match PValue(s, SkipWs(s, afterKey) + 1)
    case Done(v, q) => Turn(key, v, SkipWs(s, SkipComma(s, SkipWs(s, q))))
    case Diverges => Stuck
  }

  function ArrLoop(s: string, p: nat, acc: seq<JsonVal>): (r: Parsed)
    requires p <= |s|
    ensures r.Done? ==> r.pos > p
    decreases Room(s, p), 4
  {
    if p < |s| && s[p] != ']' then
      match PItem(s, p)
      case Turn(_, v, next) => ArrLoop(s, next, acc + [v])
      case Stuck => Diverges
    else Done(Arr(acc), p + 1)
  }

  function ObjLoop(s: string, p: nat, acc: map<string, JsonVal>): (r: Parsed)
    requires p <= |s|
    ensures r.Done? ==> r.pos > p
    decreases Room(s, p), 4
  {
    if p < |s| && s[p] != '}' then
      match PMember(s, p)
      case Turn(key, v, next) => ObjLoop(s, next, acc[key := v])
      case Stuck => Diverges
    else Done(Obj(acc), p + 1)
  }

  // ---------------------------------------------------------------------------
  // The imperative parser

  class JsonParser {
    const src: string
    var pos: nat

    constructor (src: string)
      ensures this.src == src && pos == 0
    {
      this.src := src;
      pos := 0;
    }

    method SkipSpace()
      modifies this`pos
      ensures pos == SkipWs(src, old(pos))
    {
      if pos >= |src| {
        pos := |src|;
      }
      while pos < |src| && IsSpace(src[pos])
        invariant pos <= |src| && SkipWs(src, pos) == SkipWs(src, old(pos))
      {
        pos := pos + 1;
      }
    }

    method ParseStr() returns (result: string)
      modifies this`pos
      ensures (result, pos) == StrLoop(src, old(pos) + 1, "")
    {
      pos := pos + 1;
      result := "";
      while pos < |src| && src[pos] != '"'
        invariant StrLoop(src, pos, result) == StrLoop(src, old(pos) + 1, "")
        decreases |src| - pos
      {
        if src[pos] == '\\' {
          pos := pos + 1;
        }
        result := result + [At(src, pos)];
        pos := pos + 1;
      }
      pos := pos + 1;
    }

    method EndOfDigits(from: nat) returns (end: nat)
      requires from <= |src|
      ensures end == DigitsEnd(src, from)
    {
      end := from;
      while end < |src| && IsDigit(src[end])
        invariant from <= end <= |src| && DigitsEnd(src, end) == DigitsEnd(src, from)
      {
        end := end + 1;
      }
    }

    /** Sign, digits, fraction and exponent, or one of the special words; nothing else is consumed. */
    method ParseNum() returns (val: JsonVal)
      requires pos <= |src|
      modifies this`pos
      ensures match ScanNumber(src, old(pos))
              case Number(d, end) => val == Num(d) && pos == end
              case NoNumber => val == Num(ZERO) && pos == old(pos)
    {
      var negative := pos < |src| && src[pos] == '-';
      var r := ParseUnsigned(if negative then pos + 1 else pos, negative);
      match r
      case NoNumber => return Num(ZERO);
      case Number(d, end) =>
        pos := end;
        return Num(d);
    }

    method ParseUnsigned(start: nat, negative: bool) returns (r: Scan)
      requires start <= |src|
      ensures r == ScanUnsigned(src, start, negative)
    {
      var point := EndOfDigits(start);
      var fraction, stop := ParseFraction(point);
      if point == start && fraction == "" {
        return ScanSpecial(src, start, negative);
      }
      var x, end := ParseExponent(stop);
      return Number(Decimal(negative, NatOf(src[start..point] + fraction), x - |fraction|), end);
    }

    method ParseFraction(point: nat) returns (fraction: string, stop: nat)
      requires point <= |src|
      ensures (fraction, stop) == ScanFraction(src, point)
    {
      fraction, stop := "", point;
      if point < |src| && src[point] == '.' {
        stop := EndOfDigits(point + 1);
        fraction := src[point + 1..stop];
      }
    }

    method ParseExponent(from: nat) returns (x: int, end: nat)
      requires from <= |src|
      ensures (x, end) == ScanExponent(src, from)
    {
      if from == |src| || (src[from] != 'e' && src[from] != 'E') {
        return 0, from;
      }
      var start := from + 1;
      if start < |src| && (src[start] == '-' || src[start] == '+') {
        start := start + 1;
      }
      end := EndOfDigits(start);
      if end == start {
        return 0, from;
      }
      x := NatOf(src[start..end]);
      if src[from + 1] == '-' {
        x := -x;
      }
    }

    /** One iteration of the array loop. */
    method ParseItem() returns (item: JsonVal)
      requires pos < |src| && PItem(src, pos).Turn?
      modifies this`pos
      ensures PItem(src, old(pos)) == Turn("", item, pos)
      decreases Room(src, pos), 3
    {
      item := ParseValue();
      SkipSpace();
      if At(src, pos) == ',' {
        pos := pos + 1;
      }
    }

    method ParseArray() returns (val: JsonVal)
      requires pos < |src| && ArrLoop(src, SkipWs(src, pos + 1), []) != Diverges
      modifies this`pos
      ensures ArrLoop(src, SkipWs(src, old(pos) + 1), []) == Done(val, pos)
      decreases Room(src, pos), 1
    {
      ghost var goal := ArrLoop(src, SkipWs(src, pos + 1), []);
      pos := pos + 1;
      var arrVal: seq<JsonVal> := [];
      SkipSpace();
      while pos < |src| && src[pos] != ']'
        invariant old(pos) < pos <= |src|
        invariant ArrLoop(src, pos, arrVal) == goal
        decreases |src| - pos
      {
        var item := ParseItem();
        arrVal := arrVal + [item];
      }
      pos := pos + 1;
      return Arr(arrVal);
    }

    /** One iteration of the object loop. */
    method ParseMember() returns (key: string, item: JsonVal)
      requires pos < |src| && PMember(src, pos).Turn?
      modifies this`pos
      ensures PMember(src, old(pos)) == Turn(key, item, pos)
      decreases Room(src, pos), 3
    {
      key := ParseStr();
      SkipSpace();
      pos := pos + 1;
      item := ParseValue();
      SkipSpace();
      if At(src, pos) == ',' {
        pos := pos + 1;
      }
      SkipSpace();
    }

    method ParseObject() returns (val: JsonVal)
      requires pos < |src| && ObjLoop(src, SkipWs(src, pos + 1), map[]) != Diverges
      modifies this`pos
      ensures ObjLoop(src, SkipWs(src, old(pos) + 1), map[]) == Done(val, pos)
      decreases Room(src, pos), 1
    {
      ghost var goal := ObjLoop(src, SkipWs(src, pos + 1), map[]);
      pos := pos + 1;
      var objVal: map<string, JsonVal> := map[];
      SkipSpace();
      while pos < |src| && src[pos] != '}'
        invariant old(pos) < pos <= |src|
        invariant ObjLoop(src, pos, objVal) == goal
        decreases |src| - pos
      {
        var key, item := ParseMember();
        objVal := objVal[key := item];
      }
      pos := pos + 1;
      return Obj(objVal);
    }

    method ParseValue() returns (val: JsonVal)
      requires PValue(src, pos) != Diverges
      modifies this`pos
      ensures PValue(src, old(pos)) == Done(val, pos)
      decreases Room(src, pos), 2
    {
      SkipSpace();
      if pos >= |src| {
        return Null;
      }
      match src[pos]
      case '"' =>
        var text := ParseStr();
        return Str(text);
      case '[' => val := ParseArray();
      case '{' => val := ParseObject();
      case 't' =>
        pos := pos + 4;
        return Bool(true);
      case 'f' =>
        pos := pos + 5;
        return Bool(false);
      case 'n' =>
        pos := pos + 4;
        return Null;
      case _ => val := ParseNum();
    }
  }
}
