/** The parser outside the printed grammar: every string, and every number with a fraction or an exponent. */
module JsonReading {
  import opened Text
  import opened Numbers
  import opened Json
  import opened JsonGrammar

  // ---------------------------------------------------------------------------
  // Strings

  /** A character as it stands, or any character behind a backslash. */
  datatype Piece = Chr(c: char) | Esc(c: char)

  predicate PiecesOk(ps: seq<Piece>) {
    forall i :: 0 <= i < |ps| ==> ps[i].Esc? || (ps[i].c != '"' && ps[i].c != '\\')
  }

  function PieceText(p: Piece): string {
    if p.Esc? then ['\\', p.c] else [p.c]
  }

  function PiecesText(ps: seq<Piece>): string {
    if ps == [] then "" else PieceText(ps[0]) + PiecesText(ps[1..])
  }

  function PiecesValue(ps: seq<Piece>): (v: string)
    ensures |v| == |ps| && forall i :: 0 <= i < |ps| ==> v[i] == ps[i].c
  {
    seq(|ps|, i requires 0 <= i < |ps| => ps[i].c)
  }

  lemma PieceOver(s: string, p: nat, piece: Piece, acc: string)
    requires piece.Esc? || (piece.c != '"' && piece.c != '\\')
    requires Occurs(s, p, PieceText(piece))
    ensures StrLoop(s, p, acc) == StrLoop(s, p + |PieceText(piece)|, acc + [piece.c])
  {
    OccursHead(s, p, PieceText(piece));
    assert piece.Esc? ==> s[p + 1] == PieceText(piece)[1];
  }

  lemma {:induction false} PiecesOver(s: string, p: nat, ps: seq<Piece>, acc: string)
    requires PiecesOk(ps) && Occurs(s, p, PiecesText(ps))
    ensures StrLoop(s, p, acc) == StrLoop(s, p + |PiecesText(ps)|, acc + PiecesValue(ps))
    decreases |ps|
  {
    if ps == [] {
      assert acc + PiecesValue(ps) == acc;
    } else {
      var head, more := PieceText(ps[0]), ps[1..];
      OccursSplit(s, p, head, PiecesText(more));
      PieceOver(s, p, ps[0], acc);
      PiecesOver(s, p + |head|, more, acc + [ps[0].c]);
      assert PiecesValue(ps) == [ps[0].c] + PiecesValue(more);
      ConcatAssoc(acc, [ps[0].c], PiecesValue(more));
    }
  }

  /** What stands behind the pieces of a string: its end, the end of the text, or a backslash with nothing behind it. */
  predicate StringStops(rest: string) {
    rest == "" || rest[0] == '"' || rest == "\\"
  }

  lemma {:induction false} CutPieces(t: string) returns (ps: seq<Piece>, rest: string)
    ensures PiecesOk(ps) && t == PiecesText(ps) + rest && StringStops(rest)
    decreases |t|
  {
    if StringStops(t) {
      ps, rest := [], t;
    } else {
      var piece := if t[0] == '\\' then Esc(t[1]) else Chr(t[0]);
      var n := |PieceText(piece)|;
      var more;
      more, rest := CutPieces(t[n..]);
      ps := [piece] + more;
      assert ps[1..] == more;
      assert t == PieceText(piece) + t[n..];
      ConcatAssoc(PieceText(piece), PiecesText(more), rest);
    }
  }

  lemma StringEnds(s: string, p: nat, acc: string)
    requires p <= |s| && StringStops(s[p..])
    ensures StrLoop(s, p, acc) ==
            if p == |s| || s[p] == '"' then (acc, p + 1) else (acc + ['\0'], p + 3)
  {
    assert p < |s| ==> s[p] == s[p..][0];
  }

  lemma QuoteOpens(s: string)
    requires s != "" && s[0] == '"'
    ensures PValue(s, 0) == Done(Str(StrLoop(s, 1, "").0), StrLoop(s, 1, "").1)
  {
  }

  /**
    On every text that starts with a quote: the string is read piece by piece, escaped characters standing
    for themselves, up to the closing quote or the end; a last backslash gives the terminating zero.
  */
  lemma AnyStringRead(t: string) returns (ps: seq<Piece>, rest: string)
    ensures PiecesOk(ps) && t == PiecesText(ps) + rest && StringStops(rest)
    ensures PValue("\"" + t, 0) ==
            if rest == "" then Done(Str(PiecesValue(ps)), |t| + 2)
            else if rest[0] == '"' then Done(Str(PiecesValue(ps)), |PiecesText(ps)| + 2)
            else Done(Str(PiecesValue(ps) + ['\0']), |t| + 3)
  {
    ps, rest := CutPieces(t);
    var s, text := "\"" + t, PiecesText(ps);
    PiecesRead(s, ps, rest);
    QuoteOpens(s);
  }

  lemma BehindQuote(s: string, text: string, rest: string, q: nat)
    requires s == "\"" + (text + rest) && q == 1 + |text|
    ensures Occurs(s, 1, text) && q <= |s| && s[q..] == rest
  {
  }

  lemma PiecesRead(s: string, ps: seq<Piece>, rest: string)
    requires PiecesOk(ps) && s == "\"" + (PiecesText(ps) + rest) && StringStops(rest)
    ensures StrLoop(s, 1, "") ==
            if rest == "" || rest[0] == '"' then (PiecesValue(ps), |PiecesText(ps)| + 2)
            else (PiecesValue(ps) + ['\0'], |PiecesText(ps)| + 4)
  {
    var text, value := PiecesText(ps), PiecesValue(ps);
    var q := 1 + |text|;
    BehindQuote(s, text, rest, q);
    PiecesOver(s, 1, ps, "");
    assert "" + value == value;
    StringEnds(s, q, value);
    assert rest != "" ==> s[q] == rest[0];
  }

  // ---------------------------------------------------------------------------
  // Numbers

  lemma Quotient(n: nat, unit: nat, q: int)
    requires unit > 0 && q == n / unit
    ensures q >= 0 && q * unit <= n < q * unit + unit
  {
    assert n == q * unit + n % unit;
  }

  lemma Negated(q: int, unit: int)
    ensures (-q) * unit == -(q * unit)
  {
  }

  /** The cast of a double to an integer drops what is behind the point, on both sides of zero. */
  lemma TruncatedTowardsZero(m: int, s: nat)
    ensures var t, unit := Truncate(Dyadic(m, s)), Pow2(s);
            if m >= 0 then t >= 0 && t * unit <= m < t * unit + unit else t <= 0 && t * unit - unit < m <= t * unit
  {
    Pow2Positive(s);
    var n := if m < 0 then -m else m;
    var t := Truncate(Dyadic(m, s));
    var q := if m < 0 then -t else t;
    Quotient(n, Pow2(s), q);
    Negated(q, Pow2(s));
  }

  datatype Exponent = Exponent(mark: char, sign: string, digits: string)

  predicate ExponentOk(e: Exponent) {
    && (e.mark == 'e' || e.mark == 'E') && (e.sign == "" || e.sign == "+" || e.sign == "-")
    && e.digits != "" && AllDigits(e.digits)
  }

  function ExponentText(e: Option<Exponent>): string {
    if e.None? then "" else [e.value.mark] + (e.value.sign + e.value.digits)
  }

  function ExponentValue(e: Option<Exponent>): int
    requires e.Some? ==> ExponentOk(e.value)
  {
    if e.None? then 0 else Signed(e.value.sign == "-", NatOf(e.value.digits))
  }

  function FractionText(fraction: Option<string>): string {
    if fraction.None? then "" else "." + fraction.value
  }

  function FractionDigits(fraction: Option<string>): string {
    if fraction.None? then "" else fraction.value
  }

  lemma ExponentOver(s: string, p: nat, e: Option<Exponent>, end: nat)
    requires (e.Some? ==> ExponentOk(e.value)) && end == p + |ExponentText(e)|
    requires Occurs(s, p, ExponentText(e)) && NumberEnds(s, end)
    ensures ScanExponent(s, p) == (ExponentValue(e), end)
  {
    if e.Some? {
      OccursSplit3(s, p, [e.value.mark], e.value.sign, e.value.digits);
      ExponentAt(s, p, e.value, p + 1 + |e.value.sign|);
    }
  }

  lemma ExponentAt(s: string, p: nat, e: Exponent, from: nat)
    requires ExponentOk(e) && from == p + 1 + |e.sign|
    requires Occurs(s, p, [e.mark]) && Occurs(s, p + 1, e.sign) && Occurs(s, from, e.digits)
    requires NumberEnds(s, from + |e.digits|)
    ensures ScanExponent(s, p) == (Signed(e.sign == "-", NatOf(e.digits)), from + |e.digits|)
  {
    SignAt(s, p, e, from);
    DigitsOver(s, from, e.digits);
    assert s[from..from + |e.digits|] == e.digits;
  }

  lemma SignAt(s: string, p: nat, e: Exponent, from: nat)
    requires ExponentOk(e) && from == p + 1 + |e.sign|
    requires Occurs(s, p, [e.mark]) && Occurs(s, p + 1, e.sign) && Occurs(s, from, e.digits)
    ensures from < |s| && s[p] == e.mark && (s[p + 1] == '-' <==> e.sign == "-")
    ensures s[p + 1] == '-' || s[p + 1] == '+' <==> from == p + 2
  {
    OccursHead(s, p, [e.mark]);
    OccursHead(s, from, e.digits);
    if e.sign != "" {
      OccursHead(s, p + 1, e.sign);
    }
  }

  lemma FractionOver(s: string, p: nat, fraction: Option<string>, stop: nat)
    requires AllDigits(FractionDigits(fraction)) && Occurs(s, p, FractionText(fraction)) && stop == p + |FractionText(fraction)|
    requires stop < |s| ==> !IsDigit(s[stop]) && s[stop] != '.'
    ensures ScanFraction(s, p) == (FractionDigits(fraction), stop)
  {
    if fraction.Some? {
      OccursSplit(s, p, ".", fraction.value);
      OccursHead(s, p, ".");
      DigitsOver(s, p + 1, fraction.value);
      assert s[p + 1..stop] == fraction.value;
    }
  }

  lemma BeforeExponent(s: string, stop: nat, e: Option<Exponent>)
    requires e.Some? ==> ExponentOk(e.value)
    requires Occurs(s, stop, ExponentText(e)) && (e.None? ==> NumberEnds(s, stop))
    ensures stop < |s| ==> !IsDigit(s[stop]) && s[stop] != '.'
  {
    if e.Some? {
      OccursHead(s, stop, ExponentText(e));
    }
  }

  lemma BeforeFraction(s: string, point: nat, fraction: Option<string>, stop: nat)
    requires Occurs(s, point, FractionText(fraction)) && stop == point + |FractionText(fraction)|
    requires stop < |s| ==> !IsDigit(s[stop])
    ensures point < |s| ==> !IsDigit(s[point])
  {
    if fraction.Some? {
      OccursHead(s, point, FractionText(fraction));
    }
  }

  lemma WholeOver(s: string, p: nat, whole: string, fraction: Option<string>, point: nat, stop: nat)
    requires AllDigits(whole) && point == p + |whole| && stop == point + |FractionText(fraction)|
    requires Occurs(s, p, whole) && Occurs(s, point, FractionText(fraction))
    requires stop < |s| ==> !IsDigit(s[stop])
    ensures DigitsEnd(s, p) == point && s[p..point] == whole
  {
    BeforeFraction(s, point, fraction, stop);
    DigitsOver(s, p, whole);
  }

  /** Nothing but the scanned parts matters. */
  lemma ScannedParts(s: string, p: nat, negative: bool, digits: string, point: nat, stop: nat)
    requires p <= point <= stop <= |s| && DigitsEnd(s, p) == point && ScanFraction(s, point).1 == stop
    requires point > p && AllDigits(digits) && digits == s[p..point] + ScanFraction(s, point).0
    ensures var (x, end) := ScanExponent(s, stop);
            ScanUnsigned(s, p, negative) == Number(Decimal(negative, NatOf(digits), x - |ScanFraction(s, point).0|), end)
  {
  }

  /** The digits before and behind the point. */
  predicate DigitsOf(digits: string, whole: string, fraction: Option<string>) {
    AllDigits(whole) && whole != "" && AllDigits(FractionDigits(fraction)) && AllDigits(digits)
    && digits == whole + FractionDigits(fraction)
  }

  /** The parts of a number without its sign: where they stand and where they end. */
  predicate Written(s: string, p: nat, whole: string, fraction: Option<string>, e: Option<Exponent>, point: nat, stop: nat, end: nat) {
    && point == p + |whole| && stop == point + |FractionText(fraction)| && end == stop + |ExponentText(e)|
    && Occurs(s, p, whole) && Occurs(s, point, FractionText(fraction)) && Occurs(s, stop, ExponentText(e))
  }

  lemma UnsignedOver(s: string, p: nat, negative: bool, whole: string, fraction: Option<string>, e: Option<Exponent>,
                     digits: string, point: nat, stop: nat, end: nat)
    requires DigitsOf(digits, whole, fraction) && (e.Some? ==> ExponentOk(e.value))
    requires Written(s, p, whole, fraction, e, point, stop, end) && NumberEnds(s, end)
    ensures ScanUnsigned(s, p, negative) ==
            Number(Decimal(negative, NatOf(digits), ExponentValue(e) - |FractionDigits(fraction)|), end)
  {
    PartsOver(s, p, whole, fraction, e, point, stop, end);
    PartsScanned(s, p, negative, whole, FractionDigits(fraction), digits, point, stop, ExponentValue(e), end);
  }

  lemma PartsOver(s: string, p: nat, whole: string, fraction: Option<string>, e: Option<Exponent>, point: nat, stop: nat, end: nat)
    requires AllDigits(whole) && whole != "" && AllDigits(FractionDigits(fraction)) && (e.Some? ==> ExponentOk(e.value))
    requires Written(s, p, whole, fraction, e, point, stop, end) && NumberEnds(s, end)
    ensures p < point <= stop <= |s| && DigitsEnd(s, p) == point && s[p..point] == whole
    ensures ScanFraction(s, point) == (FractionDigits(fraction), stop) && ScanExponent(s, stop) == (ExponentValue(e), end)
  {
    BeforeExponent(s, stop, e);
    WholeOver(s, p, whole, fraction, point, stop);
    FractionOver(s, point, fraction, stop);
    ExponentOver(s, stop, e, end);
  }

  lemma PartsScanned(s: string, p: nat, negative: bool, whole: string, fraction: string, digits: string, point: nat, stop: nat,
                     x: int, end: nat)
    requires p < point <= stop <= |s| && DigitsEnd(s, p) == point && s[p..point] == whole
    requires ScanFraction(s, point) == (fraction, stop) && ScanExponent(s, stop) == (x, end)
    requires AllDigits(digits) && digits == whole + fraction
    ensures ScanUnsigned(s, p, negative) == Number(Decimal(negative, NatOf(digits), x - |fraction|), end)
  {
    ScannedParts(s, p, negative, digits, point, stop);
  }

  function SignText(negative: bool): string {
    if negative then "-" else ""
  }

  /** The parts of a number, one behind the other. */
  lemma NumberParts(s: string, p: nat, sign: string, whole: string, fraction: string, exponent: string)
    requires Occurs(s, p, sign + (whole + (fraction + exponent)))
    ensures var q := p + |sign|;
            && Occurs(s, p, sign) && Occurs(s, q, whole)
            && Occurs(s, q + |whole|, fraction) && Occurs(s, q + |whole| + |fraction|, exponent)
  {
    OccursSplit(s, p, sign, whole + (fraction + exponent));
    OccursSplit3(s, p + |sign|, whole, fraction, exponent);
  }

  /**
    Every decimal number is read to its last digit: the digits before and behind the point are one
    number, scaled by the exponent less the digits behind the point.
  */
  lemma NumberRead(s: string, p: nat, negative: bool, whole: string, fraction: Option<string>, e: Option<Exponent>, digits: string)
    requires DigitsOf(digits, whole, fraction) && (e.Some? ==> ExponentOk(e.value))
    requires Occurs(s, p, SignText(negative) + (whole + (FractionText(fraction) + ExponentText(e))))
    requires NumberEnds(s, p + |SignText(negative)| + |whole| + |FractionText(fraction)| + |ExponentText(e)|)
    ensures PValue(s, p) == Done(Num(Decimal(negative, NatOf(digits), ExponentValue(e) - |FractionDigits(fraction)|)),
                                 p + |SignText(negative)| + |whole| + |FractionText(fraction)| + |ExponentText(e)|)
  {
    var q := p + |SignText(negative)|;
    var point := q + |whole|;
    var stop := point + |FractionText(fraction)|;
    NumberParts(s, p, SignText(negative), whole, FractionText(fraction), ExponentText(e));
    UnsignedOver(s, q, negative, whole, fraction, e, digits, point, stop, stop + |ExponentText(e)|);
    SignThenDigits(s, p, negative, whole, q);
    SignedHere(s, p, q, negative, Decimal(negative, NatOf(digits), ExponentValue(e) - |FractionDigits(fraction)|),
               stop + |ExponentText(e)|);
  }

  lemma SignThenDigits(s: string, p: nat, negative: bool, whole: string, q: nat)
    requires Occurs(s, p, SignText(negative)) && Occurs(s, q, whole) && q == p + |SignText(negative)|
    requires AllDigits(whole) && whole != ""
    ensures q < |s| && IsDigit(s[q]) && if negative then q == p + 1 && s[p] == '-' else q == p
  {
    OccursHead(s, q, whole);
    if negative {
      OccursHead(s, p, "-");
    }
  }

  lemma SignedHere(s: string, p: nat, q: nat, negative: bool, n: Numeral, end: nat)
    requires p <= q < |s| && IsDigit(s[q]) && ScanUnsigned(s, q, negative) == Number(n, end)
    requires if negative then q == p + 1 && s[p] == '-' else q == p
    ensures PValue(s, p) == Done(Num(n), end)
  {
    SignedScan(s, p, q, negative, n, end);
    NumberHere(s, p, n, end);
  }

  lemma SignedScan(s: string, p: nat, q: nat, negative: bool, n: Numeral, end: nat)
    requires p <= q < |s| && IsDigit(s[q]) && ScanUnsigned(s, q, negative) == Number(n, end)
    requires if negative then q == p + 1 && s[p] == '-' else q == p
    ensures ScanNumber(s, p) == Number(n, end) && (s[p] == '-' || IsDigit(s[p]))
  {
  }
}
