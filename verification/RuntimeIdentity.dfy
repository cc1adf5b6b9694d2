/** Signal and order ids built from the tick, the track and the local ordinal. */
module RuntimeIdentity {

  // ----- decimal digits -----

  function Digit(n: nat): char
    requires n < 10
  {
    ('0' as int + n) as char
  }

  function Decimal(n: nat): string {
    if n < 10 then [Digit(n)] else Decimal(n / 10) + [Digit(n % 10)]
  }

  function DigitValue(c: char): nat
    requires '0' <= c <= '9'
  {
    c as int - '0' as int
  }

  predicate AllDigits(s: string) {
    forall i :: 0 <= i < |s| ==> '0' <= s[i] <= '9'
  }

  /** Reads a numeral back. */
  function Numeral(s: string): nat
    requires AllDigits(s)
  {
    if s == [] then 0 else Numeral(s[..|s| - 1]) * 10 + DigitValue(s[|s| - 1])
  }

  lemma {:induction false} DecimalReadsBack(n: nat)
    ensures Decimal(n) != [] && AllDigits(Decimal(n)) && Numeral(Decimal(n)) == n
  {
    if n >= 10 {
      DecimalReadsBack(n / 10);
      var s := Decimal(n);
      assert s[..|s| - 1] == Decimal(n / 10);
      assert DigitValue(Digit(n % 10)) == n % 10;
    } else {
      assert Decimal(n)[..0] == [];
      assert DigitValue(Digit(n)) == n;
    }
  }

  // ----- stripping -----

  /** What Python counts as whitespace, ASCII separators and Unicode spaces included. */
  predicate IsSpace(c: char) {
    var code := c as int;
    || 0x09 <= code <= 0x0D || 0x1C <= code <= 0x20 || code == 0x85 || code == 0xA0 || code == 0x1680
    || 0x2000 <= code <= 0x200A || code == 0x2028 || code == 0x2029 || code == 0x202F || code == 0x205F
    || code == 0x3000
  }

  function StripLeft(s: string): string {
    if s != [] && IsSpace(s[0]) then StripLeft(s[1..]) else s
  }

  function StripRight(s: string): string {
    if s != [] && IsSpace(s[|s| - 1]) then StripRight(s[..|s| - 1]) else s
  }

  function Strip(s: string): string {
    StripRight(StripLeft(s))
  }

  lemma {:induction false} StripLeftCleans(s: string)
    ensures StripLeft(s) != [] ==> !IsSpace(StripLeft(s)[0])
  {
    if s != [] && IsSpace(s[0]) {
      StripLeftCleans(s[1..]);
    }
  }

  lemma {:induction false} StripRightCleans(s: string)
    ensures StripRight(s) <= s
    ensures StripRight(s) != [] ==> !IsSpace(StripRight(s)[|StripRight(s)| - 1])
  {
    if s != [] && IsSpace(s[|s| - 1]) {
      StripRightCleans(s[..|s| - 1]);
    }
  }

  /** Ids are stripped more than once on their way; it makes no difference. */
  lemma StripIsIdempotent(s: string)
    ensures Strip(Strip(s)) == Strip(s)
  {
    StripLeftCleans(s);
    StripRightCleans(StripLeft(s));
    var t := Strip(s);
    if t != [] {
      assert t[0] == StripLeft(s)[0];
      assert StripLeft(t) == t;
    }
  }

  /** Text without whitespace at either end is left alone. */
  lemma StripLeavesAlone(s: string)
    requires s != [] && !IsSpace(s[0]) && !IsSpace(s[|s| - 1])
    ensures Strip(s) == s
  {
    assert StripLeft(s) == s;
  }

  // ----- ids -----

  type Positive = n: int | 0 < n witness 1

  /** The constructor of the context refuses sequence numbers that are not positive. */
  datatype RuntimeExecutionContext = RuntimeExecutionContext(tickSequence: Positive, localSequence: Positive)

  datatype Id = Id(text: string) | TrackIdRequired

  function SignalId(context: RuntimeExecutionContext, trackId: string): Id
  {
    var track := Strip(trackId);
    if track == "" then TrackIdRequired
    else Id("SIG-" + Joined(context.tickSequence, track, context.localSequence))
  }

  function ClientOrderId(context: RuntimeExecutionContext, trackId: string): Id
  {
    var track := Strip(trackId);
    if track == "" then TrackIdRequired
    else Id("ORD-T" + Joined(context.tickSequence, track, context.localSequence))
  }

  function Joined(tick: nat, track: string, local: nat): string {
    Decimal(tick) + "-" + track + "-" + Decimal(local)
  }

  lemma {:induction false} DecimalIsInjective(m: nat, n: nat)
    ensures AllDigits(Decimal(m)) && AllDigits(Decimal(n))
    ensures Decimal(m) == Decimal(n) ==> m == n
  {
    DecimalReadsBack(m);
    DecimalReadsBack(n);
  }

  /** Digits before the first separator: the head of one string is no longer than the other's. */
  lemma HeadIsShort(a: string, x: string, b: string, y: string)
    requires AllDigits(a)
    requires a + "-" + x == b + "-" + y
    ensures |a| <= |b|
  {
    var s := a + "-" + x;
    assert forall k :: 0 <= k < |a| ==> s[k] == a[k];
    assert (b + "-" + y)[|b|] == '-';
  }

  lemma TailIsShort(x: string, a: string, y: string, b: string)
    requires AllDigits(a)
    requires x + "-" + a == y + "-" + b
    ensures |y| <= |x|
  {
    var s := x + "-" + a;
    assert forall k :: |x| < k < |s| ==> s[k] == a[k - |x| - 1];
    assert (y + "-" + b)[|y|] == '-';
  }

  /** Strings of the same form whose separators stand at the same place have the same parts. */
  lemma SamePlace(a: string, x: string, b: string, y: string)
    requires |a| == |b| && a + "-" + x == b + "-" + y
    ensures a == b && x == y
  {
    var s := a + "-" + x;
    assert a == s[..|a|] && b == s[..|a|];
    assert x == s[|a| + 1..] && y == s[|a| + 1..];
  }

  /** Digits, any text, digits: the first and the last hyphen are the separators. */
  lemma PartsAreUnique(a: string, x: string, b: string, a': string, x': string, b': string)
    requires AllDigits(a) && AllDigits(b) && AllDigits(a') && AllDigits(b')
    requires a + "-" + x + "-" + b == a' + "-" + x' + "-" + b'
    ensures a == a' && x == x' && b == b'
  {
    var rest, rest' := x + "-" + b, x' + "-" + b';
    assert a + "-" + rest == a + "-" + x + "-" + b;
    assert a' + "-" + rest' == a' + "-" + x' + "-" + b';
    HeadIsShort(a, rest, a', rest');
    HeadIsShort(a', rest', a, rest);
    SamePlace(a, rest, a', rest');
    TailIsShort(x, b, x', b');
    TailIsShort(x', b', x, b);
    SamePlace(x, b, x', b');
  }

  /** Tick, track and ordinal can be read back, even if the track contains hyphens and digits. */
  lemma JoinedIsInjective(tick: nat, track: string, local: nat, tick': nat, track': string, local': nat)
    requires Joined(tick, track, local) == Joined(tick', track', local')
    ensures tick == tick' && track == track' && local == local'
  {
    DecimalIsInjective(tick, tick');
    DecimalIsInjective(local, local');
    PartsAreUnique(Decimal(tick), track, Decimal(local), Decimal(tick'), track', Decimal(local'));
  }

  /** An id begins with its prefix and ends with a digit, so that stripping it again changes nothing. */
  lemma ClientOrderIdsAreStripped(context: RuntimeExecutionContext, trackId: string)
    requires Strip(trackId) != ""
    ensures ClientOrderId(context, trackId).Id? && ClientOrderId(context, trackId).text != ""
    ensures Strip(ClientOrderId(context, trackId).text) == ClientOrderId(context, trackId).text
  {
    var text, digits := ClientOrderId(context, trackId).text, Decimal(context.localSequence);
    DecimalReadsBack(context.localSequence);
    assert text[0] == 'O';
    assert text[|text| - 1] == digits[|digits| - 1];
    StripLeavesAlone(text);
  }

  /**
    Both kinds of id are injective in (tick, stripped track, ordinal): two evaluations have the same
    signal id exactly if they have the same client order id, and exactly if all three agree.
   */
  lemma IdsAreInjective(a: RuntimeExecutionContext, trackA: string, b: RuntimeExecutionContext, trackB: string)
    requires Strip(trackA) != "" && Strip(trackB) != ""
    ensures SignalId(a, trackA) == SignalId(b, trackB) <==> a == b && Strip(trackA) == Strip(trackB)
    ensures ClientOrderId(a, trackA) == ClientOrderId(b, trackB) <==> a == b && Strip(trackA) == Strip(trackB)
  {
    var x := Joined(a.tickSequence, Strip(trackA), a.localSequence);
    var y := Joined(b.tickSequence, Strip(trackB), b.localSequence);
    assert ("SIG-" + x)[4..] == x && ("SIG-" + y)[4..] == y;
    assert ("ORD-T" + x)[5..] == x && ("ORD-T" + y)[5..] == y;
    if x == y {
      JoinedIsInjective(a.tickSequence, Strip(trackA), a.localSequence, b.tickSequence, Strip(trackB), b.localSequence);
    }
  }
}
