/** Registered market streams: their timeframes, labels and order. */
module Streams {

  datatype TimeFrameUnit = Second | Minute | Hour | Day | Month

  datatype TimeFrame = TimeFrame(amount: nat, unit: TimeFrameUnit)

  function Digit(d: nat): char
    requires d < 10
  {
    "0123456789"[d]
  }

  function Digits(n: nat): string {
    if n < 10 then [Digit(n)] else Digits(n / 10) + [Digit(n % 10)]
  }

  function Suffix(unit: TimeFrameUnit): string {
    match unit
    case Second => "s"
    case Minute => "m"
    case Hour => "h"
    case Day => "d"
    case Month => "mo"
  }

  /** `compact_label`: one minute and one month differ only in the suffix. */
  function CompactLabel(t: TimeFrame): string {
    Digits(t.amount) + Suffix(t.unit)
  }

  lemma DigitInjective(a: nat, b: nat)
    requires a < 10 && b < 10 && Digit(a) == Digit(b)
    ensures a == b
  {
  }

  lemma DigitsNonempty(n: nat)
    ensures |Digits(n)| > 0
  {
  }

  /** Equal texts with equally long endings agree in both parts. */
  lemma SameEnding(a: string, b: string, u: string, v: string)
    requires a + u == b + v && |u| == |v|
    ensures a == b && u == v
  {
    assert (a + u)[..|a|] == a && (b + v)[..|b|] == b;
    assert (a + u)[|a|..] == u && (b + v)[|b|..] == v;
  }

  lemma {:induction false} DigitsInjective(a: nat, b: nat)
    requires Digits(a) == Digits(b)
    ensures a == b
  {
    DigitsNonempty(a / 10);
    DigitsNonempty(b / 10);
    if a >= 10 && b >= 10 {
      SameEnding(Digits(a / 10), Digits(b / 10), [Digit(a % 10)], [Digit(b % 10)]);
      assert [Digit(a % 10)][0] == [Digit(b % 10)][0];
      DigitInjective(a % 10, b % 10);
      DigitsInjective(a / 10, b / 10);
    } else if a < 10 && b < 10 {
      assert Digits(a)[0] == Digits(b)[0];
      DigitInjective(a, b);
    }
  }

  function Last(s: string): char
    requires s != []
  {
    s[|s| - 1]
  }

  /** The last letter of a suffix tells its unit. */
  lemma LastTellsUnit(a: TimeFrameUnit, b: TimeFrameUnit)
    requires Last(Suffix(a)) == Last(Suffix(b))
    ensures a == b
  {
  }

  lemma LastOfLabel(t: TimeFrame)
    ensures CompactLabel(t) != [] && Last(CompactLabel(t)) == Last(Suffix(t.unit))
  {
  }

  /** Distinct timeframes never share a label. */
  lemma LabelInjective(a: TimeFrame, b: TimeFrame)
    requires CompactLabel(a) == CompactLabel(b)
    ensures a == b
  {
    LastOfLabel(a);
    LastOfLabel(b);
    LastTellsUnit(a.unit, b.unit);
    SameEnding(Digits(a.amount), Digits(b.amount), Suffix(a.unit), Suffix(b.unit));
    DigitsInjective(a.amount, b.amount);
  }

  /** The number a text of decimal digits stands for. */
  ghost function Number(s: string): int {
    if s == [] then 0 else 10 * Number(s[..|s| - 1]) + (s[|s| - 1] as int - '0' as int)
  }

  lemma DigitMeans(d: nat)
    requires d < 10
    ensures Digit(d) as int - '0' as int == d
  {
  }

  /** A label is the amount in decimal and the letters of its unit. */
  lemma {:induction false} DigitsMean(n: nat)
    ensures Number(Digits(n)) == n
  {
    if n < 10 {
      DigitMeans(n);
      assert Digits(n)[..0] == [];
    } else {
      DigitsMean(n / 10);
      DigitMeans(n % 10);
      assert Digits(n)[..|Digits(n)| - 1] == Digits(n / 10);
    }
  }

  lemma LabelMeans(t: TimeFrame)
    ensures exists digits :: Number(digits) == t.amount
                             && CompactLabel(t) == digits + match t.unit
                                                            case Second => "s"
                                                            case Minute => "m"
                                                            case Hour => "h"
                                                            case Day => "d"
                                                            case Month => "mo"
  {
    DigitsMean(t.amount);
  }

  // ----- order -----

  predicate Before(a: string, b: string) {
    b != [] && (a == [] || a[0] < b[0] || (a[0] == b[0] && Before(a[1..], b[1..])))
  }

  lemma {:induction false} BeforeTotal(a: string, b: string)
    ensures a == b || Before(a, b) || Before(b, a)
    ensures !(Before(a, b) && Before(b, a))
    ensures a == b ==> !Before(a, b)
    decreases |a|
  {
    if a != [] && b != [] && a[0] == b[0] {
      BeforeTotal(a[1..], b[1..]);
      assert a == [a[0]] + a[1..] && b == [b[0]] + b[1..];
    }
  }

  lemma {:induction false} BeforeTransitive(a: string, b: string, c: string)
    requires Before(a, b) && Before(b, c)
    ensures Before(a, c)
    decreases |a|
  {
    if a != [] && a[0] == b[0] && b[0] == c[0] {
      BeforeTransitive(a[1..], b[1..], c[1..]);
    }
  }

  /** Texts in dictionary order: at the first difference the smaller letter comes
      first, and a text comes before its continuations. */
  ghost predicate FirstDiffers(a: string, b: string, i: nat) {
    && i <= |a| && i < |b| && a[..i] == b[..i]
    && (i == |a| || a[i] < b[i])
  }

  lemma {:induction false} BeforeMeans(a: string, b: string)
    ensures Before(a, b) <==> exists i :: FirstDiffers(a, b, i)
    decreases |a|
  {
    if a != [] && b != [] && a[0] == b[0] {
      BeforeMeans(a[1..], b[1..]);
      if i: nat :| FirstDiffers(a[1..], b[1..], i) {
        assert a[..i + 1] == [a[0]] + a[1..][..i] && b[..i + 1] == [b[0]] + b[1..][..i];
        assert FirstDiffers(a, b, i + 1);
      }
      if i: nat :| FirstDiffers(a, b, i) {
        assert a[1..][..i - 1] == a[..i][1..] && b[1..][..i - 1] == b[..i][1..];
        assert FirstDiffers(a[1..], b[1..], i - 1);
      }
    } else if b != [] && (a == [] || a[0] < b[0]) {
      assert FirstDiffers(a, b, 0);
    } else {
      forall i: nat ensures !FirstDiffers(a, b, i) {
        if 0 < i <= |a| && i < |b| { assert a[..i][0] == a[0] && b[..i][0] == b[0]; }
      }
    }
  }

  /** `Bar` is the only event type, so a stream is a symbol and a timeframe. */
  datatype StreamKey = StreamKey(symbol: string, timeframe: TimeFrame)

  predicate KeyBefore(a: StreamKey, b: StreamKey) {
    Before(a.symbol, b.symbol)
    || (a.symbol == b.symbol && Before(CompactLabel(a.timeframe), CompactLabel(b.timeframe)))
  }

  lemma KeyTotal(a: StreamKey, b: StreamKey)
    ensures a == b || KeyBefore(a, b) || KeyBefore(b, a)
    ensures !(KeyBefore(a, b) && KeyBefore(b, a))
    ensures a == b ==> !KeyBefore(a, b)
  {
    BeforeTotal(a.symbol, b.symbol);
    BeforeTotal(CompactLabel(a.timeframe), CompactLabel(b.timeframe));
    if CompactLabel(a.timeframe) == CompactLabel(b.timeframe) {
      LabelInjective(a.timeframe, b.timeframe);
    }
  }

  lemma KeyTransitive(a: StreamKey, b: StreamKey, c: StreamKey)
    requires KeyBefore(a, b) && KeyBefore(b, c)
    ensures KeyBefore(a, c)
  {
    if Before(a.symbol, b.symbol) && Before(b.symbol, c.symbol) {
      BeforeTransitive(a.symbol, b.symbol, c.symbol);
    } else if a.symbol == b.symbol && b.symbol == c.symbol {
      BeforeTransitive(CompactLabel(a.timeframe), CompactLabel(b.timeframe), CompactLabel(c.timeframe));
    }
  }

  /** Streams are ordered by symbol and, within one, by the label's text. */
  lemma KeyMeans(a: StreamKey, b: StreamKey)
    ensures KeyBefore(a, b) <==>
            || (exists i :: FirstDiffers(a.symbol, b.symbol, i))
            || (a.symbol == b.symbol && exists i :: FirstDiffers(CompactLabel(a.timeframe), CompactLabel(b.timeframe), i))
  {
    BeforeMeans(a.symbol, b.symbol);
    BeforeMeans(CompactLabel(a.timeframe), CompactLabel(b.timeframe));
  }

  /** An entry of the schedule: the time of one bar of one stream. */
  datatype Entry = Entry(timestamp: int, key: StreamKey, index: nat)

  predicate EntryBefore(a: Entry, b: Entry) {
    || a.timestamp < b.timestamp
    || (a.timestamp == b.timestamp && (KeyBefore(a.key, b.key) || (a.key == b.key && a.index < b.index)))
  }

  lemma EntryTotal(a: Entry, b: Entry)
    ensures a == b || EntryBefore(a, b) || EntryBefore(b, a)
    ensures !(EntryBefore(a, b) && EntryBefore(b, a))
  {
    KeyTotal(a.key, b.key);
  }

  lemma EntryTransitive(a: Entry, b: Entry, c: Entry)
    requires EntryBefore(a, b) && EntryBefore(b, c)
    ensures EntryBefore(a, c)
  {
    if a.timestamp == b.timestamp && b.timestamp == c.timestamp && KeyBefore(a.key, b.key) && KeyBefore(b.key, c.key) {
      KeyTransitive(a.key, b.key, c.key);
    }
  }

  predicate IsMin(heap: multiset<Entry>, e: Entry) {
    e in heap && forall x :: x in heap ==> !EntryBefore(x, e)
  }

  lemma OneMore(rest: multiset<Entry>, m: Entry, e: Entry)
    requires IsMin(rest, m)
    ensures IsMin(rest + multiset{e}, if EntryBefore(e, m) then e else m)
  {
    EntryTotal(e, e);
    if EntryBefore(e, m) {
      forall x | x in rest ensures !EntryBefore(x, e) {
        if EntryBefore(x, e) { EntryTransitive(x, e, m); }
      }
    }
  }

  /** A nonempty heap has an entry to pop. */
  lemma {:induction false} MinExists(heap: multiset<Entry>)
    requires |heap| > 0
    ensures exists e :: IsMin(heap, e)
    decreases |heap|
  {
    var e :| e in heap;
    var rest := heap - multiset{e};
    EntryTotal(e, e);
    if |rest| == 0 {
      assert heap == multiset{e} + rest;
      assert IsMin(heap, e);
    } else {
      MinExists(rest);
      var m :| IsMin(rest, m);
      OneMore(rest, m, e);
      assert heap == rest + multiset{e};
    }
  }
}
