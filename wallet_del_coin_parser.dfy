/** `WalletDelCoinParser`: turns the matches of the removed-coin pattern in a
    block of wallet log text into `WalletDelCoinMessage`s, one per match, in
    the order the matches occur. The pattern matcher itself is abstracted to
    the sequence of its matches; the tail that tells a removed coin from an
    added one is recognised by `ReadRemovalMarkers`. */
module WalletDelCoinParser {
  import opened Base
  import opened Decimal
  import opened Messages

  /** One match of the pattern: the text of the timestamp group and what the
      `[0-9]*` amount group captured (possibly nothing). */
  datatype PatternMatch = PatternMatch(timeText: string, amountText: DigitRun)

  /** Why `parse` raises: the date parser rejects the timestamp text, or
      `int("")` fails on an empty amount group. */
  datatype ParseError = UnreadableTimestamp(text: string) | EmptyAmount

  /** The message built from one match. The timestamp is read first, as the
      constructor's keyword arguments are evaluated in order; `readTime`
      stands for the date parser (None where it raises). */
  function ReadMatch(m: PatternMatch, readTime: string -> Option<int>): (r: Result<CoinMessage, ParseError>)
    ensures r.Success? <==> readTime(m.timeText).Some? && m.amountText != []
    ensures readTime(m.timeText).None? ==> r == Failure(UnreadableTimestamp(m.timeText))
    ensures readTime(m.timeText).Some? && m.amountText == [] ==> r == Failure(EmptyAmount)
    ensures r.Success? ==> r.value.timestamp == readTime(m.timeText).value
    ensures r.Success? ==> r.value.amountMojos == Value(m.amountText)
  {
    match readTime(m.timeText)
    case None => Failure(UnreadableTimestamp(m.timeText))
    case Some(t) =>
      PyIntOfDigitRun(m.amountText);
      match PyInt(m.amountText)
      case None => Failure(EmptyAmount)
      case Some(n) => Success(CoinMessage(t, n))
  }

  /** The amount of a message is the number its digit run denotes: the
      digits `str(n)` prints come back as `n`. */
  lemma ReadAmount(t: string, n: nat, readTime: string -> Option<int>)
    requires readTime(t).Some?
    ensures ReadMatch(PatternMatch(t, Digits(n)), readTime).Success?
    ensures ReadMatch(PatternMatch(t, Digits(n)), readTime).value.amountMojos == n
  {
    PyIntOfDigitRun(Digits(n));
    ValueOfDigits(n);
  }

  /** Leading zeros in the log do not change the amount. */
  lemma ReadAmountLeadingZeros(t: string, k: nat, d: DigitRun, readTime: string -> Option<int>)
    requires readTime(t).Some? && d != []
    ensures ReadMatch(PatternMatch(t, Zeros(k) + d), readTime).Success?
    ensures ReadMatch(PatternMatch(t, Zeros(k) + d), readTime).value.amountMojos == Value(d)
  {
    PyIntOfDigitRun(Zeros(k) + d);
    ValueAfterZeros(k, d);
  }

  /** What `parse` returns for these matches: the messages in match order,
      or the error of the first match that cannot be read. */
  function ReadAll(matches: seq<PatternMatch>, readTime: string -> Option<int>): Result<seq<CoinMessage>, ParseError>
  {
    if matches == [] then Success([])
    else
      match ReadAll(matches[..|matches| - 1], readTime)
      case Failure(e) => Failure(e)
      case Success(init) =>
        match ReadMatch(matches[|matches| - 1], readTime)
        case Failure(e) => Failure(e)
        case Success(m) => Success(init + [m])
  }

  /** `parse`: one message per match, in match order; the first match that
      cannot be read makes the whole call fail. No match gives no message. */
  method Parse(matches: seq<PatternMatch>, readTime: string -> Option<int>)
    returns (r: Result<seq<CoinMessage>, ParseError>)
    ensures r == ReadAll(matches, readTime)
  {
    var parsed: seq<CoinMessage> := [];
    for i := 0 to |matches|
      invariant ReadAll(matches[..i], readTime) == Success(parsed)
    {
      var m := ReadMatch(matches[i], readTime);
      assert matches[..i + 1][..i] == matches[..i];
      if m.Failure? {
        ReadAllStops(matches, i, readTime);
        return Failure(m.error);
      }
      parsed := parsed + [m.value];
    }
    assert matches[..|matches|] == matches;
    return Success(parsed);
  }

  /** `ReadAll` succeeds exactly when every match can be read, and then
      holds the message of each match at its position. */
  lemma {:induction false} ReadAllPointwise(matches: seq<PatternMatch>, readTime: string -> Option<int>)
    ensures ReadAll(matches, readTime).Success?
            <==> forall i | 0 <= i < |matches| :: ReadMatch(matches[i], readTime).Success?
    ensures ReadAll(matches, readTime).Success? ==>
              |ReadAll(matches, readTime).value| == |matches|
              && forall i | 0 <= i < |matches| ::
                   ReadAll(matches, readTime).value[i] == ReadMatch(matches[i], readTime).value
  {
    if matches != [] {
      var init := matches[..|matches| - 1];
      ReadAllPointwise(init, readTime);
      assert forall i | 0 <= i < |init| :: init[i] == matches[i];
    }
  }

  /** A failure is the error of the first match that cannot be read. */
  lemma {:induction false} ReadAllFailsAt(matches: seq<PatternMatch>, readTime: string -> Option<int>)
    requires ReadAll(matches, readTime).Failure?
    ensures exists k :: ParseFailsAt(matches, readTime, k, ReadAll(matches, readTime).error)
  {
    var init := matches[..|matches| - 1];
    if ReadAll(init, readTime).Failure? {
      ReadAllFailsAt(init, readTime);
      var k :| ParseFailsAt(init, readTime, k, ReadAll(init, readTime).error);
      assert forall j | 0 <= j <= k :: init[j] == matches[j];
      assert ParseFailsAt(matches, readTime, k, ReadAll(matches, readTime).error);
    } else {
      ReadAllPointwise(init, readTime);
      assert forall j | 0 <= j < |init| :: init[j] == matches[j];
      assert ParseFailsAt(matches, readTime, |init|, ReadAll(matches, readTime).error);
    }
  }

  /** Once a match fails, the matches after it do not change the outcome. */
  lemma {:induction false} ReadAllStops(matches: seq<PatternMatch>, k: nat, readTime: string -> Option<int>)
    requires k < |matches| && ReadAll(matches[..k], readTime).Success?
    requires ReadMatch(matches[k], readTime).Failure?
    ensures ReadAll(matches, readTime) == Failure(ReadMatch(matches[k], readTime).error)
    decreases |matches|
  {
    if |matches| == k + 1 {
      assert matches[..|matches| - 1] == matches[..k];
    } else {
      var init := matches[..|matches| - 1];
      assert init[..k] == matches[..k] && init[k] == matches[k];
      ReadAllStops(init, k, readTime);
    }
  }

  /** Text without a match parses to no message rather than an error, and a
      match with an empty amount group fails the whole block, whatever the
      matches after it hold. */
  lemma ParseEdgeCases(before: seq<PatternMatch>, t: string, after: seq<PatternMatch>, readTime: string -> Option<int>)
    requires readTime(t).Some?
    requires forall i | 0 <= i < |before| :: ReadMatch(before[i], readTime).Success?
    ensures ReadAll([], readTime) == Success([])
    ensures ReadAll(before + [PatternMatch(t, [])] + after, readTime) == Failure(EmptyAmount)
  {
    var all := before + [PatternMatch(t, [])] + after;
    assert all[|before|] == PatternMatch(t, []);
    assert all[..|before|] == before;
    ReadAllPointwise(before, readTime);
    ReadAllStops(all, |before|, readTime);
  }

  /** The failure `ReadAll` reports for these matches: match `k` is the first
      that cannot be read, and it fails with `e`. */
  predicate ParseFailsAt(matches: seq<PatternMatch>, readTime: string -> Option<int>, k: nat, e: ParseError)
  {
    k < |matches|
    && ReadMatch(matches[k], readTime) == Failure(e)
    && forall j | 0 <= j < k :: ReadMatch(matches[j], readTime).Success?
  }

  // The removal discriminator: `, \s*spent_height: Some(<digits>), created_height: Some(<digits>)`.

  const SpentMarker: string := "spent_height: Some("
  const CreatedMarker: string := "), created_height: Some("

  /** The tail of a removed-coin line: both heights present. */
  function RemovalMarkers(spent: DigitRun, created: DigitRun): string
  {
    SpentMarker + spent + CreatedMarker + created + ")"
  }

  /** The longest run of digits `s` starts with (what a greedy `\d*` takes). */
  function LeadingDigits(s: string): (d: string)
    ensures d <= s && IsDigits(d)
    ensures |d| < |s| ==> !IsDigit(s[|d|])
  {
    if s != [] && IsDigit(s[0]) then [s[0]] + LeadingDigits(s[1..]) else []
  }

  lemma {:induction false} LeadingDigitsOf(d: DigitRun, s: string)
    requires s == [] || !IsDigit(s[0])
    ensures LeadingDigits(d + s) == d
  {
    if d != [] {
      assert (d + s)[1..] == d[1..] + s;
      LeadingDigitsOf(d[1..], s);
    } else {
      assert d + s == s;
    }
  }

  /** `marker` followed by a greedy run of digits at the start of `s`: the
      digits and the text after them. */
  function ReadMarked(s: string, marker: string): (r: Option<(DigitRun, string)>)
  {
    if marker <= s then
      var a := s[|marker|..];
      var d := LeadingDigits(a);
      Some((d, a[|d|..]))
    else None
  }

  lemma ReadMarkedOf(marker: string, d: DigitRun, t: string)
    requires t == [] || !IsDigit(t[0])
    ensures ReadMarked(marker + d + t, marker) == Some((d, t))
  {
    var s := marker + d + t;
    assert s[|marker|..] == d + t;
    LeadingDigitsOf(d, t);
  }

  lemma ReadMarkedSound(s: string, marker: string)
    requires ReadMarked(s, marker).Some?
    ensures s == marker + ReadMarked(s, marker).value.0 + ReadMarked(s, marker).value.1
  {
    var a := s[|marker|..];
    var d := LeadingDigits(a);
    assert a == d + a[|d|..];
  }

  /** Recognises the removal markers at the start of `s`, giving the two
      heights and the text after them. */
  function ReadRemovalMarkers(s: string): (r: Option<(DigitRun, DigitRun, string)>)
  {
    match ReadMarked(s, SpentMarker)
    case None => None
    case Some((spent, b)) =>
      match ReadMarked(b, CreatedMarker)
      case None => None
      case Some((created, e)) =>
        if e != [] && e[0] == ')' then Some((spent, created, e[1..])) else None
  }

  /** Whatever follows them, the markers are recognised with the heights they
      were written with. */
  lemma ReadRemovalMarkersRoundTrip(spent: DigitRun, created: DigitRun, rest: string)
    ensures ReadRemovalMarkers(RemovalMarkers(spent, created) + rest) == Some((spent, created, rest))
  {
    var e := ")" + rest;
    var b := CreatedMarker + created + e;
    assert RemovalMarkers(spent, created) + rest == SpentMarker + spent + b;
    assert b[0] == ')';
    ReadMarkedOf(SpentMarker, spent, b);
    ReadMarkedOf(CreatedMarker, created, e);
    assert e[1..] == rest;
  }

  /** Only text that starts with the markers is recognised. */
  lemma ReadRemovalMarkersSound(s: string)
    requires ReadRemovalMarkers(s).Some?
    ensures var (spent, created, rest) := ReadRemovalMarkers(s).value;
            s == RemovalMarkers(spent, created) + rest
  {
    var (spent, b) := ReadMarked(s, SpentMarker).value;
    ReadMarkedSound(s, SpentMarker);
    var (created, e) := ReadMarked(b, CreatedMarker).value;
    ReadMarkedSound(b, CreatedMarker);
    assert e == ")" + e[1..];
    Regroup(s, SpentMarker, spent, b, CreatedMarker, created, e, ")", e[1..]);
  }

  lemma Regroup(s: string, m1: string, d1: string, b: string, m2: string, d2: string, e: string, close: string, rest: string)
    requires s == m1 + d1 + b && b == m2 + d2 + e && e == close + rest
    ensures s == m1 + d1 + m2 + d2 + close + rest
  {
  }

  /** The tail of an added-coin line, whose spent height is `None`, is not
      taken for a removal. */
  lemma AddedCoinTailRejected(rest: string)
    ensures ReadRemovalMarkers("spent_height: None" + rest).None?
  {
    var s := "spent_height: None" + rest;
    assert s[14] == 'N' && SpentMarker[14] == 'S';
  }
}
