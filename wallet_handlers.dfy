/** `WalletAddCoinHandler` and `WalletDelCoinHandler`: each parses a block of
    wallet log text, hands the coins to the stats manager when there is one,
    adds up the amounts and emits a single user notification when the total
    is strictly above the configured `min_mojos_amount`. */
module WalletHandlers {
  import opened Base
  import opened Decimal
  import opened Messages
  import opened WalletDelCoinParser
  import opened StatAccumulators
  import opened DailyStats

  const ReceivedPrefix: string := "Just received "
  const SentPrefix: string := "Just sent "
  const CoinSuffix: string := " XCH \U{1F4B0}"

  /** The notification text for a batch totalling `mojos`. */
  function CoinText(prefix: string, mojos: nat): string
  {
    prefix + FormatXch(mojos) + CoinSuffix
  }

  function CoinEvent(prefix: string, mojos: nat): Event
  {
    Event(User, Low, Wallet, CoinText(prefix, mojos))
  }

  /** The amount in a notification is the canonical XCH text of the total
      and reads back as exactly that many mojos. */
  lemma CoinTextReadBack(prefix: string, mojos: nat)
    ensures var s := CoinText(prefix, mojos);
            |s| >= |prefix| + |CoinSuffix|
            && s[..|prefix|] == prefix
            && s[|s| - |CoinSuffix|..] == CoinSuffix
            && IsXchText(s[|prefix|..|s| - |CoinSuffix|])
            && XchToMojos(s[|prefix|..|s| - |CoinSuffix|]) == Some(mojos)
  {
    var s := CoinText(prefix, mojos);
    assert s[|prefix|..|s| - |CoinSuffix|] == FormatXch(mojos);
    FormatXchRoundTrip(mojos);
    FormatXchIsXchText(mojos);
  }

  /** Two notifications with the same text report the same total. */
  lemma CoinTextInjective(prefix: string, a: nat, b: nat)
    requires CoinText(prefix, a) == CoinText(prefix, b)
    ensures a == b
  {
    var x, y := FormatXch(a), FormatXch(b);
    assert x == CoinText(prefix, a)[|prefix|..|prefix| + |x|];
    assert y == CoinText(prefix, b)[|prefix|..|prefix| + |y|];
    FormatXchRoundTrip(a);
    FormatXchRoundTrip(b);
  }

  /** The texts the handlers' tests expect: 1.75 XCH sent, a total below one
      hundredth of an XCH written out to the last mojo, and a whole amount
      without a decimal point. */
  lemma NominalSentText()
    ensures CoinText(SentPrefix, 1_750_000_000_000) == SentPrefix + "1.75" + CoinSuffix
  {
    FormatOneAndThreeQuarters();
  }

  lemma SmallValuesSentText()
    ensures CoinText(SentPrefix, 4_849_173_605) == SentPrefix + "0.004849173605" + CoinSuffix
  {
    FormatSmallValues();
  }

  lemma SmallValuesReceivedText()
    ensures CoinText(ReceivedPrefix, 4_849_173_605) == ReceivedPrefix + "0.004849173605" + CoinSuffix
  {
    FormatSmallValues();
  }

  lemma NominalReceivedText()
    ensures CoinText(ReceivedPrefix, 2_000_000_000_000) == ReceivedPrefix + "2" + CoinSuffix
  {
    FormatWholeExamples();
  }

  /** Amounts are never negative, so a batch that notifies still notifies
      with more coins added to it. */
  lemma NotifyingIsMonotone(coins: seq<CoinMessage>, more: seq<CoinMessage>, minMojos: int)
    requires TotalMojos(coins) > minMojos
    ensures TotalMojos(coins + more) > minMojos
  {
    TotalMojosAppend(coins, more);
  }

  /** The amounts the matches captured, added up. */
  function MatchedMojos(matches: seq<PatternMatch>): nat
  {
    if matches == [] then 0
    else MatchedMojos(matches[..|matches| - 1]) + Value(matches[|matches| - 1].amountText)
  }

  /** A block that parses totals the digit runs the matches captured. */
  lemma {:induction false} ReadAllTotal(matches: seq<PatternMatch>, readTime: string -> Option<int>)
    requires ReadAll(matches, readTime).Success?
    ensures TotalMojos(ReadAll(matches, readTime).value) == MatchedMojos(matches)
  {
    if matches != [] {
      var init := matches[..|matches| - 1];
      ReadAllTotal(init, readTime);
      var coins := ReadAll(init, readTime).value;
      var m := ReadMatch(matches[|matches| - 1], readTime).value;
      assert (coins + [m])[..|coins|] == coins;
    }
  }

  /** The totalling loop and threshold test shared by both `handle`s: at
      most one event, carrying the total, and only when the total exceeds
      `minMojos`. */
  method Notify(coins: seq<CoinMessage>, verb: string, minMojos: int) returns (events: seq<Event>)
    ensures |events| <= 1
    ensures |events| == 1 <==> TotalMojos(coins) > minMojos
    ensures |events| == 1 ==> events[0] == CoinEvent(verb, TotalMojos(coins))
  {
    var total := 0;
    for i := 0 to |coins|
      invariant total == TotalMojos(coins[..i])
    {
      assert coins[..i + 1][..i] == coins[..i];
      total := total + coins[i].amountMojos;
    }
    assert coins[..|coins|] == coins;
    events := [];
    if total > minMojos {
      events := [CoinEvent(verb, total)];
    }
  }

  /** Nothing the accumulators consumed changes while their objects stay
      untouched. */
  twostate lemma WindowsKept(accs: seq<Accumulator>)
    requires unchanged(Objects(accs))
    ensures forall i | 0 <= i < |accs| :: Window(accs[i]) == old(Window(accs[i]))
  {
    forall i | 0 <= i < |accs|
      ensures Window(accs[i]) == old(Window(accs[i]))
    {
      assert ObjOf(accs[i]) in Objects(accs);
    }
  }

  /** Why the removed-coin `handle` raises. */
  datatype HandleError =
    | ParseFailed(cause: ParseError)
    /** `consume_wallet_messages` called with one argument where it takes two. */
    | MissingArgument

  class WalletAddCoinHandler {
    const minMojosAmount: int

    constructor(minMojosAmount: int)
      ensures this.minMojosAmount == minMojosAmount
    {
      this.minMojosAmount := minMojosAmount;
    }

    /** `handle` for the added coins the parser found (`stats` null when no
        manager is given): the manager's accumulators receive the coins as
        added ones and no deleted ones, then at most one event reports the
        total, and only when it exceeds the threshold. */
    method Handle(coins: seq<CoinMessage>, stats: StatsManager?) returns (events: seq<Event>)
      requires stats != null ==> stats.Valid()
      modifies if stats != null then Objects(stats.accumulators) else {}
      ensures stats != null ==> stats.Valid()
      ensures stats != null ==> forall i | 0 <= i < |stats.accumulators| ::
                Window(stats.accumulators[i])
                == old(Window(stats.accumulators[i])) + Delivered(Roles(stats.accumulators[i]), AddBatch(coins))
      ensures stats != null ==> forall i | 0 <= i < |stats.accumulators| ::
                ResetTime(stats.accumulators[i]) == old(ResetTime(stats.accumulators[i]))
      ensures |events| <= 1
      ensures |events| == 1 <==> TotalMojos(coins) > minMojosAmount
      ensures |events| == 1 ==> events[0] == CoinEvent(ReceivedPrefix, TotalMojos(coins))
    {
      if stats != null {
        assert AddBatch(coins) + DelBatch([]) == AddBatch(coins);
        stats.ConsumeWalletMessages(coins, []);
      }
      events := Notify(coins, ReceivedPrefix, minMojosAmount);
    }
  }

  class WalletDelCoinHandler {
    const minMojosAmount: int

    constructor(minMojosAmount: int)
      ensures this.minMojosAmount == minMojosAmount
    {
      this.minMojosAmount := minMojosAmount;
    }

    /** `handle` as written: with a manager it passes the removed coins as the
        only argument of a two-argument method, so the call raises once
        parsing succeeds and no accumulator changes. Without a manager it
        behaves as `Handle` does. */
    method HandleAsWritten(matches: seq<PatternMatch>, readTime: string -> Option<int>, stats: StatsManager?)
      returns (r: Result<seq<Event>, HandleError>)
      ensures ReadAll(matches, readTime).Failure? ==> r == Failure(ParseFailed(ReadAll(matches, readTime).error))
      ensures ReadAll(matches, readTime).Success? && stats != null ==> r == Failure(MissingArgument)
      ensures ReadAll(matches, readTime).Success? && stats == null ==>
                r.Success? && |r.value| <= 1
                && (|r.value| == 1 <==> MatchedMojos(matches) > minMojosAmount)
                && (|r.value| == 1 ==> r.value[0] == CoinEvent(SentPrefix, MatchedMojos(matches)))
    {
      var parsed := Parse(matches, readTime);
      if parsed.Failure? {
        return Failure(ParseFailed(parsed.error));
      }
      if stats != null {
        return Failure(MissingArgument);
      }
      ReadAllTotal(matches, readTime);
      var events := Notify(parsed.value, SentPrefix, minMojosAmount);
      return Success(events);
    }

    /** `handle` with the manager call given both arguments: parse the
        matches, hand the coins to the manager's accumulators as deleted
        ones, then report the total when it exceeds the threshold. A block
        that does not parse raises before any accumulator changes. */
    method Handle(matches: seq<PatternMatch>, readTime: string -> Option<int>, stats: StatsManager?)
      returns (r: Result<seq<Event>, ParseError>)
      requires stats != null ==> stats.Valid()
      modifies if stats != null then Objects(stats.accumulators) else {}
      ensures stats != null ==> stats.Valid()
      ensures r.Success? <==> ReadAll(matches, readTime).Success?
      ensures r.Failure? ==> r.error == ReadAll(matches, readTime).error
      ensures r.Failure? && stats != null ==> unchanged(Objects(stats.accumulators))
      ensures r.Success? && stats != null ==> forall i | 0 <= i < |stats.accumulators| ::
                Window(stats.accumulators[i])
                == old(Window(stats.accumulators[i]))
                   + Delivered(Roles(stats.accumulators[i]), DelBatch(ReadAll(matches, readTime).value))
      ensures stats != null ==> forall i | 0 <= i < |stats.accumulators| ::
                ResetTime(stats.accumulators[i]) == old(ResetTime(stats.accumulators[i]))
      ensures r.Success? ==> |r.value| <= 1
      ensures r.Success? ==> (|r.value| == 1 <==> MatchedMojos(matches) > minMojosAmount)
      ensures r.Success? && |r.value| == 1 ==> r.value[0] == CoinEvent(SentPrefix, MatchedMojos(matches))
    {
      var parsed := Parse(matches, readTime);
      if parsed.Failure? {
        return Failure(parsed.error);
      }
      if stats != null {
        WindowsKept(stats.accumulators);
      }
      ReadAllTotal(matches, readTime);
      var coins := parsed.value;
      assert coins == ReadAll(matches, readTime).value;
      var events := HandleParsed(coins, stats);
      return Success(events);
    }

    /** What `handle` does once the block has parsed. */
    method HandleParsed(coins: seq<CoinMessage>, stats: StatsManager?) returns (events: seq<Event>)
      requires stats != null ==> stats.Valid()
      modifies if stats != null then Objects(stats.accumulators) else {}
      ensures stats != null ==> stats.Valid()
      ensures stats != null ==> forall i | 0 <= i < |stats.accumulators| ::
                Window(stats.accumulators[i])
                == old(Window(stats.accumulators[i])) + Delivered(Roles(stats.accumulators[i]), DelBatch(coins))
      ensures stats != null ==> forall i | 0 <= i < |stats.accumulators| ::
                ResetTime(stats.accumulators[i]) == old(ResetTime(stats.accumulators[i]))
      ensures |events| <= 1
      ensures |events| == 1 <==> TotalMojos(coins) > minMojosAmount
      ensures |events| == 1 ==> events[0] == CoinEvent(SentPrefix, TotalMojos(coins))
    {
      if stats != null {
        assert AddBatch([]) + DelBatch(coins) == DelBatch(coins);
        stats.ConsumeWalletMessages([], coins);
      }
      events := Notify(coins, SentPrefix, minMojosAmount);
    }
  }
}
