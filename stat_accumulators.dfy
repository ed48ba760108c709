/** The stat accumulators the daily digest is made of. The two wallet ones,
    `WalletAddCoinStats` and `WalletDelCoinStats`, keep a running total of
    mojos since their last reset; the others (found proofs, partials, blocks,
    search times, plot counts, signage points) are represented by
    `ForeignStats`, which records what it consumed and summarises it with a
    function fixed at construction. */
module StatAccumulators {
  import opened Decimal
  import opened Messages

  const ReceivedLabel: string := "Received \U{1F4B0}: "
  const SentLabel: string := "Sent \U{1F4B8}: "
  const XchUnit: string := " XCH"

  /** A wallet summary line: `caption`, the amount in XCH, then " XCH". */
  function SummaryLine(caption: string, mojos: nat): string
  {
    caption + FormatXch(mojos) + XchUnit
  }

  /** The amount in a summary line is the canonical XCH text of the total and
      reads back as exactly that many mojos. */
  lemma SummaryLineReadBack(caption: string, mojos: nat)
    ensures var s := SummaryLine(caption, mojos);
            |s| >= |caption| + |XchUnit|
            && s[..|caption|] == caption
            && s[|s| - |XchUnit|..] == XchUnit
            && IsXchText(s[|caption|..|s| - |XchUnit|])
            && XchToMojos(s[|caption|..|s| - |XchUnit|]).Some?
            && XchToMojos(s[|caption|..|s| - |XchUnit|]).value == mojos
  {
    var x := FormatXch(mojos);
    var s := SummaryLine(caption, mojos);
    assert s[|caption|..|s| - |XchUnit|] == x;
    FormatXchRoundTrip(mojos);
    FormatXchIsXchText(mojos);
  }

  /** Two totals give the same summary line only if they are equal. */
  lemma SummaryLineInjective(caption: string, a: nat, b: nat)
    requires SummaryLine(caption, a) == SummaryLine(caption, b)
    ensures a == b
  {
    SummaryLineReadBack(caption, a);
    SummaryLineReadBack(caption, b);
  }

  /** A zero total renders as "0". */
  lemma ZeroSummaryLine(caption: string)
    ensures SummaryLine(caption, 0) == caption + "0" + XchUnit
  {
    FormatWholeExamples();
  }

  class WalletAddCoinStats {
    var lastResetTime: int
    var totalAddedMojos: nat
    /** The added-coin messages consumed since the last reset. */
    ghost var window: seq<CoinMessage>

    ghost predicate Valid()
      reads this
    {
      totalAddedMojos == TotalMojos(window)
    }

    constructor(now: int)
      ensures Valid() && window == []
      ensures lastResetTime == now && totalAddedMojos == 0
    {
      lastResetTime := now;
      totalAddedMojos := 0;
      window := [];
    }

    /** The state after a reset depends on nothing but the time of the reset,
        so resetting twice is resetting once, and both equal a fresh
        accumulator apart from that time. */
    method Reset(now: int)
      modifies this
      ensures Valid() && window == []
      ensures lastResetTime == now && totalAddedMojos == 0
    {
      lastResetTime := now;
      totalAddedMojos := 0;
      window := [];
    }

    method Consume(obj: CoinMessage)
      requires Valid()
      modifies this
      ensures Valid() && window == old(window) + [obj]
      ensures totalAddedMojos == old(totalAddedMojos) + obj.amountMojos
      ensures lastResetTime == old(lastResetTime)
    {
      totalAddedMojos := totalAddedMojos + obj.amountMojos;
      window := window + [obj];
      assert window[..|window| - 1] == old(window);
    }

    function GetSummary(): (s: string)
      reads this
      ensures ReceivedLabel <= s && |s| >= |ReceivedLabel| + |XchUnit|
      ensures s[|s| - |XchUnit|..] == XchUnit
      ensures XchToMojos(s[|ReceivedLabel|..|s| - |XchUnit|]).Some?
      ensures XchToMojos(s[|ReceivedLabel|..|s| - |XchUnit|]).value == totalAddedMojos
    {
      SummaryLineReadBack(ReceivedLabel, totalAddedMojos);
      SummaryLine(ReceivedLabel, totalAddedMojos)
    }
  }

  class WalletDelCoinStats {
    var lastResetTime: int
    var totalDeletedMojos: nat
    /** The deleted-coin messages consumed since the last reset. */
    ghost var window: seq<CoinMessage>

    ghost predicate Valid()
      reads this
    {
      totalDeletedMojos == TotalMojos(window)
    }

    constructor(now: int)
      ensures Valid() && window == []
      ensures lastResetTime == now && totalDeletedMojos == 0
    {
      lastResetTime := now;
      totalDeletedMojos := 0;
      window := [];
    }

    method Reset(now: int)
      modifies this
      ensures Valid() && window == []
      ensures lastResetTime == now && totalDeletedMojos == 0
    {
      lastResetTime := now;
      totalDeletedMojos := 0;
      window := [];
    }

    method Consume(obj: CoinMessage)
      requires Valid()
      modifies this
      ensures Valid() && window == old(window) + [obj]
      ensures totalDeletedMojos == old(totalDeletedMojos) + obj.amountMojos
      ensures lastResetTime == old(lastResetTime)
    {
      totalDeletedMojos := totalDeletedMojos + obj.amountMojos;
      window := window + [obj];
      assert window[..|window| - 1] == old(window);
    }

    function GetSummary(): (s: string)
      reads this
      ensures SentLabel <= s && |s| >= |SentLabel| + |XchUnit|
      ensures s[|s| - |XchUnit|..] == XchUnit
      ensures XchToMojos(s[|SentLabel|..|s| - |XchUnit|]).Some?
      ensures XchToMojos(s[|SentLabel|..|s| - |XchUnit|]).value == totalDeletedMojos
    {
      SummaryLineReadBack(SentLabel, totalDeletedMojos);
      SummaryLine(SentLabel, totalDeletedMojos)
    }
  }

  /** An accumulator whose own code is not part of this model: the consumer
      roles it declares, and a summary that depends only on the messages it
      consumed since its last reset. */
  class ForeignStats {
    const roles: set<Role>
    const summarize: seq<Message> -> string
    var lastResetTime: int
    var consumed: seq<Message>

    constructor(roles: set<Role>, summarize: seq<Message> -> string, now: int)
      ensures this.roles == roles && this.summarize == summarize
      ensures lastResetTime == now && consumed == []
    {
      this.roles := roles;
      this.summarize := summarize;
      lastResetTime := now;
      consumed := [];
    }

    method Reset(now: int)
      modifies this
      ensures lastResetTime == now && consumed == []
    {
      lastResetTime := now;
      consumed := [];
    }

    method Consume(obj: Message)
      requires RoleOf(obj) in roles
      modifies this
      ensures consumed == old(consumed) + [obj] && lastResetTime == old(lastResetTime)
    {
      consumed := consumed + [obj];
    }

    function GetSummary(): string
      reads this
    {
      summarize(consumed)
    }
  }

  /** An entry of the manager's registration list. */
  datatype Accumulator =
    | WalletAdd(add: WalletAddCoinStats)
    | WalletDel(del: WalletDelCoinStats)
    | Foreign(other: ForeignStats)

  function ObjOf(acc: Accumulator): object
  {
    match acc
    case WalletAdd(s) => s
    case WalletDel(s) => s
    case Foreign(s) => s
  }

  /** The objects of a registration list. */
  function Objects(accs: seq<Accumulator>): set<object>
  {
    set i | 0 <= i < |accs| :: ObjOf(accs[i])
  }

  /** The consumer interfaces the accumulator implements. */
  function Roles(acc: Accumulator): set<Role>
  {
    match acc
    case WalletAdd(_) => {WalletAddCoin}
    case WalletDel(_) => {WalletDelCoin}
    case Foreign(s) => s.roles
  }

  /** The messages the accumulator consumed since its last reset. */
  ghost function Window(acc: Accumulator): seq<Message>
    reads ObjOf(acc)
  {
    match acc
    case WalletAdd(s) => AddBatch(s.window)
    case WalletDel(s) => DelBatch(s.window)
    case Foreign(s) => s.consumed
  }

  ghost predicate AccValid(acc: Accumulator)
    reads ObjOf(acc)
  {
    match acc
    case WalletAdd(s) => s.Valid()
    case WalletDel(s) => s.Valid()
    case Foreign(s) => true
  }

  function ResetTime(acc: Accumulator): int
    reads ObjOf(acc)
  {
    match acc
    case WalletAdd(s) => s.lastResetTime
    case WalletDel(s) => s.lastResetTime
    case Foreign(s) => s.lastResetTime
  }

  function Summary(acc: Accumulator): string
    reads ObjOf(acc)
  {
    match acc
    case WalletAdd(s) => s.GetSummary()
    case WalletDel(s) => s.GetSummary()
    case Foreign(s) => s.GetSummary()
  }

  /** The summary of an accumulator is determined by what it consumed since
      its last reset. */
  lemma SummaryOfWindow(a: Accumulator, b: Accumulator)
    requires a.WalletAdd? == b.WalletAdd? && a.WalletDel? == b.WalletDel?
    requires a.Foreign? ==> b.Foreign? && a.other.summarize == b.other.summarize
    requires AccValid(a) && AccValid(b) && Window(a) == Window(b)
    ensures Summary(a) == Summary(b)
  {
    match a
    case WalletAdd(s) => AddBatchInjective(s.window, b.add.window);
    case WalletDel(s) => DelBatchInjective(s.window, b.del.window);
    case Foreign(_) =>
  }

  /** `consume` on every message of `batch`, in order. */
  method Feed(acc: Accumulator, batch: seq<Message>)
    requires AccValid(acc)
    requires forall i | 0 <= i < |batch| :: RoleOf(batch[i]) in Roles(acc)
    modifies ObjOf(acc)
    ensures AccValid(acc) && Window(acc) == old(Window(acc)) + batch
    ensures ResetTime(acc) == old(ResetTime(acc))
  {
    for i := 0 to |batch|
      invariant AccValid(acc) && Window(acc) == old(Window(acc)) + batch[..i]
      invariant ResetTime(acc) == old(ResetTime(acc))
    {
      assert batch[..i + 1] == batch[..i] + [batch[i]];
      FeedMessage(acc, batch[i]);
    }
  }

  /** `consume` on one message the accumulator declares a role for. */
  method FeedMessage(acc: Accumulator, m: Message)
    requires AccValid(acc) && RoleOf(m) in Roles(acc)
    modifies ObjOf(acc)
    ensures AccValid(acc) && Window(acc) == old(Window(acc)) + [m]
    ensures ResetTime(acc) == old(ResetTime(acc))
  {
    match acc {
      case WalletAdd(s) =>
        assert m == AddCoin(m.coin);
        AddBatchAppend(s.window, [m.coin]);
        s.Consume(m.coin);
      case WalletDel(s) =>
        assert m == DelCoin(m.coin);
        DelBatchAppend(s.window, [m.coin]);
        s.Consume(m.coin);
      case Foreign(s) =>
        s.Consume(m);
    }
  }

  method ResetAcc(acc: Accumulator, now: int)
    modifies ObjOf(acc)
    ensures AccValid(acc) && Window(acc) == [] && ResetTime(acc) == now
  {
    match acc
    case WalletAdd(s) => s.Reset(now);
    case WalletDel(s) => s.Reset(now);
    case Foreign(s) => s.Reset(now);
  }
}
