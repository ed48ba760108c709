/** `StatsManager`: owns the registration list of accumulators, fans every
    parsed message out to the accumulators that declare its consumer role,
    and on schedule sends one digest of all their summaries, resetting each.
    The clock is the `now` parameter of the operations that read it; the
    events handed to the notifier are recorded in `sent`. */
module DailyStats {
  import opened Base
  import opened Decimal
  import opened Messages
  import opened StatAccumulators
  import opened Schedule

  /** How one accumulator other than the two wallet ones is registered. */
  datatype ForeignSpec = ForeignSpec(roles: set<Role>, summarize: seq<Message> -> string)

  /** Why `__init__` raises ValueError: `int()` of the last two characters
      of the setting, or `datetime.replace` given an hour outside 0..23 or a
      minute outside 0..59. */
  datatype SetupError = MinuteNotANumber | HourOutOfRange(hour: int) | MinuteOutOfRange(minute: int)

  /** The error `__init__` raises for a parsed notify time. */
  function SetupErrorOf(p: Option<NotifyTime>): SetupError
  {
    match p
    case None => MinuteNotANumber
    case Some(t) => if !(0 <= t.hour < 24) then HourOutOfRange(t.hour) else MinuteOutOfRange(t.minute)
  }

  /** The first line of the digest, without its newline. */
  function HeaderText(frequencyHours: int): string
  {
    "Hi! \U{1F44B} Here's what happened in the last " + IntText(frequencyHours) + " hours:"
  }

  /** Each summary on a line of its own, each preceded by a newline. */
  function Lines(summaries: seq<string>): string
  {
    if summaries == [] then "" else "\n" + summaries[0] + Lines(summaries[1..])
  }

  /** The text of the digest for these summaries, in registration order. */
  function Digest(frequencyHours: int, summaries: seq<string>): string
  {
    HeaderText(frequencyHours) + "\n" + Lines(summaries)
  }

  lemma {:induction false} LinesSnoc(summaries: seq<string>, s: string)
    ensures Lines(summaries + [s]) == Lines(summaries) + "\n" + s
  {
    if summaries != [] {
      assert (summaries + [s])[1..] == summaries[1..] + [s];
      LinesSnoc(summaries[1..], s);
    } else {
      assert Lines([s]) == "\n" + s + Lines([]);
    }
  }

  lemma AppendLine(header: string, digest: string, done: seq<string>, s: string)
    requires digest == header + Lines(done)
    ensures digest + "\n" + s == header + Lines(done + [s])
  {
    LinesSnoc(done, s);
  }

  /** `str.split("\n")`. */
  function SplitLines(s: string): (parts: seq<string>)
    ensures parts != []
    decreases |s|
  {
    var i := Find(s, '\n');
    if i == |s| then [s] else [s[..i]] + SplitLines(s[i + 1..])
  }

  predicate NoNewline(s: string)
  {
    forall i | 0 <= i < |s| :: s[i] != '\n'
  }

  lemma FindAbsent(s: string)
    requires NoNewline(s)
    ensures Find(s, '\n') == |s|
  {
  }

  /** Splitting a first line followed by the summary lines gives back the
      first line and the summaries. */
  lemma {:induction false} SplitLinesOf(first: string, summaries: seq<string>)
    requires NoNewline(first)
    requires forall i | 0 <= i < |summaries| :: NoNewline(summaries[i])
    ensures SplitLines(first + Lines(summaries)) == [first] + summaries
    decreases |summaries|
  {
    FindAbsent(first);
    if summaries == [] {
      assert first + Lines(summaries) == first;
    } else {
      var s := first + Lines(summaries);
      var rest := summaries[0] + Lines(summaries[1..]);
      assert s == first + "\n" + rest;
      assert s[..|first|] == first;
      assert s[|first|] == '\n';
      assert Find(s, '\n') == |first| by {
        assert forall i | 0 <= i < |first| :: s[i] == first[i];
      }
      assert s[|first| + 1..] == rest;
      SplitLinesOf(summaries[0], summaries[1..]);
      assert [summaries[0]] + summaries[1..] == summaries;
    }
  }

  lemma HeaderHasNoNewline(frequencyHours: int)
    ensures NoNewline(HeaderText(frequencyHours))
  {
    var n := IntText(frequencyHours);
    assert forall i | 0 <= i < |n| :: n[i] == '-' || IsDigit(n[i]);
  }

  /** The digest reads back as its header line, an empty line, then one line
      per accumulator summary, in registration order. */
  lemma DigestLines(frequencyHours: int, summaries: seq<string>)
    requires forall i | 0 <= i < |summaries| :: NoNewline(summaries[i])
    ensures SplitLines(Digest(frequencyHours, summaries)) == [HeaderText(frequencyHours), ""] + summaries
  {
    HeaderHasNoNewline(frequencyHours);
    HeaderThenLines(HeaderText(frequencyHours), summaries);
  }

  /** A header line, then an empty line, then the summary lines. */
  lemma HeaderThenLines(header: string, summaries: seq<string>)
    requires NoNewline(header)
    requires forall i | 0 <= i < |summaries| :: NoNewline(summaries[i])
    ensures SplitLines(header + "\n" + Lines(summaries)) == [header, ""] + summaries
  {
    assert header + "\n" + Lines(summaries) == header + Lines([""] + summaries) by {
      assert ([""] + summaries)[1..] == summaries;
    }
    SplitLinesOf(header, [""] + summaries);
  }

  /** The wallet summaries fit on one line each. */
  lemma SummaryLineHasNoNewline(caption: string, mojos: nat)
    requires NoNewline(caption)
    ensures NoNewline(SummaryLine(caption, mojos))
  {
    var x := FormatXch(mojos);
    FormatXchIsXchText(mojos);
    assert forall i | 0 <= i < |x| :: x[i] == '.' || IsDigit(x[i]);
  }

  function Summaries(accs: seq<Accumulator>): (ss: seq<string>)
    reads Objects(accs)
    ensures |ss| == |accs|
    ensures forall i | 0 <= i < |accs| :: ss[i] == Summary(accs[i])
  {
    seq(|accs|, i requires 0 <= i < |accs| reads Objects(accs) => Summary(accs[i]))
  }

  function DigestEvent(digest: string): Event
  {
    Event(DailyStats, Low, Daily, digest)
  }

  class StatsManager {
    const enable: bool
    const notifyTime: NotifyTime
    const frequencyHours: int
    /** The registration list, in the order the digest lists it. */
    const accumulators: seq<Accumulator>
    ghost const Repr: set<object>
    /** Today at the notify time, on the day the manager was built. */
    ghost const anchor: int

    var nextSummary: int
    /** How many frequencies `nextSummary` lies past `anchor`. */
    ghost var periods: nat
    var isRunning: bool
    /** The events handed to the notifier, oldest first. */
    var sent: seq<Event>

    ghost predicate Valid()
      reads this, Repr
    {
      Repr == {this} + Objects(accumulators)
      && this !in Objects(accumulators)
      && (forall i, j | 0 <= i < j < |accumulators| :: ObjOf(accumulators[i]) != ObjOf(accumulators[j]))
      && (forall i | 0 <= i < |accumulators| :: AccValid(accumulators[i]))
      && (!enable ==> accumulators == [] && !isRunning)
      && (enable ==> nextSummary == anchor + periods * Step())
    }

    function Step(): int
    {
      frequencyHours * SecondsPerHour
    }

    ghost function Windows(): seq<seq<Message>>
      reads this, Objects(accumulators)
    {
      seq(|accumulators|, i requires 0 <= i < |accumulators| reads this, Objects(accumulators) =>
        Window(accumulators[i]))
    }

    /** `__init__` once the settings are read and the notify time is parsed:
        a disabled manager registers nothing and starts no loop. An enabled
        one registers the wallet accumulators, then the others, and moves
        the first fire time to the least anchor + k * frequency that is not
        before `now`. */
    constructor(enable: bool, notifyTime: NotifyTime, frequencyHours: int, foreign: seq<ForeignSpec>, now: int)
      requires enable ==> InDay(notifyTime)
      requires enable && Anchor(now, notifyTime) < now ==> frequencyHours > 0
      ensures Valid() && fresh(Repr - {this})
      ensures this.enable == enable && this.frequencyHours == frequencyHours
      ensures this.notifyTime == notifyTime
      ensures sent == [] && isRunning == enable
      ensures enable ==> |accumulators| == 2 + |foreign|
                         && accumulators[0].WalletAdd? && accumulators[1].WalletDel?
      ensures enable ==> forall j | 2 <= j < |accumulators| ::
                           accumulators[j].Foreign?
                           && accumulators[j].other.roles == foreign[j - 2].roles
                           && accumulators[j].other.summarize == foreign[j - 2].summarize
      ensures forall i | 0 <= i < |accumulators| :: Window(accumulators[i]) == []
      ensures enable ==> anchor == Anchor(now, notifyTime)
      ensures enable ==> nextSummary >= now && nextSummary >= anchor
      ensures enable && periods > 0 ==> nextSummary - Step() < now
    {
      var t := notifyTime;
      var accs: seq<Accumulator> := [];
      var next := 0;
      ghost var k: nat := 0;
      var a := 0;
      if enable {
        accs := Register(foreign, now);
        a := Anchor(now, t);
        next, k := FirstSummaryTime(a, now, frequencyHours * SecondsPerHour);
      }
      this.enable := enable;
      this.notifyTime := t;
      this.frequencyHours := frequencyHours;
      accumulators := accs;
      Repr := {this} + Objects(accs);
      anchor := a;
      nextSummary := next;
      periods := k;
      isRunning := enable;
      sent := [];
    }

    /** The registration list of an enabled manager: the added-coin and
        removed-coin accumulators, then the others in the order given, all
        fresh, distinct and empty. */
    static method Register(foreign: seq<ForeignSpec>, now: int) returns (accs: seq<Accumulator>)
      ensures |accs| == 2 + |foreign| && accs[0].WalletAdd? && accs[1].WalletDel?
      ensures forall j | 2 <= j < |accs| ::
                accs[j].Foreign?
                && accs[j].other.roles == foreign[j - 2].roles
                && accs[j].other.summarize == foreign[j - 2].summarize
      ensures forall j | 0 <= j < |accs| :: fresh(ObjOf(accs[j]))
      ensures forall j, l | 0 <= j < l < |accs| :: ObjOf(accs[j]) != ObjOf(accs[l])
      ensures forall j | 0 <= j < |accs| :: AccValid(accs[j]) && Window(accs[j]) == []
    {
      var add := new WalletAddCoinStats(now);
      var del := new WalletDelCoinStats(now);
      var others := RegisterForeign(foreign, now);
      accs := [WalletAdd(add), WalletDel(del)] + others;
      assert forall j | 2 <= j < |accs| :: accs[j] == others[j - 2];
    }

    /** The accumulators after the two wallet ones, fresh and in the order
        given. */
    static method RegisterForeign(foreign: seq<ForeignSpec>, now: int) returns (accs: seq<Accumulator>)
      ensures |accs| == |foreign|
      ensures forall j | 0 <= j < |accs| ::
                accs[j].Foreign?
                && accs[j].other.roles == foreign[j].roles
                && accs[j].other.summarize == foreign[j].summarize
      ensures forall j | 0 <= j < |accs| :: fresh(ObjOf(accs[j]))
      ensures forall j, l | 0 <= j < l < |accs| :: ObjOf(accs[j]) != ObjOf(accs[l])
      ensures forall j | 0 <= j < |accs| :: AccValid(accs[j]) && Window(accs[j]) == []
    {
      accs := [];
      for i := 0 to |foreign|
        invariant |accs| == i
        invariant forall j | 0 <= j < i ::
                    accs[j].Foreign?
                    && accs[j].other.roles == foreign[j].roles
                    && accs[j].other.summarize == foreign[j].summarize
        invariant forall j | 0 <= j < i :: fresh(ObjOf(accs[j]))
        invariant forall j, l | 0 <= j < l < i :: ObjOf(accs[j]) != ObjOf(accs[l])
        invariant forall j | 0 <= j < i :: AccValid(accs[j]) && Window(accs[j]) == []
      {
        var other := new ForeignStats(foreign[i].roles, foreign[i].summarize, now);
        accs := accs + [Foreign(other)];
      }
    }

    /** `consume_wallet_messages`: every accumulator receives, in list
        order, the added coins if it consumes added coins, then the deleted
        coins if it consumes deleted coins. Nothing else changes. */
    method ConsumeWalletMessages(added: seq<CoinMessage>, deleted: seq<CoinMessage>)
      requires Valid()
      modifies Objects(accumulators)
      ensures Valid()
      ensures forall i | 0 <= i < |accumulators| ::
                Window(accumulators[i])
                == old(Window(accumulators[i])) + Delivered(Roles(accumulators[i]), AddBatch(added) + DelBatch(deleted))
      ensures forall i | 0 <= i < |accumulators| :: ResetTime(accumulators[i]) == old(ResetTime(accumulators[i]))
    {
      if !enable {
        return;
      }
      for i := 0 to |accumulators|
        invariant forall j | 0 <= j < |accumulators| :: AccValid(accumulators[j])
        invariant forall j | 0 <= j < i ::
                    Window(accumulators[j])
                    == old(Window(accumulators[j])) + Delivered(Roles(accumulators[j]), AddBatch(added) + DelBatch(deleted))
        invariant forall j | i <= j < |accumulators| :: Window(accumulators[j]) == old(Window(accumulators[j]))
        invariant forall j | 0 <= j < |accumulators| :: ResetTime(accumulators[j]) == old(ResetTime(accumulators[j]))
      {
        DeliverWallet(i, added, deleted);
      }
    }

    /** The body of the loop of `consume_wallet_messages` for the accumulator
        at `i`: added coins if it consumes them, then deleted coins if it
        consumes those. */
    method DeliverWallet(i: nat, added: seq<CoinMessage>, deleted: seq<CoinMessage>)
      requires i < |accumulators|
      requires forall j | 0 <= j < |accumulators| :: AccValid(accumulators[j])
      requires forall j, l | 0 <= j < l < |accumulators| :: ObjOf(accumulators[j]) != ObjOf(accumulators[l])
      modifies ObjOf(accumulators[i])
      ensures forall j | 0 <= j < |accumulators| :: AccValid(accumulators[j])
      ensures Window(accumulators[i])
              == old(Window(accumulators[i])) + Delivered(Roles(accumulators[i]), AddBatch(added) + DelBatch(deleted))
      ensures forall j | 0 <= j < |accumulators| && j != i :: Window(accumulators[j]) == old(Window(accumulators[j]))
      ensures forall j | 0 <= j < |accumulators| :: ResetTime(accumulators[j]) == old(ResetTime(accumulators[j]))
    {
      var roles := Roles(accumulators[i]);
      WalletDelivery(roles, added, deleted);
      if WalletAddCoin in roles {
        FeedOne(i, AddBatch(added));
      }
      if WalletDelCoin in roles {
        FeedOne(i, DelBatch(deleted));
      }
    }

    /** Feeds `batch` to the accumulator at `i`; the others keep their state. */
    method FeedOne(i: nat, batch: seq<Message>)
      requires i < |accumulators|
      requires forall j | 0 <= j < |accumulators| :: AccValid(accumulators[j])
      requires forall j, l | 0 <= j < l < |accumulators| :: ObjOf(accumulators[j]) != ObjOf(accumulators[l])
      requires forall k | 0 <= k < |batch| :: RoleOf(batch[k]) in Roles(accumulators[i])
      modifies ObjOf(accumulators[i])
      ensures forall j | 0 <= j < |accumulators| :: AccValid(accumulators[j])
      ensures Window(accumulators[i]) == old(Window(accumulators[i])) + batch
      ensures forall j | 0 <= j < |accumulators| && j != i :: Window(accumulators[j]) == old(Window(accumulators[j]))
      ensures forall j | 0 <= j < |accumulators| :: ResetTime(accumulators[j]) == old(ResetTime(accumulators[j]))
    {
      Feed(accumulators[i], batch);
    }

    /** The shared shape of the other `consume_*` methods: a batch of one kind
        reaches every accumulator that declares that kind, whole and in
        order, and no other. */
    method ConsumeOneKind(role: Role, batch: seq<Message>)
      requires Valid() && AllOfRole(batch, role)
      modifies Objects(accumulators)
      ensures Valid()
      ensures forall i | 0 <= i < |accumulators| ::
                Window(accumulators[i]) == old(Window(accumulators[i])) + Delivered(Roles(accumulators[i]), batch)
      ensures forall i | 0 <= i < |accumulators| :: ResetTime(accumulators[i]) == old(ResetTime(accumulators[i]))
    {
      if !enable {
        return;
      }
      for i := 0 to |accumulators|
        invariant forall j | 0 <= j < |accumulators| :: AccValid(accumulators[j])
        invariant forall j | 0 <= j < i ::
                    Window(accumulators[j]) == old(Window(accumulators[j])) + Delivered(Roles(accumulators[j]), batch)
        invariant forall j | i <= j < |accumulators| :: Window(accumulators[j]) == old(Window(accumulators[j]))
        invariant forall j | 0 <= j < |accumulators| :: ResetTime(accumulators[j]) == old(ResetTime(accumulators[j]))
      {
        DeliveredOfOneRole(Roles(accumulators[i]), batch, role);
        if role in Roles(accumulators[i]) {
          FeedOne(i, batch);
        }
      }
    }

    method ConsumeHarvesterMessages(objects: seq<Record>)
      requires Valid()
      modifies Objects(accumulators)
      ensures Valid()
      ensures forall i | 0 <= i < |accumulators| ::
                Window(accumulators[i])
                == old(Window(accumulators[i])) + Delivered(Roles(accumulators[i]), HarvesterBatch(objects))
      ensures forall i | 0 <= i < |accumulators| :: ResetTime(accumulators[i]) == old(ResetTime(accumulators[i]))
    {
      ConsumeOneKind(HarvesterActivity, HarvesterBatch(objects));
    }

    method ConsumePartialMessages(objects: seq<Record>)
      requires Valid()
      modifies Objects(accumulators)
      ensures Valid()
      ensures forall i | 0 <= i < |accumulators| ::
                Window(accumulators[i])
                == old(Window(accumulators[i])) + Delivered(Roles(accumulators[i]), PartialBatch(objects))
      ensures forall i | 0 <= i < |accumulators| :: ResetTime(accumulators[i]) == old(ResetTime(accumulators[i]))
    {
      ConsumeOneKind(Partial, PartialBatch(objects));
    }

    method ConsumeBlockMessages(objects: seq<Record>)
      requires Valid()
      modifies Objects(accumulators)
      ensures Valid()
      ensures forall i | 0 <= i < |accumulators| ::
                Window(accumulators[i])
                == old(Window(accumulators[i])) + Delivered(Roles(accumulators[i]), BlockBatch(objects))
      ensures forall i | 0 <= i < |accumulators| :: ResetTime(accumulators[i]) == old(ResetTime(accumulators[i]))
    {
      ConsumeOneKind(Block, BlockBatch(objects));
    }

    method ConsumeSignagePointMessages(objects: seq<Record>)
      requires Valid()
      modifies Objects(accumulators)
      ensures Valid()
      ensures forall i | 0 <= i < |accumulators| ::
                Window(accumulators[i])
                == old(Window(accumulators[i])) + Delivered(Roles(accumulators[i]), SignageBatch(objects))
      ensures forall i | 0 <= i < |accumulators| :: ResetTime(accumulators[i]) == old(ResetTime(accumulators[i]))
    {
      ConsumeOneKind(FinishedSignage, SignageBatch(objects));
    }

    /** `_send_daily_notification`: the digest lists every accumulator's
        summary in registration order, each read just before that
        accumulator is reset; one event carries it to the notifier. */
    method SendDailyNotification(now: int)
      requires Valid()
      modifies Objects(accumulators), this`sent
      ensures Valid()
      ensures sent == old(sent) + [DigestEvent(Digest(frequencyHours, old(Summaries(accumulators))))]
      ensures forall i | 0 <= i < |accumulators| ::
                Window(accumulators[i]) == [] && ResetTime(accumulators[i]) == now
    {
      var digest := SummarizeAndReset(now);
      sent := sent + [DigestEvent(digest)];
    }

    /** The loop of `_send_daily_notification`: appends each summary to the
        digest, then resets that accumulator. */
    method SummarizeAndReset(now: int) returns (digest: string)
      requires forall j | 0 <= j < |accumulators| :: AccValid(accumulators[j])
      requires forall j, l | 0 <= j < l < |accumulators| :: ObjOf(accumulators[j]) != ObjOf(accumulators[l])
      modifies Objects(accumulators)
      ensures forall j | 0 <= j < |accumulators| :: AccValid(accumulators[j])
      ensures digest == Digest(frequencyHours, old(Summaries(accumulators)))
      ensures forall i | 0 <= i < |accumulators| ::
                Window(accumulators[i]) == [] && ResetTime(accumulators[i]) == now
    {
      ghost var summaries := Summaries(accumulators);
      var header := HeaderText(frequencyHours) + "\n";
      digest := header;
      for i := 0 to |accumulators|
        invariant forall j | 0 <= j < |accumulators| :: AccValid(accumulators[j])
        invariant digest == header + Lines(summaries[..i])
        invariant forall j | 0 <= j < i :: Window(accumulators[j]) == [] && ResetTime(accumulators[j]) == now
        invariant forall j | i <= j < |accumulators| :: Summary(accumulators[j]) == summaries[j]
      {
        digest := SummarizeOne(i, now, header, digest, summaries);
      }
      assert summaries[..|accumulators|] == summaries;
    }

    /** One pass of that loop: the summary of the accumulator at `i` goes
        on a new line of the digest, then that accumulator is reset. */
    method SummarizeOne(i: nat, now: int, header: string, digest: string, ghost summaries: seq<string>)
      returns (extended: string)
      requires i < |accumulators| == |summaries|
      requires forall j | 0 <= j < |accumulators| :: AccValid(accumulators[j])
      requires forall j, l | 0 <= j < l < |accumulators| :: ObjOf(accumulators[j]) != ObjOf(accumulators[l])
      requires digest == header + Lines(summaries[..i])
      requires Summary(accumulators[i]) == summaries[i]
      modifies ObjOf(accumulators[i])
      ensures extended == header + Lines(summaries[..i + 1])
      ensures forall j | 0 <= j < |accumulators| :: AccValid(accumulators[j])
      ensures Window(accumulators[i]) == [] && ResetTime(accumulators[i]) == now
      ensures forall j | 0 <= j < |accumulators| && j != i ::
                Window(accumulators[j]) == old(Window(accumulators[j]))
                && ResetTime(accumulators[j]) == old(ResetTime(accumulators[j]))
                && Summary(accumulators[j]) == old(Summary(accumulators[j]))
    {
      var s := Summary(accumulators[i]);
      AppendLine(header, digest, summaries[..i], s);
      assert summaries[..i + 1] == summaries[..i] + [s];
      extended := digest + "\n" + s;
      ResetOne(i, now);
    }

    /** Resets the accumulator at `i`; the others keep their state. */
    method ResetOne(i: nat, now: int)
      requires i < |accumulators|
      requires forall j | 0 <= j < |accumulators| :: AccValid(accumulators[j])
      requires forall j, l | 0 <= j < l < |accumulators| :: ObjOf(accumulators[j]) != ObjOf(accumulators[l])
      modifies ObjOf(accumulators[i])
      ensures forall j | 0 <= j < |accumulators| :: AccValid(accumulators[j])
      ensures Window(accumulators[i]) == [] && ResetTime(accumulators[i]) == now
      ensures forall j | 0 <= j < |accumulators| && j != i ::
                Window(accumulators[j]) == old(Window(accumulators[j]))
                && ResetTime(accumulators[j]) == old(ResetTime(accumulators[j]))
                && Summary(accumulators[j]) == old(Summary(accumulators[j]))
    {
      ResetAcc(accumulators[i], now);
    }

    /** One pass of `_run_loop` at time `now`: nothing happens once the loop
        has been stopped; otherwise a digest fires iff `now` is strictly
        after the next-summary time, and then that time moves on by exactly
        one frequency. */
    method Tick(now: int) returns (fired: bool)
      requires Valid()
      modifies Repr
      ensures Valid()
      ensures fired <==> old(isRunning) && Fires(old(nextSummary), now)
      ensures nextSummary == if fired then TickNext(old(nextSummary), now, Step()) else old(nextSummary)
      ensures fired ==> periods == old(periods) + 1
      ensures fired ==> sent == old(sent) + [DigestEvent(Digest(frequencyHours, old(Summaries(accumulators))))]
      ensures fired ==> forall i | 0 <= i < |accumulators| :: Window(accumulators[i]) == [] && ResetTime(accumulators[i]) == now
      ensures !fired ==> unchanged(Repr)
      ensures isRunning == old(isRunning)
    {
      fired := false;
      if isRunning && now > nextSummary {
        assert (periods + 1) * Step() == periods * Step() + Step();
        nextSummary := nextSummary + Step();
        periods := periods + 1;
        fired := true;
        SendDailyNotification(now);
      }
    }

    /** `stop`: the loop exits at its next check, without a digest. */
    method Stop()
      requires Valid()
      modifies this`isRunning
      ensures Valid() && !isRunning
    {
      isRunning := false;
    }
  }

  function HarvesterBatch(objects: seq<Record>): (b: seq<Message>)
    ensures |b| == |objects| && AllOfRole(b, HarvesterActivity)
  {
    seq(|objects|, i requires 0 <= i < |objects| => Harvester(objects[i]))
  }

  function PartialBatch(objects: seq<Record>): (b: seq<Message>)
    ensures |b| == |objects| && AllOfRole(b, Partial)
  {
    seq(|objects|, i requires 0 <= i < |objects| => PartialFound(objects[i]))
  }

  function BlockBatch(objects: seq<Record>): (b: seq<Message>)
    ensures |b| == |objects| && AllOfRole(b, Block)
  {
    seq(|objects|, i requires 0 <= i < |objects| => BlockFound(objects[i]))
  }

  function SignageBatch(objects: seq<Record>): (b: seq<Message>)
    ensures |b| == |objects| && AllOfRole(b, FinishedSignage)
  {
    seq(|objects|, i requires 0 <= i < |objects| => SignagePoint(objects[i]))
  }

  /** `__init__` as written: `_parse_notify_time` runs before the enable
      check, so a setting whose `int(value[-2:])` raises stops every
      manager; an enabled one then fails in `replace` when the hour is
      outside 0..23 or the minute outside 0..59 (the hour is checked first). */
  method Create(enable: bool, timeOfDay: TimeOfDay, frequencyHours: int, foreign: seq<ForeignSpec>, now: int)
    returns (r: Result<StatsManager, SetupError>)
    requires var p := ParseNotifyTimeAsWritten(timeOfDay);
             enable && p.Some? && InDay(p.value) && Anchor(now, p.value) < now ==> frequencyHours > 0
    ensures var p := ParseNotifyTimeAsWritten(timeOfDay);
            r.Failure? <==> p.None? || (enable && !InDay(p.value))
    ensures var p := ParseNotifyTimeAsWritten(timeOfDay);
            r.Failure? ==> r.error == SetupErrorOf(p)
    ensures r.Success? ==> r.value.Valid() && fresh(r.value.Repr) && r.value.enable == enable
                           && r.value.notifyTime == ParseNotifyTimeAsWritten(timeOfDay).value
  {
    var p := ParseNotifyTimeAsWritten(timeOfDay);
    if p.None? || (enable && !InDay(p.value)) {
      return Failure(SetupErrorOf(p));
    }
    var m := new StatsManager(enable, p.value, frequencyHours, foreign, now);
    return Success(m);
  }

  /** `__init__` with the minute read from the matched clock time: a text
      setting always gives a time of day, so only an int hour outside 0..23
      stops an enabled manager. */
  method CreateCorrected(enable: bool, timeOfDay: TimeOfDay, frequencyHours: int, foreign: seq<ForeignSpec>, now: int)
    returns (r: Result<StatsManager, SetupError>)
    requires var t := ParseNotifyTime(timeOfDay);
             enable && InDay(t) && Anchor(now, t) < now ==> frequencyHours > 0
    ensures r.Failure? <==> enable && !InDay(ParseNotifyTime(timeOfDay))
    ensures r.Failure? ==> timeOfDay.IntSetting? && r.error == HourOutOfRange(timeOfDay.n)
    ensures r.Success? ==> r.value.Valid() && fresh(r.value.Repr) && r.value.enable == enable
                           && r.value.notifyTime == ParseNotifyTime(timeOfDay)
  {
    var t := ParseNotifyTime(timeOfDay);
    if enable && !InDay(t) {
      return Failure(HourOutOfRange(t.hour));
    }
    var m := new StatsManager(enable, t, frequencyHours, foreign, now);
    return Success(m);
  }
}
