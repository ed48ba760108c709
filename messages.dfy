/** The messages that parsers hand to handlers and accumulators, the consumer
    roles accumulators declare, and the notification events handlers emit. */
module Messages {

  /** `WalletAddCoinMessage` and `WalletDelCoinMessage`: when the coin was
      logged (seconds) and its amount in mojos (10^-12 XCH). Both carry the
      same two fields; the constructor of `Message` says which kind it is. */
  datatype CoinMessage = CoinMessage(timestamp: int, amountMojos: nat)

  /** The payload of a message whose parser is not part of this model
      (harvester activity, partials, blocks, signage points). */
  datatype Record = Record(timestamp: int, fields: seq<int>)

  /** The consumer interfaces an accumulator can implement. */
  datatype Role =
    | WalletAddCoin
    | WalletDelCoin
    | HarvesterActivity
    | Partial
    | Block
    | FinishedSignage

  datatype Message =
    | AddCoin(coin: CoinMessage)
    | DelCoin(coin: CoinMessage)
    | Harvester(record: Record)
    | PartialFound(record: Record)
    | BlockFound(record: Record)
    | SignagePoint(record: Record)

  /** The consumer interface whose `consume` accepts the message. */
  function RoleOf(m: Message): Role
  {
    match m
    case AddCoin(_) => WalletAddCoin
    case DelCoin(_) => WalletDelCoin
    case Harvester(_) => HarvesterActivity
    case PartialFound(_) => Partial
    case BlockFound(_) => Block
    case SignagePoint(_) => FinishedSignage
  }

  predicate AllOfRole(batch: seq<Message>, role: Role)
  {
    forall i | 0 <= i < |batch| :: RoleOf(batch[i]) == role
  }

  function AddBatch(coins: seq<CoinMessage>): (b: seq<Message>)
    ensures |b| == |coins| && AllOfRole(b, WalletAddCoin)
    ensures forall i | 0 <= i < |b| :: b[i] == AddCoin(coins[i])
  {
    seq(|coins|, i requires 0 <= i < |coins| => AddCoin(coins[i]))
  }

  function DelBatch(coins: seq<CoinMessage>): (b: seq<Message>)
    ensures |b| == |coins| && AllOfRole(b, WalletDelCoin)
    ensures forall i | 0 <= i < |b| :: b[i] == DelCoin(coins[i])
  {
    seq(|coins|, i requires 0 <= i < |coins| => DelCoin(coins[i]))
  }

  /** The part of `batch` that an accumulator declaring `roles` receives:
      the messages whose consumer role it declares, in batch order. */
  function Delivered(roles: set<Role>, batch: seq<Message>): seq<Message>
  {
    if batch == [] then []
    else
      var rest := Delivered(roles, batch[..|batch| - 1]);
      var last := batch[|batch| - 1];
      if RoleOf(last) in roles then rest + [last] else rest
  }

  /** Every message reaches an accumulator as many times as it occurs in the
      batch when the accumulator declares the message's role, and never
      otherwise. */
  lemma {:induction false} DeliveredCounts(roles: set<Role>, batch: seq<Message>, m: Message)
    ensures multiset(Delivered(roles, batch))[m]
         == if RoleOf(m) in roles then multiset(batch)[m] else 0
  {
    if batch != [] {
      var init := batch[..|batch| - 1];
      assert batch == init + [batch[|batch| - 1]];
      DeliveredCounts(roles, init, m);
    }
  }

  /** Delivery keeps the batch order: what an accumulator receives is a
      subsequence of the batch, picked by increasing positions. */
  lemma {:induction false} DeliveredInOrder(roles: set<Role>, batch: seq<Message>)
    ensures exists pick: seq<nat> ::
      |pick| == |Delivered(roles, batch)|
      && (forall i | 0 <= i < |pick| :: pick[i] < |batch| && batch[pick[i]] == Delivered(roles, batch)[i])
      && (forall i, j | 0 <= i < j < |pick| :: pick[i] < pick[j])
  {
    if batch != [] {
      var init := batch[..|batch| - 1];
      DeliveredInOrder(roles, init);
      var pick: seq<nat> :|
        |pick| == |Delivered(roles, init)|
        && (forall i | 0 <= i < |pick| :: pick[i] < |init| && init[pick[i]] == Delivered(roles, init)[i])
        && (forall i, j | 0 <= i < j < |pick| :: pick[i] < pick[j]);
      if RoleOf(batch[|batch| - 1]) in roles {
        var pick' := pick + [|batch| - 1];
        assert |pick'| == |Delivered(roles, batch)|;
        assert forall i | 0 <= i < |pick'| :: pick'[i] < |batch| && batch[pick'[i]] == Delivered(roles, batch)[i];
      } else {
        assert forall i | 0 <= i < |pick| :: pick[i] < |batch| && batch[pick[i]] == Delivered(roles, batch)[i];
      }
    }
  }

  lemma {:induction false} DeliveredAppend(roles: set<Role>, a: seq<Message>, b: seq<Message>)
    ensures Delivered(roles, a + b) == Delivered(roles, a) + Delivered(roles, b)
  {
    if b == [] {
      assert a + b == a;
    } else {
      var init := b[..|b| - 1];
      assert (a + b)[..|a + b| - 1] == a + init;
      DeliveredAppend(roles, a, init);
    }
  }

  /** A batch of one kind reaches an accumulator whole when it declares that
      kind, and not at all otherwise. */
  lemma {:induction false} DeliveredOfOneRole(roles: set<Role>, batch: seq<Message>, role: Role)
    requires AllOfRole(batch, role)
    ensures Delivered(roles, batch) == if role in roles then batch else []
  {
    if batch != [] {
      var init := batch[..|batch| - 1];
      DeliveredOfOneRole(roles, init, role);
      assert init + [batch[|batch| - 1]] == batch;
    }
  }

  /** The batch `consume_wallet_messages` hands out: added coins reach only
      add-coin consumers, deleted coins only del-coin consumers, added ones
      first. */
  lemma WalletDelivery(roles: set<Role>, added: seq<CoinMessage>, deleted: seq<CoinMessage>)
    ensures Delivered(roles, AddBatch(added) + DelBatch(deleted))
         == (if WalletAddCoin in roles then AddBatch(added) else [])
          + (if WalletDelCoin in roles then DelBatch(deleted) else [])
  {
    DeliveredAppend(roles, AddBatch(added), DelBatch(deleted));
    DeliveredOfOneRole(roles, AddBatch(added), WalletAddCoin);
    DeliveredOfOneRole(roles, DelBatch(deleted), WalletDelCoin);
  }

  lemma AddBatchAppend(a: seq<CoinMessage>, b: seq<CoinMessage>)
    ensures AddBatch(a + b) == AddBatch(a) + AddBatch(b)
  {
  }

  lemma DelBatchAppend(a: seq<CoinMessage>, b: seq<CoinMessage>)
    ensures DelBatch(a + b) == DelBatch(a) + DelBatch(b)
  {
  }

  lemma AddBatchInjective(a: seq<CoinMessage>, b: seq<CoinMessage>)
    requires AddBatch(a) == AddBatch(b)
    ensures a == b
  {
    assert |a| == |b|;
    forall i | 0 <= i < |a| ensures a[i] == b[i] {
      assert AddBatch(a)[i] == AddCoin(a[i]);
    }
  }

  lemma DelBatchInjective(a: seq<CoinMessage>, b: seq<CoinMessage>)
    requires DelBatch(a) == DelBatch(b)
    ensures a == b
  {
    assert |a| == |b|;
    forall i | 0 <= i < |a| ensures a[i] == b[i] {
      assert DelBatch(a)[i] == DelCoin(a[i]);
    }
  }

  /** The sum of the amounts of a run of coin messages. */
  function TotalMojos(coins: seq<CoinMessage>): nat
  {
    if coins == [] then 0 else TotalMojos(coins[..|coins| - 1]) + coins[|coins| - 1].amountMojos
  }

  lemma {:induction false} TotalMojosAppend(a: seq<CoinMessage>, b: seq<CoinMessage>)
    ensures TotalMojos(a + b) == TotalMojos(a) + TotalMojos(b)
  {
    if b == [] {
      assert a + b == a;
    } else {
      var init := b[..|b| - 1];
      assert (a + b)[..|a + b| - 1] == a + init;
      TotalMojosAppend(a, init);
    }
  }

  /** Notification events (the notifier's `Event`), reduced to the values
      this part of the program uses. */
  datatype EventType = User | DailyStats

  datatype EventPriority = Low

  datatype EventService = Wallet | Daily

  datatype Event = Event(eventType: EventType, priority: EventPriority, service: EventService, message: string)
}
