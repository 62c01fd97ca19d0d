/** The bank account: its four deciders, what they keep true under concurrency, and the ledger over all accounts. */
module BankAccount {
  import opened Events
  import opened EventLog
  import opened MemoryStore
  import opened Aggregates
  import opened Snapshots
  import opened Service
  import opened Protocol
  import opened Linearizability
  import opened Projections
  import opened Concurrency
  import Names = CaseConversion

  const U64_RANGE: nat := 0x1_0000_0000_0000_0000

  /** Unsigned 64-bit amounts; sums wrap around. */
  type u64 = x: nat | x < U64_RANGE

  datatype AccountEvent = Opened(owner: string) | Deposited(amount: u64) | Withdrawn(amount: u64) | Closed

  datatype AccountCommand = Open(owner: string) | Deposit(amount: u64) | Withdraw(amount: u64) | Close

  datatype AccountError =
    | NotOpen
    | AlreadyOpen
    | AmountMustBePositive
    | InsufficientFunds(balance: u64, requested: u64)
    | NonZeroBalance(balance: u64)

  datatype Account = Account(open: bool, balance: u64)

  const FRESH := Account(false, 0)

  function Apply(a: Account, e: AccountEvent): Account {
    match e
    case Opened(_) => a.(open := true)
    case Deposited(amount) => a.(balance := (a.balance + amount) % U64_RANGE)
    case Withdrawn(amount) => a.(balance := (a.balance + U64_RANGE - amount) % U64_RANGE)
    case Closed => a.(open := false)
  }

  function Handle(a: Account, command: AccountCommand): Result<seq<AccountEvent>, AccountError> {
    match command
    case Open(owner) =>
      if a.open then Err(AlreadyOpen) else Ok([Opened(owner)])
    case Deposit(amount) =>
      if !a.open then Err(NotOpen)
      else if amount == 0 then Err(AmountMustBePositive)
      else Ok([Deposited(amount)])
    case Withdraw(amount) =>
      if !a.open then Err(NotOpen)
      else if amount == 0 then Err(AmountMustBePositive)
      else if amount > a.balance then Err(InsufficientFunds(a.balance, amount))
      else Ok([Withdrawn(amount)])
    case Close =>
      if !a.open then Err(NotOpen)
      else if a.balance != 0 then Err(NonZeroBalance(a.balance))
      else Ok([Closed])
  }

  const ACCOUNT_KIND := "account"

  const ACCOUNT_NAMES := ["account.opened", "account.deposited", "account.withdrawn", "account.closed"]

  function NameOf(e: AccountEvent): (name: string)
    ensures name in ACCOUNT_NAMES
  {
    match e
    case Opened(_) => ACCOUNT_NAMES[0]
    case Deposited(_) => ACCOUNT_NAMES[1]
    case Withdrawn(_) => ACCOUNT_NAMES[2]
    case Closed => ACCOUNT_NAMES[3]
  }

  /** The variant's own name. */
  function VariantOf(e: AccountEvent): string {
    match e
    case Opened(_) => "Opened"
    case Deposited(_) => "Deposited"
    case Withdrawn(_) => "Withdrawn"
    case Closed => "Closed"
  }

  lemma OpenedIsWord()
    ensures Names.IsWord("opened") && Names.Capitalize("opened") == "Opened"
  {
    assert "Opened"[1..] == "opened"[1..];
  }

  lemma OpenedIsNamed()
    ensures ACCOUNT_NAMES[0] == "account." + Names.ApplyCase("Opened", Names.Snake)
  {
    hide Names.ApplyCase, Names.Capitalize, Names.IsWord;
    OpenedIsWord();
    Names.CapitalizedIsOneWord("opened");
    assert "account." + "opened" == "account.opened";
  }

  lemma DepositedIsWord()
    ensures Names.IsWord("deposited") && Names.Capitalize("deposited") == "Deposited"
  {
    assert "Deposited"[1..] == "deposited"[1..];
  }

  lemma DepositedIsNamed()
    ensures ACCOUNT_NAMES[1] == "account." + Names.ApplyCase("Deposited", Names.Snake)
  {
    hide Names.ApplyCase, Names.Capitalize, Names.IsWord;
    DepositedIsWord();
    Names.CapitalizedIsOneWord("deposited");
    assert "account." + "deposited" == "account.deposited";
  }

  lemma WithdrawnIsWord()
    ensures Names.IsWord("withdrawn") && Names.Capitalize("withdrawn") == "Withdrawn"
  {
    assert "Withdrawn"[1..] == "withdrawn"[1..];
  }

  lemma WithdrawnIsNamed()
    ensures ACCOUNT_NAMES[2] == "account." + Names.ApplyCase("Withdrawn", Names.Snake)
  {
    hide Names.ApplyCase, Names.Capitalize, Names.IsWord;
    WithdrawnIsWord();
    Names.CapitalizedIsOneWord("withdrawn");
    assert "account." + "withdrawn" == "account.withdrawn";
  }

  lemma ClosedIsWord()
    ensures Names.IsWord("closed") && Names.Capitalize("closed") == "Closed"
  {
    assert "Closed"[1..] == "closed"[1..];
  }

  lemma ClosedIsNamed()
    ensures ACCOUNT_NAMES[3] == "account." + Names.ApplyCase("Closed", Names.Snake)
  {
    hide Names.ApplyCase, Names.Capitalize, Names.IsWord;
    ClosedIsWord();
    Names.CapitalizedIsOneWord("closed");
    assert "account." + "closed" == "account.closed";
  }

  /** The stable names are the prefix and the variant names in snake case. */
  lemma NamesAreDerived(e: AccountEvent)
    ensures NameOf(e) == "account." + Names.ApplyCase(VariantOf(e), Names.Snake)
  {
    hide Names.ApplyCase;
    match e
    case Opened(_) => OpenedIsNamed();
    case Deposited(_) => DepositedIsNamed();
    case Withdrawn(_) => WithdrawnIsNamed();
    case Closed => ClosedIsNamed();
  }

  lemma NameInitial(e: AccountEvent)
    ensures |NameOf(e)| > 8
    ensures NameOf(e)[8] == match e
                            case Opened(_) => 'o'
                            case Deposited(_) => 'd'
                            case Withdrawn(_) => 'w'
                            case Closed => 'c'
  {
  }

  function AccountEvents(codec: Codec<AccountEvent>): EventType<AccountEvent> {
    EventType(codec, NameOf, ACCOUNT_NAMES)
  }

  function Accounts(codec: Codec<AccountEvent>): Aggregate<Account, AccountEvent, AccountCommand, AccountError> {
    Aggregate(ACCOUNT_KIND, FRESH, Apply, Handle, AccountEvents(codec))
  }

  /** The account as the program holds it: two fields that events update in place. */
  class LiveAccount {
    var open: bool
    var balance: u64

    function Value(): Account
      reads this
    {
      Account(open, balance)
    }

    constructor ()
      ensures Value() == FRESH
    {
      open, balance := false, 0;
    }

    method ApplyEvent(e: AccountEvent)
      modifies this
      ensures Value() == Apply(old(Value()), e)
    {
      match e
      case Opened(_) => open := true;
      case Deposited(amount) => balance := (balance + amount) % U64_RANGE;
      case Withdrawn(amount) => balance := (balance + U64_RANGE - amount) % U64_RANGE;
      case Closed => open := false;
    }

    /** Render an account by applying its events one after the other. */
    method ApplyEach(es: seq<AccountEvent>)
      modifies this
      ensures Value() == Fold(Apply, old(Value()), es)
    {
      for i := 0 to |es|
        invariant Value() == Fold(Apply, old(Value()), es[..i])
      {
        assert es[..i + 1][..i] == es[..i];
        ApplyEvent(es[i]);
      }
      assert es[..|es|] == es;
    }
  }

  // ---------------------------------------------------------------------------
  // Safe histories
  // ---------------------------------------------------------------------------


  function StateAfter(es: seq<AccountEvent>): Account {
    Fold(Apply, FRESH, es)
  }

  /** What the deciders let through. */
  predicate Permitted(a: Account, e: AccountEvent) {
    match e
    case Opened(_) => !a.open
    case Deposited(amount) => a.open && amount > 0
    case Withdrawn(amount) => a.open && 0 < amount <= a.balance
    case Closed => a.open && a.balance == 0
  }

  /** Every event was permitted in the state it met. */
  ghost predicate Safe(es: seq<AccountEvent>) {
    forall i | 0 <= i < |es| :: Permitted(StateAfter(es[..i]), es[i])
  }

  /** The deciders emit one permitted event or a rejection, and an event is permitted exactly when some command
      yields it. */
  lemma DecidersPermit(a: Account, e: AccountEvent)
    ensures Permitted(a, e) <==> exists command :: Handle(a, command) == Ok([e])
    ensures forall command :: Handle(a, command).Ok? ==>
              |Handle(a, command).value| == 1 && Permitted(a, Handle(a, command).value[0])
  {
    if Permitted(a, e) {
      var command := match e
        case Opened(owner) => Open(owner)
        case Deposited(amount) => Deposit(amount)
        case Withdrawn(amount) => Withdraw(amount)
        case Closed => Close;
      assert Handle(a, command) == Ok([e]);
    }
  }

  /** The event a command asks for. */
  function Asked(command: AccountCommand): AccountEvent {
    match command
    case Open(owner) => Opened(owner)
    case Deposit(amount) => Deposited(amount)
    case Withdraw(amount) => Withdrawn(amount)
    case Close => Closed
  }

  /** A command is accepted exactly when the event it asks for is permitted, and then yields that event and nothing
      else. It is rejected for being open or not open first, then for its amount, then for the balance, and a rejection
      about the balance names both sides. */
  lemma HandleIff(a: Account, command: AccountCommand)
    ensures Handle(a, command).Ok? <==> Permitted(a, Asked(command))
    ensures Handle(a, command).Ok? ==> Handle(a, command) == Ok([Asked(command)])
    ensures Handle(a, command) == Err(AlreadyOpen) <==> command.Open? && a.open
    ensures Handle(a, command) == Err(NotOpen) <==> !command.Open? && !a.open
    ensures Handle(a, command) == Err(AmountMustBePositive) <==>
              a.open && (command == Deposit(0) || command == Withdraw(0))
    ensures forall balance: u64, requested: u64 ::
              Handle(a, command) == Err(InsufficientFunds(balance, requested)) <==>
              a.open && command == Withdraw(requested) && requested > 0 && balance == a.balance < requested
    ensures forall balance: u64 ::
              Handle(a, command) == Err(NonZeroBalance(balance)) <==>
              a.open && command == Close && balance == a.balance > 0
  {
  }

  function Delta(e: AccountEvent): int {
    match e
    case Deposited(amount) => amount
    case Withdrawn(amount) => -(amount as int)
    case _ => 0
  }

  function Opening(e: AccountEvent): int {
    if e.Opened? then 1 else 0
  }

  function Closing(e: AccountEvent): int {
    if e.Closed? then 1 else 0
  }

  function Total(weigh: AccountEvent -> int, es: seq<AccountEvent>): int {
    if es == [] then 0 else Total(weigh, es[..|es| - 1]) + weigh(es[|es| - 1])
  }

  lemma TotalPush(weigh: AccountEvent -> int, es: seq<AccountEvent>, e: AccountEvent)
    ensures Total(weigh, es + [e]) == Total(weigh, es) + weigh(e)
  {
    assert (es + [e])[..|es|] == es;
  }

  /** Deposits minus withdrawals, without any wrap-around. */
  function Net(es: seq<AccountEvent>): int {
    Total(Delta, es)
  }

  /** Whether this event makes the balance wrap around: the check that the deposit decider does not make. */
  predicate Overflows(a: Account, e: AccountEvent) {
    e.Deposited? && a.balance + e.amount >= U64_RANGE
  }

  function Carries(es: seq<AccountEvent>): nat {
    if es == [] then 0
    else
      var n := |es| - 1;
      Carries(es[..n]) + if Overflows(StateAfter(es[..n]), es[n]) then 1 else 0
  }

  lemma SafePrefix(es: seq<AccountEvent>, n: nat)
    requires Safe(es) && n <= |es|
    ensures Safe(es[..n])
  {
    forall i | 0 <= i < n ensures Permitted(StateAfter(es[..n][..i]), es[..n][i]) {
      assert es[..n][..i] == es[..i];
    }
  }

  lemma SafePush(es: seq<AccountEvent>, e: AccountEvent)
    requires Safe(es) && Permitted(StateAfter(es), e)
    ensures Safe(es + [e])
  {
    forall i | 0 <= i < |es| + 1 ensures Permitted(StateAfter((es + [e])[..i]), (es + [e])[i]) {
      assert (es + [e])[..i] == es[..i];
      assert es[..|es|] == es;
    }
  }

  /** One permitted event moves the balance by its amount, less a full range when it overflows. */
  lemma OneEventBooks(a: Account, e: AccountEvent)
    requires Permitted(a, e) && (!a.open ==> a.balance == 0)
    ensures Apply(a, e).balance + (if Overflows(a, e) then U64_RANGE else 0) == a.balance + Delta(e)
    ensures !Apply(a, e).open ==> Apply(a, e).balance == 0
  {
  }

  lemma AfterPush(es: seq<AccountEvent>)
    requires es != []
    ensures var n := |es| - 1;
            && StateAfter(es) == Apply(StateAfter(es[..n]), es[n])
            && Net(es) == Net(es[..n]) + Delta(es[n])
            && Total(Opening, es) == Total(Opening, es[..n]) + Opening(es[n])
            && Total(Closing, es) == Total(Closing, es[..n]) + Closing(es[n])
            && Carries(es) == Carries(es[..n]) + if Overflows(StateAfter(es[..n]), es[n]) then 1 else 0
  {
  }

  /** A safe history keeps exact books up to wrap-around: the balance is deposits minus withdrawals less one full
      range per overflowing deposit; and an account that is not open is empty. */
  lemma {:induction false} SafeBooks(es: seq<AccountEvent>)
    requires Safe(es)
    ensures Net(es) == StateAfter(es).balance + U64_RANGE * Carries(es)
    ensures !StateAfter(es).open ==> StateAfter(es).balance == 0
  {
    if es != [] {
      hide StateAfter, Net, Carries, Apply, Delta, Overflows, Permitted;
      var n := |es| - 1;
      SafePrefix(es, n);
      SafeBooks(es[..n]);
      AfterPush(es);
      OneEventBooks(StateAfter(es[..n]), es[n]);
    }
  }

  lemma OneEventMod(a: Account, e: AccountEvent, net: int)
    requires a.balance == net % U64_RANGE
    ensures Apply(a, e).balance == (net + Delta(e)) % U64_RANGE
  {
  }

  /** Safe or not, every history renders to deposits minus withdrawals up to wrap-around, and no other event touches the
      balance. */
  lemma {:induction false} BalanceIsNetWrapped(es: seq<AccountEvent>)
    ensures StateAfter(es).balance == Net(es) % U64_RANGE
  {
    if es != [] {
      hide StateAfter, Net, Carries, Apply, Delta;
      var n := |es| - 1;
      BalanceIsNetWrapped(es[..n]);
      AfterPush(es);
      OneEventMod(StateAfter(es[..n]), es[n], Net(es[..n]));
    } else {
      assert StateAfter(es) == FRESH && Net(es) == 0;
    }
  }

  /** The account was opened and not closed since. */
  ghost predicate OpenedLast(es: seq<AccountEvent>) {
    exists i :: 0 <= i < |es| && es[i].Opened? && forall j | i < j < |es| :: !es[j].Closed?
  }

  lemma OpenedLastPush(es: seq<AccountEvent>, e: AccountEvent)
    ensures OpenedLast(es + [e]) <==> e.Opened? || (OpenedLast(es) && !e.Closed?)
  {
    var more := es + [e];
    if e.Opened? {
      assert more[|es|].Opened?;
    } else if OpenedLast(es) && !e.Closed? {
      var i :| 0 <= i < |es| && es[i].Opened? && forall j | i < j < |es| :: !es[j].Closed?;
      assert more[i].Opened? && forall j | i < j < |more| :: !more[j].Closed?;
    }
    if OpenedLast(more) {
      var i :| 0 <= i < |more| && more[i].Opened? && forall j | i < j < |more| :: !more[j].Closed?;
      if i < |es| {
        assert es[i].Opened? && forall j | i < j < |es| :: !more[j].Closed? && es[j] == more[j];
        assert !more[|es|].Closed?;
      }
    }
  }

  /** And every history renders to an open account exactly when it was opened and not closed since. */
  lemma {:induction false} OpenIffOpenedLast(es: seq<AccountEvent>)
    ensures StateAfter(es).open <==> OpenedLast(es)
  {
    if es != [] {
      hide StateAfter, Total, Carries, OpenedLast;
      var n := |es| - 1;
      OpenIffOpenedLast(es[..n]);
      AfterPush(es);
      OpenedLastPush(es[..n], es[n]);
      assert es == es[..n] + [es[n]];
    } else {
      assert StateAfter(es) == FRESH;
    }
  }

  /** One permitted event opens or closes the account, or leaves that as it was. */
  lemma OneEventCounts(a: Account, e: AccountEvent)
    requires Permitted(a, e)
    ensures (if Apply(a, e).open then 1 else 0) == (if a.open then 1 else 0) + Opening(e) - Closing(e)
  {
  }

  /** In a safe history openings and closings alternate: the account is open when there is one opening more. */
  lemma {:induction false} SafeCounts(es: seq<AccountEvent>)
    requires Safe(es)
    ensures Total(Opening, es) == Total(Closing, es) + if StateAfter(es).open then 1 else 0
  {
    if es == [] {
      assert StateAfter(es) == FRESH;
    } else {
      hide StateAfter, Total, Carries, Apply, Opening, Closing, Overflows, Permitted;
      var n := |es| - 1;
      SafePrefix(es, n);
      SafeCounts(es[..n]);
      AfterPush(es);
      OneEventCounts(StateAfter(es[..n]), es[n]);
    }
  }

  /** No replay of any prefix of a safe history ever subtracts below zero. */
  lemma SafeNeverUnderflows(es: seq<AccountEvent>, i: nat)
    requires Safe(es) && i < |es| && es[i].Withdrawn?
    ensures es[i].amount <= StateAfter(es[..i]).balance
    ensures StateAfter(es[..i + 1]).balance == StateAfter(es[..i]).balance - es[i].amount
  {
    assert es[..i + 1][..i] == es[..i];
  }

  predicate OverflowsAt(es: seq<AccountEvent>, i: nat)
    requires i < |es|
  {
    Overflows(StateAfter(es[..i]), es[i])
  }

  lemma LastCarry(es: seq<AccountEvent>)
    requires es != []
    ensures var n := |es| - 1;
            Carries(es) == Carries(es[..n]) + if OverflowsAt(es, n) then 1 else 0
  {
  }

  lemma OverflowsEarlier(es: seq<AccountEvent>, n: nat, i: nat)
    requires i < n <= |es|
    ensures OverflowsAt(es, i) == OverflowsAt(es[..n], i)
  {
    assert es[..n][..i] == es[..i];
  }

  lemma {:induction false} CarriesIff(es: seq<AccountEvent>)
    ensures Carries(es) == 0 <==> forall i | 0 <= i < |es| :: !OverflowsAt(es, i)
  {
    if es == [] {
      assert Carries(es) == 0;
    } else {
      hide OverflowsAt, Carries;
      var n := |es| - 1;
      LastCarry(es);
      CarriesIff(es[..n]);
      forall i | 0 <= i < n
        ensures OverflowsAt(es, i) == OverflowsAt(es[..n], i)
      {
        OverflowsEarlier(es, n, i);
      }
    }
  }

  /** The balance equals deposits minus withdrawals exactly when no deposit ever overflowed. */
  lemma {:induction false} BalanceIsNetIff(es: seq<AccountEvent>)
    requires Safe(es)
    ensures StateAfter(es).balance == Net(es) <==> forall i | 0 <= i < |es| :: !OverflowsAt(es, i)
  {
    hide OverflowsAt, StateAfter, Net, Carries;
    SafeBooks(es);
    CarriesIff(es);
  }

  /** The same update in a build that checks arithmetic: a sum or difference out of range stops the program. */
  function CheckedApply(a: Account, e: AccountEvent): Option<Account> {
    match e
    case Opened(_) => Some(a.(open := true))
    case Deposited(amount) => if a.balance + amount < U64_RANGE then Some(a.(balance := a.balance + amount)) else None
    case Withdrawn(amount) => if amount <= a.balance then Some(a.(balance := a.balance - amount)) else None
    case Closed => Some(a.(open := false))
  }

  function CheckedRender(es: seq<AccountEvent>): Option<Account> {
    if es == [] then Some(FRESH)
    else
      var before := CheckedRender(es[..|es| - 1]);
      if before.None? then None else CheckedApply(before.value, es[|es| - 1])
  }

  /** It stops on a sum or a difference out of range, and otherwise the two builds agree; on any account and event. */
  lemma CheckedStep(a: Account, e: AccountEvent)
    ensures CheckedApply(a, e)
         == if Overflows(a, e) || (e.Withdrawn? && e.amount > a.balance) then None else Some(Apply(a, e))
  {
  }

  /** On a safe history a checking build stops exactly when some deposit overflows, and otherwise renders the same. */
  lemma {:induction false} CheckedRenderIff(es: seq<AccountEvent>)
    requires Safe(es)
    ensures CheckedRender(es) == if Carries(es) == 0 then Some(StateAfter(es)) else None
  {
    if es != [] {
      hide StateAfter, Carries, Overflows, Apply, CheckedApply;
      var n := |es| - 1;
      SafePrefix(es, n);
      CheckedRenderIff(es[..n]);
      AfterPush(es);
      CheckedStep(StateAfter(es[..n]), es[n]);
    } else {
      assert Carries(es) == 0 && StateAfter(es) == FRESH;
    }
  }

  /** Such a deposit is accepted: after it the account shows nothing although everything is still owed. */
  lemma OverflowIsAccepted()
    ensures var es := [Opened("a"), Deposited(0xFFFF_FFFF_FFFF_FFFF), Deposited(1)];
            && Safe(es) && Handle(StateAfter(es[..2]), Deposit(1)) == Ok([es[2]])
            && StateAfter(es) == Account(true, 0) && Net(es) == 0x1_0000_0000_0000_0000
  {
    var e0, e1, e2 := Opened("a"), Deposited(U64_RANGE - 1), Deposited(1);
    var es := [e0, e1, e2];
    assert es[..0] == [] && es[..1] == [e0] && es[..2] == [e0, e1] && es[..3] == es;
    AfterPush([e0]);
    AfterPush([e0, e1]);
    AfterPush(es);
    assert [e0][..0] == [] && [e0, e1][..1] == [e0];
    assert StateAfter([]) == FRESH && Net([]) == 0;
    assert StateAfter([e0]) == Account(true, 0);
    assert StateAfter([e0, e1]) == Account(true, U64_RANGE - 1);
    assert StateAfter(es) == Account(true, 0);
  }

  // ---------------------------------------------------------------------------
  // Accounts in a shared log
  // ---------------------------------------------------------------------------


  function Key(id: string): StreamKey {
    StreamKey(ACCOUNT_KIND, id)
  }

  /** Account names occur in account streams and nowhere else, and what they carry can be read. */
  ghost predicate BooksKept(codec: Codec<AccountEvent>, log: Log) {
    forall e <- log ::
      && (e.eventType in ACCOUNT_NAMES <==> e.key.kind == ACCOUNT_KIND)
      && (e.key.kind == ACCOUNT_KIND ==> codec.decode(e.payload).Some?)
  }

  /** One account's events as a load decodes them. */
  function EventsOf(codec: Codec<AccountEvent>, log: Log, id: string): seq<AccountEvent> {
    match DecodeAll(codec, Stream(log, Key(id)))
    case Ok(rs) => Payloads(rs)
    case Err(_) => []
  }

  /** Load and render one account from the store. */
  method RenderAccount(store: MemoryStore, codec: Codec<AccountEvent>, id: string)
    returns (result: Result<(), StoreError>, account: LiveAccount)
    requires store.Valid()
    ensures result.Err? <==> DecodeAll(codec, Stream(store.log, Key(id))).Err?
    ensures result.Ok? ==> account.Value() == StateAfter(EventsOf(codec, store.log, id))
  {
    account := new LiveAccount();
    var loaded := store.Load(Key(id), AccountEvents(codec));
    if loaded.Err? {
      return Err(loaded.error), account;
    }
    account.ApplyEach(Payloads(loaded.value));
    return Ok(()), account;
  }

  lemma {:induction false} AllDecode<E>(codec: Codec<E>, ls: seq<Located>)
    requires forall l <- ls :: codec.decode(l.stored.payload).Some?
    ensures DecodeAll(codec, ls).Ok?
  {
    if ls != [] {
      var n := |ls| - 1;
      assert forall l <- ls[..n] :: l in ls;
      assert ls[n] in ls;
      AllDecode(codec, ls[..n]);
    }
  }

  lemma BooksDecode(codec: Codec<AccountEvent>, log: Log, id: string)
    requires BooksKept(codec, log)
    ensures DecodeAll(codec, Stream(log, Key(id))).Ok?
    ensures DecodeAll(codec, Select(log, Named(ACCOUNT_NAMES), 0)).Ok?
  {
    hide Select, DecodeAll;
    SelectSound(log, OfStream(Key(id)), 0);
    SelectSound(log, Named(ACCOUNT_NAMES), 0);
    assert forall l <- Stream(log, Key(id)) :: l.stored in log;
    assert forall l <- Select(log, Named(ACCOUNT_NAMES), 0) :: l.stored in log;
    AllDecode(codec, Stream(log, Key(id)));
    AllDecode(codec, Select(log, Named(ACCOUNT_NAMES), 0));
  }

  /** A new event of an account is one more event of that account and of no other. */
  lemma BooksPush(codec: Codec<AccountEvent>, log: Log, e: StoredEvent, id: string, event: AccountEvent)
    requires BooksKept(codec, log + [e])
    requires e.key == Key(id) ==> codec.decode(e.payload) == Some(event)
    ensures EventsOf(codec, log + [e], id) == EventsOf(codec, log, id) + if e.key == Key(id) then [event] else []
  {
    hide Select, DecodeAll;
    assert forall f <- log :: f in log + [e];
    BooksDecode(codec, log, id);
    SelectPush(log, e, OfStream(Key(id)), 0);
    var before := DecodeAll(codec, Stream(log, Key(id))).value;
    if e.key == Key(id) {
      var l := Located(|log| + 1, e);
      DecodeAllPush(codec, Stream(log, Key(id)), l, event);
      assert Payloads(before + [ToRecorded(l, event)]) == Payloads(before) + [event];
    } else {
      assert Stream(log + [e], Key(id)) == Stream(log, Key(id));
    }
  }

  /** Others write to streams of other aggregates, under other names. */
  ghost predicate Separate(history: seq<Entry<AccountEvent, AccountCommand, AccountError>>) {
    forall k | 0 <= k < |history| && history[k].ByOther? ::
      && history[k].rival.key.kind != ACCOUNT_KIND
      && forall w <- history[k].rival.wires :: w.name !in ACCOUNT_NAMES
  }

  ghost predicate AllSafe(codec: Codec<AccountEvent>, log: Log) {
    BooksKept(codec, log) && forall id :: Safe(EventsOf(codec, log, id))
  }

  lemma {:induction false} PushedShape<E>(log: Log, key: StreamKey, base: nat, ty: EventType<E>, events: seq<E>)
    requires Encodable(ty, events)
    ensures forall e <- Pushed(log, key, base, ty, events) ::
              e in log || (e.key == key && exists w <- events :: e.eventType == ty.nameOf(w))
  {
    if |events| > 0 {
      var n := |events| - 1;
      PushedShape(log, key, base, ty, events[..n]);
      assert events[n] in events;
    }
  }

  /** An append by others leaves every account as it was. */
  lemma OthersLeaveAccounts(codec: Codec<AccountEvent>, log: Log, rival: Rival)
    requires WellFormed(log) && AllSafe(codec, log)
    requires rival.key.kind != ACCOUNT_KIND && forall w <- rival.wires :: w.name !in ACCOUNT_NAMES
    ensures AllSafe(codec, TryAppend(log, rival.key, rival.expected, WireEvents(), rival.wires).log)
  {
    var after := TryAppend(log, rival.key, rival.expected, WireEvents(), rival.wires).log;
    AppendKeepsLog(log, rival.key, rival.expected, WireEvents(), rival.wires);
    if after != log {
      var wires := rival.wires[..EncodablePrefix(WireEvents(), rival.wires)];
      PushedShape(log, rival.key, MaxVersion(log, rival.key), WireEvents(), wires);
      assert forall w <- wires :: w in rival.wires;
    }
    assert BooksKept(codec, after);
    forall id ensures Safe(EventsOf(codec, after, id)) {
      assert Stream(after, Key(id)) == Stream(log, Key(id));
      assert Safe(EventsOf(codec, log, id));
    }
  }

  /** What an account command does to the log: one permitted event at the end of its own stream, or nothing when it is
      rejected or its event cannot be encoded. */
  lemma CommandPushesPermitted(codec: Codec<AccountEvent>, log: Log, id: string, command: AccountCommand)
    requires Faithful(codec) && WellFormed(log) && BooksKept(codec, log)
    ensures var after := Execute(Accounts(codec), log, id, command).log;
            var a := StateAfter(EventsOf(codec, log, id));
            if Handle(a, command).Ok? && codec.encode(Handle(a, command).value[0]).Some? then
              var e := Handle(a, command).value[0];
              && Permitted(a, e)
              && after == log + [ToStored(Key(id), |Stream(log, Key(id))| + 1, AccountEvents(codec), e)]
            else after == log
  {
    hide Select, WellFormed, MaxVersion, Pushed, Records, DecodeAll, Fold;
    var agg := Accounts(codec);
    BooksDecode(codec, log, id);
    var a := StateAfter(EventsOf(codec, log, id));
    assert LoadState(agg, log, id) == Ok(Loaded(a, |Stream(log, Key(id))|));
    if Handle(a, command).Ok? {
      var es := Handle(a, command).value;
      MaxVersionIsLength(log, Key(id));
      assert es[..1] == es && es[..0] == [];
      PushStarts(log, Key(id), |Stream(log, Key(id))|, AccountEvents(codec), es);
      if codec.encode(es[0]).Some? {
        assert EncodablePrefix(AccountEvents(codec), es) == |es|;
        PushNext(log, Key(id), |Stream(log, Key(id))|, AccountEvents(codec), es, 0);
      }
    }
  }

  lemma CommandKeepsSafe(codec: Codec<AccountEvent>, log: Log, id: string, command: AccountCommand)
    requires Faithful(codec) && WellFormed(log) && AllSafe(codec, log)
    ensures AllSafe(codec, Execute(Accounts(codec), log, id, command).log)
  {
    hide Execute, WellFormed, StateAfter, Stream, DecodeAll, EventsOf, Safe;
    CommandPushesPermitted(codec, log, id, command);
    var after := Execute(Accounts(codec), log, id, command).log;
    var a := StateAfter(EventsOf(codec, log, id));
    if Handle(a, command).Ok? && codec.encode(Handle(a, command).value[0]).Some? {
      var e := Handle(a, command).value[0];
      var stored := ToStored(Key(id), |Stream(log, Key(id))| + 1, AccountEvents(codec), e);
      assert codec.decode(stored.payload) == Some(e);
      assert BooksKept(codec, after);
      forall other ensures Safe(EventsOf(codec, after, other)) {
        BooksPush(codec, log, stored, other, e);
        assert Safe(EventsOf(codec, log, other));
        if other == id {
          SafePush(EventsOf(codec, log, id), e);
        } else {
          assert EventsOf(codec, after, other) == EventsOf(codec, log, other);
        }
      }
    }
  }

  lemma LoadsTheAccount(codec: Codec<AccountEvent>, log: Log, id: string)
    requires BooksKept(codec, log)
    ensures LoadState(Accounts(codec), log, id)
         == Ok(Loaded(StateAfter(EventsOf(codec, log, id)), |Stream(log, Key(id))|))
  {
    hide Select, DecodeAll, Fold, BooksKept;
    BooksDecode(codec, log, id);
  }

  /** Committing one event at the stream's own version. */
  lemma OneEventCommits(codec: Codec<AccountEvent>, log: Log, id: string, version: nat, e: AccountEvent)
    requires WellFormed(log) && version == |Stream(log, Key(id))|
    ensures var x := Commit(Accounts(codec), log, id, version, [e]);
            if codec.encode(e).None? then x.outcome == Err(Store(Serialization))
            else x.outcome.Ok? && Payloads(x.outcome.value) == [e]
  {
    hide Select, WellFormed;
    var ty := AccountEvents(codec);
    AppendOutcome(log, Key(id), ExpectedAfter(version), ty, [e]);
    RecordsShape(Key(id), MaxVersion(log, Key(id)), |log|, ty, [e]);
    assert [e][0] == e;
  }

  lemma BooksStayKept(codec: Codec<AccountEvent>, log: Log, id: string, e: AccountEvent)
    requires Faithful(codec) && BooksKept(codec, log) && codec.encode(e).Some?
    ensures var stored := ToStored(Key(id), |Stream(log, Key(id))| + 1, AccountEvents(codec), e);
            && BooksKept(codec, log + [stored])
            && codec.decode(stored.payload) == Some(e) && stored.key == Key(id)
  {
    hide Select, Stream;
  }

  lemma AfterOneMore(es: seq<AccountEvent>, e: AccountEvent)
    ensures StateAfter(es + [e]) == Apply(StateAfter(es), e)
  {
    assert (es + [e])[..|es|] == es;
  }

  /** A command on the store, by what it asks for: rejected with the decider's reason, failed because its event cannot be
      encoded, or recorded as exactly the one event asked for, which then is the account's last; and no other account
      changes. */
  lemma CommandDoesAsAsked(codec: Codec<AccountEvent>, log: Log, id: string, command: AccountCommand, other: string)
    requires Faithful(codec) && WellFormed(log) && BooksKept(codec, log)
    ensures var x := Execute(Accounts(codec), log, id, command);
            var es, after := EventsOf(codec, log, id), EventsOf(codec, x.log, id);
            && (other != id ==> EventsOf(codec, x.log, other) == EventsOf(codec, log, other))
            && if !Permitted(StateAfter(es), Asked(command)) then
                 && Handle(StateAfter(es), command).Err? && after == es
                 && x.outcome == Err(Rejected(Handle(StateAfter(es), command).error))
               else if codec.encode(Asked(command)).None? then
                 && x.outcome == Err(Store(Serialization)) && after == es
               else
                 && x.outcome.Ok? && Payloads(x.outcome.value) == [Asked(command)]
                 && after == es + [Asked(command)]
  {
    hide Select, WellFormed, DecodeAll, StateAfter, Fold, TryAppend, ToStored, EventsOf, BooksKept;
    var agg := Accounts(codec);
    var a := StateAfter(EventsOf(codec, log, id));
    HandleIff(a, command);
    CommandPushesPermitted(codec, log, id, command);
    LoadsTheAccount(codec, log, id);
    if Handle(a, command).Ok? {
      OneEventCommits(codec, log, id, |Stream(log, Key(id))|, Asked(command));
      if codec.encode(Asked(command)).Some? {
        var stored := ToStored(Key(id), |Stream(log, Key(id))| + 1, AccountEvents(codec), Asked(command));
        BooksStayKept(codec, log, id, Asked(command));
        BooksPush(codec, log, stored, id, Asked(command));
        BooksPush(codec, log, stored, other, Asked(command));
      }
    }
  }

  /** In particular an accepted withdrawal lowers the rendered balance by exactly the amount asked for, and an accepted
      deposit that does not overflow raises it by exactly that. */
  lemma AmountsAreAsAsked(codec: Codec<AccountEvent>, log: Log, id: string, amount: u64)
    requires Faithful(codec) && WellFormed(log) && BooksKept(codec, log)
    ensures var before := StateAfter(EventsOf(codec, log, id)).balance;
            var x := Execute(Accounts(codec), log, id, Withdraw(amount));
            x.outcome.Ok? ==>
              0 < amount <= before && StateAfter(EventsOf(codec, x.log, id)).balance == before - amount
    ensures var before := StateAfter(EventsOf(codec, log, id)).balance;
            var x := Execute(Accounts(codec), log, id, Deposit(amount));
            x.outcome.Ok? && before + amount < U64_RANGE ==>
              0 < amount && StateAfter(EventsOf(codec, x.log, id)).balance == before + amount
  {
    hide Execute, EventsOf, WellFormed, BooksKept, StateAfter;
    var es := EventsOf(codec, log, id);
    CommandDoesAsAsked(codec, log, id, Withdraw(amount), id);
    CommandDoesAsAsked(codec, log, id, Deposit(amount), id);
    AfterOneMore(es, Withdrawn(amount));
    AfterOneMore(es, Deposited(amount));
  }

  lemma {:induction false} ReplayIsSafe(
      codec: Codec<AccountEvent>, history: seq<Entry<AccountEvent, AccountCommand, AccountError>>)
    requires Faithful(codec) && Separate(history)
    ensures AllSafe(codec, Replay(Accounts(codec), history))
  {
    if |history| > 0 {
      hide Execute, TryAppend, WellFormed, AllSafe;
      var n := |history| - 1;
      var before := Replay(Accounts(codec), history[..n]);
      ReplayIsSafe(codec, history[..n]);
      ReplayIsWellFormed(Accounts(codec), history[..n]);
      match history[n]
      case ByClient(_, id, command, _) => CommandKeepsSafe(codec, before, id, command);
      case ByOther(rival) => OthersLeaveAccounts(codec, before, rival);
    }
  }

  /** In every interleaving of service clients, retrying, snapshotting or neither, every account's history is safe. */
  lemma {:induction false} AccountsAreSafe(
      codec: Codec<AccountEvent>, snapshots: Codec<Snapshot<Account>>, steps: seq<Step<AccountCommand>>)
    requires Faithful(codec) && Faithful(snapshots)
    requires Separate(Run(Accounts(codec), snapshots, steps).history)
    ensures AllSafe(codec, Run(Accounts(codec), snapshots, steps).log)
  {
    hide Run, Replay, AllSafe, Separate, SnapshotsAreSound;
    InvHolds(Accounts(codec), snapshots, steps);
    ReplayIsSafe(codec, Run(Accounts(codec), snapshots, steps).history);
  }

  /** And every client that reports success has had recorded exactly the event its command asked for. */
  lemma {:induction false} AcceptedAsAsked(
      codec: Codec<AccountEvent>, snapshots: Codec<Snapshot<Account>>, steps: seq<Step<AccountCommand>>, i: nat)
    requires Faithful(codec) && Faithful(snapshots)
    requires var sys := Run(Accounts(codec), snapshots, steps);
             i in sys.clients && sys.clients[i].pc.Done? && sys.clients[i].pc.outcome.Ok?
    ensures var c := Run(Accounts(codec), snapshots, steps).clients[i];
            Payloads(c.pc.outcome.value) == [Asked(c.command)]
  {
    hide Run, Replay, LoadState, Stream, DecodeAll, WellFormed, Handle, Payloads, Faithful;
    ReportedEventsWereCommitted(Accounts(codec), snapshots, steps, i);
    var sys := Run(Accounts(codec), snapshots, steps);
    var c := sys.clients[i];
    var loaded := LoadState(Accounts(codec), Replay(Accounts(codec), sys.history[..c.entry.value]), c.id);
    HandleIff(loaded.value.state, c.command);
  }

  // ---------------------------------------------------------------------------
  // The ledger
  // ---------------------------------------------------------------------------


  datatype LedgerView = LedgerView(accountsOpened: nat, totalBalance: int)

  function LedgerApply(v: LedgerView, r: Recorded<AccountEvent>): LedgerView {
    match r.payload
    case Opened(_) => v.(accountsOpened := v.accountsOpened + 1)
    case Deposited(amount) => v.(totalBalance := v.totalBalance + amount)
    case Withdrawn(amount) => v.(totalBalance := v.totalBalance - amount)
    case Closed => v
  }

  function Ledger(codec: Codec<AccountEvent>): View<LedgerView, AccountEvent> {
    View(LedgerView(0, 0), LedgerApply, AccountEvents(codec))
  }

  /** The ledger as the program holds it. */
  class LiveLedger {
    var accountsOpened: nat
    var totalBalance: int

    function Value(): LedgerView
      reads this
    {
      LedgerView(accountsOpened, totalBalance)
    }

    constructor ()
      ensures Value() == LedgerView(0, 0)
    {
      accountsOpened, totalBalance := 0, 0;
    }

    method ApplyEvent(r: Recorded<AccountEvent>)
      modifies this
      ensures Value() == LedgerApply(old(Value()), r)
    {
      match r.payload
      case Opened(_) => accountsOpened := accountsOpened + 1;
      case Deposited(amount) => totalBalance := totalBalance + amount;
      case Withdrawn(amount) => totalBalance := totalBalance - amount;
      case Closed =>
    }

    /** Fold events into the ledger one after the other. */
    method ApplyEach(rs: seq<Recorded<AccountEvent>>)
      modifies this
      ensures Value() == Fold(LedgerApply, old(Value()), rs)
    {
      for i := 0 to |rs|
        invariant Value() == Fold(LedgerApply, old(Value()), rs[..i])
      {
        assert rs[..i + 1][..i] == rs[..i];
        ApplyEvent(rs[i]);
      }
      assert rs[..|rs|] == rs;
    }
  }

  /** Rebuild the ledger page by page from the whole log. */
  method ReplayLedger(store: MemoryStore, codec: Codec<AccountEvent>, batch: nat)
    returns (result: Result<nat, StoreError>, ledger: LiveLedger)
    ensures result.Err? <==> Replayed(Ledger(codec), store.log).Err?
    ensures result.Ok? ==>
              Replayed(Ledger(codec), store.log) == Ok(Projection(ledger.Value(), result.value))
  {
    hide Replayed, Reflects, Page, Select, DecodeAll, Fold;
    var view := Ledger(codec);
    ledger := new LiveLedger();
    var position := 0;
    FreshReflects(view, store.log);
    PositionInLog(view, store.log, Projection(ledger.Value(), position));
    while true
      invariant Reflects(view, store.log, Projection(ledger.Value(), position)) && position <= |store.log|
      decreases |store.log| - position
    {
      ghost var before := Projection(ledger.Value(), position);
      var page := store.ReadAll(position, batch, AccountEvents(codec));
      if page.Err? {
        BadPageFailsReplay(view, store.log, before, batch);
        return Err(page.error), ledger;
      }
      DecodeAllShape(codec, Page(store.log, ACCOUNT_NAMES, position, batch));
      if |page.value| == 0 {
        CaughtUpIsReplayed(view, store.log, before, batch);
        return Ok(position), ledger;
      }
      PageAdvances(view, store.log, before, batch);
      ledger.ApplyEach(page.value);
      position := page.value[|page.value| - 1].position;
    }
  }

  ghost predicate Distinct(ids: seq<string>) {
    forall i, j | 0 <= i < j < |ids| :: ids[i] != ids[j]
  }

  /** A list that names each account once. */
  ghost predicate Lists(log: Log, ids: seq<string>) {
    && Distinct(ids)
    && forall e <- log | e.key.kind == ACCOUNT_KIND :: e.key.id in ids
  }

  /** The sum over the listed accounts of what their events weigh. */
  function SumTotal(weigh: AccountEvent -> int, codec: Codec<AccountEvent>, log: Log, ids: seq<string>): int {
    if ids == [] then 0
    else SumTotal(weigh, codec, log, ids[..|ids| - 1]) + Total(weigh, EventsOf(codec, log, ids[|ids| - 1]))
  }

  function SumBalances(codec: Codec<AccountEvent>, log: Log, ids: seq<string>): nat {
    if ids == [] then 0
    else SumBalances(codec, log, ids[..|ids| - 1]) + StateAfter(EventsOf(codec, log, ids[|ids| - 1])).balance
  }

  function SumCarries(codec: Codec<AccountEvent>, log: Log, ids: seq<string>): nat {
    if ids == [] then 0
    else SumCarries(codec, log, ids[..|ids| - 1]) + Carries(EventsOf(codec, log, ids[|ids| - 1]))
  }

  /** How many of the listed accounts are open. */
  function CountOpen(codec: Codec<AccountEvent>, log: Log, ids: seq<string>): nat {
    if ids == [] then 0
    else
      CountOpen(codec, log, ids[..|ids| - 1])
      + if StateAfter(EventsOf(codec, log, ids[|ids| - 1])).open then 1 else 0
  }

  lemma DistinctLast(ids: seq<string>)
    requires ids != [] && Distinct(ids)
    ensures var n := |ids| - 1;
            && Distinct(ids[..n]) && ids[n] !in ids[..n]
            && forall id :: id in ids <==> id in ids[..n] || id == ids[n]
  {
    var n := |ids| - 1;
    assert ids == ids[..n] + [ids[n]];
  }

  lemma SumTotalStep(weigh: AccountEvent -> int, codec: Codec<AccountEvent>, log: Log, ids: seq<string>)
    requires ids != []
    ensures SumTotal(weigh, codec, log, ids)
         == SumTotal(weigh, codec, log, ids[..|ids| - 1]) + Total(weigh, EventsOf(codec, log, ids[|ids| - 1]))
  {
  }

  /** A pushed account event moves the sum by its weight, once. */
  lemma {:induction false} SumTotalPush(
      weigh: AccountEvent -> int, codec: Codec<AccountEvent>, log: Log, e: StoredEvent, ids: seq<string>,
      event: AccountEvent)
    requires BooksKept(codec, log + [e])
    requires e.key.kind == ACCOUNT_KIND ==> codec.decode(e.payload) == Some(event)
    requires Distinct(ids)
    ensures SumTotal(weigh, codec, log + [e], ids)
         == SumTotal(weigh, codec, log, ids)
            + if e.key.kind == ACCOUNT_KIND && e.key.id in ids then weigh(event) else 0
  {
    if ids != [] {
      hide EventsOf, Total, BooksKept, Distinct, SumTotal;
      var n := |ids| - 1;
      var init, id := ids[..n], ids[n];
      var before, after := EventsOf(codec, log, id), EventsOf(codec, log + [e], id);
      DistinctLast(ids);
      SumTotalPush(weigh, codec, log, e, init, event);
      BooksPush(codec, log, e, id, event);
      TotalPush(weigh, before, event);
      SumTotalStep(weigh, codec, log, ids);
      SumTotalStep(weigh, codec, log + [e], ids);
      if e.key == Key(id) {
        assert after == before + [event];
        assert e.key.id !in init;
      } else {
        assert after == before;
      }
    }
  }

  lemma {:induction false} NothingAdds(weigh: AccountEvent -> int, codec: Codec<AccountEvent>, ids: seq<string>)
    ensures SumTotal(weigh, codec, [], ids) == 0
  {
    if ids != [] {
      NothingAdds(weigh, codec, ids[..|ids| - 1]);
      assert EventsOf(codec, [], ids[|ids| - 1]) == [];
    }
  }

  lemma LedgerPush(codec: Codec<AccountEvent>, log: Log, e: StoredEvent, event: AccountEvent)
    requires BooksKept(codec, log + [e]) && Replayed(Ledger(codec), log).Ok?
    requires e.key.kind == ACCOUNT_KIND ==> codec.decode(e.payload) == Some(event)
    ensures Replayed(Ledger(codec), log + [e]).Ok?
    ensures var before, after := Replayed(Ledger(codec), log).value.view, Replayed(Ledger(codec), log + [e]).value.view;
            if e.key.kind == ACCOUNT_KIND then
              && after.totalBalance == before.totalBalance + Delta(event)
              && after.accountsOpened == before.accountsOpened + Opening(event)
            else after == before
  {
    hide Select, DecodeAll;
    assert e in log + [e];
    SelectPush(log, e, Named(ACCOUNT_NAMES), 0);
    if e.key.kind == ACCOUNT_KIND {
      var found, l := Select(log, Named(ACCOUNT_NAMES), 0), Located(|log| + 1, e);
      DecodeAllPush(codec, found, l, event);
      var rs, r := DecodeAll(codec, found).value, ToRecorded(l, event);
      assert (rs + [r])[..|rs|] == rs;
      assert Fold(LedgerApply, LedgerView(0, 0), rs + [r]) == LedgerApply(Fold(LedgerApply, LedgerView(0, 0), rs), r);
    } else {
      assert Select(log + [e], Named(ACCOUNT_NAMES), 0) == Select(log, Named(ACCOUNT_NAMES), 0);
    }
  }

  lemma BooksSoFar(codec: Codec<AccountEvent>, log: Log, ids: seq<string>)
    requires BooksKept(codec, log) && Lists(log, ids) && log != []
    ensures var n := |log| - 1;
            && log == log[..n] + [log[n]]
            && BooksKept(codec, log[..n]) && Lists(log[..n], ids) && Distinct(ids)
            && (log[n].key.kind == ACCOUNT_KIND ==> codec.decode(log[n].payload).Some? && log[n].key.id in ids)
  {
    hide Distinct;
    var n := |log| - 1;
    assert log == log[..n] + [log[n]];
    assert forall e <- log[..n] :: e in log;
    assert log[n] in log;
  }

  lemma LedgerStarts(codec: Codec<AccountEvent>)
    ensures Replayed(Ledger(codec), []) == Ok(Projection(LedgerView(0, 0), 0))
  {
  }

  lemma WeightBounds(e: AccountEvent)
    ensures Delta(e) < U64_RANGE && 0 <= Opening(e) <= 1
  {
  }

  /** The one global projection and the many per-account folds agree, on the money and on the openings. */
  lemma {:induction false} LedgerIsSum(codec: Codec<AccountEvent>, log: Log, ids: seq<string>)
    requires BooksKept(codec, log) && Lists(log, ids)
    ensures Replayed(Ledger(codec), log).Ok?
    ensures var view := Replayed(Ledger(codec), log).value.view;
            && view.totalBalance == SumTotal(Delta, codec, log, ids)
            && view.totalBalance <= U64_RANGE * |log|
            && view.accountsOpened == SumTotal(Opening, codec, log, ids)
            && view.accountsOpened <= |log|
  {
    hide Replayed, SumTotal, EventsOf, Delta, Opening, BooksKept, Lists, Distinct;
    if log == [] {
      LedgerStarts(codec);
      NothingAdds(Delta, codec, ids);
      NothingAdds(Opening, codec, ids);
    } else {
      var n := |log| - 1;
      var init, e := log[..n], log[n];
      BooksSoFar(codec, log, ids);
      var event := if e.key.kind == ACCOUNT_KIND then codec.decode(e.payload).value else Closed;
      LedgerIsSum(codec, init, ids);
      LedgerPush(codec, init, e, event);
      SumTotalPush(Delta, codec, init, e, ids, event);
      SumTotalPush(Opening, codec, init, e, ids, event);
      WeightBounds(event);
    }
  }

  lemma {:induction false} SumOfBooks(codec: Codec<AccountEvent>, log: Log, ids: seq<string>)
    requires AllSafe(codec, log)
    ensures SumTotal(Delta, codec, log, ids) == SumBalances(codec, log, ids) + U64_RANGE * SumCarries(codec, log, ids)
    ensures SumTotal(Opening, codec, log, ids) == CountOpen(codec, log, ids) + SumTotal(Closing, codec, log, ids)
  {
    if ids != [] {
      hide EventsOf, StateAfter, Total, Carries, Safe;
      var n := |ids| - 1;
      SumOfBooks(codec, log, ids[..n]);
      SafeBooks(EventsOf(codec, log, ids[n]));
      SafeCounts(EventsOf(codec, log, ids[n]));
    }
  }

  lemma EventsGrow(codec: Codec<AccountEvent>, log: Log, n: nat, id: string)
    requires n <= |log| && BooksKept(codec, log) && BooksKept(codec, log[..n])
    ensures EventsOf(codec, log[..n], id) <= EventsOf(codec, log, id)
  {
    hide Select, DecodeAll, BooksKept;
    BooksDecode(codec, log, id);
    BooksDecode(codec, log[..n], id);
    SelectGrows(log[..n], log, OfStream(Key(id)), 0);
    var part, whole := Stream(log[..n], Key(id)), Stream(log, Key(id));
    assert whole == part + whole[|part|..];
    DecodeAllConcat(codec, part, whole[|part|..]);
  }

  /** Every point of a safe log is itself safe. */
  lemma {:induction false} SafeSoFar(codec: Codec<AccountEvent>, log: Log, n: nat)
    requires AllSafe(codec, log) && n <= |log|
    ensures AllSafe(codec, log[..n])
  {
    hide EventsOf, Safe;
    assert BooksKept(codec, log[..n]) by {
      assert forall e <- log[..n] :: e in log;
    }
    forall id
      ensures Safe(EventsOf(codec, log[..n], id))
    {
      hide BooksKept;
      EventsGrow(codec, log, n, id);
      var part, whole := EventsOf(codec, log[..n], id), EventsOf(codec, log, id);
      SafePrefix(whole, |part|);
      assert whole[..|part|] == part;
    }
  }

  lemma SafeIsKept(codec: Codec<AccountEvent>, log: Log)
    requires AllSafe(codec, log)
    ensures BooksKept(codec, log)
  {
  }

  /** Conservation: in every reachable store and at every position of its log, a replay of the ledger succeeds, its
      total is the sum of all rendered balances plus a full range per overflowing deposit, and so equals the sum of
      the balances exactly when no deposit overflowed. The total is never negative and fits 128 signed bits while
      the log has fewer than 2^63 events. The accounts it says were opened are all openings in all streams: those open
      now and one for every closing. */
  lemma {:induction false} LedgerConservation(
      codec: Codec<AccountEvent>, snapshots: Codec<Snapshot<Account>>, steps: seq<Step<AccountCommand>>,
      n: nat, ids: seq<string>)
    requires Faithful(codec) && Faithful(snapshots)
    requires var sys := Run(Accounts(codec), snapshots, steps);
             Separate(sys.history) && n <= |sys.log| && Lists(sys.log[..n], ids)
    ensures var log := Run(Accounts(codec), snapshots, steps).log[..n];
            var ledger := Replayed(Ledger(codec), log);
            && ledger.Ok?
            && var view := ledger.value.view;
               var openings, total := view.accountsOpened, view.totalBalance;
               && total == SumBalances(codec, log, ids) + U64_RANGE * SumCarries(codec, log, ids)
               && (total == SumBalances(codec, log, ids) <==> SumCarries(codec, log, ids) == 0)
               && total >= 0
               && (n < 0x8000_0000_0000_0000 ==> total < 0x8000_0000_0000_0000_0000_0000_0000_0000)
               && openings == SumTotal(Opening, codec, log, ids) <= n
               && openings == CountOpen(codec, log, ids) + SumTotal(Closing, codec, log, ids)
  {
    hide Run, Replayed, AllSafe, SumBalances, SumCarries, SumTotal, CountOpen, Separate, Lists;
    AccountsAreSafe(codec, snapshots, steps);
    var sys := Run(Accounts(codec), snapshots, steps);
    SafeSoFar(codec, sys.log, n);
    var log := sys.log[..n];
    assert BooksKept(codec, log) by { SafeIsKept(codec, log); }
    LedgerIsSum(codec, log, ids);
    SumOfBooks(codec, log, ids);
  }
}
