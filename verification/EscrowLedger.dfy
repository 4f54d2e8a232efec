/** Wallets and escrows of the simple gateway, with the uniqueness rules of its schema. */
module EscrowLedger {
  import opened Common

  datatype Wallet = Wallet(address: string, balance: real, available: real, locked: real)

  datatype Rental = Rental(user: string, gpu: string, escrow: real, hourlyRate: real)

  datatype Gpu = Gpu(status: string, pricePerHour: real)

  /** Wallets are keyed by their (unique) user. */
  datatype State = State(gpus: map<string, Gpu>, wallets: map<string, Wallet>, rentals: seq<Rental>)

  datatype Reply =
    | Created | AlreadyExists | InsertFailed
    | GpuNotFound | GpuNotAvailable | WalletNotFound | InsufficientBalance

  /** Every new wallet gets this address, and the address column is unique. */
  const ADDRESS := "7xUV6YR3rZMfExPqZiovQSUxpnHxr2KJJqFg1bFrpump"
  const INITIAL_BALANCE := 1000.0

  predicate AddressTaken(s: State) { exists u :: u in s.wallets && s.wallets[u].address == ADDRESS }

  function CreateWallet(s: State, user: string): (State, Reply) {
    if user in s.wallets then (s, AlreadyExists)
    else if AddressTaken(s) then (s, InsertFailed)
    else (s.(wallets := s.wallets[user := Wallet(ADDRESS, INITIAL_BALANCE, INITIAL_BALANCE, 0.0)]), Created)
  }

  function CreateRental(s: State, user: string, gpu: string, escrow: real): (State, Reply) {
    if gpu !in s.gpus then (s, GpuNotFound)
    else if s.gpus[gpu].status != "available" then (s, GpuNotAvailable)
    else if user !in s.wallets then (s, WalletNotFound)
    else if s.wallets[user].available < escrow then (s, InsufficientBalance)
    else
      var w := s.wallets[user];
      (State(s.gpus[gpu := s.gpus[gpu].(status := "rented")],
             s.wallets[user := w.(available := w.available - escrow, locked := w.locked + escrow)],
             s.rentals + [Rental(user, gpu, escrow, s.gpus[gpu].pricePerHour)]), Created)
  }

  // ----- What the handlers answer and do -----

  /** A wallet is made exactly for a user without one while no wallet has the address that all of them
      get. It starts with 1000 available and nothing locked. Otherwise nothing has happened. */
  lemma CreateWalletEffect(s: State, user: string)
    ensures var (t, reply) := CreateWallet(s, user);
      var taken := exists u :: u in s.wallets && s.wallets[u].address == ADDRESS;
      && (reply == Created <==> user !in s.wallets && !taken)
      && (reply == AlreadyExists <==> user in s.wallets)
      && (reply == InsertFailed <==> user !in s.wallets && taken)
      && (reply != Created ==> t == s)
      && (reply == Created ==> t == s.(wallets := s.wallets[user := Wallet(ADDRESS, 1000.0, 1000.0, 0.0)]))
  {
  }

  /** A rental is made exactly if the GPU exists and is available, and the user's wallet exists and has
      the escrow available. Then the escrow moves from available to locked, the rental records it with the
      GPU's price, and the GPU is rented. Otherwise nothing has happened. */
  lemma CreateRentalEffect(s: State, user: string, gpu: string, escrow: real)
    ensures var (t, reply) := CreateRental(s, user, gpu, escrow);
      && (reply == Created <==>
            && gpu in s.gpus && s.gpus[gpu].status == "available"
            && user in s.wallets && escrow <= s.wallets[user].available)
      && (reply == GpuNotFound <==> gpu !in s.gpus)
      && (reply == GpuNotAvailable <==> gpu in s.gpus && s.gpus[gpu].status != "available")
      && (reply == WalletNotFound <==> gpu in s.gpus && s.gpus[gpu].status == "available" && user !in s.wallets)
      && (reply != Created ==> t == s)
      && (reply == Created ==>
            && |t.rentals| == |s.rentals| + 1 && t.rentals[..|s.rentals|] == s.rentals
            && t.rentals[|s.rentals|] == Rental(user, gpu, escrow, s.gpus[gpu].pricePerHour)
            && t.gpus == s.gpus[gpu := Gpu("rented", s.gpus[gpu].pricePerHour)]
            && t.wallets.Keys == s.wallets.Keys
            && forall u :: u in s.wallets ==>
                 var w, d := s.wallets[u], if u == user then escrow else 0.0;
                 t.wallets[u] == Wallet(w.address, w.balance, w.available - d, w.locked + d))
  {
  }

  datatype Event = NewWallet(user: string) | NewRental(user: string, gpu: string, escrow: real)

  function Step(s: State, e: Event): State {
    match e
    case NewWallet(user) => CreateWallet(s, user).0
    case NewRental(user, gpu, escrow) => CreateRental(s, user, gpu, escrow).0
  }

  function Run(s: State, events: seq<Event>): State {
    if events == [] then s else Step(Run(s, events[..|events| - 1]), events[|events| - 1])
  }

  // ----- The ledger -----

  function EscrowOf(rentals: seq<Rental>, user: string): real {
    if rentals == [] then 0.0
    else
      var r := rentals[|rentals| - 1];
      EscrowOf(rentals[..|rentals| - 1], user) + (if r.user == user then r.escrow else 0.0)
  }

  function RentalsOf(rentals: seq<Rental>, gpu: string): nat {
    if rentals == [] then 0
    else RentalsOf(rentals[..|rentals| - 1], gpu) + (if rentals[|rentals| - 1].gpu == gpu then 1 else 0)
  }

  /** Nothing is rented or locked yet. */
  ghost predicate Fresh(s: State) {
    && s.rentals == []
    && (forall u :: u in s.wallets ==>
          s.wallets[u].locked == 0.0 && s.wallets[u].balance == s.wallets[u].available >= 0.0)
    && (forall g :: g in s.gpus ==> s.gpus[g].status != "rented")
  }

  ghost predicate Sound(s: State) {
    && (forall u :: u in s.wallets ==>
          var w := s.wallets[u];
          w.balance == w.available + w.locked && w.locked == EscrowOf(s.rentals, u) && w.available >= 0.0)
    && (forall u :: u !in s.wallets ==> EscrowOf(s.rentals, u) == 0.0)
    && (forall g :: g in s.gpus ==> RentalsOf(s.rentals, g) == if s.gpus[g].status == "rented" then 1 else 0)
  }

  lemma FreshIsSound(s: State)
    requires Fresh(s)
    ensures Sound(s)
  {
  }

  /** With each create atomic, from any sound state, such as a fresh one: balance = available + locked,
      locked = the user's escrows, available never below zero, and a GPU has one rental when it is
      rented and none otherwise. */
  lemma {:induction false} EscrowIsConserved(s: State, events: seq<Event>)
    requires Sound(s)
    ensures Sound(Run(s, events))
  {
    if events != [] {
      var before := events[..|events| - 1];
      EscrowIsConserved(s, before);
      StepConserves(Run(s, before), events[|events| - 1]);
    }
  }

  lemma StepConserves(s: State, e: Event)
    requires Sound(s)
    ensures Sound(Step(s, e))
  {
    var t := Step(s, e);
    if t.rentals != s.rentals {
      assert t.rentals[..|s.rentals|] == s.rentals;
    }
  }

  /** The locked part stays between zero and the balance as long as no escrow is negative. */
  lemma {:induction false} LockedWithinBalance(s: State, events: seq<Event>, user: string)
    requires Sound(s) && forall r :: r in s.rentals ==> r.escrow >= 0.0
    requires forall e :: e in events && e.NewRental? ==> e.escrow >= 0.0
    requires user in Run(s, events).wallets
    ensures 0.0 <= Run(s, events).wallets[user].locked <= Run(s, events).wallets[user].balance
  {
    EscrowIsConserved(s, events);
    NoNegativeEscrows(s, events);
    EscrowsAddUp(Run(s, events).rentals, user);
  }

  lemma {:induction false} NoNegativeEscrows(s: State, events: seq<Event>)
    requires forall r :: r in s.rentals ==> r.escrow >= 0.0
    requires forall e :: e in events && e.NewRental? ==> e.escrow >= 0.0
    ensures forall r :: r in Run(s, events).rentals ==> r.escrow >= 0.0
  {
    if events != [] {
      NoNegativeEscrows(s, events[..|events| - 1]);
      assert events[|events| - 1] in events;
    }
  }

  lemma {:induction false} EscrowsAddUp(rentals: seq<Rental>, user: string)
    requires forall r :: r in rentals ==> r.escrow >= 0.0
    ensures EscrowOf(rentals, user) >= 0.0
  {
    if rentals != [] {
      assert rentals[|rentals| - 1] in rentals;
      EscrowsAddUp(rentals[..|rentals| - 1], user);
    }
  }

  /** A create is accepted for any escrow up to what is available, and a negative one frees funds
      the wallet never had. */
  lemma NegativeEscrowFrees(s: State, user: string, gpu: string, escrow: real)
    requires Sound(s) && gpu in s.gpus && s.gpus[gpu].status == "available" && user in s.wallets
    ensures CreateRental(s, user, gpu, escrow).1 == Created <==> escrow <= s.wallets[user].available
    ensures var (t, reply) := CreateRental(s, user, gpu, escrow);
      reply == Created ==>
        (t.wallets[user].available <= t.wallets[user].balance <==> 0.0 <= s.wallets[user].locked + escrow)
  {
    var t := CreateRental(s, user, gpu, escrow).0;
    assert t.rentals == s.rentals || t.rentals[..|s.rentals|] == s.rentals;
  }

  /** A user without a wallet gets one exactly when the shared address is still free; so at most
      one createWallet ever succeeds, whoever asks. */
  lemma {:induction false} OneWalletOnly(s: State, events: seq<Event>, first: string, user: string)
    requires CreateWallet(s, first).1 == Created
    ensures var t := Run(CreateWallet(s, first).0, events);
      AddressTaken(t) && CreateWallet(t, user).1 != Created
  {
    var s0 := CreateWallet(s, first).0;
    if events == [] {
      assert first in s0.wallets && s0.wallets[first].address == ADDRESS;
    } else {
      var before := events[..|events| - 1];
      OneWalletOnly(s, before, first, user);
      var t, u := Run(s0, before), Run(s0, events);
      var x :| x in t.wallets && t.wallets[x].address == ADDRESS;
      assert x in u.wallets && u.wallets[x].address == ADDRESS;
    }
  }
}

module SimpleGateway {
  import opened EscrowLedger

  class APIGateway {
    var gpus: map<string, Gpu>
    var wallets: map<string, Wallet>
    var rentals: seq<Rental>

    ghost function Tables(): State reads this { State(gpus, wallets, rentals) }

    constructor (gpus: map<string, Gpu>)
      ensures Tables() == State(gpus, map[], [])
    {
      this.gpus, wallets, rentals := gpus, map[], [];
    }

    method CreateWalletFor(user: string) returns (reply: Reply)
      modifies this
      ensures (Tables(), reply) == CreateWallet(old(Tables()), user)
    {
      if user in wallets {
        return AlreadyExists;
      }
      if exists u :: u in wallets && wallets[u].address == ADDRESS {
        return InsertFailed; // the schema's UNIQUE (address)
      }
      wallets := wallets[user := Wallet(ADDRESS, INITIAL_BALANCE, INITIAL_BALANCE, 0.0)];
      return Created;
    }

    /** Three statements without a transaction, all of which succeed here. */
    method CreateRentalFor(user: string, gpu: string, escrow: real) returns (reply: Reply)
      modifies this
      ensures (Tables(), reply) == CreateRental(old(Tables()), user, gpu, escrow)
    {
      if gpu !in gpus {
        return GpuNotFound;
      }
      if gpus[gpu].status != "available" {
        return GpuNotAvailable;
      }
      if user !in wallets {
        return WalletNotFound;
      }
      if wallets[user].available < escrow {
        return InsufficientBalance;
      }
      rentals := rentals + [Rental(user, gpu, escrow, gpus[gpu].pricePerHour)];
      gpus := gpus[gpu := gpus[gpu].(status := "rented")];
      var w := wallets[user];
      wallets := wallets[user := w.(available := w.available - escrow, locked := w.locked + escrow)];
      return Created;
    }
  }
}
