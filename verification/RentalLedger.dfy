/** GPU rentals of the rental service: who holds which GPU, and who paid how much. */
module RentalLedger {
  import opened Common

  datatype Status = Pending | Running | Completed

  datatype Rental = Rental(
    user: string, gpu: string, status: Status, startTime: Option<int>, endTime: Option<int>,
    durationHours: Option<real>, pricePerHour: real, totalCost: Option<real>, paid: bool, connected: bool)

  datatype Gpu = Gpu(status: string, pricePerHour: real)

  /** A rental's id is its position; `users` maps a user to the balance. */
  datatype State = State(clock: int, gpus: map<string, Gpu>, users: map<string, real>, rentals: seq<Rental>)

  datatype Reply = Done | Started | GpuNotFound | GpuNotAvailable | UserNotFound | InsufficientBalance | NotRunning

  /** Times are seconds. */
  function Hours(d: int): real { d as real / 3600.0 }

  function Cost(hours: real, pricePerHour: real): real { hours * pricePerHour }

  // ----- The handlers -----

  /** What createRental checks before its transaction begins. */
  function CheckCreate(s: State, user: string, gpu: string, hours: real): Reply {
    if gpu !in s.gpus then GpuNotFound
    else if s.gpus[gpu].status != "available" then GpuNotAvailable
    else if user !in s.users then UserNotFound
    else if s.users[user] < Cost(hours, s.gpus[gpu].pricePerHour) then InsufficientBalance
    else Done
  }

  /** The transaction of createRental, with the price read before. */
  function CommitCreate(s: State, user: string, gpu: string, price: real): State {
    s.(rentals := s.rentals + [Rental(user, gpu, Pending, None, None, None, price, None, false, false)],
       gpus := if gpu in s.gpus then s.gpus[gpu := s.gpus[gpu].(status := "busy")] else s.gpus)
  }

  function Create(s: State, user: string, gpu: string, hours: real): (State, Reply) {
    var reply := CheckCreate(s, user, gpu, hours);
    (if reply == Done then CommitCreate(s, user, gpu, s.gpus[gpu].pricePerHour) else s, reply)
  }

  predicate Owns(s: State, user: string, id: nat, status: Status) {
    id < |s.rentals| && s.rentals[id].user == user && s.rentals[id].status == status
  }

  /** Two updates: the guarded one, then the connection info of whatever rental has this id. The
      number of rows that the first one changed is not looked at. */
  function Start(s: State, user: string, id: nat): (State, Reply) {
    var t := if Owns(s, user, id, Pending)
      then s.(rentals := s.rentals[id := s.rentals[id].(status := Running, startTime := Some(s.clock), paid := true)])
      else s;
    (if id < |t.rentals| then t.(rentals := t.rentals[id := t.rentals[id].(connected := true)]) else t, Started)
  }

  function Stop(s: State, user: string, id: nat): (State, Reply) {
    if !Owns(s, user, id, Running) || s.rentals[id].startTime.None? then (s, NotRunning)
    else
      var r := s.rentals[id];
      var duration := Hours(s.clock - r.startTime.value);
      var cost := Cost(duration, r.pricePerHour);
      (s.(rentals := s.rentals[id := r.(status := Completed, endTime := Some(s.clock),
                                        durationHours := Some(duration), totalCost := Some(cost))],
          gpus := if r.gpu in s.gpus then s.gpus[r.gpu := s.gpus[r.gpu].(status := "available")] else s.gpus,
          users := if user in s.users then s.users[user := s.users[user] - cost] else s.users), Done)
  }

  // ----- What the handlers answer and do -----

  /**
   A create is accepted exactly if the GPU exists and is available, and the user exists and could pay
   for the hours asked for. Then there is one more rental, pending, of this user and this GPU at the
   GPU's own price, and the GPU is busy; otherwise nothing has happened.
   */
  lemma CreateEffect(s: State, user: string, gpu: string, hours: real)
    ensures var (t, reply) := Create(s, user, gpu, hours);
      && (reply == Done <==>
            && gpu in s.gpus && s.gpus[gpu].status == "available" && user in s.users
            && hours * s.gpus[gpu].pricePerHour <= s.users[user])
      && (reply != Done ==> t == s)
      && (reply == Done ==>
            && t.clock == s.clock && t.users == s.users
            && t.gpus == s.gpus[gpu := Gpu("busy", s.gpus[gpu].pricePerHour)]
            && |t.rentals| == |s.rentals| + 1 && t.rentals[..|s.rentals|] == s.rentals
            && var r := t.rentals[|s.rentals|];
              && r.user == user && r.gpu == gpu && r.status == Pending && r.pricePerHour == s.gpus[gpu].pricePerHour
              && r.startTime.None? && r.endTime.None? && r.totalCost.None? && !r.paid && !r.connected)
  {
  }

  /** Which refusal: the first of the checks that fails, in this order. */
  lemma CreateRefusals(s: State, user: string, gpu: string, hours: real)
    ensures var reply := Create(s, user, gpu, hours).1;
      && (reply == GpuNotFound <==> gpu !in s.gpus)
      && (reply == GpuNotAvailable <==> gpu in s.gpus && s.gpus[gpu].status != "available")
      && (reply == UserNotFound <==> gpu in s.gpus && s.gpus[gpu].status == "available" && user !in s.users)
      && (reply == InsufficientBalance <==>
            && gpu in s.gpus && s.gpus[gpu].status == "available" && user in s.users
            && s.users[user] < hours * s.gpus[gpu].pricePerHour)
  {
  }

  /** A start makes a pending rental of the caller's own run from now on, paid; see also StartedMeansLittle. */
  lemma StartEffect(s: State, user: string, id: nat)
    requires id < |s.rentals| && s.rentals[id].user == user && s.rentals[id].status == Pending
    ensures var t := Start(s, user, id).0;
      && t.gpus == s.gpus && t.users == s.users && |t.rentals| == |s.rentals|
      && t.rentals[id] ==
           s.rentals[id].(status := Running, startTime := Some(s.clock), paid := true, connected := true)
      && forall i :: 0 <= i < |s.rentals| && i != id ==> t.rentals[i] == s.rentals[i]
  {
  }

  /**
   A stop is accepted exactly for a running rental of the caller's own that has started. Then the rental
   is completed and costs its seconds, as hours of 3600, times its price; the user pays that, and the
   GPU is available. Otherwise nothing has happened.
   */
  lemma StopEffect(s: State, user: string, id: nat)
    ensures var (t, reply) := Stop(s, user, id);
      && (reply == Done <==>
            && id < |s.rentals| && s.rentals[id].user == user && s.rentals[id].status == Running
            && s.rentals[id].startTime.Some?)
      && (reply != Done ==> t == s && reply == NotRunning)
      && (reply == Done ==>
            var r := s.rentals[id];
            var hours := (s.clock - r.startTime.value) as real / 3600.0;
            && t.clock == s.clock && |t.rentals| == |s.rentals|
            && t.rentals[id].totalCost.Some? && t.rentals[id].totalCost.value == hours * r.pricePerHour
            && t.rentals[id] == r.(status := Completed, endTime := Some(s.clock), durationHours := Some(hours),
                                   totalCost := t.rentals[id].totalCost)
            && (forall i :: 0 <= i < |s.rentals| && i != id ==> t.rentals[i] == s.rentals[i])
            && t.gpus.Keys == s.gpus.Keys && t.users.Keys == s.users.Keys
            && (forall g :: g in s.gpus ==>
                  t.gpus[g] == if g == r.gpu then Gpu("available", s.gpus[g].pricePerHour) else s.gpus[g])
            && (forall u :: u in s.users ==>
                  t.users[u] == s.users[u] - if u == user then hours * r.pricePerHour else 0.0))
  {
    if Stop(s, user, id).1 == Done {
      var r := s.rentals[id];
      var hours := (s.clock - r.startTime.value) as real / 3600.0;
      assert Hours(s.clock - r.startTime.value) == hours;
      assert Cost(hours, r.pricePerHour) == hours * r.pricePerHour;
    }
  }

  datatype Event =
    | CreateRental(wait: nat, user: string, gpu: string, hours: real)
    | StartRental(wait: nat, user: string, id: nat)
    | StopRental(wait: nat, user: string, id: nat)

  function Waited(s: State, wait: nat): State { s.(clock := s.clock + wait) }

  function Step(s: State, e: Event): State { Act(Waited(s, e.wait), e) }

  function Act(s: State, e: Event): State {
    match e
    case CreateRental(_, user, gpu, hours) => Create(s, user, gpu, hours).0
    case StartRental(_, user, id) => Start(s, user, id).0
    case StopRental(_, user, id) => Stop(s, user, id).0
  }

  function Run(s: State, events: seq<Event>): State {
    if events == [] then s else Step(Run(s, events[..|events| - 1]), events[|events| - 1])
  }

  // ----- Exclusivity -----

  predicate Live(r: Rental) { r.status.Pending? || r.status.Running? }

  predicate Occupied(s: State, gpu: string) {
    exists i :: 0 <= i < |s.rentals| && Live(s.rentals[i]) && s.rentals[i].gpu == gpu
  }

  /** A GPU has at most one live rental, and is busy while it has one. */
  ghost predicate Exclusive(s: State) {
    && (forall i, j :: 0 <= i < j < |s.rentals| && Live(s.rentals[i]) && Live(s.rentals[j]) ==>
          s.rentals[i].gpu != s.rentals[j].gpu)
    && (forall i :: 0 <= i < |s.rentals| && Live(s.rentals[i]) ==>
          s.rentals[i].gpu in s.gpus && s.gpus[s.rentals[i].gpu].status == "busy")
  }

  /** A commit keeps exclusivity exactly when the GPU has no live rental at that moment,
      whatever the check before it had seen. */
  lemma CommitKeepsExclusive(s: State, user: string, gpu: string, price: real)
    requires Exclusive(s) && gpu in s.gpus
    ensures Exclusive(CommitCreate(s, user, gpu, price)) <==> !Occupied(s, gpu)
  {
    var t := CommitCreate(s, user, gpu, price);
    var n := |s.rentals|;
    assert Live(t.rentals[n]) && t.rentals[n].gpu == gpu;
    assert forall i :: 0 <= i < n ==> t.rentals[i] == s.rentals[i];
    if Occupied(s, gpu) {
      var i :| 0 <= i < n && Live(s.rentals[i]) && s.rentals[i].gpu == gpu;
      assert t.rentals[i].gpu == t.rentals[n].gpu;
    }
  }

  /** Two creates that both check before either commits book the same GPU twice. */
  lemma OverlappingCreatesDoubleBook(s: State, u1: string, h1: real, u2: string, h2: real, gpu: string)
    requires Exclusive(s) && CheckCreate(s, u1, gpu, h1) == Done && CheckCreate(s, u2, gpu, h2) == Done
    ensures var p := s.gpus[gpu].pricePerHour;
      !Exclusive(CommitCreate(CommitCreate(s, u1, gpu, p), u2, gpu, p))
  {
    var p := s.gpus[gpu].pricePerHour;
    var t := CommitCreate(s, u1, gpu, p);
    forall i | 0 <= i < |s.rentals| && Live(s.rentals[i])
      ensures s.rentals[i].gpu != gpu
    {
      assert s.gpus[s.rentals[i].gpu].status == "busy";
    }
    CommitKeepsExclusive(s, u1, gpu, p);
    assert Live(t.rentals[|s.rentals|]) && t.rentals[|s.rentals|].gpu == gpu;
    assert Occupied(t, gpu);
    CommitKeepsExclusive(t, u2, gpu, p);
  }

  // ----- Money -----

  /** What a user's completed rentals cost in all. */
  function Charged(rentals: seq<Rental>, user: string): real {
    if rentals == [] then 0.0
    else
      var r := rentals[|rentals| - 1];
      Charged(rentals[..|rentals| - 1], user)
        + (if r.user == user && r.status.Completed? && r.totalCost.Some? then r.totalCost.value else 0.0)
  }

  function Charge(r: Rental, user: string): real {
    if r.user == user && r.status.Completed? && r.totalCost.Some? then r.totalCost.value else 0.0
  }

  lemma {:induction false} ChargedAfterUpdate(rentals: seq<Rental>, i: nat, r: Rental, user: string)
    requires i < |rentals|
    ensures Charged(rentals[i := r], user) == Charged(rentals, user) - Charge(rentals[i], user) + Charge(r, user)
  {
    var n := |rentals| - 1;
    if i == n {
      assert rentals[i := r][..n] == rentals[..n];
    } else {
      assert rentals[i := r][..n] == rentals[..n][i := r];
      ChargedAfterUpdate(rentals[..n], i, r, user);
    }
  }

  /** Every user's opening balance is the current balance plus what was charged. */
  ghost predicate Balanced(opening: map<string, real>, s: State) {
    && s.users.Keys == opening.Keys
    && forall u :: u in opening ==> opening[u] == s.users[u] + Charged(s.rentals, u)
  }

  // ----- Each rental -----

  /** A running rental has started; a completed one cost its duration times its price. */
  ghost predicate Wellformed(s: State) {
    forall i :: 0 <= i < |s.rentals| ==> RentalOk(s.rentals[i], s.clock)
  }

  ghost predicate RentalOk(r: Rental, now: int) {
    && (r.status.Pending? ==> r.startTime.None? && r.totalCost.None?)
    && (r.status.Running? ==> r.startTime.Some? && r.startTime.value <= now && r.totalCost.None? && r.paid)
    && (r.status.Completed? ==>
          && r.startTime.Some? && r.endTime.Some? && r.startTime.value <= r.endTime.value <= now
          && r.durationHours == Some(Hours(r.endTime.value - r.startTime.value))
          && r.totalCost == Some(Cost(r.durationHours.value, r.pricePerHour)))
  }

  ghost predicate Sound(opening: map<string, real>, s: State) { Exclusive(s) && Balanced(opening, s) && Wellformed(s) }

  lemma CreateIsSound(opening: map<string, real>, s: State, user: string, gpu: string, hours: real)
    requires Sound(opening, s)
    ensures Sound(opening, Create(s, user, gpu, hours).0)
  {
    if CheckCreate(s, user, gpu, hours) == Done {
      CommitKeepsExclusive(s, user, gpu, s.gpus[gpu].pricePerHour);
      var t := Create(s, user, gpu, hours).0;
      assert t.rentals[..|s.rentals|] == s.rentals;
      assert forall i :: 0 <= i < |s.rentals| ==> t.rentals[i] == s.rentals[i];
    }
  }

  /** Changing one rental moves each user's charges by that rental's charge. */
  lemma RentalChanged(opening: map<string, real>, s: State, id: nat, r: Rental, users: map<string, real>)
    requires Balanced(opening, s) && id < |s.rentals| && users.Keys == s.users.Keys
    requires forall u :: u in s.users ==> users[u] + Charge(r, u) == s.users[u] + Charge(s.rentals[id], u)
    ensures Balanced(opening, s.(rentals := s.rentals[id := r], users := users))
  {
    forall u | u in opening
      ensures opening[u] == users[u] + Charged(s.rentals[id := r], u)
    {
      ChargedAfterUpdate(s.rentals, id, r, u);
    }
  }

  lemma StartIsSound(opening: map<string, real>, s: State, user: string, id: nat)
    requires Sound(opening, s)
    ensures Sound(opening, Start(s, user, id).0)
  {
    if id < |s.rentals| {
      var t := Start(s, user, id).0;
      assert RentalOk(s.rentals[id], s.clock);
      assert t == s.(rentals := s.rentals[id := t.rentals[id]]);
      RentalChanged(opening, s, id, t.rentals[id], s.users);
    }
  }

  lemma StopIsSound(opening: map<string, real>, s: State, user: string, id: nat)
    requires Sound(opening, s)
    ensures Sound(opening, Stop(s, user, id).0)
  {
    if Owns(s, user, id, Running) {
      var t := Stop(s, user, id).0;
      assert RentalOk(s.rentals[id], s.clock);
      StopFreesGpu(s, user, id);
      StopKeepsWellformed(s, user, id);
      StopBalances(opening, s, user, id);
    }
  }

  lemma StopKeepsWellformed(s: State, user: string, id: nat)
    requires Wellformed(s) && Owns(s, user, id, Running)
    ensures Wellformed(Stop(s, user, id).0)
  {
    assert RentalOk(s.rentals[id], s.clock);
  }

  lemma StopBalances(opening: map<string, real>, s: State, user: string, id: nat)
    requires Wellformed(s) && Balanced(opening, s) && Owns(s, user, id, Running)
    ensures Balanced(opening, Stop(s, user, id).0)
  {
    assert RentalOk(s.rentals[id], s.clock);
    var t := Stop(s, user, id).0;
    RentalChanged(opening, s, id, t.rentals[id], t.users);
  }

  lemma StopFreesGpu(s: State, user: string, id: nat)
    requires Exclusive(s) && Owns(s, user, id, Running)
    ensures Exclusive(Stop(s, user, id).0)
  {
    var t := Stop(s, user, id).0;
    forall i | 0 <= i < |t.rentals| && Live(t.rentals[i])
      ensures t.rentals[i].gpu in t.gpus && t.gpus[t.rentals[i].gpu].status == "busy"
    {
      if t != s && i != id {
        assert Live(s.rentals[i]) && Live(s.rentals[id]) && s.rentals[i].gpu != s.rentals[id].gpu;
      }
    }
  }

  lemma WaitingIsSound(opening: map<string, real>, s: State, wait: nat)
    requires Sound(opening, s)
    ensures Sound(opening, Waited(s, wait))
  {
    assert forall i :: 0 <= i < |s.rentals| && RentalOk(s.rentals[i], s.clock) ==>
      RentalOk(s.rentals[i], s.clock + wait);
  }

  lemma ActIsSound(opening: map<string, real>, s: State, e: Event)
    requires Sound(opening, s)
    ensures Sound(opening, Act(s, e))
  {
    match e
    case CreateRental(_, user, gpu, hours) => CreateIsSound(opening, s, user, gpu, hours);
    case StartRental(_, user, id) => StartIsSound(opening, s, user, id);
    case StopRental(_, user, id) => StopIsSound(opening, s, user, id);
  }

  /** The current balances plus what the completed rentals so far have cost. */
  function Opening(s: State): map<string, real> { map u | u in s.users :: s.users[u] + Charged(s.rentals, u) }

  /** With each handler atomic, from any state in which GPUs are exclusive and rentals well-formed: no
      GPU is rented twice, no money appears or vanishes, and every completed rental was charged its
      time. */
  lemma {:induction false} LedgerIsSound(s: State, events: seq<Event>)
    requires Exclusive(s) && Wellformed(s)
    ensures Sound(Opening(s), Run(s, events))
  {
    if events != [] {
      var before, e := events[..|events| - 1], events[|events| - 1];
      LedgerIsSound(s, before);
      WaitingIsSound(Opening(s), Run(s, before), e.wait);
      ActIsSound(Opening(s), Waited(Run(s, before), e.wait), e);
    }
  }

  function Rank(status: Status): int { match status case Pending => 0 case Running => 1 case Completed => 2 }

  /** A rental only moves forward, keeps its user, GPU and price, and once completed keeps its
      status, times and cost. */
  ghost predicate Follows(later: Rental, r: Rental) {
    && Rank(r.status) <= Rank(later.status)
    && later.user == r.user && later.gpu == r.gpu && later.pricePerHour == r.pricePerHour
    && (r.status.Completed? ==> later.(connected := false) == r.(connected := false))
  }

  lemma {:induction false} HistoryIsFixed(s: State, events: seq<Event>, id: nat)
    requires id < |s.rentals|
    ensures id < |Run(s, events).rentals| && Follows(Run(s, events).rentals[id], s.rentals[id])
  {
    if events != [] {
      HistoryIsFixed(s, events[..|events| - 1], id);
      StepFollows(Run(s, events[..|events| - 1]), events[|events| - 1], id);
    }
  }

  lemma StepFollows(s: State, e: Event, id: nat)
    requires id < |s.rentals|
    ensures id < |Step(s, e).rentals| && Follows(Step(s, e).rentals[id], s.rentals[id])
  {
  }

  /** Nothing but the connection info of one rental has changed. */
  ghost predicate OnlyConnects(s: State, t: State, id: nat) {
    && t == s.(rentals := t.rentals) && |t.rentals| == |s.rentals|
    && forall i :: 0 <= i < |s.rentals| ==>
         t.rentals[i] == if i == id then s.rentals[i].(connected := true) else s.rentals[i]
  }

  /**
   startRental answers "started" whatever the id. After that answer the rental is running exactly if it
   was pending and the caller's own, or was running before; in every other case all that happened is
   that the connection info of the rental with this id, if there is one, was written.
   */
  lemma StartedMeansLittle(s: State, user: string, id: nat)
    ensures var (t, reply) := Start(s, user, id);
      && reply == Started
      && (id < |t.rentals| && t.rentals[id].status.Running? <==>
            id < |s.rentals| && (s.rentals[id].status.Running? || Owns(s, user, id, Pending)))
      && (id < |s.rentals| ==> t.rentals[id].connected)
      && (!Owns(s, user, id, Pending) ==> OnlyConnects(s, t, id))
  {
  }

  /** It happens: a stranger is told "started" for somebody else's rental. */
  lemma StrangerIsToldStarted(s: State, owner: string, stranger: string, gpu: string, hours: real)
    requires CheckCreate(s, owner, gpu, hours) == Done && owner != stranger
    ensures var t := Create(s, owner, gpu, hours).0;
      var (u, reply) := Start(t, stranger, |s.rentals|);
      reply == Started && u.rentals[|s.rentals|].status.Pending? && u.rentals[|s.rentals|].connected
  {
  }
}

module RentalService {
  import opened Common
  import opened RentalLedger

  class RentalService {
    var now: int
    var gpus: map<string, Gpu>
    var users: map<string, real>
    var rentals: seq<Rental>

    ghost function Tables(): State reads this { State(now, gpus, users, rentals) }

    constructor (gpus: map<string, Gpu>, users: map<string, real>)
      ensures Tables() == State(0, gpus, users, [])
    {
      now := 0;
      this.gpus, this.users, rentals := gpus, users, [];
    }

    method CreateRental(user: string, gpu: string, hours: real) returns (reply: Reply)
      modifies this
      ensures (Tables(), reply) == Create(old(Tables()), user, gpu, hours)
    {
      if gpu !in gpus {
        return GpuNotFound;
      }
      var price := gpus[gpu].pricePerHour;
      if gpus[gpu].status != "available" {
        return GpuNotAvailable;
      }
      if user !in users {
        return UserNotFound;
      }
      var estimatedCost := Cost(hours, price);
      if users[user] < estimatedCost {
        return InsufficientBalance;
      }
      rentals := rentals + [Rental(user, gpu, Pending, None, None, None, price, None, false, false)];
      gpus := gpus[gpu := gpus[gpu].(status := "busy")];
      return Done;
    }

    method StartRental(user: string, id: nat) returns (reply: Reply)
      modifies this
      ensures (Tables(), reply) == Start(old(Tables()), user, id)
    {
      if id < |rentals| && rentals[id].user == user && rentals[id].status == Pending {
        rentals := rentals[id := rentals[id].(status := Running, startTime := Some(now), paid := true)];
      }
      if id < |rentals| {
        rentals := rentals[id := rentals[id].(connected := true)];
      }
      return Started;
    }

    method StopRental(user: string, id: nat) returns (reply: Reply)
      modifies this
      ensures (Tables(), reply) == Stop(old(Tables()), user, id)
    {
      if !(id < |rentals| && rentals[id].user == user && rentals[id].status == Running) || rentals[id].startTime.None? {
        return NotRunning;
      }
      var r := rentals[id];
      var duration := Hours(now - r.startTime.value);
      var totalCost := Cost(duration, r.pricePerHour);
      rentals := rentals[id := r.(status := Completed, endTime := Some(now),
                                  durationHours := Some(duration), totalCost := Some(totalCost))];
      if r.gpu in gpus {
        gpus := gpus[r.gpu := gpus[r.gpu].(status := "available")];
      }
      if user in users {
        users := users[user := users[user] - totalCost];
      }
      return Done;
    }
  }
}
