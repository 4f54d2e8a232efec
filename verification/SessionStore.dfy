/** Key names of the session store. */
module SessionKeys {
  datatype Key = SessionKey(id: string) | UserSessionsKey(user: string)

  function Name(k: Key): string {
    match k
    case SessionKey(id) => "session:" + id
    case UserSessionsKey(user) => "session:user:" + user + ":sessions"
  }

  /** Only a session id that spells a user's index key can collide, and it does. */
  lemma NamesCollide(a: Key, b: Key)
    ensures Name(a) == Name(b) <==>
      || a == b
      || (a.SessionKey? && b.UserSessionsKey? && a.id == "user:" + b.user + ":sessions")
      || (b.SessionKey? && a.UserSessionsKey? && b.id == "user:" + a.user + ":sessions")
  {
    Tail(a);
    Tail(b);
    if a.UserSessionsKey? && b.UserSessionsKey? && Name(a) == Name(b) {
      assert Name(a)[13..|Name(a)| - 9] == a.user && Name(b)[13..|Name(b)| - 9] == b.user;
    }
    if a.SessionKey? && b.UserSessionsKey? {
      assert "session:" + ("user:" + b.user + ":sessions") == Name(b);
    }
    if b.SessionKey? && a.UserSessionsKey? {
      assert "session:" + ("user:" + a.user + ":sessions") == Name(a);
    }
  }

  lemma Tail(k: Key)
    ensures |Name(k)| >= 8
    ensures Name(k)[8..] == if k.SessionKey? then k.id else "user:" + k.user + ":sessions"
  {
    if k.UserSessionsKey? {
      assert Name(k) == "session:" + ("user:" + k.user + ":sessions");
    }
  }
}

/**
 Session entries and, per user, a list of their ids. Both expire: an entry at its own ExpiresAt,
 the list at whatever the last EXPIRE for that user asked for. Calls may overlap in any way, and
 each Redis command is a step of its own.
 */
module SessionIndex {
  import opened Common
  import opened Redis
  import opened Commands
  import opened SessionKeys

  datatype Session = Session(id: string, user: string, expiresAt: int, lastActivity: int, details: string)

  type Store = View<Key, Session>
  type StoreLog = seq<Entry<Key, Session>>

  function Find(v: Store, id: string): Option<Session> {
    if SessionKey(id) in v.blobs then Some(v.blobs[SessionKey(id)].val) else None
  }

  function Listed(v: Store, user: string): set<string> { MembersOf(v.sets, UserSessionsKey(user)) }

  predicate Live(v: Store, id: string) { SessionKey(id) in v.blobs }

  // ----- The commands of the calls -----

  /** Create (and what Update does after its checks), Delete after its GET found the session, and
      DeleteAllUserSessions with what its SMEMBERS returned. */
  datatype Work =
    | Writing(session: Session, ttl: int)
    | Deleting(id: string, user: string)
    | Purging(user: string, ids: seq<string>)

  function Steps(w: Work): nat { if w.Purging? then |w.ids| + 2 else 3 }

  function WorkCommand(w: Work, n: nat): Command<Key, Session>
    requires n < Steps(w)
  {
    match w
    case Writing(session, ttl) =>
      if n == 0 then Put(SessionKey(session.id), session, ttl)
      else if n == 1 then Add(UserSessionsKey(session.user), session.id)
      else Renew(UserSessionsKey(session.user), ttl)
    case Deleting(id, user) =>
      if n == 0 then Look else if n == 1 then Drop(SessionKey(id)) else Remove(UserSessionsKey(user), id)
    case Purging(user, ids) =>
      if n == 0 then Look
      else if n <= |ids| then Drop(SessionKey(ids[n - 1]))
      else DropList(UserSessionsKey(user))
  }

  // ----- Interleaved calls -----

  /** A call under way: it began at log position `turn` and has issued `done` commands. */
  datatype Task = Task(work: Work, turn: nat, done: nat)

  /** `latest` remembers which call wrote a session last. */
  datatype State = State(view: Store, log: StoreLog, running: map<nat, Task>, latest: map<string, nat>)

  datatype Event =
    | Write(wait: nat, caller: nat, session: Session)
    | Delete(wait: nat, caller: nat, id: string)
    | Purge(wait: nat, caller: nat, user: string, ids: seq<string>)
    | Next(wait: nat, caller: nat)

  const Start := State(Blank(), [], map[], map[])

  function Waited(s: State, wait: nat): State { s.(view := Later(s.view, wait)) }

  function Executed(s: State, wait: nat, call: nat, c: Command<Key, Session>): State {
    s.(view := Issued(s.view, c), log := s.log + [Entry(wait, call, c)])
  }

  function Begun(s: State, wait: nat, caller: nat, w: Work): State {
    var turn := |s.log|;
    Executed(s, wait, turn, WorkCommand(w, 0)).(
      latest := if w.Writing? then s.latest[w.session.id := turn] else s.latest,
      running := s.running[caller := Task(w, turn, 1)])
  }

  function Without<T>(m: map<nat, T>, k: nat): map<nat, T> { map i | i in m && i != k :: m[i] }

  function Continued(s: State, wait: nat, caller: nat): State
    requires caller in s.running && s.running[caller].done < Steps(s.running[caller].work)
  {
    var t := s.running[caller];
    Executed(s, wait, t.turn, WorkCommand(t.work, t.done)).(running :=
      if t.done + 1 < Steps(t.work) then s.running[caller := t.(done := t.done + 1)] else Without(s.running, caller))
  }

  /** The call that an event begins, given what its first command reads; none if it gives up there. */
  ghost function Beginning(v: Store, e: Event): Option<Work> {
    match e
    case Write(_, _, session) =>
      if session.expiresAt - v.now <= 0 then None else Some(Writing(session, session.expiresAt - v.now))
    case Delete(_, _, id) => if Find(v, id).None? then None else Some(Deleting(id, Find(v, id).value.user))
    case Purge(_, _, user, ids) =>
      if Distinct(ids) && Elements(ids) == Listed(v, user) then Some(Purging(user, ids)) else None
    case Next(_, _) => None
  }

  /** A caller has one call under way at most; an event that does not apply changes nothing. */
  ghost function Step(s: State, e: Event): State {
    var u := Waited(s, e.wait);
    if e.Next? then
      if e.caller !in s.running || s.running[e.caller].done >= Steps(s.running[e.caller].work) then s
      else Continued(u, e.wait, e.caller)
    else if e.caller in s.running || Beginning(u.view, e).None? then s
    else Begun(u, e.wait, e.caller, Beginning(u.view, e).value)
  }

  ghost function Run(events: seq<Event>): State {
    if events == [] then Start else Step(Run(events[..|events| - 1]), events[|events| - 1])
  }

  lemma RunSnoc(events: seq<Event>, e: Event)
    ensures Run(events + [e]) == Step(Run(events), e)
  {
    assert (events + [e])[..|events|] == events;
  }

  lemma StepPlays(s: State, e: Event)
    requires s.view == Played(s.log)
    ensures Step(s, e).view == Played(Step(s, e).log)
  {
    var t := Step(s, e);
    if |t.log| > |s.log| {
      PlayedSnoc(s.log, t.log[|s.log|]);
    }
  }

  lemma {:induction false} RunPlays(events: seq<Event>)
    ensures Run(events).view == Played(Run(events).log)
  {
    if events != [] {
      RunPlays(events[..|events| - 1]);
      StepPlays(Run(events[..|events| - 1]), events[|events| - 1]);
    }
  }

  // ----- Who owns what -----

  /** Entries carry their id, their owner and their deadline, and no list names another user's id. */
  ghost predicate Owned(v: Store, owner: string -> string) {
    && (forall id {:trigger SessionKey(id)} :: SessionKey(id) in v.blobs ==> OwnedEntry(v, id, owner))
    && (forall user, id :: id in Listed(v, user) ==> owner(id) == user)
  }

  ghost predicate OwnedEntry(v: Store, id: string, owner: string -> string)
    requires SessionKey(id) in v.blobs
  {
    var item := v.blobs[SessionKey(id)];
    item.val.id == id && item.val.user == owner(id) && item.expiry == Some(item.val.expiresAt)
  }

  ghost predicate OwnedWork(w: Work, owner: string -> string) {
    w.Writing? ==> w.session.user == owner(w.session.id) && w.ttl > 0
  }

  /** The owner of a session id never changes. */
  ghost predicate FixedOwners(events: seq<Event>, owner: string -> string) {
    forall e: Event :: e in events && e.Write? ==> e.session.user == owner(e.session.id)
  }

  ghost predicate OwnedState(s: State, owner: string -> string) {
    && Owned(s.view, owner)
    && (forall c :: c in s.running ==> OwnedWork(s.running[c].work, owner) && s.running[c].done >= 1)
  }

  lemma OwnedLater(v: Store, d: nat, owner: string -> string)
    requires Owned(v, owner)
    ensures Owned(Later(v, d), owner)
  {
    forall user, id | id in Listed(Later(v, d), user)
      ensures owner(id) == user
    {
      assert id in Listed(v, user);
    }
    forall id | SessionKey(id) in Later(v, d).blobs
      ensures OwnedEntry(Later(v, d), id, owner)
    {
      assert OwnedEntry(v, id, owner);
    }
  }

  /** A later command of a call, or the first one of a write at its own instant. */
  lemma OwnedCommand(v: Store, w: Work, n: nat, owner: string -> string)
    requires Owned(v, owner) && OwnedWork(w, owner) && n < Steps(w)
    requires n == 0 && w.Writing? ==> w.ttl == w.session.expiresAt - v.now
    ensures Owned(Issued(v, WorkCommand(w, n)), owner)
  {
    var c := WorkCommand(w, n);
    forall user, id | id in Listed(Issued(v, c), user)
      ensures owner(id) == user
    {
      TouchDecides(v, c, UserSessionsKey(user), id);
      assert id in Listed(v, user) || Touches(c, UserSessionsKey(user), id) == Some(true);
    }
    forall id | SessionKey(id) in Issued(v, c).blobs
      ensures OwnedEntry(Issued(v, c), id, owner)
    {
      assert SessionKey(id) in v.blobs ==> OwnedEntry(v, id, owner);
    }
  }

  lemma StepIsOwned(s: State, e: Event, owner: string -> string)
    requires OwnedState(s, owner) && (e.Write? ==> e.session.user == owner(e.session.id))
    ensures OwnedState(Step(s, e), owner)
  {
    var u := Waited(s, e.wait);
    OwnedLater(s.view, e.wait, owner);
    if e.Next? {
      if e.caller in s.running && s.running[e.caller].done < Steps(s.running[e.caller].work) {
        OwnedCommand(u.view, s.running[e.caller].work, s.running[e.caller].done, owner);
      }
    } else if e.caller !in s.running && Beginning(u.view, e).Some? {
      OwnedCommand(u.view, Beginning(u.view, e).value, 0, owner);
    }
  }

  lemma {:induction false} RunIsOwned(events: seq<Event>, owner: string -> string)
    requires FixedOwners(events, owner)
    ensures OwnedState(Run(events), owner)
  {
    if events != [] {
      RunIsOwned(events[..|events| - 1], owner);
      assert events[|events| - 1] in events;
      StepIsOwned(Run(events[..|events| - 1]), events[|events| - 1], owner);
    }
  }

  // ----- When a session is listed -----

  function ListOf(v: Store, id: string): Key
    requires Live(v, id)
  {
    UserSessionsKey(v.blobs[SessionKey(id)].val.user)
  }

  predicate ListedIn(v: Store, id: string)
    requires Live(v, id)
  {
    id in MembersOf(v.sets, ListOf(v, id))
  }

  predicate Wrote(t: Task, id: string, turn: nat) { t.work.Writing? && t.work.session.id == id && t.turn == turn }

  /** No write of this session is under way. */
  ghost predicate Settled(s: State, id: string) {
    forall c :: c in s.running && s.running[c].work.Writing? ==> s.running[c].work.session.id != id
  }

  /** The call that wrote the session has put it on the list. */
  ghost predicate Entered(s: State, id: string)
    requires id in s.latest
  {
    forall c :: c in s.running && Wrote(s.running[c], id, s.latest[id]) ==> s.running[c].done >= 2
  }

  ghost predicate TaskSound(s: State, t: Task) {
    && 1 <= t.done < Steps(t.work) && t.turn < |s.log|
    && (t.work.Writing? ==>
          var id := t.work.session.id;
          id in s.latest && (t.turn == s.latest[id] && Live(s.view, id) ==> Find(s.view, id) == Some(t.work.session)))
  }

  ghost predicate TasksSound(s: State) {
    && (forall c :: c in s.running ==> TaskSound(s, s.running[c]))
    && (forall id :: Live(s.view, id) ==> id in s.latest)
  }

  /** An entered session has been on the list. */
  ghost predicate Touched(s: State, id: string)
    requires Live(s.view, id) && id in s.latest
  {
    Entered(s, id) ==> LastTouch(s.log, ListOf(s.view, id), id).Some?
  }

  ghost predicate Sound(s: State) {
    TasksSound(s) && forall id :: Live(s.view, id) ==> Touched(s, id)
  }

  lemma WaitedIsSound(s: State, wait: nat)
    requires Sound(s)
    ensures Sound(Waited(s, wait))
  {
    var t := Waited(s, wait);
    forall c | c in t.running ensures TaskSound(t, t.running[c]) {
      assert TaskSound(s, s.running[c]);
    }
    forall id | Live(t.view, id) ensures id in t.latest && Touched(t, id) {
      assert Live(s.view, id) && Touched(s, id);
      assert Entered(t, id) <==> Entered(s, id);
    }
  }

  lemma BegunIsSound(s: State, wait: nat, caller: nat, w: Work)
    requires Sound(s) && caller !in s.running && (w.Writing? ==> w.ttl > 0)
    ensures Sound(Begun(s, wait, caller, w))
  {
    var t := Begun(s, wait, caller, w);
    forall c | c in t.running ensures TaskSound(t, t.running[c]) {
      assert c in s.running ==> TaskSound(s, s.running[c]);
    }
    forall id | Live(t.view, id) ensures id in t.latest && Touched(t, id) {
      if w.Writing? && w.session.id == id {
        assert Wrote(t.running[caller], id, t.latest[id]);
      } else {
        assert Live(s.view, id) && Touched(s, id);
        LastTouchSnoc(s.log, Entry(wait, |s.log|, WorkCommand(w, 0)), ListOf(s.view, id), id);
        if Entered(t, id) {
          EnteredBeforeBegun(s, wait, caller, w, id);
        }
      }
    }
  }

  lemma EnteredBeforeBegun(s: State, wait: nat, caller: nat, w: Work, id: string)
    requires caller !in s.running && id in s.latest && !(w.Writing? && w.session.id == id)
    ensures Entered(Begun(s, wait, caller, w), id) ==> Entered(s, id)
  {
    var t := Begun(s, wait, caller, w);
    if Entered(t, id) {
      forall c | c in s.running && Wrote(s.running[c], id, s.latest[id])
        ensures s.running[c].done >= 2
      {
        assert t.running[c] == s.running[c];
      }
    }
  }

  lemma ContinuedIsSound(s: State, wait: nat, caller: nat)
    requires Sound(s) && caller in s.running && s.running[caller].done < Steps(s.running[caller].work)
    ensures Sound(Continued(s, wait, caller))
  {
    var t, task := Continued(s, wait, caller), s.running[caller];
    assert TaskSound(s, task);
    forall c | c in t.running ensures TaskSound(t, t.running[c]) {
      assert TaskSound(s, s.running[c]);
    }
    forall id | Live(t.view, id) ensures id in t.latest && Touched(t, id) {
      assert Live(s.view, id) && Touched(s, id);
      LastTouchSnoc(s.log, Entry(wait, task.turn, WorkCommand(task.work, task.done)), ListOf(s.view, id), id);
      if Entered(t, id) {
        EnteredBefore(s, wait, caller, id);
      }
    }
  }

  /** A session enters only by the SADD of the call that wrote it. */
  lemma EnteredBefore(s: State, wait: nat, caller: nat, id: string)
    requires TasksSound(s) && caller in s.running && s.running[caller].done < Steps(s.running[caller].work)
    requires Live(s.view, id) && id in s.latest && Entered(Continued(s, wait, caller), id)
    ensures var t := s.running[caller];
      Entered(s, id) || Touches(WorkCommand(t.work, t.done), ListOf(s.view, id), id) == Some(true)
  {
    var t, task := Continued(s, wait, caller), s.running[caller];
    assert TaskSound(s, task);
    if Touches(WorkCommand(task.work, task.done), ListOf(s.view, id), id) != Some(true) {
      forall c | c in s.running && Wrote(s.running[c], id, s.latest[id])
        ensures s.running[c].done >= 2
      {
        assert TaskSound(s, s.running[c]);
        assert c != caller ==> t.running[c] == s.running[c];
      }
    }
  }

  lemma {:induction false} RunIsSound(events: seq<Event>)
    ensures Sound(Run(events))
  {
    if events != [] {
      var s, e := Run(events[..|events| - 1]), events[|events| - 1];
      RunIsSound(events[..|events| - 1]);
      WaitedIsSound(s, e.wait);
      if e.Next? {
        if e.caller in s.running && s.running[e.caller].done < Steps(s.running[e.caller].work) {
          ContinuedIsSound(Waited(s, e.wait), e.wait, e.caller);
        }
      } else if e.caller !in s.running && Beginning(Waited(s, e.wait).view, e).Some? {
        BegunIsSound(Waited(s, e.wait), e.wait, e.caller, Beginning(Waited(s, e.wait).view, e).value);
      }
    }
  }

  /** The SREM or DEL of another call was the last the list heard of the session. */
  ghost predicate TakenOff(s: State, id: string)
    requires Live(s.view, id)
  {
    var t := LastTouch(s.log, ListOf(s.view, id), id);
    t.Some? && !t.value.added
  }

  /** The list has not lapsed since the session was last put on it. */
  ghost predicate Kept(s: State, id: string)
    requires Live(s.view, id)
  {
    Unbroken(s.log, ListOf(s.view, id), id)
  }

  /** The list lasts at least as long as the session. */
  predicate Outlasted(v: Store, id: string)
    requires Live(v, id)
  {
    var k := ListOf(v, id);
    k in v.sets && (v.sets[k].expiry.None? || v.blobs[SessionKey(id)].val.expiresAt <= v.sets[k].expiry.value)
  }

  /** At any instant, a live session that is not being written is listed exactly if no other call has
      taken it off the list and the list has not lapsed, before that instant, since it was put there. */
  lemma SettledIsListed(events: seq<Event>, d: nat, id: string)
    requires Settled(Run(events), id) && Live(Later(Run(events).view, d), id)
    ensures var s := Run(events);
      ListedIn(Later(s.view, d), id) <==> !TakenOff(s, id) && Kept(s, id) && !Lapses(s.view, d, ListOf(s.view, id))
  {
    RunIsSound(events);
    RunPlays(events);
    var s := Run(events);
    assert Live(s.view, id) && Touched(s, id) && Entered(s, id);
    ListedExactly(s.log, d, ListOf(s.view, id), id);
  }

  /** It stays listed for as long as it lives exactly if, besides, the list outlasts it. */
  lemma StaysListed(events: seq<Event>, owner: string -> string, id: string)
    requires FixedOwners(events, owner) && Settled(Run(events), id) && Live(Run(events).view, id)
    ensures var s := Run(events);
      (forall d: nat :: Live(Later(s.view, d), id) ==> ListedIn(Later(s.view, d), id))
      <==> !TakenOff(s, id) && Kept(s, id) && Outlasted(s.view, id)
  {
    RunIsOwned(events, owner);
    RunPlays(events);
    var s := Run(events);
    PlayedIsCurrent(s.log);
    assert OwnedEntry(s.view, id, owner);
    if !TakenOff(s, id) && Kept(s, id) && Outlasted(s.view, id) {
      forall d: nat | Live(Later(s.view, d), id)
        ensures ListedIn(Later(s.view, d), id)
      {
        SettledIsListed(events, d, id);
      }
    }
    if forall d: nat :: Live(Later(s.view, d), id) ==> ListedIn(Later(s.view, d), id) {
      assert Live(Later(s.view, 0), id);
      SettledIsListed(events, 0, id);
      var k := ListOf(s.view, id);
      assert ListedIn(Later(s.view, 0), id);
      if !Outlasted(s.view, id) {
        var d: nat := s.view.sets[k].expiry.value - s.view.now;
        assert Live(Later(s.view, d), id);
        SettledIsListed(events, d, id);
      }
    }
  }

  // ----- Runs in which nothing gets hidden -----

  /** The command that an event issues for a call already under way. */
  function Issuing(s: State, e: Event): Option<Command<Key, Session>> {
    if e.Next? && e.caller in s.running && s.running[e.caller].done < Steps(s.running[e.caller].work)
      then Some(WorkCommand(s.running[e.caller].work, s.running[e.caller].done))
    else None
  }

  /** An EXPIRE is for no less than the life of the user's sessions that have been listed. */
  ghost predicate AlwaysLongest(s: State, e: Event) {
    var c, u := Issuing(s, e), Waited(s, e.wait);
    c.Some? && c.value.Renew? ==>
      forall id :: Live(u.view, id) && id in s.latest && Entered(s, id) && ListOf(u.view, id) == c.value.list ==>
        u.view.blobs[SessionKey(id)].val.expiresAt <= u.view.now + c.value.ttl
  }

  /** No SREM hits a session, and no DEL the list of a session, that has been written and listed. */
  ghost predicate NeverTakenOff(s: State, e: Event) {
    var c, u := Issuing(s, e), Waited(s, e.wait);
    c.Some? ==>
      forall id :: Live(u.view, id) && id in s.latest && Entered(s, id) ==>
        c.value != Remove(ListOf(u.view, id), id) && c.value != DropList(ListOf(u.view, id))
  }

  /** No list lapses between the SADD and the EXPIRE of a write. */
  ghost predicate NeverLapses(s: State, e: Event) {
    forall c :: c in s.running && s.running[c].work.Writing? && s.running[c].done == 2 ==>
      !Lapses(s.view, e.wait, UserSessionsKey(s.running[c].work.session.user))
  }

  ghost predicate Considerate(events: seq<Event>) {
    events == [] ||
    var s, e := Run(events[..|events| - 1]), events[|events| - 1];
    Considerate(events[..|events| - 1]) && AlwaysLongest(s, e) && NeverTakenOff(s, e) && NeverLapses(s, e)
  }

  /** The call that wrote the session still owes its EXPIRE. */
  ghost predicate Pending(s: State, id: string)
    requires id in s.latest
  {
    exists c :: c in s.running && Wrote(s.running[c], id, s.latest[id]) && s.running[c].done == 2
  }

  /** An entered session is listed, and outlasted by the list unless the EXPIRE is still to come. */
  ghost predicate Shown(s: State, id: string)
    requires id in s.latest
  {
    Live(s.view, id) && Entered(s, id) ==> ListedIn(s.view, id) && (Outlasted(s.view, id) || Pending(s, id))
  }

  ghost predicate AllShown(s: State) { forall id :: Live(s.view, id) && id in s.latest ==> Shown(s, id) }

  lemma WaitingShows(s: State, e: Event, id: string, owner: string -> string)
    requires TasksSound(s) && Live(s.view, id) && id in s.latest && Shown(s, id) && NeverLapses(s, e)
    requires OwnedEntry(s.view, id, owner)
    ensures Shown(Waited(s, e.wait), id)
  {
    var t := Waited(s, e.wait);
    assert Entered(t, id) <==> Entered(s, id);
    assert Pending(t, id) <==> Pending(s, id);
    if Live(t.view, id) && Entered(s, id) && Pending(s, id) {
      var c :| c in s.running && Wrote(s.running[c], id, s.latest[id]) && s.running[c].done == 2;
      assert TaskSound(s, s.running[c]);
    }
  }

  lemma BegunShows(s: State, wait: nat, caller: nat, w: Work, id: string)
    requires caller !in s.running && id in s.latest && Live(s.view, id) && Shown(s, id)
    requires !(w.Writing? && w.session.id == id)
    ensures Shown(Begun(s, wait, caller, w), id)
  {
    var t := Begun(s, wait, caller, w);
    EnteredBeforeBegun(s, wait, caller, w, id);
    if Pending(s, id) {
      var c :| c in s.running && Wrote(s.running[c], id, s.latest[id]) && s.running[c].done == 2;
      assert t.running[c] == s.running[c];
    }
  }

  lemma WrittenIsShown(s: State, wait: nat, caller: nat, w: Work)
    requires w.Writing?
    ensures Shown(Begun(s, wait, caller, w), w.session.id)
  {
    var t := Begun(s, wait, caller, w);
    assert Wrote(t.running[caller], w.session.id, t.latest[w.session.id]);
  }

  /** The command, at this instant, leaves the listing of a live session alone. */
  predicate Spares(v: Store, c: Command<Key, Session>, id: string)
    requires Live(v, id)
  {
    && c != Remove(ListOf(v, id), id) && c != DropList(ListOf(v, id))
    && (c.Renew? && c.list == ListOf(v, id) ==> c.ttl > 0 && v.blobs[SessionKey(id)].val.expiresAt <= v.now + c.ttl)
  }

  lemma SparedStays(v: Store, c: Command<Key, Session>, id: string)
    requires Live(v, id) && Spares(v, c, id) && !c.Put? && Live(Issued(v, c), id)
    ensures ListedIn(v, id) ==> ListedIn(Issued(v, c), id)
    ensures ListedIn(v, id) && Outlasted(v, id) ==> Outlasted(Issued(v, c), id)
    ensures c.Renew? && c.list == ListOf(v, id) && ListedIn(v, id) ==> Outlasted(Issued(v, c), id)
  {
    if c.Remove? && c.list == ListOf(v, id) && ListedIn(v, id) {
      assert id in v.sets[c.list].val - {c.id};
    }
  }

  lemma ContinuedShows(s: State, wait: nat, caller: nat, id: string)
    requires TasksSound(s) && caller in s.running && s.running[caller].done < Steps(s.running[caller].work)
    requires Live(s.view, id) && id in s.latest && Shown(s, id)
    requires Entered(s, id) ==> Spares(s.view, WorkCommand(s.running[caller].work, s.running[caller].done), id)
    ensures Shown(Continued(s, wait, caller), id)
  {
    var t, task := Continued(s, wait, caller), s.running[caller];
    var c := WorkCommand(task.work, task.done);
    assert TaskSound(s, task);
    if Live(t.view, id) && Entered(t, id) {
      EnteredBefore(s, wait, caller, id);
      if !Entered(s, id) {
        Entering(s, wait, caller, id);
      } else {
        SparedStays(s.view, c, id);
        if Pending(s, id) {
          var p :| p in s.running && Wrote(s.running[p], id, s.latest[id]) && s.running[p].done == 2;
          assert TaskSound(s, s.running[p]);
          assert p != caller ==> t.running[p] == s.running[p];
        }
      }
    }
  }

  /** The SADD that enters a session lists it and leaves the EXPIRE to come. */
  lemma Entering(s: State, wait: nat, caller: nat, id: string)
    requires TasksSound(s) && caller in s.running && s.running[caller].done < Steps(s.running[caller].work)
    requires Live(s.view, id) && id in s.latest && !Entered(s, id) && Entered(Continued(s, wait, caller), id)
    ensures var t := Continued(s, wait, caller);
      Live(t.view, id) && ListedIn(t.view, id) && Pending(t, id)
  {
    var t := Continued(s, wait, caller);
    var c :| c in s.running && Wrote(s.running[c], id, s.latest[id]) && s.running[c].done < 2;
    assert TaskSound(s, s.running[c]);
    assert forall i :: i in s.running && i != caller ==> i in t.running && t.running[i] == s.running[i];
    assert c == caller;
    assert Wrote(t.running[caller], id, t.latest[id]) && t.running[caller].done == 2;
  }

  lemma StepShows(s: State, e: Event, owner: string -> string)
    requires Sound(s) && OwnedState(s, owner) && AllShown(s)
    requires AlwaysLongest(s, e) && NeverTakenOff(s, e) && NeverLapses(s, e)
    ensures AllShown(Step(s, e))
  {
    var u, t := Waited(s, e.wait), Step(s, e);
    WaitedIsSound(s, e.wait);
    OwnedLater(s.view, e.wait, owner);
    forall id | t != s && Live(t.view, id) && id in t.latest
      ensures Shown(t, id)
    {
      var w := Beginning(u.view, e);
      if w.Some? && w.value.Writing? && w.value.session.id == id {
        WrittenIsShown(u, e.wait, e.caller, w.value);
      } else {
        StaysShown(s, e, id, owner);
      }
    }
  }

  lemma StaysShown(s: State, e: Event, id: string, owner: string -> string)
    requires Sound(s) && OwnedState(s, owner) && AllShown(s) && Step(s, e) != s
    requires AlwaysLongest(s, e) && NeverTakenOff(s, e) && NeverLapses(s, e)
    requires Live(Step(s, e).view, id) && !(e.Write? && e.session.id == id)
    ensures id in Step(s, e).latest && Shown(Step(s, e), id)
  {
    var u := Waited(s, e.wait);
    WaitedIsSound(s, e.wait);
    assert Live(u.view, id) by {
      if e.Next? {
        assert TaskSound(s, s.running[e.caller]);
      }
    }
    assert OwnedEntry(s.view, id, owner);
    WaitingShows(s, e, id, owner);
    if e.Next? {
      assert TaskSound(s, s.running[e.caller]) && OwnedWork(s.running[e.caller].work, owner);
      assert Entered(u, id) <==> Entered(s, id);
      ContinuedShows(u, e.wait, e.caller, id);
    } else {
      BegunShows(u, e.wait, e.caller, Beginning(u.view, e).value, id);
    }
  }

  lemma {:induction false} ConsiderateShowsAll(events: seq<Event>, owner: string -> string)
    requires FixedOwners(events, owner) && Considerate(events)
    ensures AllShown(Run(events))
  {
    if events != [] {
      ConsiderateShowsAll(events[..|events| - 1], owner);
      RunIsOwned(events[..|events| - 1], owner);
      RunIsSound(events[..|events| - 1]);
      StepShows(Run(events[..|events| - 1]), events[|events| - 1], owner);
    }
  }

  // ----- What the readers return -----

  function KeysOf(ids: set<string>): set<Key> { set id | id in ids :: SessionKey(id) }

  /** What DeleteAllUserSessions leaves, if it takes d and nobody interferes. */
  function Purged(v: Store, user: string, d: nat): Store {
    var u := Later(v, d);
    u.(blobs := u.blobs - KeysOf(Listed(v, user)), sets := u.sets - {UserSessionsKey(user)})
  }

  /** The sessions GetUserSessions returns. */
  ghost function SessionsListed(v: Store, user: string): set<Session> {
    set id | id in Listed(v, user) && SessionKey(id) in v.blobs :: v.blobs[SessionKey(id)].val
  }

  /** The sessions it should return. */
  ghost function SessionsLive(v: Store, user: string): set<Session> {
    set k | k in v.blobs && k.SessionKey? && v.blobs[k].val.user == user :: v.blobs[k].val
  }

  /** Every live session of the user is listed. */
  ghost predicate Complete(v: Store, user: string) {
    forall id :: Live(v, id) && v.blobs[SessionKey(id)].val.user == user ==> id in Listed(v, user)
  }

  /** What is returned is never anyone else's, and misses none when the list is complete. */
  lemma ListedAreLive(v: Store, user: string, owner: string -> string)
    requires Owned(v, owner)
    ensures SessionsListed(v, user) <= SessionsLive(v, user)
    ensures Complete(v, user) ==> SessionsListed(v, user) == SessionsLive(v, user)
    ensures Complete(v, user) ==> |SessionsLive(v, user)| <= |Listed(v, user)|
  {
    forall s | s in SessionsListed(v, user)
      ensures s in SessionsLive(v, user)
    {
      var id :| id in Listed(v, user) && SessionKey(id) in v.blobs && s == v.blobs[SessionKey(id)].val;
      assert OwnedEntry(v, id, owner);
    }
    if Complete(v, user) {
      forall s | s in SessionsLive(v, user)
        ensures s in SessionsListed(v, user) && s.id in Listed(v, user)
      {
        var k :| k in v.blobs && k.SessionKey? && v.blobs[k].val.user == user && s == v.blobs[k].val;
        assert Live(v, k.id) && OwnedEntry(v, k.id, owner);
      }
      IdsAreFew(SessionsLive(v, user), Listed(v, user), v);
    }
  }

  /** Sessions with different ids are no more than the ids they come from. */
  lemma {:induction false} IdsAreFew(sessions: set<Session>, ids: set<string>, v: Store)
    requires forall s :: s in sessions ==> s.id in ids
    requires forall s :: s in sessions ==> Live(v, s.id) && v.blobs[SessionKey(s.id)].val == s
    ensures |sessions| <= |ids|
    decreases |sessions|
  {
    if sessions != {} {
      var s :| s in sessions;
      IdsAreFew(sessions - {s}, ids - {s.id}, v);
    }
  }

  /** GetUserSessions returns only live sessions of the user, at every instant of every interleaving. */
  lemma OnlyOwnSessions(events: seq<Event>, owner: string -> string, d: nat, user: string)
    requires FixedOwners(events, owner)
    ensures SessionsListed(Later(Run(events).view, d), user) <= SessionsLive(Later(Run(events).view, d), user)
  {
    RunIsOwned(events, owner);
    OwnedLater(Run(events).view, d, owner);
    ListedAreLive(Later(Run(events).view, d), user, owner);
  }

  /** In considerate runs, at every instant at which no session of the user is being written, it
      returns all of them, the count is no lower, and DeleteAllUserSessions leaves none alive. */
  lemma AllOwnSessions(events: seq<Event>, owner: string -> string, d: nat, user: string, more: nat)
    requires FixedOwners(events, owner) && Considerate(events)
    requires forall id :: Live(Later(Run(events).view, d), id) && owner(id) == user ==> Settled(Run(events), id)
    ensures var v := Later(Run(events).view, d);
      && SessionsListed(v, user) == SessionsLive(v, user)
      && |SessionsLive(v, user)| <= |Listed(v, user)|
      && SessionsLive(Purged(v, user, more), user) == {}
  {
    ConsiderateShowsAll(events, owner);
    RunIsOwned(events, owner);
    RunIsSound(events);
    OwnedLater(Run(events).view, d, owner);
    var s := Run(events);
    var v := Later(s.view, d);
    forall id | Live(v, id) && v.blobs[SessionKey(id)].val.user == user
      ensures id in Listed(v, user)
    {
      assert OwnedEntry(s.view, id, owner) && Settled(s, id);
      assert Shown(s, id) && Entered(s, id) && !Pending(s, id);
    }
    ListedAreLive(v, user, owner);
    forall k | k in Purged(v, user, more).blobs && k.SessionKey?
      ensures v.blobs[k].val.user != user
    {
      assert k in v.blobs && Live(v, k.id);
      assert SessionKey(k.id) !in KeysOf(Listed(v, user));
    }
  }

  /** DeleteAllUserSessions spares exactly the sessions that the list does not name and that live on. */
  lemma PurgeSparesUnlisted(v: Store, user: string, d: nat, id: string)
    ensures Live(Purged(v, user, d), id) <==> Live(Later(v, d), id) && id !in Listed(v, user)
  {
  }

  // ----- Calls that nobody interrupts, with pauses between their commands -----

  /** The three commands of a write, or of a delete, the later two after their pauses. */
  function Alone(v: Store, w: Work, pause1: nat, pause2: nat): Store
    requires !w.Purging?
  {
    Issued(Later(Issued(Later(Issued(v, WorkCommand(w, 0)), pause1), WorkCommand(w, 1)), pause2), WorkCommand(w, 2))
  }

  /** What Create leaves, for a session that has not expired. */
  function Written(v: Store, s: Session, pause1: nat, pause2: nat): Store {
    Alone(v, Writing(s, s.expiresAt - v.now), pause1, pause2)
  }

  /** The second component says whether the call reported success. */
  function Created(v: Store, s: Session, pause1: nat, pause2: nat): (Store, bool) {
    if s.expiresAt - v.now <= 0 then (v, false)
    else (Written(v, s, pause1, pause2), true)
  }

  /** `pause0` is the time between EXISTS and SET. */
  function Updated(v: Store, s: Session, pause0: nat, pause1: nat, pause2: nat): (Store, bool) {
    if Find(v, s.id).Some? then Created(Later(v, pause0), s, pause1, pause2) else (v, false)
  }

  function Deleted(v: Store, id: string, pause1: nat, pause2: nat): (Store, bool) {
    if Find(v, id).None? then (v, false)
    else (Alone(v, Deleting(id, Find(v, id).value.user), pause1, pause2), true)
  }

  // ----- What the commands of a delete and a purge do in the machine -----

  /** Which events begin a call, and what the call is then about: a write of a session that has not expired,
      a delete of one that is there, a purge of exactly the ids that are listed. */
  lemma BeginEffect(s: State, e: Event)
    requires !e.Next? && e.caller !in s.running
    ensures var t, v := Step(s, e), Later(s.view, e.wait);
      && (e.caller in t.running <==>
            match e
            case Write(_, _, session) => v.now < session.expiresAt
            case Delete(_, _, id) => SessionKey(id) in v.blobs
            case Purge(_, _, user, ids) => Distinct(ids) && forall id :: id in ids <==> id in Listed(v, user))
      && (e.caller !in t.running ==> t == s)
      && (e.caller in t.running ==>
            t.running[e.caller] == Task(
              match e
              case Write(_, _, session) => Writing(session, session.expiresAt - v.now)
              case Delete(_, _, id) => Deleting(id, v.blobs[SessionKey(id)].val.user)
              case Purge(_, _, user, ids) => Purging(user, ids), |s.log|, 1))
  {
  }

  /** After its second command the entry that a delete is about is gone, after the third its owner's
      list does not name it, whatever else is going on. */
  lemma DeletingDeletes(s: State, wait: nat, caller: nat)
    requires caller in s.running && s.running[caller].work.Deleting?
    requires 1 <= s.running[caller].done < Steps(s.running[caller].work)
    ensures var t, w := Step(s, Next(wait, caller)), s.running[caller].work;
      && (s.running[caller].done == 1 ==> SessionKey(w.id) !in t.view.blobs && caller in t.running)
      && (s.running[caller].done == 2 ==> w.id !in Listed(t.view, w.user) && caller !in t.running)
  {
  }

  /** A purge removes the entries it has read one by one, and then the list. */
  lemma PurgingPurges(s: State, wait: nat, caller: nat)
    requires caller in s.running && s.running[caller].work.Purging?
    requires 1 <= s.running[caller].done < Steps(s.running[caller].work)
    ensures var t, w, n := Step(s, Next(wait, caller)), s.running[caller].work, s.running[caller].done;
      && (n <= |w.ids| ==> SessionKey(w.ids[n - 1]) !in t.view.blobs && caller in t.running)
      && (n == |w.ids| + 1 ==> Listed(t.view, w.user) == {} && caller !in t.running)
  {
  }

  /** A session that is not there comes back only by a write of it. */
  lemma {:induction false} GoneStaysGone(events: seq<Event>, more: seq<Event>, id: string)
    requires !Live(Run(events).view, id) && forall e: Event :: e in more && e.Write? ==> e.session.id != id
    ensures !Live(Run(events + more).view, id)
  {
    if more == [] {
      assert events + more == events;
    } else {
      var before, last := more[..|more| - 1], more[|more| - 1];
      GoneStaysGone(events, before, id);
      assert last in more;
      GoneOneMore(events + before, last, id);
      assert events + more == events + before + [last];
    }
  }

  lemma GoneOneMore(events: seq<Event>, e: Event, id: string)
    requires !Live(Run(events).view, id) && (e.Write? ==> e.session.id != id)
    ensures !Live(Run(events + [e]).view, id)
  {
    RunIsSound(events);
    RunSnoc(events, e);
    StepRevivesNobody(Run(events), e, id);
  }

  lemma StepRevivesNobody(s: State, e: Event, id: string)
    requires TasksSound(s) && !Live(s.view, id) && (e.Write? ==> e.session.id != id)
    ensures !Live(Step(s, e).view, id)
  {
    if e.Next? && e.caller in s.running {
      assert TaskSound(s, s.running[e.caller]);
    }
  }

  /** Such a call is three events of the machine with nothing in between. */
  lemma {:induction false} AloneIsSteps(events: seq<Event>, e: Event, pause1: nat, pause2: nat)
    requires (e.Write? || e.Delete?) && e.wait == 0 && e.caller !in Run(events).running
    requires Beginning(Run(events).view, e).Some?
    ensures var s, t := Run(events), Run(events + [e] + [Next(pause1, e.caller)] + [Next(pause2, e.caller)]);
      && t.view == Alone(s.view, Beginning(s.view, e).value, pause1, pause2)
      && t.running == s.running
  {
    RunPlays(events);
    PlayedIsCurrent(Run(events).log);
    RunSnoc(events, e);
    RunSnoc(events + [e], Next(pause1, e.caller));
    RunSnoc(events + [e] + [Next(pause1, e.caller)], Next(pause2, e.caller));
    ThreeSteps(Run(events), e, pause1, pause2);
  }

  lemma ThreeSteps(s: State, e: Event, pause1: nat, pause2: nat)
    requires (e.Write? || e.Delete?) && e.wait == 0 && e.caller !in s.running && Current(s.view)
    requires Beginning(s.view, e).Some?
    ensures var t := Step(Step(Step(s, e), Next(pause1, e.caller)), Next(pause2, e.caller));
      t.view == Alone(s.view, Beginning(s.view, e).value, pause1, pause2) && t.running == s.running
  {
    assert Later(s.view, 0) == s.view;
    var w := Beginning(s.view, e).value;
    var s1 := Step(s, e);
    assert s1 == Begun(s, 0, e.caller, w);
    var s2 := Step(s1, Next(pause1, e.caller));
    assert s2.running == s.running[e.caller := Task(w, |s.log|, 2)];
    assert Without(s2.running, e.caller) == s.running;
  }

  /** Every live session is listed by a list that outlasts it. */
  ghost predicate Indexed(v: Store) { forall id :: Live(v, id) ==> IndexedOne(v, id) }

  predicate IndexedOne(v: Store, id: string)
    requires Live(v, id)
  {
    var item := v.blobs[SessionKey(id)];
    ListedIn(v, id) && Outlasted(v, id) && item.expiry == Some(item.val.expiresAt)
  }

  ghost predicate AllListed(v: Store) { forall id :: Live(v, id) ==> ListedIn(v, id) }

  /** No other live session of the user expires more than `slack` after s. */
  ghost predicate Longest(v: Store, s: Session, slack: nat) {
    forall id :: Live(v, id) && id != s.id && v.blobs[SessionKey(id)].val.user == s.user ==>
      v.blobs[SessionKey(id)].val.expiresAt <= s.expiresAt + slack
  }

  /** The old list lapses between SADD and EXPIRE, while the session just written lives on. */
  predicate Loses(v: Store, s: Session, pause1: nat, pause2: nat) {
    var k := UserSessionsKey(s.user);
    && k in v.sets && Fresh(v.sets[k], v.now + pause1) && !Fresh(v.sets[k], v.now + pause1 + pause2)
    && v.now + pause1 + pause2 < s.expiresAt
  }

  /** What a write leaves of the list it writes to, and of everybody's entries. */
  lemma WriteEffect(v: Store, s: Session, pause1: nat, pause2: nat)
    requires v.now < s.expiresAt
    ensures var w, k, now := Written(v, s, pause1, pause2), UserSessionsKey(s.user), v.now + pause1 + pause2;
      && w.now == now
      && (forall id :: Live(w, id) <==> if id == s.id then now < s.expiresAt
                                       else Live(v, id) && Fresh(v.blobs[SessionKey(id)], now))
      && (forall id :: Live(w, id) && id != s.id ==> w.blobs[SessionKey(id)] == v.blobs[SessionKey(id)])
      && (Live(w, s.id) ==> w.blobs[SessionKey(s.id)] == Item(s, Some(s.expiresAt)))
  {
  }

  /** Create succeeds exactly for a session that has not expired; an update, exactly for one that is there
      and has not expired either by the time it is written. Otherwise nothing but time has passed; on
      success the entry is the session, until its own expiry. */
  lemma WritersAnswer(v: Store, s: Session, pause0: nat, pause1: nat, pause2: nat)
    ensures var (t, ok) := Created(v, s, pause1, pause2);
      && (ok <==> v.now < s.expiresAt) && (!ok ==> t == v)
      && (ok ==> HasEntry(t, s, v.now + pause1 + pause2))
    ensures var (t, ok) := Updated(v, s, pause0, pause1, pause2);
      && (ok <==> SessionKey(s.id) in v.blobs && v.now + pause0 < s.expiresAt)
      && (!ok ==> t == v || t == Later(v, pause0))
      && (ok ==> HasEntry(t, s, v.now + pause0 + pause1 + pause2))
  {
    if v.now < s.expiresAt {
      WriteEffect(v, s, pause1, pause2);
    }
    if v.now + pause0 < s.expiresAt {
      WriteEffect(Later(v, pause0), s, pause1, pause2);
    }
  }

  /** The time is `now`, and the session is there as long as it has not expired. */
  predicate HasEntry(t: Store, s: Session, now: int) {
    && t.now == now
    && (SessionKey(s.id) in t.blobs <==> now < s.expiresAt)
    && (now < s.expiresAt ==> t.blobs[SessionKey(s.id)] == Item(s, Some(s.expiresAt)))
  }

  lemma ListEffect(v: Store, s: Session, pause1: nat, pause2: nat)
    requires v.now < s.expiresAt
    ensures var w, k, now := Written(v, s, pause1, pause2), UserSessionsKey(s.user), v.now + pause1 + pause2;
      var alive, lost := k in v.sets && Fresh(v.sets[k], v.now + pause1), k in v.sets && !Fresh(v.sets[k], now);
      && (k in w.sets <==> !(alive && lost))
      && (k in w.sets ==>
            w.sets[k] == Item((if alive then v.sets[k].val else {}) + {s.id}, Some(s.expiresAt + pause1 + pause2)))
      && (forall l :: l != k && l in v.sets && Fresh(v.sets[l], now) ==> l in w.sets && w.sets[l] == v.sets[l])
  {
    var k := UserSessionsKey(s.user);
    assert MembersOf(map[], k) + {s.id} == {s.id};
  }

  /** Membership and deadline of every list but those that `except` names have only aged. */
  ghost predicate ListsAged(v: Store, t: Store, except: Key) {
    && (forall l :: l != except && l in t.sets ==> l in v.sets && t.sets[l] == v.sets[l])
    && (forall l :: l != except && l in v.sets && Fresh(v.sets[l], t.now) ==> l in t.sets)
  }

  /** The entries that `gone` does not name have only aged, and the others are not there. */
  ghost predicate EntriesLeft(v: Store, t: Store, gone: set<string>) {
    && (forall id :: id in gone ==> SessionKey(id) !in t.blobs)
    && (forall k :: k in t.blobs ==> k in v.blobs && t.blobs[k] == v.blobs[k])
    && (forall k :: k in v.blobs && Fresh(v.blobs[k], t.now) && !(k.SessionKey? && k.id in gone) ==> k in t.blobs)
  }

  /**
   A delete reports success exactly if the session was there. Then the entry is gone, its owner's list
   does not name it any more, and everything else has only aged; otherwise nothing has happened.
   */
  lemma DeleteEffect(v: Store, id: string, pause1: nat, pause2: nat)
    ensures var (t, ok) := Deleted(v, id, pause1, pause2);
      && (ok <==> SessionKey(id) in v.blobs)
      && (!ok ==> t == v)
      && (ok ==>
            var list := UserSessionsKey(v.blobs[SessionKey(id)].val.user);
            && t.now == v.now + pause1 + pause2
            && EntriesLeft(v, t, {id}) && ListsAged(v, t, list)
            && (forall i :: i in MembersOf(t.sets, list) <==>
                  i != id && list in v.sets && Fresh(v.sets[list], t.now) && i in v.sets[list].val)
            && (list in t.sets ==> list in v.sets && t.sets[list].expiry == v.sets[list].expiry))
  {
    if SessionKey(id) in v.blobs {
      var user := v.blobs[SessionKey(id)].val.user;
      DeleteEntries(v, id, user, pause1, pause2);
      DeleteOtherLists(v, id, user, pause1, pause2);
      DeleteOwnList(v, id, user, pause1, pause2);
    }
  }

  lemma DeleteEntries(v: Store, id: string, user: string, pause1: nat, pause2: nat)
    ensures var t := Alone(v, Deleting(id, user), pause1, pause2);
      t.now == v.now + pause1 + pause2 && EntriesLeft(v, t, {id})
  {
  }

  lemma DeleteOtherLists(v: Store, id: string, user: string, pause1: nat, pause2: nat)
    ensures ListsAged(v, Alone(v, Deleting(id, user), pause1, pause2), UserSessionsKey(user))
  {
  }

  lemma DeleteOwnList(v: Store, id: string, user: string, pause1: nat, pause2: nat)
    ensures var t, list := Alone(v, Deleting(id, user), pause1, pause2), UserSessionsKey(user);
      && (forall i :: i in MembersOf(t.sets, list) <==>
            i != id && list in v.sets && Fresh(v.sets[list], t.now) && i in v.sets[list].val)
      && (list in t.sets ==> list in v.sets && t.sets[list].expiry == v.sets[list].expiry)
  {
    var list := UserSessionsKey(user);
    if list in v.sets {
      assert forall i :: i in v.sets[list].val - {id} <==> i in v.sets[list].val && i != id;
    }
  }

  /** Undisturbed, DeleteAllUserSessions leaves no listed session of the user alive, and no list. */
  lemma PurgeEffect(v: Store, user: string, d: nat)
    ensures var t := Purged(v, user, d);
      && t.now == v.now + d
      && EntriesLeft(v, t, Listed(v, user)) && ListsAged(v, t, UserSessionsKey(user))
      && UserSessionsKey(user) !in t.sets
  {
  }

  lemma WriteCovers(v: Store, s: Session, pause1: nat, pause2: nat)
    requires Indexed(v) && v.now < s.expiresAt
    requires Longest(v, s, pause1 + pause2) && !Loses(v, s, pause1, pause2)
    ensures Indexed(Written(v, s, pause1, pause2))
  {
    var w := Written(v, s, pause1, pause2);
    WriteEffect(v, s, pause1, pause2);
    ListEffect(v, s, pause1, pause2);
    forall id | Live(w, id)
      ensures IndexedOne(w, id)
    {
      if id != s.id {
        assert Live(v, id) && IndexedOne(v, id);
      }
    }
  }

  lemma ListedForLife(v: Store)
    requires Indexed(v)
    ensures forall d: nat :: AllListed(Later(v, d))
  {
    forall d: nat, id | Live(Later(v, d), id)
      ensures ListedIn(Later(v, d), id)
    {
      assert Live(v, id) && IndexedOne(v, id);
    }
  }

  /** The list expires with the shorter session written last, and hides the longer one. */
  lemma ShorterHidesLonger(v: Store, s: Session, pause1: nat, pause2: nat)
    requires Indexed(v) && v.now < s.expiresAt && !Longest(v, s, pause1 + pause2)
    ensures !AllListed(Later(Written(v, s, pause1, pause2), s.expiresAt - v.now))
  {
    var w := Written(v, s, pause1, pause2);
    var id :| Live(v, id) && id != s.id && v.blobs[SessionKey(id)].val.user == s.user
      && s.expiresAt + pause1 + pause2 < v.blobs[SessionKey(id)].val.expiresAt;
    WriteEffect(v, s, pause1, pause2);
    ListEffect(v, s, pause1, pause2);
    assert IndexedOne(v, id);
    var t := Later(w, s.expiresAt - v.now);
    assert Live(t, id) && UserSessionsKey(s.user) !in t.sets;
    assert !ListedIn(t, id);
  }

  lemma LapseHidesNew(v: Store, s: Session, pause1: nat, pause2: nat)
    requires v.now < s.expiresAt && Loses(v, s, pause1, pause2)
    ensures var w := Written(v, s, pause1, pause2);
      Live(w, s.id) && !ListedIn(w, s.id) && Fresh(w.blobs[SessionKey(s.id)], w.now)
  {
    WriteEffect(v, s, pause1, pause2);
    ListEffect(v, s, pause1, pause2);
  }

  /**
   From a state in which every session is listed for life, a write that nobody interrupts keeps it so
   exactly if no other session of the user outlasts the new list, and the old list did not lapse
   between SADD and EXPIRE.
   */
  lemma WriteKeepsIndex(v: Store, s: Session, pause1: nat, pause2: nat)
    requires Indexed(v) && v.now < s.expiresAt
    ensures Longest(v, s, pause1 + pause2) && !Loses(v, s, pause1, pause2) <==>
      forall d: nat :: AllListed(Later(Written(v, s, pause1, pause2), d))
  {
    if Loses(v, s, pause1, pause2) {
      LapseHidesNew(v, s, pause1, pause2);
      HiddenNow(Written(v, s, pause1, pause2), s.id);
    } else if !Longest(v, s, pause1 + pause2) {
      ShorterHidesLonger(v, s, pause1, pause2);
    } else {
      WriteCovers(v, s, pause1, pause2);
      ListedForLife(Written(v, s, pause1, pause2));
    }
  }

  lemma HiddenNow(v: Store, id: string)
    requires Live(v, id) && !ListedIn(v, id) && Fresh(v.blobs[SessionKey(id)], v.now)
    ensures !AllListed(Later(v, 0))
  {
    assert Live(Later(v, 0), id) && !ListedIn(Later(v, 0), id);
  }

  // ----- Runs that go wrong -----

  /** A run followed by a write that nobody interrupts. */
  function WithWrite(events: seq<Event>, caller: nat, s: Session, pause2: nat): seq<Event> {
    events + [Write(0, caller, s)] + [Next(0, caller)] + [Next(pause2, caller)]
  }

  lemma {:induction false} RunWrite(events: seq<Event>, caller: nat, s: Session, pause2: nat)
    requires caller !in Run(events).running && Run(events).view.now < s.expiresAt
    ensures var t := Run(WithWrite(events, caller, s, pause2));
      t.view == Written(Run(events).view, s, 0, pause2) && t.running == Run(events).running
  {
    CreateIsAlone(Run(events).view, caller, s, pause2);
    AloneIsSteps(events, Write(0, caller, s), 0, pause2);
  }

  lemma CreateIsAlone(v: Store, caller: nat, s: Session, pause2: nat)
    requires v.now < s.expiresAt
    ensures Beginning(v, Write(0, caller, s)).Some?
    ensures Written(v, s, 0, pause2) == Alone(v, Beginning(v, Write(0, caller, s)).value, 0, pause2)
  {
  }

  /** User u has the session a until 100, and the list too. */
  ghost predicate HasLong(v: Store) {
    && v.now == 0
    && Live(v, "a") && v.blobs[SessionKey("a")] == Item(Session("a", "u", 100, 0, ""), Some(100))
    && UserSessionsKey("u") in v.sets && v.sets[UserSessionsKey("u")] == Item({"a"}, Some(100))
  }

  lemma FirstSession(none: seq<Event>) returns (events: seq<Event>)
    requires none == []
    ensures HasLong(Run(events).view) && Run(events).running == map[]
  {
    var a := Session("a", "u", 100, 0, "");
    RunWrite(none, 0, a, 0);
    FirstLong();
    events := WithWrite(none, 0, a, 0);
  }

  lemma FirstLong()
    ensures HasLong(Written(Start.view, Session("a", "u", 100, 0, ""), 0, 0))
  {
    WriteEffect(Start.view, Session("a", "u", 100, 0, ""), 0, 0);
    ListEffect(Start.view, Session("a", "u", 100, 0, ""), 0, 0);
    assert {} + {"a"} == {"a"};
  }

  lemma ShortHidesLong(v: Store)
    requires HasLong(v)
    ensures var w := Later(Written(v, Session("b", "u", 10, 0, ""), 0, 0), 10);
      Live(w, "a") && !ListedIn(w, "a")
  {
    var b := Session("b", "u", 10, 0, "");
    WriteEffect(v, b, 0, 0);
    ListEffect(v, b, 0, 0);
  }

  /** It happens: a shorter session of the same user, written next, hides the first one when it expires. */
  lemma ShortSessionHidesLong()
    ensures exists events: seq<Event> :: var s := Run(events);
      Live(Later(s.view, 10), "a") && Settled(s, "a") && !ListedIn(Later(s.view, 10), "a")
  {
    var events := FirstSession([]);
    RunWrite(events, 0, Session("b", "u", 10, 0, ""), 0);
    ShortHidesLong(Run(events).view);
    assert !ListedIn(Later(Run(WithWrite(events, 0, Session("b", "u", 10, 0, ""), 0)).view, 10), "a");
  }

  /** It happens: the list lapses between the SADD and the EXPIRE of a longer session, which is lost. */
  lemma LateExpireLosesSession()
    ensures exists events: seq<Event> :: var s := Run(events);
      Live(s.view, "b") && Settled(s, "b") && !ListedIn(s.view, "b")
  {
    var events := FirstSession([]);
    var b := Session("b", "u", 200, 0, "");
    RunWrite(events, 0, b, 100);
    LapseHidesNew(Run(events).view, b, 0, 100);
    assert !ListedIn(Run(WithWrite(events, 0, b, 100)).view, "b");
  }

  /** A session deleted and written again while the delete is under way: once the entry is gone, a
      write may store and list it anew before the SREM, which then takes it off the list. */
  lemma DeleteUnlists(events: seq<Event>, wait: nat, deleter: nat)
    requires var s := Run(events);
      && deleter in s.running && s.running[deleter].work.Deleting? && s.running[deleter].done == 2
      && var w := s.running[deleter].work;
        && Live(Later(s.view, wait), w.id) && Settled(s, w.id)
        && Find(s.view, w.id).value.user == w.user
    ensures var s, t := Run(events), Run(events + [Next(wait, deleter)]);
      var id := s.running[deleter].work.id;
      Live(t.view, id) && Settled(t, id) && TakenOff(t, id) && !ListedIn(t.view, id)
  {
    RunSnoc(events, Next(wait, deleter));
    var s := Run(events);
    var task, u := s.running[deleter], Later(s.view, wait);
    var c := WorkCommand(task.work, 2);
    LastTouchSnoc(s.log, Entry(wait, task.turn, c), ListOf(u, task.work.id), task.work.id);
    TouchDecides(u, c, ListOf(u, task.work.id), task.work.id);
  }

  /** It happens: a delete has read and deleted the session, an update that saw it before writes it
      again, and the SREM of the delete hides it. */
  lemma DeleteOvertakesWrite()
    ensures exists events: seq<Event> :: var s := Run(events);
      Live(s.view, "a") && Settled(s, "a") && !ListedIn(s.view, "a")
  {
    var events := HalfDeleted([]);
    var again := Session("a", "u", 100, 1, "");
    RunWrite(events, 0, again, 0);
    WriteEffect(Run(events).view, again, 0, 0);
    var both := WithWrite(events, 0, again, 0);
    Undated(Run(both).view);
    DeleteUnlists(both, 0, 1);
    assert !ListedIn(Run(both + [Next(0, 1)]).view, "a");
  }

  lemma Undated(v: Store)
    requires Live(v, "a") && v.now == 0 && v.blobs[SessionKey("a")].expiry == Some(100)
    ensures Live(Later(v, 0), "a")
  {
  }

  lemma HalfDeleted(none: seq<Event>) returns (events: seq<Event>)
    requires none == []
    ensures var s := Run(events);
      && s.view.now == 0 && s.running.Keys == {1}
      && s.running[1].work == Deleting("a", "u") && s.running[1].done == 2
  {
    var first := FirstSession(none);
    RunSnoc(first, Delete(0, 1, "a"));
    var reading := first + [Delete(0, 1, "a")];
    HalfDelete(Run(first));
    RunSnoc(reading, Next(0, 1));
    events := reading + [Next(0, 1)];
  }

  lemma HalfDelete(s: State)
    requires HasLong(s.view) && s.running == map[]
    ensures var t := Step(Step(s, Delete(0, 1, "a")), Next(0, 1));
      && t.view.now == 0 && t.running.Keys == {1}
      && t.running[1].work == Deleting("a", "u") && t.running[1].done == 2
  {
    assert Beginning(Later(s.view, 0), Delete(0, 1, "a")) == Some(Deleting("a", "u"));
    assert Step(s, Delete(0, 1, "a")).running == map[1 := Task(Deleting("a", "u"), |s.log|, 1)];
  }
}

/** The Redis-backed store: every method issues its commands one by one, and time may pass in between. */
module SessionStore {
  import opened Common
  import opened Redis
  import opened Commands
  import opened SessionKeys
  import opened SessionIndex

  class RedisStore {
    const server: Server<Key, Session>

    constructor (server: Server<Key, Session>)
      ensures this.server == server
    {
      this.server := server;
    }

    /** The pauses come before SADD and before EXPIRE; the ttl is computed for the SET. */
    method Create(session: Session, pause1: nat, pause2: nat) returns (ok: bool)
      modifies server
      ensures (server.Seen(), ok) == Created(old(server.Seen()), session, pause1, pause2)
    {
      var ttl := session.expiresAt - server.now;
      if ttl <= 0 {
        return false;
      }
      server.SeenIsCurrent();
      Send(server, 0, Put(SessionKey(session.id), session, ttl));
      var userSessionsKey := UserSessionsKey(session.user);
      Send(server, pause1, Add(userSessionsKey, session.id));
      Send(server, pause2, Renew(userSessionsKey, ttl));
      return true;
    }

    method Get(id: string) returns (session: Option<Session>)
      ensures session == Find(server.Seen(), id)
    {
      session := server.Get(SessionKey(id));
    }

    method Exists(id: string) returns (r: bool)
      ensures r <==> Find(server.Seen(), id).Some?
    {
      r := server.Exists(SessionKey(id));
    }

    /** `pause0` comes after EXISTS. */
    method Update(session: Session, pause0: nat, pause1: nat, pause2: nat) returns (ok: bool)
      modifies server
      ensures (server.Seen(), ok) == Updated(old(server.Seen()), session, pause0, pause1, pause2)
    {
      var present := Exists(session.id);
      if !present {
        return false;
      }
      server.Tick(pause0);
      ok := Create(session, pause1, pause2);
    }

    /** `pause` comes after GET, and the clock is read at once. */
    method UpdateActivity(id: string, pause: nat, pause0: nat, pause1: nat, pause2: nat) returns (ok: bool)
      modifies server
      ensures var v, found := old(server.Seen()), Find(old(server.Seen()), id);
        (server.Seen(), ok) == if found.None? then (v, false)
          else Updated(Later(v, pause), found.value.(lastActivity := v.now), pause0, pause1, pause2)
    {
      var session := Get(id);
      if session.None? {
        return false;
      }
      var active := session.value.(lastActivity := server.now);
      server.Tick(pause);
      ok := Update(active, pause0, pause1, pause2);
    }

    method ExtendExpiration(id: string, duration: int, pause: nat, pause0: nat, pause1: nat, pause2: nat)
      returns (ok: bool)
      modifies server
      ensures var v, found := old(server.Seen()), Find(old(server.Seen()), id);
        (server.Seen(), ok) == if found.None? then (v, false)
          else Updated(Later(v, pause), found.value.(expiresAt := v.now + duration), pause0, pause1, pause2)
    {
      var session := Get(id);
      if session.None? {
        return false;
      }
      var extended := session.value.(expiresAt := server.now + duration);
      server.Tick(pause);
      ok := Update(extended, pause0, pause1, pause2);
    }

    method Delete(id: string, pause1: nat, pause2: nat) returns (ok: bool)
      modifies server
      ensures (server.Seen(), ok) == Deleted(old(server.Seen()), id, pause1, pause2)
      ensures ok <==> Find(old(server.Seen()), id).Some?
      ensures !Live(server.Seen(), id)
    {
      DeleteEffect(server.Seen(), id, pause1, pause2);
      var session := Get(id);
      if session.None? {
        return false;
      }
      Send(server, pause1, Drop(SessionKey(id)));
      Send(server, pause2, Remove(UserSessionsKey(session.value.user), id));
      return true;
    }

    /** Any time may pass between the commands. */
    method DeleteAllUserSessions(user: string) returns (ghost d: nat)
      modifies server
      ensures server.Seen() == Purged(old(server.Seen()), user, d)
    {
      var ids := server.SMembers(UserSessionsKey(user));
      ghost var v := server.Seen();
      server.SeenIsCurrent();
      d := 0;
      var i := 0;
      while i < |ids|
        invariant 0 <= i <= |ids|
        invariant server.Seen() == Dropped(v, ids[..i], d)
      {
        d := DropAfterPause(v, ids, i, d);
        i := i + 1;
      }
      assert ids[..i] == ids;
      var pause := server.Pass();
      LaterPurged(v, user, ids, d, pause);
      d := d + pause;
      server.DelSet(UserSessionsKey(user));
    }

    method DropAfterPause(ghost v: Store, ids: seq<string>, i: nat, ghost d: nat) returns (ghost e: nat)
      requires i < |ids| && server.Seen() == Dropped(v, ids[..i], d)
      modifies server
      ensures server.Seen() == Dropped(v, ids[..i + 1], e)
    {
      var pause := server.Pass();
      DroppedLater(v, ids[..i], d, pause);
      e := d + pause;
      server.Del(SessionKey(ids[i]));
      DroppedOneMore(v, ids, i, e);
    }

    /** The sessions are read one after the other: each was listed at the start, none that lived to
        the end is missing, and none comes twice if entries carry their own id. */
    method GetUserSessions(user: string) returns (sessions: seq<Session>, ghost d: nat)
      modifies server
      ensures server.Seen() == Later(old(server.Seen()), d)
      ensures Answers(old(server.Seen()), user, sessions, d)
    {
      var ids := server.SMembers(UserSessionsKey(user));
      sessions, d := [], 0;
      ghost var v := server.Seen();
      server.SeenIsCurrent();
      var i := 0;
      while i < |ids|
        invariant 0 <= i <= |ids| && server.Seen() == Later(v, d)
        invariant Collected(v, ids[..i], sessions, d)
      {
        sessions, d := ReadAfterPause(v, ids, i, sessions, d);
        i := i + 1;
      }
      assert ids[..i] == ids;
      CollectedAll(v, user, ids, sessions, d);
    }

    method ReadAfterPause(ghost v: Store, ids: seq<string>, i: nat, sessions: seq<Session>, ghost d: nat)
      returns (more: seq<Session>, ghost e: nat)
      requires i < |ids| && Distinct(ids) && server.Seen() == Later(v, d) && Collected(v, ids[..i], sessions, d)
      modifies server
      ensures server.Seen() == Later(v, e) && Collected(v, ids[..i + 1], more, e)
    {
      var pause := server.Pass();
      LaterTwice(v, d, pause);
      e := d + pause;
      var session := Get(ids[i]);
      CollectedMore(v, ids, i, sessions, d, pause);
      more := if session.Some? then sessions + [session.value] else sessions;
    }

    method CountUserSessions(user: string) returns (n: nat)
      ensures n == |Listed(server.Seen(), user)|
    {
      n := server.SCard(UserSessionsKey(user));
    }
  }

  /** What has been read of the given ids by d ticks after v: only what v held, and all that is still
      there; nothing twice, if entries carry their own id. */
  ghost predicate Collected(v: Store, ids: seq<string>, sessions: seq<Session>, d: nat) {
    && (forall s :: s in sessions ==> exists id :: id in ids && Find(v, id) == Some(s))
    && (forall id :: id in ids && Live(Later(v, d), id) ==> Find(v, id).value in sessions)
    && ((forall id :: Live(v, id) ==> Find(v, id).value.id == id) ==> Distinct(sessions))
  }

  lemma CollectedMore(v: Store, ids: seq<string>, i: nat, sessions: seq<Session>, d: nat, pause: nat)
    requires i < |ids| && Distinct(ids) && Collected(v, ids[..i], sessions, d)
    ensures var found := Find(Later(v, d + pause), ids[i]);
      Collected(v, ids[..i + 1], if found.Some? then sessions + [found.value] else sessions, d + pause)
  {
    var found := Find(Later(v, d + pause), ids[i]);
    var more := if found.Some? then sessions + [found.value] else sessions;
    assert ids[..i + 1] == ids[..i] + [ids[i]];
    assert found.Some? ==> Find(v, ids[i]) == found;
    forall s | s in more
      ensures exists id :: id in ids[..i + 1] && Find(v, id) == Some(s)
    {
      if s in sessions {
        var id :| id in ids[..i] && Find(v, id) == Some(s);
        assert id in ids[..i + 1];
      } else {
        assert ids[i] in ids[..i + 1];
      }
    }
    forall id | id in ids[..i + 1] && Live(Later(v, d + pause), id)
      ensures Find(v, id).value in more
    {
      if id in ids[..i] {
        assert Live(Later(v, d), id);
      }
    }
    if found.Some? && forall id :: Live(v, id) ==> Find(v, id).value.id == id {
      assert found.value.id == ids[i];
      assert found.value !in sessions;
    }
  }

  /** What GetUserSessions may answer, d ticks after v. */
  ghost predicate Answers(v: Store, user: string, sessions: seq<Session>, d: nat) {
    && Elements(sessions) <= SessionsListed(v, user)
    && (forall id :: id in Listed(v, user) && Live(Later(v, d), id) ==> Find(v, id).value in sessions)
    && ((forall id :: Live(v, id) ==> Find(v, id).value.id == id) ==> Distinct(sessions))
  }

  lemma CollectedAll(v: Store, user: string, ids: seq<string>, sessions: seq<Session>, d: nat)
    requires Collected(v, ids, sessions, d) && Elements(ids) == Listed(v, user)
    ensures Answers(v, user, sessions, d)
  {
    forall s | s in Elements(sessions)
      ensures s in SessionsListed(v, user)
    {
      var id :| id in ids && Find(v, id) == Some(s);
      assert id in Elements(ids);
    }
    forall id | id in Listed(v, user) && Live(Later(v, d), id)
      ensures Find(v, id).value in sessions
    {
      assert id in Elements(ids);
    }
  }

  /** The entries of the given ids are gone, d ticks later. */
  function Dropped(v: Store, ids: seq<string>, d: nat): Store {
    var u := Later(v, d);
    u.(blobs := u.blobs - KeysOf(Elements(ids)))
  }

  lemma DroppedLater(v: Store, ids: seq<string>, d: nat, pause: nat)
    ensures Later(Dropped(v, ids, d), pause) == Dropped(v, ids, d + pause)
  {
    LaterTwice(v, d, pause);
  }

  lemma LaterPurged(v: Store, user: string, ids: seq<string>, d: nat, pause: nat)
    requires Elements(ids) == Listed(v, user)
    ensures var u := Later(Dropped(v, ids, d), pause);
      Purged(v, user, d + pause) == u.(sets := u.sets - {UserSessionsKey(user)})
  {
    DroppedLater(v, ids, d, pause);
  }

  lemma DroppedOneMore(v: Store, ids: seq<string>, i: nat, d: nat)
    requires i < |ids|
    ensures Dropped(v, ids[..i + 1], d)
         == Dropped(v, ids[..i], d).(blobs := Dropped(v, ids[..i], d).blobs - {SessionKey(ids[i])})
  {
    assert Elements(ids[..i + 1]) == Elements(ids[..i]) + {ids[i]};
    assert KeysOf(Elements(ids[..i + 1])) == KeysOf(Elements(ids[..i])) + {SessionKey(ids[i])};
  }
}
