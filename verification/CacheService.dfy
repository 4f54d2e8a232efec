/** Key names of the cache service, and when two keys share a name. */
module CacheKeys {
  datatype Key =
    | GpuRecord(gpu: string)
    | JobRecord(job: string)
    | AvailableGpus
    | GpusByModel(model: string)
    | ActiveJobs(user: string)
    | Quota(caller: string, endpoint: string)

  function Name(k: Key): string {
    match k
    case GpuRecord(gpu) => "gpu:availability:" + gpu
    case JobRecord(job) => "job:status:" + job
    case AvailableGpus => "gpus:available"
    case GpusByModel(model) => "gpus:model:" + model
    case ActiveJobs(user) => "user:jobs:active:" + user
    case Quota(caller, endpoint) => "rate_limit:" + caller + ":" + endpoint
  }

  /** What distinguishes a name within its family. */
  lemma Tail(k: Key)
    ensures |Name(k)| >= 11
    ensures k.GpuRecord? ==> |Name(k)| >= 17 && Name(k)[17..] == k.gpu
    ensures k.JobRecord? ==> Name(k)[11..] == k.job
    ensures k.GpusByModel? ==> Name(k)[11..] == k.model
    ensures k.ActiveJobs? ==> |Name(k)| >= 17 && Name(k)[17..] == k.user
    ensures k.Quota? ==> Name(k)[11..] == k.caller + ":" + k.endpoint
  {
  }

  /** Three characters tell the families apart. */
  lemma Family(k: Key)
    ensures |Name(k)| >= 11
    ensures var m := [Name(k)[0], Name(k)[3], Name(k)[5]];
      && (k.GpuRecord? <==> m == ['g', ':', 'v'])
      && (k.JobRecord? <==> m == ['j', ':', 't'])
      && (k.AvailableGpus? <==> m == ['g', 's', 'a'])
      && (k.GpusByModel? <==> m == ['g', 's', 'm'])
      && (k.ActiveJobs? <==> m == ['u', 'r', 'j'])
      && (k.Quota? <==> m == ['r', 'e', 'l'])
  {
  }

  /** Different keys share a name only if they are quotas that spell the same caller and endpoint. */
  lemma NamesApart(a: Key, b: Key)
    ensures Name(a) == Name(b) <==>
      a == b || (a.Quota? && b.Quota? && a.caller + ":" + a.endpoint == b.caller + ":" + b.endpoint)
  {
    Tail(a);
    Tail(b);
    if Name(a) == Name(b) {
      Family(a);
      Family(b);
    } else if a.Quota? && b.Quota? {
      assert Name(a) == "rate_limit:" + (a.caller + ":" + a.endpoint);
      assert Name(b) == "rate_limit:" + (b.caller + ":" + b.endpoint);
    }
  }

  /** A quota shares its name with another caller and endpoint exactly when either has a colon. */
  lemma QuotaIsShared(caller: string, endpoint: string)
    ensures (exists k: Key :: k != Quota(caller, endpoint) && Name(k) == Name(Quota(caller, endpoint)))
       <==> ':' in caller || ':' in endpoint
  {
    var q := Quota(caller, endpoint);
    if ':' in caller {
      var i :| 0 <= i < |caller| && caller[i] == ':';
      var k := Quota(caller[..i], caller[i + 1..] + ":" + endpoint);
      assert caller == caller[..i] + ":" + caller[i + 1..];
      assert k.caller + ":" + k.endpoint == caller + ":" + endpoint;
      NamesApart(k, q);
      assert k != q && Name(k) == Name(q);
    } else if ':' in endpoint {
      var i :| 0 <= i < |endpoint| && endpoint[i] == ':';
      var k := Quota(caller + ":" + endpoint[..i], endpoint[i + 1..]);
      assert endpoint == endpoint[..i] + ":" + endpoint[i + 1..];
      assert k.caller + ":" + k.endpoint == caller + ":" + endpoint;
      NamesApart(k, q);
      assert k != q && Name(k) == Name(q);
    } else {
      forall k: Key | Name(k) == Name(q)
        ensures k == q
      {
        NamesApart(k, q);
        if k != q {
          SplitAtColon(caller, endpoint, k.caller, k.endpoint);
        }
      }
    }
  }

  /** A text with a single colon is split in one way only. */
  lemma SplitAtColon(c1: string, e1: string, c2: string, e2: string)
    requires c1 + ":" + e1 == c2 + ":" + e2 && ':' !in c1 && ':' !in e1
    ensures c1 == c2 && e1 == e2
  {
    var s := c1 + ":" + e1;
    assert s[|c2|] == ':';
    assert forall i :: 0 <= i < |c1| ==> s[i] == c1[i];
    assert forall i :: |c1| < i < |s| ==> s[i] == e1[i - |c1| - 1];
    assert |c1| == |c2|;
    assert s[..|c1|] == c1 && s[..|c2|] == c2;
    assert s[|c1| + 1..] == e1 && s[|c2| + 1..] == e2;
  }
}

/**
 The availability indexes: a list of ids that expires as a whole, beside one record per id that
 expires on its own. Any number of setters run at once, and every Redis command of theirs is a
 step of its own: SET, then SADD and EXPIRE (or SREM) on the index, then the by-model list.
 */
module AvailabilityIndex {
  import opened Common
  import opened Redis
  import opened Commands
  import opened CacheKeys

  const TTL_GPU_AVAILABILITY := 5
  const TTL_JOB_STATUS := 10

  datatype Record =
    | Gpu(provider: string, available: bool, details: string)
    | Job(user: string, status: string, progress: string)

  type Cache = View<Key, Record>
  type CacheLog = seq<Entry<Key, Record>>

  predicate Active(status: string) { status == "running" || status == "queued" }

  /** The index that should list a record, if any. */
  function IndexFor(r: Record): Option<Key> {
    match r
    case Gpu(_, available, _) => if available then Some(AvailableGpus) else None
    case Job(user, status, _) => if Active(status) then Some(ActiveJobs(user)) else None
  }

  function Ttl(r: Record): int { if r.Gpu? then TTL_GPU_AVAILABILITY else TTL_JOB_STATUS }

  function KeyFor(r: Record, id: string): Key { if r.Gpu? then GpuRecord(id) else JobRecord(id) }

  /** The id that a record key was made from. */
  function IdOf(k: Key): string { if k.GpuRecord? then k.gpu else if k.JobRecord? then k.job else "" }

  // ----- The commands of a setter -----

  /** How many commands a setter issues until it is done with the availability index. */
  function IndexSteps(r: Record): nat { if IndexFor(r).Some? then 3 else if r.Gpu? then 2 else 1 }

  function Steps(r: Record): nat { IndexSteps(r) + if r.Gpu? then 2 else 0 }

  function SetterCommand(id: string, r: Record, n: nat): Command<Key, Record>
    requires n < Steps(r)
  {
    if n == 0 then Put(KeyFor(r, id), r, Ttl(r))
    else if n < IndexSteps(r) then
      if IndexFor(r).None? then Remove(AvailableGpus, id)
      else if n == 1 then Add(IndexFor(r).value, id)
      else Renew(IndexFor(r).value, Ttl(r))
    else if n == IndexSteps(r) then Add(GpusByModel(r.provider), id)
    else Renew(GpusByModel(r.provider), Ttl(r))
  }

  // ----- Interleaved setters -----

  /** A setter under way: it began at log position `turn` and has issued `done` commands. */
  datatype Setter = Setter(id: string, record: Record, turn: nat, done: nat)

  /** `latest` remembers which setter stored a record last. */
  datatype State = State(view: Cache, log: CacheLog, running: map<nat, Setter>, latest: map<Key, nat>)

  datatype Event =
    | Set(wait: nat, caller: nat, id: string, record: Record)
    | Next(wait: nat, caller: nat)
    | Invalidate(wait: nat, gpu: string)

  const Start := State(Blank(), [], map[], map[])

  function Waited(s: State, wait: nat): State { s.(view := Later(s.view, wait)) }

  function Executed(s: State, wait: nat, call: nat, c: Command<Key, Record>): State {
    s.(view := Issued(s.view, c), log := s.log + [Entry(wait, call, c)])
  }

  function AfterSet(s: State, wait: nat, caller: nat, id: string, r: Record): State {
    var turn := |s.log|;
    Executed(s, wait, turn, SetterCommand(id, r, 0)).(
      latest := s.latest[KeyFor(r, id) := turn],
      running := if Steps(r) > 1 then s.running[caller := Setter(id, r, turn, 1)] else s.running)
  }

  function Without<T>(m: map<nat, T>, k: nat): map<nat, T> { map i | i in m && i != k :: m[i] }

  function Advanced(s: State, caller: nat): map<nat, Setter>
    requires caller in s.running
  {
    var j := s.running[caller];
    if j.done + 1 < Steps(j.record) then s.running[caller := j.(done := j.done + 1)] else Without(s.running, caller)
  }

  function AfterNext(s: State, wait: nat, caller: nat): State
    requires caller in s.running && s.running[caller].done < Steps(s.running[caller].record)
  {
    var j := s.running[caller];
    Executed(s, wait, j.turn, SetterCommand(j.id, j.record, j.done)).(running := Advanced(s, caller))
  }

  /** A caller has one setter under way at most; an event that does not apply changes nothing. */
  function Step(s: State, e: Event): State {
    match e
    case Set(wait, caller, id, r) =>
      if caller in s.running then s else AfterSet(Waited(s, wait), wait, caller, id, r)
    case Next(wait, caller) =>
      if caller !in s.running || s.running[caller].done >= Steps(s.running[caller].record) then s
      else AfterNext(Waited(s, wait), wait, caller)
    case Invalidate(wait, gpu) => Executed(Waited(s, wait), wait, |s.log|, Drop(GpuRecord(gpu)))
  }

  function Run(events: seq<Event>): State {
    if events == [] then Start else Step(Run(events[..|events| - 1]), events[|events| - 1])
  }

  // ----- The invariant -----

  /** A setter's turn is no later than the latest for its key, and the latest one's record is there. */
  ghost predicate SetterSound(s: State, j: Setter) {
    var k := KeyFor(j.record, j.id);
    && 1 <= j.done < Steps(j.record) && j.turn < |s.log|
    && k in s.latest && j.turn <= s.latest[k]
    && (j.turn == s.latest[k] && k in s.view.blobs ==> s.view.blobs[k].val == j.record)
  }

  ghost predicate SettersSound(s: State) {
    && (forall c :: c in s.running ==> SetterSound(s, s.running[c]))
    && (forall c, d :: c in s.running && d in s.running && c != d ==> s.running[c].turn != s.running[d].turn)
  }

  ghost predicate RecordSound(s: State, k: Key)
    requires k in s.view.blobs
  {
    var item := s.view.blobs[k];
    && k == KeyFor(item.val, IdOf(k)) && k in s.latest && s.latest[k] < |s.log|
    && item.expiry.Some? && s.view.now < item.expiry.value <= s.view.now + Ttl(item.val)
  }

  ghost predicate RecordsSound(s: State) {
    forall k :: k in s.view.blobs ==> RecordSound(s, k)
  }

  /** The setter that stored the record has been to the index. */
  ghost predicate Entered(s: State, k: Key)
    requires k in s.latest
  {
    forall c :: c in s.running && Stored(s.running[c], k, s.latest[k]) ==> s.running[c].done >= 2
  }

  predicate Stored(j: Setter, k: Key, turn: nat) { KeyFor(j.record, j.id) == k && j.turn == turn }

  /** Some setter of this key still owes the index its EXPIRE. */
  ghost predicate Renewing(s: State, k: Key, ix: Key) {
    exists c :: c in s.running && Owes(s.running[c], k, ix)
  }

  predicate Owes(j: Setter, k: Key, ix: Key) {
    KeyFor(j.record, j.id) == k && IndexFor(j.record) == Some(ix) && j.done == 2
  }

  /** A listed record is outlived by its index, unless an EXPIRE is still to come. */
  ghost predicate Covered(s: State, k: Key)
    requires k in s.view.blobs && k in s.latest && s.view.blobs[k].expiry.Some?
  {
    var item := s.view.blobs[k];
    IndexFor(item.val).Some? && Entered(s, k) && IdOf(k) in MembersOf(s.view.sets, IndexFor(item.val).value)
      && !Renewing(s, k, IndexFor(item.val).value) ==>
      var index := s.view.sets[IndexFor(item.val).value];
      index.expiry.Some? && item.expiry.value <= index.expiry.value
  }

  /** An entered record has been listed, and only an earlier setter can have taken it off since. */
  ghost predicate Touched(s: State, k: Key)
    requires k in s.view.blobs && k in s.latest
  {
    var r := s.view.blobs[k].val;
    IndexFor(r).Some? && Entered(s, k) ==>
      var t := LastTouch(s.log, IndexFor(r).value, IdOf(k));
      t.Some? && (!t.value.added ==> t.value.call < s.latest[k])
  }

  ghost predicate Sound(s: State) {
    && SettersSound(s)
    && RecordsSound(s)
    && (forall k :: k in s.view.blobs ==> Covered(s, k))
    && (forall k :: k in s.view.blobs ==> Touched(s, k))
  }

  lemma WaitedIsSound(s: State, wait: nat)
    requires Sound(s)
    ensures Sound(Waited(s, wait))
  {
    var t := Waited(s, wait);
    assert SettersSound(t) by {
      assert forall c :: c in s.running && SetterSound(s, s.running[c]) ==> SetterSound(t, s.running[c]);
    }
    forall k | k in t.view.blobs
      ensures RecordSound(t, k) && Covered(t, k) && Touched(t, k)
    {
      assert RecordSound(s, k) && Covered(s, k) && Touched(s, k);
      assert Entered(t, k) <==> Entered(s, k);
      var r := s.view.blobs[k].val;
      if IndexFor(r).Some? {
        assert Renewing(t, k, IndexFor(r).value) <==> Renewing(s, k, IndexFor(r).value);
      }
    }
  }

  // ----- SET -----

  lemma SetIsSound(s: State, wait: nat, caller: nat, id: string, r: Record)
    requires Sound(s) && caller !in s.running
    ensures Sound(AfterSet(s, wait, caller, id, r))
  {
    var t, key := AfterSet(s, wait, caller, id, r), KeyFor(r, id);
    assert SettersSound(t) by {
      forall c | c in t.running
        ensures SetterSound(t, t.running[c])
      {
        assert c in s.running ==> SetterSound(s, s.running[c]);
      }
    }
    forall k | k in t.view.blobs
      ensures RecordSound(t, k) && Covered(t, k) && Touched(t, k)
    {
      if k == key {
        StoredIsSound(s, wait, caller, id, r);
      } else {
        assert RecordSound(s, k) && Covered(s, k) && Touched(s, k);
        SetSparesOthers(s, wait, caller, id, r, k);
      }
    }
  }

  /** The record just stored has not been to the index yet, if it belongs there. */
  lemma StoredIsSound(s: State, wait: nat, caller: nat, id: string, r: Record)
    requires Sound(s) && caller !in s.running
    ensures var t, k := AfterSet(s, wait, caller, id, r), KeyFor(r, id);
      RecordSound(t, k) && Covered(t, k) && Touched(t, k)
  {
    var t, k := AfterSet(s, wait, caller, id, r), KeyFor(r, id);
    if IndexFor(r).Some? {
      assert Stored(t.running[caller], k, t.latest[k]);
    }
  }

  lemma SetSparesOthers(s: State, wait: nat, caller: nat, id: string, r: Record, k: Key)
    requires SettersSound(s) && caller !in s.running && k in s.view.blobs && k != KeyFor(r, id)
    requires RecordSound(s, k) && Covered(s, k) && Touched(s, k)
    ensures var t := AfterSet(s, wait, caller, id, r);
      RecordSound(t, k) && Covered(t, k) && Touched(t, k)
  {
    var t := AfterSet(s, wait, caller, id, r);
    if Entered(t, k) {
      forall c | c in s.running && Stored(s.running[c], k, s.latest[k])
        ensures s.running[c].done >= 2
      {
        assert t.running[c] == s.running[c];
      }
    }
    var v := s.view.blobs[k].val;
    if IndexFor(v).Some? {
      var ix := IndexFor(v).value;
      LastTouchSnoc(s.log, Entry(wait, |s.log|, SetterCommand(id, r, 0)), ix, IdOf(k));
      if Renewing(s, k, ix) {
        var c :| c in s.running && Owes(s.running[c], k, ix);
        assert t.running[c] == s.running[c];
      }
    }
  }

  // ----- The following commands -----

  lemma NextIsSound(s: State, wait: nat, caller: nat)
    requires Sound(s) && caller in s.running && s.running[caller].done < Steps(s.running[caller].record)
    ensures Sound(AfterNext(s, wait, caller))
  {
    var t, j := AfterNext(s, wait, caller), s.running[caller];
    assert SetterSound(s, j);
    assert t.view.blobs == s.view.blobs;
    assert SettersSound(t) by {
      forall c | c in t.running
        ensures SetterSound(t, t.running[c])
      {
        assert SetterSound(s, s.running[c]);
      }
    }
    forall k | k in t.view.blobs
      ensures RecordSound(t, k) && Covered(t, k) && Touched(t, k)
    {
      assert RecordSound(s, k) && Covered(s, k) && Touched(s, k);
      if IndexFor(s.view.blobs[k].val).Some? {
        NextKeepsCover(s, wait, caller, k);
        NextKeepsTouch(s, wait, caller, k);
      }
    }
  }

  lemma NextKeepsTouch(s: State, wait: nat, caller: nat, k: Key)
    requires SettersSound(s) && caller in s.running && k in s.view.blobs
    requires RecordSound(s, k) && Touched(s, k) && IndexFor(s.view.blobs[k].val).Some?
    requires SetterSound(s, s.running[caller])
    ensures Touched(AfterNext(s, wait, caller), k)
  {
    var t, j := AfterNext(s, wait, caller), s.running[caller];
    var ix, id := IndexFor(s.view.blobs[k].val).value, IdOf(k);
    var c := SetterCommand(j.id, j.record, j.done);
    LastTouchSnoc(s.log, Entry(wait, j.turn, c), ix, id);
    if Entered(t, k) {
      if Touches(c, ix, id).None? {
        EnteredBefore(s, wait, caller, k);
      } else if Touches(c, ix, id) == Some(false) {
        assert KeyFor(j.record, j.id) == k;
        assert j.turn != s.latest[k];
      }
    }
  }

  /** A record enters only by its own setter's SADD. */
  lemma EnteredBefore(s: State, wait: nat, caller: nat, k: Key)
    requires SettersSound(s) && caller in s.running && SetterSound(s, s.running[caller])
    requires k in s.view.blobs && RecordSound(s, k) && IndexFor(s.view.blobs[k].val).Some?
    requires var j := s.running[caller];
      Touches(SetterCommand(j.id, j.record, j.done), IndexFor(s.view.blobs[k].val).value, IdOf(k)) != Some(true)
    requires Entered(AfterNext(s, wait, caller), k)
    ensures Entered(s, k)
  {
    var t := AfterNext(s, wait, caller);
    forall c | c in s.running && Stored(s.running[c], k, s.latest[k])
      ensures s.running[c].done >= 2
    {
      assert SetterSound(s, s.running[c]);
      if c != caller {
        assert t.running[c] == s.running[c];
      }
    }
  }

  lemma NextKeepsCover(s: State, wait: nat, caller: nat, k: Key)
    requires SettersSound(s) && caller in s.running && k in s.view.blobs
    requires RecordSound(s, k) && Covered(s, k) && IndexFor(s.view.blobs[k].val).Some?
    requires SetterSound(s, s.running[caller])
    ensures Covered(AfterNext(s, wait, caller), k)
  {
    var t, j := AfterNext(s, wait, caller), s.running[caller];
    var ix, id := IndexFor(s.view.blobs[k].val).value, IdOf(k);
    var c := SetterCommand(j.id, j.record, j.done);
    assert t.view == Issued(s.view, c) && t.view.blobs == s.view.blobs && t.latest == s.latest;
    if Touches(c, ix, id) == Some(true) {
      assert Owes(t.running[caller], k, ix);
    } else if Entered(t, k) && !Renewing(t, k, ix) && id in MembersOf(t.view.sets, ix) {
      EnteredBefore(s, wait, caller, k);
      if c.Renew? && c.list == ix {
        assert t.view.sets[ix].expiry == Some(s.view.now + Ttl(j.record));
      } else {
        DeadlineKept(s.view, c, ix, id);
        OwedStays(s, wait, caller, k, ix);
      }
    }
  }

  lemma DeadlineKept(v: Cache, c: Command<Key, Record>, ix: Key, id: string)
    requires Touches(c, ix, id) != Some(true) && !(c.Renew? && c.list == ix)
    requires id in MembersOf(Issued(v, c).sets, ix)
    ensures id in MembersOf(v.sets, ix) && Issued(v, c).sets[ix].expiry == v.sets[ix].expiry
  {
  }

  lemma OwedStays(s: State, wait: nat, caller: nat, k: Key, ix: Key)
    requires caller in s.running && s.running[caller].done < Steps(s.running[caller].record)
    requires var j := s.running[caller];
      var c := SetterCommand(j.id, j.record, j.done);
      !(c.Renew? && c.list == ix)
    ensures Renewing(s, k, ix) ==> Renewing(AfterNext(s, wait, caller), k, ix)
  {
    var t := AfterNext(s, wait, caller);
    if Renewing(s, k, ix) {
      var c :| c in s.running && Owes(s.running[c], k, ix);
      assert c != caller && t.running[c] == s.running[c];
    }
  }

  lemma InvalidateIsSound(s: State, wait: nat, gpu: string)
    requires Sound(s)
    ensures Sound(Executed(s, wait, |s.log|, Drop(GpuRecord(gpu))))
  {
    var t := Executed(s, wait, |s.log|, Drop(GpuRecord(gpu)));
    assert SettersSound(t) by {
      assert forall c :: c in s.running && SetterSound(s, s.running[c]) ==> SetterSound(t, s.running[c]);
    }
    forall k | k in t.view.blobs
      ensures RecordSound(t, k) && Covered(t, k) && Touched(t, k)
    {
      assert RecordSound(s, k) && Covered(s, k) && Touched(s, k);
      assert Entered(t, k) <==> Entered(s, k);
      if IndexFor(s.view.blobs[k].val).Some? {
        var ix := IndexFor(s.view.blobs[k].val).value;
        assert Renewing(t, k, ix) <==> Renewing(s, k, ix);
        LastTouchSnoc(s.log, Entry(wait, |s.log|, Drop(GpuRecord(gpu))), ix, IdOf(k));
      }
    }
  }

  lemma StepIsSound(s: State, e: Event)
    requires Sound(s)
    ensures Sound(Step(s, e))
  {
    WaitedIsSound(s, e.wait);
    var u := Waited(s, e.wait);
    match e
    case Set(wait, caller, id, r) =>
      if caller !in s.running {
        SetIsSound(u, wait, caller, id, r);
      }
    case Next(wait, caller) =>
      if caller in s.running && s.running[caller].done < Steps(s.running[caller].record) {
        NextIsSound(u, wait, caller);
      }
    case Invalidate(wait, gpu) => InvalidateIsSound(u, wait, gpu);
  }

  lemma StepPlays(s: State, e: Event)
    requires s.view == Played(s.log)
    ensures Step(s, e).view == Played(Step(s, e).log)
  {
    var t := Step(s, e);
    if |t.log| > |s.log| {
      PlayedSnoc(s.log, t.log[|s.log|]);
    }
  }

  lemma {:induction false} RunIsSound(events: seq<Event>)
    ensures Sound(Run(events)) && Run(events).view == Played(Run(events).log)
  {
    if events != [] {
      RunIsSound(events[..|events| - 1]);
      StepIsSound(Run(events[..|events| - 1]), events[|events| - 1]);
      StepPlays(Run(events[..|events| - 1]), events[|events| - 1]);
    }
  }

  // ----- What the index lists -----

  predicate Indexable(v: Cache, k: Key) { k in v.blobs && IndexFor(v.blobs[k].val).Some? }

  predicate ListedIn(v: Cache, k: Key)
    requires Indexable(v, k)
  {
    IdOf(k) in MembersOf(v.sets, IndexFor(v.blobs[k].val).value)
  }

  /** No setter of this key has a command to the availability index left. */
  ghost predicate Settled(s: State, k: Key) {
    forall c :: c in s.running && KeyFor(s.running[c].record, s.running[c].id) == k ==>
      s.running[c].done >= IndexSteps(s.running[c].record)
  }

  /** The SREM of an earlier setter was the last the index heard of the id. */
  ghost predicate Overtaken(s: State, k: Key)
    requires Indexable(s.view, k) && k in s.latest
  {
    var t := LastTouch(s.log, IndexFor(s.view.blobs[k].val).value, IdOf(k));
    t.Some? && !t.value.added && t.value.call < s.latest[k]
  }

  /** The index has not lapsed since the id was last put on it. */
  ghost predicate Kept(s: State, k: Key)
    requires Indexable(s.view, k)
  {
    Unbroken(s.log, IndexFor(s.view.blobs[k].val).value, IdOf(k))
  }

  /** A live record with no setter in progress is listed exactly if no earlier setter's SREM has
      overtaken its SADD and the index has not lapsed under it. */
  lemma SettledIsListed(events: seq<Event>, d: nat, k: Key)
    requires var s := Run(events); Indexable(Later(s.view, d), k) && Settled(s, k)
    ensures var s := Run(events);
      k in s.latest && (ListedIn(Later(s.view, d), k) <==> !Overtaken(s, k) && Kept(s, k))
  {
    RunIsSound(events);
    var s := Run(events);
    var ix := IndexFor(s.view.blobs[k].val).value;
    assert RecordSound(s, k) && Covered(s, k) && Touched(s, k);
    assert Entered(s, k) && !Renewing(s, k, ix);
    ListedExactly(s.log, d, ix, IdOf(k));
  }

  ghost predicate CompleteAt(s: State, d: nat) {
    forall k :: Indexable(Later(s.view, d), k) && Settled(s, k) ==> ListedIn(Later(s.view, d), k)
  }

  /** After any interleaving, every settled live record is listed from now on exactly if none of
      them was overtaken and the index has not lapsed under any of them. */
  lemma IndexIsComplete(events: seq<Event>)
    ensures var s := Run(events);
      (forall d: nat :: CompleteAt(s, d)) <==>
      forall k :: Indexable(s.view, k) && Settled(s, k) ==> k in s.latest && !Overtaken(s, k) && Kept(s, k)
  {
    RunIsSound(events);
    var s := Run(events);
    if forall k :: Indexable(s.view, k) && Settled(s, k) ==> k in s.latest && !Overtaken(s, k) && Kept(s, k) {
      forall d: nat, k | Indexable(Later(s.view, d), k) && Settled(s, k)
        ensures ListedIn(Later(s.view, d), k)
      {
        assert Indexable(s.view, k);
        SettledIsListed(events, d, k);
      }
    }
    if forall d: nat :: CompleteAt(s, d) {
      assert CompleteAt(s, 0);
      forall k | Indexable(s.view, k) && Settled(s, k)
        ensures k in s.latest && !Overtaken(s, k) && Kept(s, k)
      {
        assert RecordSound(s, k);
        assert Indexable(Later(s.view, 0), k);
        SettledIsListed(events, 0, k);
      }
    }
  }

  // ----- Setters that do not disturb each other -----

  /** No setter begins while another one of its key is at the index, and no time passes between a
      setter's SADD and its EXPIRE. */
  ghost predicate Calm(s: State, e: Event) {
    && (e.Set? ==> Settled(s, KeyFor(e.record, e.id)))
    && (e.wait > 0 ==> forall c :: c in s.running && IndexFor(s.running[c].record).Some? ==> s.running[c].done != 2)
  }

  ghost predicate Undisturbed(events: seq<Event>) {
    events == [] ||
    (Undisturbed(events[..|events| - 1]) && Calm(Run(events[..|events| - 1]), events[|events| - 1]))
  }

  /** Whoever is still at the index stored its record last. */
  ghost predicate LatestAtIndex(s: State) {
    forall c :: c in s.running && s.running[c].done < IndexSteps(s.running[c].record) ==>
      var k := KeyFor(s.running[c].record, s.running[c].id);
      k in s.latest && s.running[c].turn == s.latest[k]
  }

  ghost predicate EnteredIsListed(s: State, k: Key)
    requires k in s.latest
  {
    Indexable(s.view, k) && Entered(s, k) ==> ListedIn(s.view, k)
  }

  ghost predicate AllListed(s: State) {
    forall k :: k in s.view.blobs && k in s.latest ==> EnteredIsListed(s, k)
  }

  lemma WaitingKeepsListing(s: State, wait: nat, k: Key)
    requires Sound(s) && k in s.view.blobs && k in s.latest && EnteredIsListed(s, k) && Current(s.view)
    requires wait > 0 ==> forall c :: c in s.running && IndexFor(s.running[c].record).Some? ==> s.running[c].done != 2
    ensures EnteredIsListed(Waited(s, wait), k)
  {
    assert RecordSound(s, k) && Covered(s, k);
    assert Entered(Waited(s, wait), k) <==> Entered(s, k);
  }

  lemma SettingKeepsListing(s: State, wait: nat, caller: nat, id: string, r: Record, k: Key)
    requires Sound(s) && caller !in s.running && k in s.view.blobs && k in s.latest && EnteredIsListed(s, k)
    requires k != KeyFor(r, id)
    ensures EnteredIsListed(AfterSet(s, wait, caller, id, r), k)
  {
    var t := AfterSet(s, wait, caller, id, r);
    if Entered(t, k) {
      forall c | c in s.running && Stored(s.running[c], k, s.latest[k])
        ensures s.running[c].done >= 2
      {
        assert t.running[c] == s.running[c];
      }
    }
  }

  lemma NextKeepsListing(s: State, wait: nat, caller: nat, k: Key)
    requires Sound(s) && LatestAtIndex(s) && k in s.view.blobs && k in s.latest && EnteredIsListed(s, k)
    requires caller in s.running && s.running[caller].done < Steps(s.running[caller].record)
    ensures EnteredIsListed(AfterNext(s, wait, caller), k)
  {
    var t, j := AfterNext(s, wait, caller), s.running[caller];
    var c := SetterCommand(j.id, j.record, j.done);
    assert RecordSound(s, k) && SetterSound(s, j);
    if Indexable(s.view, k) && Entered(t, k) {
      var ix := IndexFor(s.view.blobs[k].val).value;
      if Touches(c, ix, IdOf(k)) != Some(true) {
        EnteredBefore(s, wait, caller, k);
        assert Touches(c, ix, IdOf(k)) != Some(false);
      }
      TouchDecides(s.view, c, ix, IdOf(k));
    }
  }

  lemma CalmStepKeepsLatest(s: State, e: Event)
    requires SettersSound(s) && LatestAtIndex(s) && Calm(s, e)
    ensures LatestAtIndex(Step(s, e))
  {
    var t := Step(s, e);
    forall c | c in t.running && t.running[c].done < IndexSteps(t.running[c].record)
      ensures var k := KeyFor(t.running[c].record, t.running[c].id);
        k in t.latest && t.running[c].turn == t.latest[k]
    {
      if c in s.running {
        assert SetterSound(s, s.running[c]);
      }
    }
  }

  lemma CalmStepKeepsListing(s: State, e: Event, k: Key)
    requires Sound(s) && Current(s.view) && LatestAtIndex(s) && AllListed(s) && Calm(s, e)
    requires Step(s, e) != s && k in Step(s, e).view.blobs && k in Step(s, e).latest
    ensures EnteredIsListed(Step(s, e), k)
  {
    if e.Set? && KeyFor(e.record, e.id) == k {
      StoringKeepsListing(Waited(s, e.wait), e.wait, e.caller, e.id, e.record);
    } else {
      OldKey(s, e, k);
      WaitedIsSound(s, e.wait);
      WaitingKeepsListing(s, e.wait, k);
      ActingKeepsListing(s, e, k);
    }
  }

  lemma OldKey(s: State, e: Event, k: Key)
    requires SettersSound(s) && RecordsSound(s) && Step(s, e) != s && k in Step(s, e).view.blobs
    requires !(e.Set? && KeyFor(e.record, e.id) == k)
    ensures k in s.view.blobs && k in Waited(s, e.wait).view.blobs && k in s.latest
  {
    OldRecords(s, e, k);
    assert RecordSound(s, k);
    if e.Next? {
      assert SetterSound(s, s.running[e.caller]);
    }
  }

  lemma ActingKeepsListing(s: State, e: Event, k: Key)
    requires var u := Waited(s, e.wait);
      Sound(u) && LatestAtIndex(u) && k in u.view.blobs && k in u.latest && EnteredIsListed(u, k)
    requires Step(s, e) != s && !(e.Set? && KeyFor(e.record, e.id) == k) && k in Step(s, e).view.blobs
    ensures k in Step(s, e).latest && EnteredIsListed(Step(s, e), k)
  {
    var u := Waited(s, e.wait);
    match e
    case Set(wait, caller, id, r) => SettingKeepsListing(u, wait, caller, id, r, k);
    case Next(wait, caller) => NextKeepsListing(u, wait, caller, k);
    case Invalidate(wait, gpu) => InvalidatingKeepsListing(u, wait, gpu, k);
  }

  lemma StoringKeepsListing(s: State, wait: nat, caller: nat, id: string, r: Record)
    ensures EnteredIsListed(AfterSet(s, wait, caller, id, r), KeyFor(r, id))
  {
    var t, k := AfterSet(s, wait, caller, id, r), KeyFor(r, id);
    if IndexFor(r).Some? {
      assert Stored(t.running[caller], k, t.latest[k]);
    }
  }

  lemma InvalidatingKeepsListing(s: State, wait: nat, gpu: string, k: Key)
    requires k in s.view.blobs && k in s.latest && EnteredIsListed(s, k) && k != GpuRecord(gpu)
    ensures EnteredIsListed(Executed(s, wait, |s.log|, Drop(GpuRecord(gpu))), k)
  {
    assert Entered(Executed(s, wait, |s.log|, Drop(GpuRecord(gpu))), k) <==> Entered(s, k);
  }

  lemma CalmStep(s: State, e: Event)
    requires Sound(s) && Current(s.view) && LatestAtIndex(s) && AllListed(s) && Calm(s, e)
    ensures LatestAtIndex(Step(s, e)) && AllListed(Step(s, e))
  {
    CalmStepKeepsLatest(s, e);
    var t := Step(s, e);
    if t != s {
      forall k | k in t.view.blobs && k in t.latest
        ensures EnteredIsListed(t, k)
      {
        CalmStepKeepsListing(s, e, k);
      }
    }
  }

  lemma {:induction false} UndisturbedIsListed(events: seq<Event>)
    requires Undisturbed(events)
    ensures LatestAtIndex(Run(events)) && AllListed(Run(events))
  {
    if events != [] {
      var before := events[..|events| - 1];
      UndisturbedIsListed(before);
      RunIsSound(before);
      PlayedIsCurrent(Run(before).log);
      CalmStep(Run(before), events[|events| - 1]);
    }
  }

  /** Such setters keep the index complete at every instant. */
  lemma UndisturbedIsComplete(events: seq<Event>)
    requires Undisturbed(events)
    ensures forall d: nat :: CompleteAt(Run(events), d)
  {
    UndisturbedIsListed(events);
    RunIsSound(events);
    PlayedIsCurrent(Run(events).log);
    var s := Run(events);
    forall k | Indexable(s.view, k) && Settled(s, k)
      ensures k in s.latest && !Overtaken(s, k) && Kept(s, k)
    {
      assert RecordSound(s, k) && EnteredIsListed(s, k) && Entered(s, k);
      assert Indexable(Later(s.view, 0), k) && ListedIn(Later(s.view, 0), k);
      SettledIsListed(events, 0, k);
    }
    IndexIsComplete(events);
  }

  // ----- Which GPUs are listed, and which of them are alive -----

  /** Records of a GPU are reports about it, stored for five seconds. */
  lemma {:induction false} ReportsOfGpu(events: seq<Event>, gpu: string)
    ensures ReportSound(LatestReport(Run(events).log, GpuRecord(gpu)))
  {
    if events != [] {
      ReportsOfGpu(events[..|events| - 1], gpu);
      StepReports(Run(events[..|events| - 1]), events[|events| - 1], gpu);
    }
  }

  predicate ReportSound(r: Option<Report<Record>>) {
    r.Some? ==> r.value.value.Gpu? && r.value.ttl == TTL_GPU_AVAILABILITY
  }

  lemma StepReports(s: State, e: Event, gpu: string)
    requires ReportSound(LatestReport(s.log, GpuRecord(gpu)))
    ensures ReportSound(LatestReport(Step(s, e).log, GpuRecord(gpu)))
  {
    var t := Step(s, e);
    if |t.log| > |s.log| {
      assert t.log[..|t.log| - 1] == s.log;
    }
  }

  /**
   At every instant of every run, a GPU is listed exactly if a setter put it on the list after the
   last SREM of it and the list has not lapsed since; and its record is alive exactly if the latest
   report is less than five seconds old and no invalidation came after. The two are independent.
   */
  lemma ListedAndAlive(events: seq<Event>, d: nat, gpu: string)
    ensures var s := Run(events);
      var v, report := Later(s.view, d), LatestReport(s.log, GpuRecord(gpu));
      && (gpu in MembersOf(v.sets, AvailableGpus) <==>
            Standing(s.log, AvailableGpus, gpu) && !Lapses(s.view, d, AvailableGpus))
      && (GpuRecord(gpu) in v.blobs <==> report.Some? && v.now - report.value.at < TTL_GPU_AVAILABILITY)
  {
    RunIsSound(events);
    var s := Run(events);
    ListedExactly(s.log, d, AvailableGpus, gpu);
    AliveExactly(s.log, d, GpuRecord(gpu));
    ReportsOfGpu(events, gpu);
  }

  // ----- Runs that go wrong -----

  lemma RunSnoc(events: seq<Event>, e: Event)
    ensures Run(events + [e]) == Step(Run(events), e)
  {
    assert (events + [e])[..|events|] == events;
  }

  const G := Gpu("p", true, "")
  const OFF := Gpu("p", false, "")

  /** Between its SET and its SADD a setter's record is alive and unlisted. */
  lemma UnlistedInside(d: nat)
    requires d < TTL_GPU_AVAILABILITY
    ensures var v := Later(Run([Set(0, 0, "g", G)]).view, d);
      Indexable(v, GpuRecord("g")) && !ListedIn(v, GpuRecord("g"))
  {
    RunSnoc([], Set(0, 0, "g", G));
    assert [] + [Set(0, 0, "g", G)] == [Set(0, 0, "g", G)];
  }

  /** A setter that nobody interrupts, up to its EXPIRE, which may be late. */
  function Listing(wait: nat, caller: nat, id: string, pause: nat): seq<Event> {
    [Set(wait, caller, id, G), Next(0, caller), Next(pause, caller)]
  }

  lemma RunListing(events: seq<Event>, wait: nat, caller: nat, id: string, pause: nat)
    ensures Run(events + Listing(wait, caller, id, pause))
         == Step(Step(Step(Run(events), Set(wait, caller, id, G)), Next(0, caller)), Next(pause, caller))
  {
    var e1 := events + [Set(wait, caller, id, G)];
    var e2 := e1 + [Next(0, caller)];
    RunSnoc(events, Set(wait, caller, id, G));
    RunSnoc(e1, Next(0, caller));
    RunSnoc(e2, Next(pause, caller));
    assert events + Listing(wait, caller, id, pause) == e2 + [Next(pause, caller)];
  }

  /** What such a setter, begun at log position `turn`, leaves of the list and of its own record. */
  ghost predicate HasListed(s: State, t: State, wait: nat, caller: nat, id: string, pause: nat) {
    var u := Later(s.view, wait);
    && t.running == s.running[caller := Setter(id, G, |s.log|, 3)]
    && t.view.now == u.now + pause
    && Indexable(t.view, GpuRecord(id)) && t.view.blobs[GpuRecord(id)].expiry == Some(u.now + 5)
    && (Lapses(u, pause, AvailableGpus) ==> AvailableGpus !in t.view.sets)
    && (!Lapses(u, pause, AvailableGpus) ==>
          && AvailableGpus in t.view.sets
          && t.view.sets[AvailableGpus] == Item(MembersOf(u.sets, AvailableGpus) + {id}, Some(t.view.now + 5)))
  }

  lemma ListingEffect(s: State, wait: nat, caller: nat, id: string, pause: nat)
    requires caller !in s.running && pause < TTL_GPU_AVAILABILITY
    ensures HasListed(s, Step(Step(Step(s, Set(wait, caller, id, G)), Next(0, caller)), Next(pause, caller)),
                      wait, caller, id, pause)
  {
    var s1 := Step(s, Set(wait, caller, id, G));
    var s2 := Step(s1, Next(0, caller));
    SetEffect(s, wait, caller, id);
    AddEffect(s1, caller, id);
    ExpireEffect(s2, caller, id, pause);
    Together(s, s1, s2, Step(s2, Next(pause, caller)), wait, caller, id, pause);
  }

  /** After its SET. */
  ghost predicate HasStored(s: State, t: State, wait: nat, caller: nat, id: string) {
    && t.running == s.running[caller := Setter(id, G, |s.log|, 1)]
    && t.view.now == s.view.now + wait && t.view.sets == Later(s.view, wait).sets
    && GpuRecord(id) in t.view.blobs && t.view.blobs[GpuRecord(id)] == Item(G, Some(t.view.now + 5))
    && (AvailableGpus in t.view.sets ==> Fresh(t.view.sets[AvailableGpus], t.view.now))
  }

  lemma SetEffect(s: State, wait: nat, caller: nat, id: string)
    requires caller !in s.running
    ensures HasStored(s, Step(s, Set(wait, caller, id, G)), wait, caller, id)
  {
  }

  /** After its SADD, which comes at once. */
  ghost predicate HasAdded(s: State, t: State, caller: nat, id: string)
    requires caller in s.running
  {
    && t.running == s.running[caller := s.running[caller].(done := 2)]
    && t.view.now == s.view.now
    && GpuRecord(id) in t.view.blobs && t.view.blobs[GpuRecord(id)] == Item(G, Some(t.view.now + 5))
    && AvailableGpus in t.view.sets
    && t.view.sets[AvailableGpus].val == MembersOf(s.view.sets, AvailableGpus) + {id}
    && t.view.sets[AvailableGpus].expiry
       == if AvailableGpus in s.view.sets then s.view.sets[AvailableGpus].expiry else None
  }

  lemma AddEffect(s: State, caller: nat, id: string)
    requires caller in s.running && s.running[caller].id == id && s.running[caller].record == G
    requires s.running[caller].done == 1
    requires AvailableGpus in s.view.sets ==> Fresh(s.view.sets[AvailableGpus], s.view.now)
    requires GpuRecord(id) in s.view.blobs && s.view.blobs[GpuRecord(id)] == Item(G, Some(s.view.now + 5))
    ensures HasAdded(s, Step(s, Next(0, caller)), caller, id)
  {
  }

  /** After its EXPIRE, `pause` later. */
  ghost predicate HasExpired(s: State, t: State, caller: nat, id: string, pause: nat)
    requires caller in s.running && AvailableGpus in s.view.sets && GpuRecord(id) in s.view.blobs
  {
    && t.running == s.running[caller := s.running[caller].(done := 3)]
    && t.view.now == s.view.now + pause
    && Indexable(t.view, GpuRecord(id)) && t.view.blobs[GpuRecord(id)] == s.view.blobs[GpuRecord(id)]
    && (Lapses(s.view, pause, AvailableGpus) ==> AvailableGpus !in t.view.sets)
    && (!Lapses(s.view, pause, AvailableGpus) ==>
          && AvailableGpus in t.view.sets
          && t.view.sets[AvailableGpus] == Item(s.view.sets[AvailableGpus].val, Some(t.view.now + 5)))
  }

  lemma ExpireEffect(s: State, caller: nat, id: string, pause: nat)
    requires caller in s.running && s.running[caller].record == G && s.running[caller].done == 2
    requires AvailableGpus in s.view.sets && pause < TTL_GPU_AVAILABILITY
    requires GpuRecord(id) in s.view.blobs && s.view.blobs[GpuRecord(id)] == Item(G, Some(s.view.now + 5))
    ensures HasExpired(s, Step(s, Next(pause, caller)), caller, id, pause)
  {
  }

  lemma Together(s: State, s1: State, s2: State, t: State, wait: nat, caller: nat, id: string, pause: nat)
    requires HasStored(s, s1, wait, caller, id) && HasAdded(s1, s2, caller, id)
    requires HasExpired(s2, t, caller, id, pause)
    ensures HasListed(s, t, wait, caller, id, pause)
  {
  }

  lemma ListingRuns(events: seq<Event>, wait: nat, caller: nat, id: string, pause: nat)
    requires caller !in Run(events).running && pause < TTL_GPU_AVAILABILITY
    ensures HasListed(Run(events), Run(events + Listing(wait, caller, id, pause)), wait, caller, id, pause)
  {
    RunListing(events, wait, caller, id, pause);
    ListingEffect(Run(events), wait, caller, id, pause);
  }

  /** If nobody else is at the index for this GPU, such a setter ends with its GPU listed exactly if
      the list did not lapse between SADD and EXPIRE. Its record is alive in any case. */
  lemma LapseLosesGpu(events: seq<Event>, wait: nat, caller: nat, id: string, pause: nat)
    requires caller !in Run(events).running && pause < TTL_GPU_AVAILABILITY
    requires Settled(Run(events), GpuRecord(id))
    ensures var s := Run(events + Listing(wait, caller, id, pause));
      && Indexable(s.view, GpuRecord(id)) && Settled(s, GpuRecord(id))
      && (ListedIn(s.view, GpuRecord(id)) <==> !Lapses(Later(Run(events).view, wait), pause, AvailableGpus))
  {
    ListingRuns(events, wait, caller, id, pause);
    RunIsSound(events + Listing(wait, caller, id, pause));
    ListedUnlessLapsed(Run(events), Run(events + Listing(wait, caller, id, pause)), wait, caller, id, pause);
  }

  lemma ListedUnlessLapsed(s: State, t: State, wait: nat, caller: nat, id: string, pause: nat)
    requires HasListed(s, t, wait, caller, id, pause) && caller !in s.running && Settled(s, GpuRecord(id))
    requires RecordsSound(t)
    ensures Settled(t, GpuRecord(id))
    ensures ListedIn(t.view, GpuRecord(id)) <==> !Lapses(Later(s.view, wait), pause, AvailableGpus)
  {
    assert RecordSound(t, GpuRecord(id));
    forall c | c in t.running && KeyFor(t.running[c].record, t.running[c].id) == GpuRecord(id)
      ensures t.running[c].done >= IndexSteps(t.running[c].record)
    {
      assert c != caller ==> t.running[c] == s.running[c];
    }
  }

  /** A first GPU is reported at time 0. */
  lemma FirstListing(none: seq<Event>) returns (events: seq<Event>)
    requires none == []
    ensures var s := Run(events);
      && s.running.Keys == {0} && Owner(s.running[0], "g") && s.view.now == 0
      && AvailableGpus in s.view.sets && s.view.sets[AvailableGpus] == Item({"g"}, Some(5))
      && GpuRecord("g") in s.view.blobs && s.view.blobs[GpuRecord("g")].expiry == Some(5)
  {
    events := none + Listing(0, 0, "g", 0);
    ListingRuns(none, 0, 0, "g", 0);
    assert MembersOf(Later(Start.view, 0).sets, AvailableGpus) + {"g"} == {"g"};
  }

  predicate Owner(j: Setter, id: string) { j.id == id && j.record == G && j.done == 3 }

  /** It happens: a second GPU, reported at time 4, gets its EXPIRE one second late and is lost. */
  lemma SecondGpuIsLost()
    ensures exists events: seq<Event> :: var s := Run(events);
      Indexable(s.view, GpuRecord("h")) && Settled(s, GpuRecord("h")) && !ListedIn(s.view, GpuRecord("h"))
  {
    var events := FirstListing([]);
    LapseLosesGpu(events, 4, 1, "h", 1);
    var all := events + Listing(4, 1, "h", 1);
    assert !ListedIn(Run(all).view, GpuRecord("h"));
  }

  /** And the other way round: a GPU that has fallen silent stays listed while others renew the list. */
  lemma SilentGpuStaysListed()
    ensures exists events: seq<Event> :: var v := Run(events).view;
      GpuRecord("g") !in Later(v, 2).blobs && "g" in MembersOf(Later(v, 2).sets, AvailableGpus)
  {
    var events := FirstListing([]);
    ListingRuns(events, 4, 1, "h", 0);
    var all := events + Listing(4, 1, "h", 0);
    OldRecord(events, 4, 1, "h", 0, "g");
    assert GpuRecord("g") !in Later(Run(all).view, 2).blobs;
  }

  /** A setter leaves the record of another GPU as it was, unless it expires. */
  lemma OldRecord(events: seq<Event>, wait: nat, caller: nat, id: string, pause: nat, other: string)
    requires other != id
    ensures var s, t := Run(events), Run(events + Listing(wait, caller, id, pause));
      GpuRecord(other) in t.view.blobs ==>
        GpuRecord(other) in s.view.blobs && t.view.blobs[GpuRecord(other)] == s.view.blobs[GpuRecord(other)]
  {
    RunListing(events, wait, caller, id, pause);
    RunIsSound(events);
    OldRecordIn(Run(events), wait, caller, id, pause, GpuRecord(other));
  }

  lemma OldRecordIn(s: State, wait: nat, caller: nat, id: string, pause: nat, k: Key)
    requires Sound(s) && k != GpuRecord(id)
    ensures var t := Step(Step(Step(s, Set(wait, caller, id, G)), Next(0, caller)), Next(pause, caller));
      k in t.view.blobs ==> k in s.view.blobs && t.view.blobs[k] == s.view.blobs[k]
  {
    var s1 := Step(s, Set(wait, caller, id, G));
    var s2 := Step(s1, Next(0, caller));
    StepIsSound(s, Set(wait, caller, id, G));
    StepIsSound(s1, Next(0, caller));
    if k in Step(s2, Next(pause, caller)).view.blobs {
      OldRecords(s2, Next(pause, caller), k);
      OldRecords(s1, Next(0, caller), k);
      OldRecords(s, Set(wait, caller, id, G), k);
    }
  }

  lemma OldRecords(s: State, e: Event, k: Key)
    requires SettersSound(s) && !(e.Set? && k == KeyFor(e.record, e.id)) && k in Step(s, e).view.blobs
    ensures k in s.view.blobs && Step(s, e).view.blobs[k] == s.view.blobs[k]
  {
    if e.Next? && e.caller in s.running {
      assert SetterSound(s, s.running[e.caller]);
    }
  }

  /**
   The SREM of a setter that stored its record before another one did, and that comes after that
   one's SADD, takes the GPU off the list, whatever happened before: the record says available, no
   setter is at the index any more, and the GPU is not listed.
   */
  lemma OlderSetterUnlists(events: seq<Event>, wait: nat, older: nat, k: Key)
    requires var s := Run(events);
      && older in s.running && s.running[older].done == 1 && s.running[older].record == OFF
      && k == GpuRecord(s.running[older].id) && Indexable(Later(s.view, wait), k)
      && forall c :: c in s.running && c != older && KeyFor(s.running[c].record, s.running[c].id) == k ==>
           s.running[c].done >= IndexSteps(s.running[c].record)
    ensures var s := Run(events + [Next(wait, older)]);
      Indexable(s.view, k) && Settled(s, k) && k in s.latest && Overtaken(s, k) && !ListedIn(s.view, k)
  {
    RunSnoc(events, Next(wait, older));
    RunIsSound(events);
    SremUnlists(Run(events), wait, older, k);
  }

  lemma SremUnlists(s: State, wait: nat, older: nat, k: Key)
    requires Sound(s) && older in s.running && s.running[older].done == 1 && s.running[older].record == OFF
    requires k == GpuRecord(s.running[older].id) && Indexable(Later(s.view, wait), k)
    requires forall c :: c in s.running && c != older && KeyFor(s.running[c].record, s.running[c].id) == k ==>
      s.running[c].done >= IndexSteps(s.running[c].record)
    ensures var t := Step(s, Next(wait, older));
      Indexable(t.view, k) && Settled(t, k) && k in t.latest && Overtaken(t, k) && !ListedIn(t.view, k)
  {
    var j := s.running[older];
    var c := Remove(AvailableGpus, j.id);
    assert SetterCommand(j.id, j.record, 1) == c;
    assert SetterSound(s, j) && RecordSound(s, k);
    LastTouchSnoc(s.log, Entry(wait, j.turn, c), AvailableGpus, j.id);
    TouchDecides(Later(s.view, wait), c, AvailableGpus, j.id);
  }

  /** Two overlapping setters of one GPU get there. */
  lemma OverlapUnlists()
    ensures exists events: seq<Event> :: var s := Run(events);
      Indexable(s.view, GpuRecord("g")) && Settled(s, GpuRecord("g")) && !ListedIn(s.view, GpuRecord("g"))
  {
    var first := [Set(0, 0, "g", OFF)];
    RunSnoc([], Set(0, 0, "g", OFF));
    assert [] + first == first;
    OverlapWith(first);
  }

  lemma OverlapWith(first: seq<Event>)
    requires Run(first).running == map[0 := Setter("g", OFF, 0, 1)]
    requires Run(first).view.sets == map[]
    ensures exists events: seq<Event> :: var s := Run(events);
      Indexable(s.view, GpuRecord("g")) && Settled(s, GpuRecord("g")) && !ListedIn(s.view, GpuRecord("g"))
  {
    ListingRuns(first, 0, 1, "g", 0);
    OverlapAfter(first + Listing(0, 1, "g", 0), Run(first));
  }

  lemma OverlapAfter(both: seq<Event>, s: State)
    requires s.running == map[0 := Setter("g", OFF, 0, 1)] && s.view.sets == map[]
    requires HasListed(s, Run(both), 0, 1, "g", 0)
    ensures exists events: seq<Event> :: var t := Run(events);
      Indexable(t.view, GpuRecord("g")) && Settled(t, GpuRecord("g")) && !ListedIn(t.view, GpuRecord("g"))
  {
    OlderSetterUnlists(both, 0, 0, GpuRecord("g"));
    assert !ListedIn(Run(both + [Next(0, 0)]).view, GpuRecord("g"));
  }

  // ----- A setter that nobody interrupts -----

  function Pause(pauses: seq<nat>, i: nat): nat { if i < |pauses| then pauses[i] else 0 }

  /** The cache after the first n commands of a setter; pauses[i] is the time before command i + 1. */
  function Alone(v: Cache, id: string, r: Record, n: nat, pauses: seq<nat>): Cache
    requires n <= Steps(r)
  {
    if n == 0 then v
    else
      var wait := if n == 1 then 0 else Pause(pauses, n - 2);
      Issued(Later(Alone(v, id, r, n - 1, pauses), wait), SetterCommand(id, r, n - 1))
  }

  lemma AloneFirst(v: Cache, id: string, r: Record, pauses: seq<nat>)
    ensures Alone(v, id, r, 1, pauses) == Issued(Later(v, 0), Put(KeyFor(r, id), r, Ttl(r)))
  {
    assert Alone(v, id, r, 0, pauses) == v;
  }

  lemma AloneOneMore(v: Cache, id: string, r: Record, n: nat, pauses: seq<nat>)
    requires 1 <= n < Steps(r)
    ensures Alone(v, id, r, n + 1, pauses)
         == Issued(Later(Alone(v, id, r, n, pauses), Pause(pauses, n - 1)), SetterCommand(id, r, n))
  {
  }

  lemma AloneTwoMore(v: Cache, id: string, r: Record, n: nat, pauses: seq<nat>)
    requires 1 <= n && n + 1 < Steps(r)
    ensures Alone(v, id, r, n + 2, pauses)
         == Issued(Later(Issued(Later(Alone(v, id, r, n, pauses), Pause(pauses, n - 1)), SetterCommand(id, r, n)),
                         Pause(pauses, n)), SetterCommand(id, r, n + 1))
  {
    AloneOneMore(v, id, r, n, pauses);
    AloneOneMore(v, id, r, n + 1, pauses);
  }

  function AloneEvents(caller: nat, id: string, r: Record, n: nat, pauses: seq<nat>): seq<Event> {
    if n == 0 then []
    else if n == 1 then [Set(0, caller, id, r)]
    else AloneEvents(caller, id, r, n - 1, pauses) + [Next(Pause(pauses, n - 2), caller)]
  }

  /** From `before` to `s`, only the first n commands of this setter have been issued. */
  ghost predicate OnlySetter(before: State, s: State, caller: nat, id: string, r: Record, n: nat, pauses: seq<nat>)
    requires n <= Steps(r)
  {
    && s.view == Alone(before.view, id, r, n, pauses)
    && (n < Steps(r) ==> caller in s.running && s.running[caller] == Setter(id, r, |before.log|, n))
  }

  /** What a setter does on its own is what the machine does when nobody else acts in between. */
  lemma {:induction false} AloneIsSteps(
      events: seq<Event>, caller: nat, id: string, r: Record, n: nat, pauses: seq<nat>)
    requires caller !in Run(events).running && 1 <= n <= Steps(r)
    ensures OnlySetter(
      Run(events), Run(events + AloneEvents(caller, id, r, n, pauses)), caller, id, r, n, pauses)
  {
    if n == 1 {
      AloneFirst(Run(events).view, id, r, pauses);
      RunSnoc(events, Set(0, caller, id, r));
    } else {
      AloneIsSteps(events, caller, id, r, n - 1, pauses);
      AloneEventsSnoc(events, caller, id, r, n, pauses);
      var s := Run(events + AloneEvents(caller, id, r, n - 1, pauses));
      OnlyOneMore(Run(events), s, caller, id, r, n, pauses);
    }
  }

  lemma OnlyOneMore(before: State, s: State, caller: nat, id: string, r: Record, n: nat, pauses: seq<nat>)
    requires 2 <= n <= Steps(r) && OnlySetter(before, s, caller, id, r, n - 1, pauses)
    ensures OnlySetter(before, Step(s, Next(Pause(pauses, n - 2), caller)), caller, id, r, n, pauses)
  {
    AloneOneMore(before.view, id, r, n - 1, pauses);
    OneStep(s, Pause(pauses, n - 2), caller);
  }

  lemma AloneEventsSnoc(events: seq<Event>, caller: nat, id: string, r: Record, n: nat, pauses: seq<nat>)
    requires n >= 2
    ensures Run(events + AloneEvents(caller, id, r, n, pauses))
         == Step(Run(events + AloneEvents(caller, id, r, n - 1, pauses)), Next(Pause(pauses, n - 2), caller))
  {
    var before, e := events + AloneEvents(caller, id, r, n - 1, pauses), Next(Pause(pauses, n - 2), caller);
    assert events + AloneEvents(caller, id, r, n, pauses) == before + [e];
    RunSnoc(before, e);
  }

  lemma OneStep(s: State, wait: nat, caller: nat)
    requires caller in s.running && s.running[caller].done < Steps(s.running[caller].record)
    ensures var j, t := s.running[caller], Step(s, Next(wait, caller));
      && t.view == Issued(Later(s.view, wait), SetterCommand(j.id, j.record, j.done))
      && (j.done + 1 < Steps(j.record) ==> t.running == s.running[caller := j.(done := j.done + 1)])
  {
  }

  // ----- What one call comes to -----

  lemma LaterNothing(v: Cache)
    requires Current(v)
    ensures Later(v, 0) == v
  {
  }

  lemma AddedAndRenewed(v: Cache, list: Key, id: string, ttl: int)
    requires Current(v) && ttl > 0
    ensures var t := Issued(Later(Issued(Later(v, 0), Add(list, id)), 0), Renew(list, ttl));
      t == v.(sets := v.sets[list := Item(MembersOf(v.sets, list) + {id}, Some(v.now + ttl))])
  {
    LaterNothing(v);
    LaterNothing(Issued(v, Add(list, id)));
  }

  lemma StoredEffect(v: Cache, id: string, r: Record)
    requires Current(v)
    ensures Alone(v, id, r, 1, []) == v.(blobs := v.blobs[KeyFor(r, id) := Item(r, Some(v.now + Ttl(r)))])
  {
    AloneFirst(v, id, r, []);
    LaterNothing(v);
  }

  lemma IndexedEffect(v: Cache, one: Cache, id: string, r: Record, list: Key)
    requires Current(one) && one == Alone(v, id, r, 1, []) && IndexFor(r) == Some(list)
    ensures Alone(v, id, r, IndexSteps(r), [])
         == one.(sets := one.sets[list := Item(MembersOf(one.sets, list) + {id}, Some(one.now + Ttl(r)))])
  {
    AloneTwoMore(v, id, r, 1, []);
    AddedAndRenewed(one, list, id, Ttl(r));
  }

  lemma UnlistedEffect(v: Cache, one: Cache, gpu: string, r: Record)
    requires Current(one) && one == Alone(v, gpu, r, 1, []) && r.Gpu? && !r.available
    ensures Alone(v, gpu, r, IndexSteps(r), []) == one.(sets := WithoutMember(one.sets, AvailableGpus, gpu))
  {
    AloneOneMore(v, gpu, r, 1, []);
    LaterNothing(one);
  }

  lemma ByModelCommands(gpu: string, r: Record, n: nat)
    requires r.Gpu? && n == IndexSteps(r)
    ensures Steps(r) == n + 2
    ensures SetterCommand(gpu, r, n) == Add(GpusByModel(r.provider), gpu)
    ensures SetterCommand(gpu, r, n + 1) == Renew(GpusByModel(r.provider), 5)
  {
  }

  lemma ByModelEffect(v: Cache, listed: Cache, gpu: string, r: Record, n: nat)
    requires r.Gpu? && n == IndexSteps(r) && Current(listed) && listed == Alone(v, gpu, r, n, [])
    ensures var list := GpusByModel(r.provider);
      Alone(v, gpu, r, Steps(r), [])
         == listed.(sets := listed.sets[list := Item(MembersOf(listed.sets, list) + {gpu}, Some(listed.now + 5))])
  {
    ByModelCommands(gpu, r, n);
    AloneTwoMore(v, gpu, r, n, []);
    AddedAndRenewed(listed, GpusByModel(r.provider), gpu, 5);
  }

  lemma Unlisting(v: Cache, list: Key, id: string, other: Key, item: Item<set<string>>)
    requires list != other
    ensures var t := WithoutMember(v.sets, list, id)[other := item];
      && MembersOf(t, list) == MembersOf(v.sets, list) - {id}
      && MembersOf(WithoutMember(v.sets, list, id), other) == MembersOf(v.sets, other)
      && (list in t ==> list in v.sets && t[list].expiry == v.sets[list].expiry)
      && t - {list} == v.sets[other := item] - {list}
  {
  }

  /**
   SetGPUAvailability, if nobody and no time intervenes. The record is stored for five seconds, and the
   GPU joins its provider's list in any case. An available GPU joins the list of available GPUs; a list
   that is joined lives for five seconds. No other record or list changes: a GPU is not taken off the
   list of an earlier provider.
   */
  lemma AvailableEffect(v: Cache, gpu: string, r: Record)
    requires Current(v) && r.Gpu? && r.available
    ensures var list := GpusByModel(r.provider);
      Alone(v, gpu, r, Steps(r), []) == v.(
        blobs := v.blobs[GpuRecord(gpu) := Item(r, Some(v.now + 5))],
        sets := v.sets[AvailableGpus := Item(MembersOf(v.sets, AvailableGpus) + {gpu}, Some(v.now + 5))]
                      [list := Item(MembersOf(v.sets, list) + {gpu}, Some(v.now + 5))])
  {
    StoredEffect(v, gpu, r);
    var one := Alone(v, gpu, r, 1, []);
    IndexedEffect(v, one, gpu, r, AvailableGpus);
    ListedThenByModel(v, one, Alone(v, gpu, r, IndexSteps(r), []), gpu, r, IndexSteps(r));
  }

  lemma ListedThenByModel(v: Cache, one: Cache, listed: Cache, gpu: string, r: Record, n: nat)
    requires r.Gpu? && n == IndexSteps(r) && Current(one) && listed == Alone(v, gpu, r, n, [])
    requires listed ==
      one.(sets := one.sets[AvailableGpus := Item(MembersOf(one.sets, AvailableGpus) + {gpu}, Some(one.now + 5))])
    ensures var list := GpusByModel(r.provider);
      Alone(v, gpu, r, Steps(r), []) == one.(
        sets := one.sets[AvailableGpus := Item(MembersOf(one.sets, AvailableGpus) + {gpu}, Some(one.now + 5))]
                        [list := Item(MembersOf(one.sets, list) + {gpu}, Some(one.now + 5))])
  {
    ByModelEffect(v, listed, gpu, r, n);
  }

  /** And an unavailable one leaves the list of available GPUs, whose deadline stays. */
  lemma UnavailableEffect(v: Cache, gpu: string, r: Record)
    requires Current(v) && r.Gpu? && !r.available
    ensures var t := Alone(v, gpu, r, Steps(r), []);
      && t.now == v.now && t.counters == v.counters
      && t.blobs == v.blobs[GpuRecord(gpu) := Item(r, Some(v.now + 5))]
      && MembersOf(t.sets, AvailableGpus) == MembersOf(v.sets, AvailableGpus) - {gpu}
      && (AvailableGpus in t.sets ==>
            AvailableGpus in v.sets && t.sets[AvailableGpus].expiry == v.sets[AvailableGpus].expiry)
      && t.sets - {AvailableGpus}
           == v.sets[GpusByModel(r.provider) :=
                       Item(MembersOf(v.sets, GpusByModel(r.provider)) + {gpu}, Some(v.now + 5))] - {AvailableGpus}
  {
    StoredEffect(v, gpu, r);
    UnlistedEffect(v, Alone(v, gpu, r, 1, []), gpu, r);
    var list := GpusByModel(r.provider);
    Unlisting(v, AvailableGpus, gpu, list, Item(MembersOf(v.sets, list) + {gpu}, Some(v.now + 5)));
    ByModelEffect(v, Alone(v, gpu, r, IndexSteps(r), []), gpu, r, IndexSteps(r));
  }

  /**
   SetJobStatus, likewise: the record is stored for ten seconds, and a job that is running or queued,
   and no other, joins its user's list, which then lives for ten seconds. Nothing else changes: a job
   that has ended stays on the list.
   */
  lemma JobEffect(v: Cache, job: string, r: Record)
    requires Current(v) && r.Job?
    ensures var t := Alone(v, job, r, Steps(r), []);
      && t.now == v.now && t.counters == v.counters
      && t.blobs == v.blobs[JobRecord(job) := Item(r, Some(v.now + 10))]
      && t.sets ==
           if r.status == "running" || r.status == "queued"
           then v.sets[ActiveJobs(r.user) := Item(MembersOf(v.sets, ActiveJobs(r.user)) + {job}, Some(v.now + 10))]
           else v.sets
  {
    StoredEffect(v, job, r);
    if r.status == "running" || r.status == "queued" {
      IndexedEffect(v, Alone(v, job, r, 1, []), job, r, ActiveJobs(r.user));
    }
  }
}

/** The check-then-increment limiter, whose deadline every granted call renews. */
module RefreshingQuota {
  import opened Common
  import opened Redis

  const TTL_RATE_LIMIT := 60

  function Settled(cell: Option<Item<int>>, now: int): Option<Item<int>> {
    if cell.Some? && Fresh(cell.value, now) then cell else None
  }

  function Count(cell: Option<Item<int>>): int { if cell.None? then 0 else cell.value.val }

  /** The pipeline: INCR, then EXPIRE. */
  function Spent(cell: Option<Item<int>>, now: int): Option<Item<int>> {
    Some(Item(Count(cell) + 1, Some(now + TTL_RATE_LIMIT)))
  }

  // ----- N callers at once -----

  datatype Event = Read(wait: nat, caller: nat) | Write(wait: nat, caller: nat)

  /** `cleared` are the callers that have read a count below the limit and not written yet. */
  datatype State = State(clock: int, cell: Option<Item<int>>, cleared: set<nat>)

  const Start := State(0, None, {})

  function Step(s: State, e: Event, limit: int, n: nat): State {
    var now := s.clock + e.wait;
    var cell := Settled(s.cell, now);
    match e
    case Read(_, c) =>
      if c < n && Count(cell) < limit then State(now, cell, s.cleared + {c}) else State(now, cell, s.cleared)
    case Write(_, c) =>
      if c in s.cleared then State(now, Spent(cell, now), s.cleared - {c}) else State(now, cell, s.cleared)
  }

  function Run(events: seq<Event>, limit: int, n: nat): State {
    if events == [] then Start else Step(Run(events[..|events| - 1], limit, n), events[|events| - 1], limit, n)
  }

  lemma {:induction false} BoundedSet(s: set<nat>, n: nat)
    requires forall c :: c in s ==> c < n
    ensures |s| <= n
  {
    if n > 0 {
      BoundedSet(s - {n - 1}, n - 1);
      assert |s| <= |s - {n - 1}| + 1 by {
        if n - 1 in s { assert s == (s - {n - 1}) + {n - 1}; } else { assert s == s - {n - 1}; }
      }
    } else {
      assert s == {};
    }
  }

  ghost predicate Bounded(s: State, limit: int, n: nat) {
    && (forall c :: c in s.cleared ==> c < n)
    && 0 <= Count(s.cell)
    && (Count(s.cell) + |s.cleared| <= limit + n - 1 || (Count(s.cell) == 0 && s.cleared == {}))
  }

  /** In every interleaving, the counter overshoots the limit by at most n - 1. */
  lemma {:induction false} OvershootBound(events: seq<Event>, limit: int, n: nat)
    requires 1 <= limit
    ensures Count(Run(events, limit, n).cell) <= Max(0, limit + n - 1)
    ensures Bounded(Run(events, limit, n), limit, n)
  {
    if events != [] {
      var before := events[..|events| - 1];
      OvershootBound(before, limit, n);
      StepIsBounded(Run(before, limit, n), events[|events| - 1], limit, n);
    }
  }

  lemma StepIsBounded(s: State, e: Event, limit: int, n: nat)
    requires 1 <= limit && Bounded(s, limit, n)
    ensures Bounded(Step(s, e, limit, n), limit, n)
  {
    BoundedSet(s.cleared, n);
    BoundedSet(Step(s, e, limit, n).cleared, n);
  }

  // ----- The overshoot is reached -----

  function Reads(n: nat): seq<Event> { seq(n, c requires 0 <= c => Read(0, c)) }
  function Writes(n: nat): seq<Event> { seq(n, c requires 0 <= c => Write(0, c)) }
  function Upto(n: nat): (r: set<nat>)
    ensures forall c: nat :: c in r <==> c < n
  {
    if n == 0 then {} else Upto(n - 1) + {n - 1}
  }

  /** limit - 1 calls one after the other, then n callers that all read before any writes. */
  function Stampede(limit: int, n: nat): seq<Event>
    requires 1 <= limit
  {
    Serially(limit - 1) + Reads(n) + Writes(n)
  }

  function Serially(k: nat): seq<Event> {
    if k == 0 then [] else Serially(k - 1) + [Read(0, 0), Write(0, 0)]
  }

  lemma RunSnoc(events: seq<Event>, e: Event, limit: int, n: nat)
    ensures Run(events + [e], limit, n) == Step(Run(events, limit, n), e, limit, n)
  {
    assert (events + [e])[..|events|] == events;
  }

  ghost predicate Quiet(s: State, count: int) {
    && s.clock == 0 && s.cleared == {} && Count(s.cell) == count
    && (s.cell.Some? ==> s.cell.value.expiry == Some(TTL_RATE_LIMIT))
  }

  lemma {:induction false} SeriallyCounts(k: nat, limit: int, n: nat)
    requires k <= limit && 1 <= n
    ensures Quiet(Run(Serially(k), limit, n), k)
  {
    if k > 0 {
      SeriallyCounts(k - 1, limit, n);
      RunSnoc(Serially(k - 1), Read(0, 0), limit, n);
      RunSnoc(Serially(k - 1) + [Read(0, 0)], Write(0, 0), limit, n);
      assert Serially(k) == Serially(k - 1) + [Read(0, 0)] + [Write(0, 0)];
    }
  }

  lemma {:induction false} ReadsClear(events: seq<Event>, k: nat, limit: int, n: nat)
    requires k <= n && Quiet(Run(events, limit, n), limit - 1)
    ensures Run(events + Reads(k), limit, n) == Run(events, limit, n).(cleared := Upto(k))
  {
    if k == 0 {
      assert events + Reads(0) == events;
    } else {
      ReadsClear(events, k - 1, limit, n);
      RunSnoc(events + Reads(k - 1), Read(0, k - 1), limit, n);
      assert events + Reads(k) == events + Reads(k - 1) + [Read(0, k - 1)];
      assert Upto(k) == Upto(k - 1) + {k - 1};
    }
  }

  /** The cleared callers up to k have written, the others have not. */
  ghost predicate Written(s: State, k: nat, count: int, n: nat) {
    s.clock == 0 && s.cleared == Upto(n) - Upto(k) && Quiet(s.(cleared := {}), count)
  }

  lemma {:induction false} WritesCount(events: seq<Event>, k: nat, count: int, limit: int, n: nat)
    requires k <= n && Written(Run(events, limit, n), 0, count, n)
    ensures Written(Run(events + Writes(k), limit, n), k, count + k, n)
  {
    if k == 0 {
      assert events + Writes(0) == events;
    } else {
      WritesCount(events, k - 1, count, limit, n);
      var before := events + Writes(k - 1);
      WriteCounts(Run(before, limit, n), k - 1, count + k - 1, limit, n);
      assert events + Writes(k) == before + [Write(0, k - 1)];
      RunSnoc(before, Write(0, k - 1), limit, n);
    }
  }

  lemma WriteCounts(s: State, k: nat, count: int, limit: int, n: nat)
    requires k < n && Written(s, k, count, n)
    ensures Written(Step(s, Write(0, k), limit, n), k + 1, count + 1, n)
  {
    assert k in s.cleared;
    assert Upto(n) - Upto(k + 1) == Upto(n) - Upto(k) - {k};
  }

  lemma OvershootIsReached(limit: int, n: nat)
    requires 1 <= limit && 1 <= n
    ensures Count(Run(Stampede(limit, n), limit, n).cell) == limit + n - 1
  {
    SeriallyCounts(limit - 1, limit, n);
    ReadsClear(Serially(limit - 1), n, limit, n);
    WritesCount(Serially(limit - 1) + Reads(n), n, limit - 1, limit, n);
  }

  // ----- One caller at a time -----

  /** A call reads after `wait` and, if cleared, writes `think` later. */
  datatype Call = Call(wait: nat, think: nat)

  datatype Serial = Serial(clock: int, cell: Option<Item<int>>, grants: seq<int>)

  /** The counter after one call of CheckRateLimit, and whether it was granted. */
  function Checked(cell: Option<Item<int>>, now: int, think: nat, limit: int): (Option<Item<int>>, bool) {
    var current := Settled(cell, now);
    if Count(current) >= limit then (current, false)
    else (Spent(Settled(current, now + think), now + think), true)
  }

  /** A call is granted exactly if the count it reads, 0 if the counter has expired, is below the limit.
      It then counts one up from what is there when it writes, and the counter lives for another minute. */
  lemma CheckEffect(cell: Option<Item<int>>, now: int, think: nat, limit: int)
    requires cell.Some? ==> cell.value.expiry.Some?
    ensures var (after, granted) := Checked(cell, now, think, limit);
      var count := if cell.Some? && now < cell.value.expiry.value then cell.value.val else 0;
      var write := now + think;
      var base := if cell.Some? && write < cell.value.expiry.value then cell.value.val else 0;
      && (granted <==> count < limit)
      && (granted ==> after == Some(Item(base + 1, Some(write + 60))))
      && (!granted ==> after == if cell.Some? && now < cell.value.expiry.value then cell else None)
  {
  }

  /** One call is its Read and, if that cleared it, its Write, whatever other callers are doing. */
  lemma CallIsTwoEvents(s: State, caller: nat, wait: nat, think: nat, limit: int, n: nat)
    requires caller < n && caller !in s.cleared
    ensures var r := Step(s, Read(wait, caller), limit, n);
      var t := Step(r, Write(think, caller), limit, n);
      var (cell, granted) := Checked(s.cell, s.clock + wait, think, limit);
      && (granted <==> caller in r.cleared)
      && (if granted then t.cell == cell && t.cleared == s.cleared else r.cell == cell && r.cleared == s.cleared)
  {
  }

  function SerialStep(s: Serial, c: Call, limit: int): Serial {
    var now := s.clock + c.wait;
    var (cell, granted) := Checked(s.cell, now, c.think, limit);
    if granted then Serial(now + c.think, cell, s.grants + [now + c.think]) else Serial(now, cell, s.grants)
  }

  function SerialRun(calls: seq<Call>, limit: int): Serial {
    if calls == [] then Serial(0, None, [])
    else SerialStep(SerialRun(calls[..|calls| - 1], limit), calls[|calls| - 1], limit)
  }

  function GrantsBetween(grants: seq<int>, from: int, to: int): nat {
    if grants == [] then 0
    else
      var g := grants[|grants| - 1];
      GrantsBetween(grants[..|grants| - 1], from, to) + (if from <= g < to then 1 else 0)
  }

  ghost predicate Charged(s: Serial, limit: int, from: int) {
    var k := GrantsBetween(s.grants, from, from + TTL_RATE_LIMIT);
    && Count(s.cell) <= Max(limit, 0)
    && 0 <= Count(s.cell)
    && k <= Max(limit, 0)
    && (s.grants == [] ==> s.cell.None? && k == 0)
    && (s.grants != [] ==>
          var last := s.grants[|s.grants| - 1];
          && last <= s.clock
          && (last < from ==> k == 0)
          && (s.cell.Some? ==> s.cell.value.expiry == Some(last + TTL_RATE_LIMIT))
          && (s.cell.None? ==> last + TTL_RATE_LIMIT <= s.clock)
          && (s.cell.Some? && from <= last < from + TTL_RATE_LIMIT ==> k <= Count(s.cell)))
  }

  lemma {:induction false} SerialIsCharged(calls: seq<Call>, limit: int, from: int)
    ensures Charged(SerialRun(calls, limit), limit, from)
  {
    if calls != [] {
      var before := calls[..|calls| - 1];
      SerialIsCharged(before, limit, from);
      var s, t := SerialRun(before, limit), SerialRun(calls, limit);
      if t.grants != s.grants {
        assert t.grants[..|t.grants| - 1] == s.grants;
      }
    }
  }

  /** Called serially, at most `limit` calls are granted in any interval of 60 seconds. */
  lemma SerialBound(calls: seq<Call>, limit: int, from: int)
    ensures GrantsBetween(SerialRun(calls, limit).grants, from, from + TTL_RATE_LIMIT) <= Max(limit, 0)
  {
    SerialIsCharged(calls, limit, from);
  }
}

/** The service itself: every method issues its Redis commands one by one. */
module CacheService {
  import opened Common
  import opened Redis
  import opened CacheKeys
  import opened Commands
  import Index = AvailabilityIndex
  import Rate = RefreshingQuota

  function Cell(counters: Space<Key, int>, key: Key): Option<Item<int>> {
    if key in counters then Some(counters[key]) else None
  }

  class RedisCacheService {
    const server: Server<Key, Index.Record>

    constructor (server: Server<Key, Index.Record>)
      ensures this.server == server
    {
      this.server := server;
    }

    /** pauses[i] is the time that passes before command i + 1. */
    method SetGPUAvailability(gpu: string, data: Index.Record, pauses: seq<nat>)
      requires data.Gpu?
      modifies server
      ensures server.Seen() == Index.Alone(old(server.Seen()), gpu, data, Index.Steps(data), pauses)
    {
      ghost var v := server.Seen();
      Send(server, 0, Put(GpuRecord(gpu), data, Index.TTL_GPU_AVAILABILITY));
      Index.AloneFirst(v, gpu, data, pauses);
      var n := 1;
      if data.available {
        Send(server, Index.Pause(pauses, 0), Add(AvailableGpus, gpu));
        Send(server, Index.Pause(pauses, 1), Renew(AvailableGpus, Index.TTL_GPU_AVAILABILITY));
        Index.AloneTwoMore(v, gpu, data, 1, pauses);
        n := 3;
      } else {
        Send(server, Index.Pause(pauses, 0), Remove(AvailableGpus, gpu));
        Index.AloneOneMore(v, gpu, data, 1, pauses);
        n := 2;
      }
      // The by-model index is keyed by the provider for now.
      var modelKey := GpusByModel(data.provider);
      Send(server, Index.Pause(pauses, n - 1), Add(modelKey, gpu));
      Send(server, Index.Pause(pauses, n), Renew(modelKey, Index.TTL_GPU_AVAILABILITY));
      Index.AloneTwoMore(v, gpu, data, n, pauses);
    }

    method GetAvailableGPUs() returns (ids: seq<string>)
      ensures Distinct(ids) && Elements(ids) == MembersOf(server.Sets(), AvailableGpus)
    {
      ids := server.SMembers(AvailableGpus);
    }

    method InvalidateGPUCache(gpu: string)
      modifies server
      ensures server.Seen() == old(server.Seen()).(blobs := old(server.Seen()).blobs - {GpuRecord(gpu)})
    {
      server.Del(GpuRecord(gpu));
    }

    method SetJobStatus(job: string, status: Index.Record, pauses: seq<nat>)
      requires status.Job?
      modifies server
      ensures server.Seen() == Index.Alone(old(server.Seen()), job, status, Index.Steps(status), pauses)
    {
      ghost var v := server.Seen();
      Send(server, 0, Put(JobRecord(job), status, Index.TTL_JOB_STATUS));
      Index.AloneFirst(v, job, status, pauses);
      if status.status == "running" || status.status == "queued" {
        var userJobsKey := ActiveJobs(status.user);
        Send(server, Index.Pause(pauses, 0), Add(userJobsKey, job));
        Send(server, Index.Pause(pauses, 1), Renew(userJobsKey, Index.TTL_JOB_STATUS));
        Index.AloneTwoMore(v, job, status, 1, pauses);
      }
    }

    /** The read of CheckRateLimit: other callers may act between it and the pipeline. */
    method ReadQuota(user: string, endpoint: string, limit: int) returns (cleared: bool, current: int)
      ensures current == Rate.Count(Cell(server.Counters(), Quota(user, endpoint)))
      ensures cleared <==> current < limit
    {
      var got := server.GetInt(Quota(user, endpoint));
      current := if got.None? then 0 else got.value;
      cleared := !(current >= limit);
    }

    /** Its pipeline. */
    method SpendQuota(user: string, endpoint: string)
      modifies server
      ensures server.now == old(server.now)
      ensures Cell(server.Counters(), Quota(user, endpoint))
           == Rate.Spent(old(Cell(server.Counters(), Quota(user, endpoint))), server.now)
      ensures forall k :: k != Quota(user, endpoint) ==> Cell(server.Counters(), k) == old(Cell(server.Counters(), k))
    {
      var _ := server.Incr(Quota(user, endpoint));
      server.ExpireCounter(Quota(user, endpoint), Rate.TTL_RATE_LIMIT);
    }

    /** The whole call, if no other caller acts; `think` is the time between the read and the pipeline. */
    method CheckRateLimit(user: string, endpoint: string, limit: int, think: nat) returns (ok: bool, count: int)
      modifies server
      ensures (Cell(server.Counters(), Quota(user, endpoint)), ok)
           == Rate.Checked(old(Cell(server.Counters(), Quota(user, endpoint))), old(server.now), think, limit)
      ensures count == Rate.Count(old(Cell(server.Counters(), Quota(user, endpoint)))) + if ok then 1 else 0
      ensures server.now == old(server.now) + if ok then think else 0
      ensures forall k :: k != Quota(user, endpoint) ==>
        Cell(server.Counters(), k) == Rate.Settled(old(Cell(server.Counters(), k)), server.now)
    {
      var cleared, current := ReadQuota(user, endpoint, limit);
      if !cleared {
        return false, current;
      }
      server.Tick(think);
      SpendQuota(user, endpoint);
      return true, current + 1;
    }
  }
}
