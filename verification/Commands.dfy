/**
 Redis commands as the single steps of concurrent callers. A log lists commands in the order in
 which the server executed them; between two commands of one caller anybody else may act.
 */
module Commands {
  import opened Common
  import opened Redis

  datatype Command<K(==), V> =
    | Look                              // GET, EXISTS or SMEMBERS
    | Put(key: K, value: V, ttl: int)   // SET, which the server refuses unless ttl is positive
    | Drop(key: K)                      // DEL of a plain value
    | Add(list: K, id: string)          // SADD
    | Remove(list: K, id: string)       // SREM
    | Renew(list: K, ttl: int)          // EXPIRE
    | DropList(list: K)                 // DEL of a set

  function Issued<K, V>(v: View<K, V>, c: Command<K, V>): View<K, V> {
    match c
    case Look => v
    case Put(k, x, ttl) => if ttl <= 0 then v else v.(blobs := v.blobs[k := Item(x, Some(v.now + ttl))])
    case Drop(k) => v.(blobs := v.blobs - {k})
    case Add(l, id) => v.(sets := WithMember(v.sets, l, id))
    case Remove(l, id) => v.(sets := WithoutMember(v.sets, l, id))
    case Renew(l, ttl) => v.(sets := Renewed(v.sets, l, v.now + ttl, v.now))
    case DropList(l) => v.(sets := v.sets - {l})
  }

  /** A client sends one command, `pause` after whatever it did before. */
  method Send<K(==), V>(server: Server<K, V>, pause: nat, c: Command<K, V>)
    modifies server
    ensures server.Seen() == Issued(Later(old(server.Seen()), pause), c)
  {
    server.Tick(pause);
    match c
    case Look =>
    case Put(_, _, _) => SendToBlobs(server, c);
    case Drop(_) => SendToBlobs(server, c);
    case Add(l, id) => server.SAdd(l, id);
    case Remove(l, id) => server.SRem(l, id);
    case Renew(l, ttl) => server.ExpireSet(l, ttl);
    case DropList(l) => server.DelSet(l);
  }

  method SendToBlobs<K(==), V>(server: Server<K, V>, c: Command<K, V>)
    requires c.Put? || c.Drop?
    modifies server`blobs
    ensures server.Seen() == Issued(old(server.Seen()), c)
  {
    if c.Drop? {
      server.Del(c.key);
    } else if c.ttl > 0 {
      server.Set(c.key, c.value, c.ttl);
    }
  }

  /** A command, `wait` after the previous one, issued by the call that began at log position `call`. */
  datatype Entry<K(==), V> = Entry(wait: nat, call: nat, command: Command<K, V>)

  function Blank<K, V>(): View<K, V> { Snapshot(0, map[], map[], map[]) }

  function Played<K, V>(log: seq<Entry<K, V>>): View<K, V> {
    if log == [] then Blank()
    else
      var e := log[|log| - 1];
      Issued(Later(Played(log[..|log| - 1]), e.wait), e.command)
  }

  lemma PlayedSnoc<K, V>(log: seq<Entry<K, V>>, e: Entry<K, V>)
    ensures Played(log + [e]) == Issued(Later(Played(log), e.wait), e.command)
  {
    assert (log + [e])[..|log|] == log;
  }

  /** Nothing in view has expired. */
  ghost predicate Current<K, V>(v: View<K, V>) {
    && (forall k :: k in v.blobs ==> Fresh(v.blobs[k], v.now))
    && (forall k :: k in v.counters ==> Fresh(v.counters[k], v.now))
    && (forall k :: k in v.sets ==> Fresh(v.sets[k], v.now))
  }

  lemma IssuedIsCurrent<K, V>(v: View<K, V>, c: Command<K, V>)
    requires Current(v)
    ensures Current(Issued(v, c))
  {
  }

  lemma LaterIsCurrent<K, V>(v: View<K, V>, d: nat)
    ensures Current(Later(v, d))
  {
  }

  lemma {:induction false} PlayedIsCurrent<K, V>(log: seq<Entry<K, V>>)
    ensures Current(Played(log))
  {
    if log != [] {
      var before, e := Played(log[..|log| - 1]), log[|log| - 1];
      LaterIsCurrent(before, e.wait);
      IssuedIsCurrent(Later(before, e.wait), e.command);
    }
  }

  // ----- Which ids a list holds -----

  /** Whether a command puts an id on a list (Some(true)) or takes it off (Some(false)). */
  function Touches<K, V>(c: Command<K, V>, list: K, id: string): Option<bool> {
    match c
    case Add(l, i) => if l == list && i == id then Some(true) else None
    case Remove(l, i) => if l == list && i == id then Some(false) else None
    case Renew(l, ttl) => if l == list && ttl <= 0 then Some(false) else None
    case DropList(l) => if l == list then Some(false) else None
    case _ => None
  }

  datatype Touch = Touch(added: bool, call: nat)

  /** The last command that put the id on the list or took it off, and who issued it. */
  function LastTouch<K, V>(log: seq<Entry<K, V>>, list: K, id: string): Option<Touch> {
    if log == [] then None
    else
      var e := log[|log| - 1];
      match Touches(e.command, list, id)
      case Some(added) => Some(Touch(added, e.call))
      case None => LastTouch(log[..|log| - 1], list, id)
  }

  lemma LastTouchSnoc<K, V>(log: seq<Entry<K, V>>, e: Entry<K, V>, list: K, id: string)
    ensures LastTouch(log + [e], list, id) == match Touches(e.command, list, id)
      case Some(added) => Some(Touch(added, e.call))
      case None => LastTouch(log, list, id)
  {
    assert (log + [e])[..|log|] == log;
  }

  /** The deadline of the whole list passes within the next d ticks. */
  predicate Lapses<K, V>(v: View<K, V>, d: nat, list: K) {
    list in v.sets && !Fresh(v.sets[list], v.now + d)
  }

  /** The list has not lapsed since the id was last put on it. */
  predicate Unbroken<K, V>(log: seq<Entry<K, V>>, list: K, id: string) {
    log == [] ||
    var before, e := log[..|log| - 1], log[|log| - 1];
    || Touches(e.command, list, id) == Some(true)
    || (Unbroken(before, list, id) && !Lapses(Played(before), e.wait, list))
  }

  /** The last touch put the id on the list, and the list has not lapsed since. */
  predicate Standing<K, V>(log: seq<Entry<K, V>>, list: K, id: string) {
    LastTouch(log, list, id).Some? && LastTouch(log, list, id).value.added && Unbroken(log, list, id)
  }

  lemma TouchDecides<K, V>(v: View<K, V>, c: Command<K, V>, list: K, id: string)
    ensures id in MembersOf(Issued(v, c).sets, list) <==>
      Touches(c, list, id) == Some(true) || (Touches(c, list, id).None? && id in MembersOf(v.sets, list))
  {
  }

  /** At every instant after every log, a list holds exactly the ids that stand. */
  lemma {:induction false} ListedExactly<K, V>(log: seq<Entry<K, V>>, d: nat, list: K, id: string)
    ensures id in MembersOf(Played(log).sets, list) <==> Standing(log, list, id)
    ensures id in MembersOf(Later(Played(log), d).sets, list)
       <==> Standing(log, list, id) && !Lapses(Played(log), d, list)
  {
    if log != [] {
      var before, e := log[..|log| - 1], log[|log| - 1];
      ListedExactly(before, e.wait, list, id);
      TouchDecides(Later(Played(before), e.wait), e.command, list, id);
    }
  }

  // ----- Which values are alive -----

  datatype Report<V> = Report(at: int, value: V, ttl: int)

  /** The value last stored under a key, unless it has been deleted since. */
  function LatestReport<K, V>(log: seq<Entry<K, V>>, key: K): Option<Report<V>> {
    if log == [] then None
    else
      var c := log[|log| - 1].command;
      if c.Put? && c.key == key && c.ttl > 0 then Some(Report(Played(log).now, c.value, c.ttl))
      else if c.Drop? && c.key == key then None
      else LatestReport(log[..|log| - 1], key)
  }

  /** The key is alive exactly while its latest report is younger than the ttl, with that value. */
  predicate AliveFor<K, V(==)>(v: View<K, V>, key: K, r: Option<Report<V>>) {
    && (key in v.blobs <==> r.Some? && v.now < r.value.at + r.value.ttl)
    && (key in v.blobs ==> v.blobs[key] == Item(r.value.value, Some(r.value.at + r.value.ttl)))
  }

  lemma AliveLater<K, V>(v: View<K, V>, d: nat, key: K, r: Option<Report<V>>)
    requires AliveFor(v, key, r)
    ensures AliveFor(Later(v, d), key, r)
  {
  }

  /** At every instant after every log, a key is alive exactly for the ttl of its latest report. */
  lemma {:induction false} AliveExactly<K, V>(log: seq<Entry<K, V>>, d: nat, key: K)
    ensures AliveFor(Played(log), key, LatestReport(log, key))
    ensures AliveFor(Later(Played(log), d), key, LatestReport(log, key))
  {
    if log != [] {
      AliveExactly(log[..|log| - 1], log[|log| - 1].wait, key);
    }
    AliveLater(Played(log), d, key, LatestReport(log, key));
  }
}
