/** What log.c promises its clients, with no log, cache or disk in sight: a
    store of blocks whose updates become durable only in batches taken when
    no operation is half done, and which a crash rolls back to the last batch. */
module TxStore {
  import opened Blocks

  type Tid = nat

  datatype Store = Store(current: map<nat, Block>, durable: map<nat, Block>, active: set<Tid>)

  datatype Event =
    | Stutter
    | Begin(t: Tid)
    | Write(t: Tid, b: nat, v: Block)
    | End(t: Tid)
    | Commit
    | Crash
    | CommitThenCrash

  ghost predicate Allowed(s: Store, e: Event) {
    match e
    case Stutter => true
    case Begin(t) => t !in s.active
    case Write(t, b, _) => t in s.active && b in s.current
    case End(t) => t in s.active
    case Commit => s.active == {}
    case Crash => true
    case CommitThenCrash => s.active == {}
  }

  ghost function After(s: Store, e: Event): (r: Store)
    requires Allowed(s, e)
  {
    match e
    case Stutter => s
    case Begin(t) => s.(active := s.active + {t})
    case Write(_, b, v) => s.(current := s.current[b := v])
    case End(t) => s.(active := s.active - {t})
    case Commit => s.(durable := s.current)
    case Crash => Store(s.durable, s.durable, {})
    case CommitThenCrash => Store(s.current, s.current, {})
  }

  /** A legal history from s to r. */
  ghost predicate History(s: Store, es: seq<Event>, r: Store)
    decreases |es|
  {
    if es == [] then s == r
    else Allowed(s, es[0]) && History(After(s, es[0]), es[1..], r)
  }
}
