/** internal/cache: the in-memory OCR result cache. The clock is a parameter; texts stand for their
    SHA-256 keys. */
module Cache {
  import opened Extract
  import opened Jev

  datatype Entry = Entry(
    text: string, confidence: real, parsed: Result, judgment: Judgment,
    assistUsed: bool, assistNotes: string, assistModel: string, createdAt: int)

  datatype Options = Options(ttl: int, enabled: bool)

  // What the cache holds and has counted.
  datatype Shelf = Shelf(entries: map<string, Entry>, hits: nat, misses: nat)

  datatype Stats = Stats(entries: nat, hits: nat, misses: nat)

  const EMPTY := Shelf(map[], 0, 0)

  predicate Expired(o: Options, e: Entry, now: int) {
    o.ttl > 0 && now - e.createdAt > o.ttl
  }

  predicate Fresh(o: Options, sh: Shelf, text: string, now: int) {
    text in sh.entries && !Expired(o, sh.entries[text], now)
  }

  function Found(o: Options, sh: Shelf, text: string, now: int): Option<Entry> {
    if o.enabled && Fresh(o, sh, text, now) then Some(sh.entries[text]) else None
  }

  function AfterGet(o: Options, sh: Shelf, text: string, now: int): Shelf {
    if !o.enabled then sh
    else if Fresh(o, sh, text, now) then sh.(hits := sh.hits + 1)
    else sh.(entries := sh.entries - {text}, misses := sh.misses + 1)
  }

  function AfterSet(o: Options, sh: Shelf, text: string, e: Entry, now: int): Shelf {
    if o.enabled then sh.(entries := sh.entries[text := e.(createdAt := now)]) else sh
  }

  class MemoryCache {
    const options: Options
    var entries: map<string, Entry>
    var hits: nat
    var misses: nat

    ghost function Contents(): Shelf
      reads this
    {
      Shelf(entries, hits, misses)
    }

    constructor (ttl: int, enabled: bool)
      ensures options == Options(ttl, enabled) && Contents() == EMPTY
    {
      options := Options(ttl, enabled);
      entries, hits, misses := map[], 0, 0;
    }

    method Get(text: string, now: int) returns (e: Option<Entry>)
      modifies this
      ensures e == Found(options, old(Contents()), text, now)
      ensures Contents() == AfterGet(options, old(Contents()), text, now)
    {
      if !options.enabled {
        return None;
      }
      if text !in entries {
        misses := misses + 1;
        assert entries - {text} == entries;
        return None;
      }
      var entry := entries[text];
      if options.ttl > 0 && now - entry.createdAt > options.ttl {
        entries := entries - {text};
        misses := misses + 1;
        return None;
      }
      hits := hits + 1;
      return Some(entry);
    }

    method Set(text: string, e: Entry, now: int)
      modifies this
      ensures Contents() == AfterSet(options, old(Contents()), text, e, now)
    {
      if !options.enabled {
        return;
      }
      entries := entries[text := e.(createdAt := now)];
    }

    method GetStats() returns (stats: Stats)
      ensures stats ==
        if options.enabled then Stats(|Contents().entries|, Contents().hits, Contents().misses) else Stats(0, 0, 0)
    {
      if !options.enabled {
        return Stats(0, 0, 0);
      }
      stats := Stats(|entries|, hits, misses);
    }
  }

  // Whole runs.

  datatype Op = Get(text: string, now: int) | Set(text: string, entry: Entry, now: int)

  function After(o: Options, run: seq<Op>): Shelf {
    if run == [] then EMPTY
    else
      match run[|run| - 1]
      case Get(text, now) => AfterGet(o, After(o, run[..|run| - 1]), text, now)
      case Set(text, e, now) => AfterSet(o, After(o, run[..|run| - 1]), text, e, now)
  }

  function Gets(run: seq<Op>): nat {
    if run == [] then 0 else Gets(run[..|run| - 1]) + if run[|run| - 1].Get? then 1 else 0
  }

  // The entry last stored for a text.
  function LastSet(run: seq<Op>, text: string): Option<Entry> {
    if run == [] then None
    else
      var last := run[|run| - 1];
      if last.Set? && last.text == text then Some(last.entry.(createdAt := last.now))
      else LastSet(run[..|run| - 1], text)
  }

  predicate Ordered(run: seq<Op>) {
    forall a, b :: 0 <= a < b < |run| ==> run[a].now <= run[b].now
  }

  // The shelf holds the last entry stored for a text, or has dropped it once it had expired.
  predicate Holds(o: Options, run: seq<Op>, text: string, now: int) {
    var sh := After(o, run);
    match LastSet(run, text)
    case None => text !in sh.entries
    case Some(e) => if text in sh.entries then sh.entries[text] == e else Expired(o, e, now)
  }

  lemma {:induction false} HoldsAlong(o: Options, run: seq<Op>, text: string, now: int)
    requires o.enabled && Ordered(run) && forall k :: 0 <= k < |run| ==> run[k].now <= now
    ensures Holds(o, run, text, now)
  {
    if run != [] {
      var front, last := run[..|run| - 1], run[|run| - 1];
      HoldsAlong(o, front, text, now);
      HoldsAlong(o, front, last.text, last.now);
    }
  }

  /** Get finds exactly the entry stored last for the text, unless that is older than a positive time to live:
      what earlier Gets dropped makes no difference, and without a time to live nothing expires. */
  lemma GetFindsLastSet(o: Options, run: seq<Op>, text: string, now: int)
    requires o.enabled && Ordered(run + [Get(text, now)])
    ensures Found(o, After(o, run), text, now) ==
      match LastSet(run, text)
      case None => None
      case Some(e) => if o.ttl > 0 && now - e.createdAt > o.ttl then None else Some(e)
    ensures o.ttl <= 0 ==> Found(o, After(o, run), text, now) == LastSet(run, text)
  {
    var all := run + [Get(text, now)];
    assert Ordered(run) by { assert forall k :: 0 <= k < |run| ==> run[k] == all[k]; }
    forall k | 0 <= k < |run| ensures run[k].now <= now { assert all[k] == run[k] && all[|run|].now == now; }
    HoldsAlong(o, run, text, now);
  }

  // The Gets that were given an entry: one had been stored for their text and was not too old.
  predicate Serves(o: Options, before: seq<Op>, op: Op) {
    op.Get? && LastSet(before, op.text).Some? &&
    (o.ttl <= 0 || op.now - LastSet(before, op.text).value.createdAt <= o.ttl)
  }

  function Served(o: Options, run: seq<Op>): nat {
    if run == [] then 0
    else Served(o, run[..|run| - 1]) + if Serves(o, run[..|run| - 1], run[|run| - 1]) then 1 else 0
  }

  /** The hits are the Gets that found an entry, the misses the other ones. */
  lemma {:induction false} HitsAreServed(o: Options, run: seq<Op>)
    requires o.enabled && Ordered(run)
    ensures After(o, run).hits == Served(o, run) && After(o, run).misses == Gets(run) - Served(o, run)
  {
    if run != [] {
      var front, last := run[..|run| - 1], run[|run| - 1];
      HitsAreServed(o, front);
      if last.Get? {
        assert front + [last] == run;
        GetFindsLastSet(o, front, last.text, last.now);
      }
    }
  }

  /** Every Get of an enabled cache is counted once, as a hit or a miss; a disabled cache stays empty. */
  lemma {:induction false} GetsAreCounted(o: Options, run: seq<Op>)
    ensures o.enabled ==> After(o, run).hits + After(o, run).misses == Gets(run)
    ensures !o.enabled ==> After(o, run) == EMPTY
  {
    if run != [] { GetsAreCounted(o, run[..|run| - 1]); }
  }
}
