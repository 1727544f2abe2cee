/** The business ledger stored as rows, with a comparison cache and an inverse index
    of targets by Event, so that one Event can be saved alone. */
module BusinessStore {
  import opened Arith

  datatype Collection = Cycles | Targets | Claims

  /** One stored record; only the Event that owns a target matters to the store. */
  datatype Row = Row(eventId: string, body: string)

  type Rows = map<string, Row>

  datatype Business = Business(scalars: map<string, string>, cycles: Rows, targets: Rows, claims: Rows) {
    function Of(c: Collection): Rows {
      match c
      case Cycles => cycles
      case Targets => targets
      case Claims => claims
    }
  }

  datatype Part = Part(collection: Collection, key: string)

  type Parts = map<Part, Row>

  /** The single business record: absent, in the old inline format, or scalars only. */
  datatype Meta = Absent | Legacy(business: Business) | Scalars(scalars: map<string, string>)

  function Stored(parts: Parts, c: Collection): Rows {
    map k | k in (set p | p in parts && p.collection == c :: p.key) :: parts[Part(c, k)]
  }

  /** Reads either format; old inline rows beside separate rows are a conflict. */
  function ReadBusiness(meta: Meta, parts: Parts): Result<Option<Business>> {
    match meta
    case Absent => Ok(None)
    case Legacy(b) => if parts != map[] then Err("inline and separate rows") else Ok(Some(b))
    case Scalars(s) => Ok(Some(Business(s, Stored(parts, Cycles), Stored(parts, Targets), Stored(parts, Claims))))
  }

  lemma StoredAt(parts: Parts, c: Collection)
    ensures forall k :: k in Stored(parts, c) <==> Part(c, k) in parts
    ensures forall k :: k in Stored(parts, c) ==> Stored(parts, c)[k] == parts[Part(c, k)]
  {
    forall k | Part(c, k) in parts
      ensures k in Stored(parts, c)
    {
      assert Part(c, k).key == k;
    }
  }

  /** The old inline format is read whole, but never beside separate rows. */
  lemma ReadsOldFormat(b: Business, parts: Parts)
    ensures ReadBusiness(Legacy(b), parts) == Ok(Some(b)) <==> parts == map[]
    ensures parts != map[] ==> ReadBusiness(Legacy(b), parts).Err?
  {
  }

  // ------------------------------------------------------------ what saving does

  /** Every row of the ledger, under its collection and key. */
  function Flat(b: Business): Parts {
    map p: Part | p in PartsOf(Cycles, b.cycles.Keys) + PartsOf(Targets, b.targets.Keys) + PartsOf(Claims, b.claims.Keys)
      :: b.Of(p.collection)[p.key]
  }

  function PartsOf(c: Collection, keys: set<string>): set<Part> { set k | k in keys :: Part(c, k) }

  lemma OnePartMore(c: Collection, keys: set<string>, todo: set<string>, key: string)
    requires key in todo && todo <= keys
    ensures PartsOf(c, keys - (todo - {key})) == PartsOf(c, keys - todo) + {Part(c, key)}
    ensures |todo - {key}| == |todo| - 1
  {
    assert keys - (todo - {key}) == (keys - todo) + {key};
  }

  /** Whether the stored row has to be written: it differs, is missing or is left over. */
  predicate Stale(parts: Parts, b: Business, c: Collection, key: string, force: bool) {
    if key !in b.Of(c) then Part(c, key) in parts
    else force || Part(c, key) !in parts || parts[Part(c, key)] != b.Of(c)[key]
  }

  function StaleKeys(parts: Parts, b: Business, c: Collection, keys: set<string>, force: bool): set<string> {
    set k | k in keys && Stale(parts, b, c, k, force)
  }

  lemma IsStale(parts: Parts, b: Business, c: Collection, key: string, force: bool)
    ensures Stale(parts, b, c, key, force)
            <==> if key !in b.Of(c) then Part(c, key) in parts
                 else force || Part(c, key) !in parts || parts[Part(c, key)] != b.Of(c)[key]
  {
  }

  lemma SameStale(parts: Parts, parts': Parts, b: Business, c: Collection, key: string, force: bool)
    requires SameRow(parts, parts', Part(c, key))
    ensures Stale(parts, b, c, key, force) <==> Stale(parts', b, c, key, force)
  {
  }

  lemma ReplacedElsewhere(parts: Parts, b: Business, c: Collection, keys: set<string>, todo: set<string>, key: string)
    requires key in todo && todo <= keys
    ensures SameRow(parts, Replaced(parts, b, PartsOf(c, keys - todo)), Part(c, key))
  {
    hide Flat;
    assert Part(c, key) !in PartsOf(c, keys - todo);
  }

  lemma OneKeyMore(parts: Parts, b: Business, c: Collection, keys: set<string>, todo: set<string>, key: string, force: bool)
    requires key in todo && todo <= keys
    ensures |StaleKeys(parts, b, c, keys - (todo - {key}), force)|
            == |StaleKeys(parts, b, c, keys - todo, force)| + if Stale(parts, b, c, key, force) then 1 else 0
    ensures |StaleKeys(parts, b, c, keys - (todo - {key}), force)| <= |StaleKeys(parts, b, c, keys, force)|
  {
    hide Stale;
    var was, now := StaleKeys(parts, b, c, keys - todo, force), StaleKeys(parts, b, c, keys - (todo - {key}), force);
    assert now == if Stale(parts, b, c, key, force) then was + {key} else was;
    Within(now, StaleKeys(parts, b, c, keys, force));
  }

  lemma {:induction false} Within(a: set<string>, b: set<string>)
    requires a <= b
    ensures |a| <= |b|
  {
    assert |b - a| == |b| - |a|;
  }

  lemma StaleBounds(parts: Parts, b: Business, c: Collection, keys: set<string>, force: bool)
    ensures |StaleKeys(parts, b, c, keys, force)| <= |keys|
    ensures StaleKeys(parts, b, c, keys - keys, force) == {} && keys - {} == keys
  {
    Within(StaleKeys(parts, b, c, keys, force), keys);
  }

  lemma NoParts(c: Collection, keys: set<string>)
    ensures PartsOf(c, keys - keys) == {}
  {
  }

  lemma FlatAt(b: Business, p: Part)
    ensures p in Flat(b) <==> p.key in b.Of(p.collection)
    ensures p in Flat(b) ==> Flat(b)[p] == b.Of(p.collection)[p.key]
  {
  }

  /** The rows at the given parts become what the ledger says; the others stay. */
  function Replaced(parts: Parts, b: Business, at: set<Part>): Parts {
    map p | p in parts.Keys + Flat(b).Keys && (if p in at then p in Flat(b) else p in parts)
      :: if p in at then Flat(b)[p] else parts[p]
  }

  lemma ReplaceOne(parts: Parts, b: Business, at: set<Part>, p: Part)
    ensures Replaced(parts, b, at + {p})
            == if p in Flat(b) then Replaced(parts, b, at)[p := Flat(b)[p]] else Replaced(parts, b, at) - {p}
  {
    hide Flat;
  }

  lemma ReplaceTwice(parts: Parts, b: Business, first: set<Part>, second: set<Part>)
    ensures Replaced(Replaced(parts, b, first), b, second) == Replaced(parts, b, first + second)
  {
    hide Flat;
  }

  lemma ReplaceNothing(parts: Parts, b: Business)
    ensures Replaced(parts, b, {}) == parts
  {
    hide Flat;
  }

  /** The keys of an Event's targets among some rows. */
  function EventTargets(targets: Rows, eventId: string): set<string> {
    set k | k in targets && targets[k].eventId == eventId
  }

  /** The rows an Event's save looks at: its cycle, its stored and its current targets, one claim. */
  function EventParts(parts: Parts, b: Business, eventId: string, condition: Option<string>): set<Part> {
    {Part(Cycles, eventId)}
    + PartsOf(Targets, EventTargets(Stored(parts, Targets), eventId) + EventTargets(b.targets, eventId))
    + if condition.Some? then {Part(Claims, condition.value)} else {}
  }

  /** As many writes as saving an Event can take. */
  function EventWrites(parts: Parts, b: Business, eventId: string, condition: Option<string>): nat {
    2 + |EventTargets(Stored(parts, Targets), eventId) + EventTargets(b.targets, eventId)| + if condition.Some? then 1 else 0
  }

  /** As many writes as saving everything can take. */
  function AllWrites(parts: Parts, b: Business): nat {
    1 + KeyCount(parts, b, Cycles) + KeyCount(parts, b, Targets) + KeyCount(parts, b, Claims)
  }

  function KeyCount(parts: Parts, b: Business, c: Collection): nat { |Stored(parts, c).Keys + b.Of(c).Keys| }

  function EventSaved(parts: Parts, b: Business, eventId: string, condition: Option<string>): Parts {
    Replaced(parts, b, EventParts(parts, b, eventId, condition))
  }

  // ------------------------------------------------------------ the inverse index

  type Index = map<string, set<string>>

  /** The index lists, for each Event with a stored target, exactly its targets. */
  ghost predicate IndexExact(index: Index, parts: Parts) {
    && (forall e :: e in index ==> index[e] != {})
    && (forall e, k :: e in index && k in index[e] ==>
          Part(Targets, k) in parts && parts[Part(Targets, k)].eventId == e)
    && (forall k :: Part(Targets, k) in parts ==>
          parts[Part(Targets, k)].eventId in index && k in index[parts[Part(Targets, k)].eventId])
  }

  function Unlisted(index: Index, e: string, k: string): Index {
    if e !in index then index
    else if index[e] - {k} == {} then index - {e}
    else index[e := index[e] - {k}]
  }

  function Listed(index: Index, e: string, k: string): Index {
    index[e := (if e in index then index[e] else {}) + {k}]
  }

  lemma UnlistExact(index: Index, parts: Parts, k: string)
    requires IndexExact(index, parts) && Part(Targets, k) in parts
    ensures IndexExact(Unlisted(index, parts[Part(Targets, k)].eventId, k), parts - {Part(Targets, k)})
  {
    var e := parts[Part(Targets, k)].eventId;
    var index', parts' := Unlisted(index, e, k), parts - {Part(Targets, k)};
    forall other | Part(Targets, other) in parts'
      ensures parts'[Part(Targets, other)].eventId in index'
      ensures other in index'[parts'[Part(Targets, other)].eventId]
    {
      var f := parts[Part(Targets, other)].eventId;
      assert other in index[f] && other != k;
      if f == e {
        assert other in index[e] - {k};
      }
    }
  }

  lemma ListExact(index: Index, parts: Parts, k: string, row: Row)
    requires IndexExact(index, parts) && Part(Targets, k) !in parts
    ensures IndexExact(Listed(index, row.eventId, k), parts[Part(Targets, k) := row])
  {
  }

  lemma OtherCollectionKeepsIndex(index: Index, parts: Parts, parts': Parts)
    requires IndexExact(index, parts)
    requires forall k :: Part(Targets, k) in parts <==> Part(Targets, k) in parts'
    requires forall k :: Part(Targets, k) in parts ==> parts[Part(Targets, k)] == parts'[Part(Targets, k)]
    ensures IndexExact(index, parts')
  {
    forall k | Part(Targets, k) in parts'
      ensures parts'[Part(Targets, k)].eventId in index && k in index[parts'[Part(Targets, k)].eventId]
    {
      assert Part(Targets, k) in parts;
    }
  }

  /** The index answers which stored targets an Event has. */
  lemma IndexAnswers(index: Index, parts: Parts, e: string)
    requires IndexExact(index, parts)
    ensures (if e in index then index[e] else {}) == EventTargets(Stored(parts, Targets), e)
  {
    StoredAt(parts, Targets);
    forall k | k in EventTargets(Stored(parts, Targets), e)
      ensures e in index && k in index[e]
    {
      assert Part(Targets, k) in parts;
    }
  }

  // ------------------------------------------------------------ the store

  class Store {
    var meta: Meta
    var parts: Parts
    // The comparison cache; not loaded means nothing is known.
    var loaded: bool
    var saved: Parts
    var index: Index
    // What a rollback returns to.
    var inTransaction: bool
    var beforeMeta: Meta
    var beforeParts: Parts

    ghost predicate CacheExact()
      reads this
    {
      loaded ==> saved == parts && IndexExact(index, parts)
    }

    constructor ()
      ensures CacheExact() && !inTransaction && !loaded && meta == Absent && parts == map[]
    {
      meta, parts, loaded, saved, index, inTransaction := Absent, map[], false, map[], map[], false;
      beforeMeta, beforeParts := Absent, map[];
    }

    method Begin()
      requires !inTransaction && CacheExact()
      modifies this
      ensures inTransaction && CacheExact() && meta == beforeMeta == old(meta) && parts == beforeParts == old(parts)
      ensures loaded == old(loaded) && saved == old(saved) && index == old(index)
    {
      inTransaction, beforeMeta, beforeParts := true, meta, parts;
    }

    method Commit()
      requires inTransaction && CacheExact()
      modifies this
      ensures !inTransaction && CacheExact() && meta == old(meta) && parts == old(parts) && loaded == old(loaded)
    {
      inTransaction := false;
    }

    /** Leaving a transaction by failure restores the rows and forgets the cache,
        which may hold rows that were never committed. */
    method Rollback()
      requires inTransaction
      modifies this
      ensures !inTransaction && CacheExact() && !loaded
      ensures meta == old(beforeMeta) && parts == old(beforeParts)
    {
      meta, parts, inTransaction := beforeMeta, beforeParts, false;
      Invalidate();
    }

    method Invalidate()
      modifies this`loaded, this`saved, this`index
      ensures CacheExact() && !loaded
    {
      loaded, saved, index := false, map[], map[];
    }

    method LoadRows()
      requires CacheExact()
      modifies this`loaded, this`saved, this`index
      ensures loaded && CacheExact()
    {
      if loaded {
        return;
      }
      loaded, saved, index := true, map[], map[];
      var todo := parts.Keys;
      while todo != {}
        invariant loaded && todo <= parts.Keys
        invariant saved == map p | p in parts && p !in todo :: parts[p]
        invariant IndexExact(index, saved)
        decreases todo
      {
        var p :| p in todo;
        ghost var before := saved;
        saved := saved[p := parts[p]];
        if p.collection == Targets {
          ListExact(index, before, p.key, parts[p]);
          index := Listed(index, parts[p].eventId, p.key);
        } else {
          OtherCollectionKeepsIndex(index, before, saved);
        }
        todo := todo - {p};
      }
      assert saved == parts;
    }

    /** Writes the rows that differ. `statements` is how many writes succeed before the
        database fails; a failure leaves the rest undone for the transaction to roll back. */
    method SyncRows(c: Collection, b: Business, keys: set<string>, force: bool, statements: nat)
      returns (ok: bool, left: nat)
      requires loaded && CacheExact()
      modifies this`parts, this`saved, this`index
      ensures ok ==> CacheExact() && parts == Replaced(old(parts), b, PartsOf(c, keys))
      ensures left + |keys| >= statements && (statements >= |keys| ==> ok)
      ensures var stale := |StaleKeys(old(parts), b, c, keys, force)|;
              (ok <==> statements >= stale) && (ok ==> left == statements - stale)
    {
      hide Flat, Replaced, IndexExact, PartsOf, Stale, StaleKeys;
      NoParts(c, keys);
      StaleBounds(parts, b, c, keys, force);
      left := statements;
      var values, todo := b.Of(c), keys;
      ghost var start, finished := parts, {};
      ReplaceNothing(start, b);
      while todo != {}
        invariant todo <= keys && loaded && CacheExact()
        invariant left + |StaleKeys(start, b, c, keys - todo, force)| == statements
        invariant finished == PartsOf(c, keys - todo) && parts == Replaced(start, b, finished)
        decreases todo
      {
        var key :| key in todo;
        var part := Part(c, key);
        FlatAt(b, part);
        ReplaceOne(start, b, finished, part);
        ReplacedElsewhere(start, b, c, keys, todo, key);
        OneKeyMore(start, b, c, keys, todo, key, force);
        SameStale(start, parts, b, c, key, force);
        var changed := if key !in values then part in saved else force || part !in saved || saved[part] != values[key];
        IsStale(saved, b, c, key, force);
        if changed {
          if left == 0 {
            return false, 0;
          }
          left := left - 1;
          WriteRow(part, if key in values then Some(values[key]) else None);
        }
        OnePartMore(c, keys, todo, key);
        todo := todo - {key};
        finished := finished + {part};
      }
      assert keys - {} == keys;
      ok := true;
    }

    /** One row write, with its cache entry and its place in the index. */
    method WriteRow(part: Part, row: Option<Row>)
      requires loaded && CacheExact() && (row.None? ==> part in parts)
      modifies this`parts, this`saved, this`index
      ensures CacheExact()
      ensures parts == if row.Some? then old(parts)[part := row.value] else old(parts) - {part}
    {
      ghost var before := parts;
      var previous := if part in saved then Some(saved[part]) else None;
      if row.Some? {
        parts, saved := parts[part := row.value], saved[part := row.value];
      } else {
        parts, saved := parts - {part}, saved - {part};
      }
      if part.collection == Targets {
        ghost var without := before - {part};
        if previous.Some? {
          UnlistExact(index, before, part.key);
          index := Unlisted(index, previous.value.eventId, part.key);
        } else {
          assert without == before;
        }
        if row.Some? {
          ListExact(index, without, part.key, row.value);
          assert without[part := row.value] == parts;
          index := Listed(index, row.value.eventId, part.key);
        }
      } else {
        OtherCollectionKeepsIndex(index, before, parts);
      }
    }

    /** Saves the scalars and every row. */
    method SaveEverything(b: Business, force: bool, statements: nat) returns (ok: bool)
      requires CacheExact()
      modifies this`meta, this`parts, this`loaded, this`saved, this`index
      ensures ok ==> CacheExact() && meta == Scalars(b.scalars) && parts == Flat(b)
      ensures statements >= AllWrites(old(parts), b) ==> ok
    {
      hide Flat, Stored, IndexExact, Holds, KeyCount;
      LoadRows();
      if statements == 0 {
        return false;
      }
      meta := Scalars(b.scalars);
      var left := statements - 1;
      ok, left := SyncCollection(Cycles, b, force, left);
      if !ok { return; }
      ok, left := SyncCollection(Targets, b, force, left);
      if !ok { return; }
      ok, left := SyncCollection(Claims, b, force, left);
      if !ok { return; }
      HeldDecidesParts(parts, b);
    }

    /** Synchronises one collection whole: the keys stored and those in the ledger. */
    method SyncCollection(c: Collection, b: Business, force: bool, statements: nat) returns (ok: bool, left: nat)
      requires loaded && CacheExact()
      modifies this`parts, this`saved, this`index
      ensures ok ==> CacheExact() && Holds(parts, b, c)
      ensures ok ==> forall d :: d != c && Holds(old(parts), b, d) ==> Holds(parts, b, d)
      ensures ok ==> forall d :: d != c ==> KeyCount(parts, b, d) == KeyCount(old(parts), b, d)
      ensures var n := KeyCount(old(parts), b, c);
              left + n >= statements && (statements >= n ==> ok)
    {
      var keys := Stored(saved, c).Keys + b.Of(c).Keys;
      SyncedCollection(parts, b, c, keys);
      ok, left := SyncRows(c, b, keys, force, statements);
    }

    /** Saves the scalars and one Event's rows, found through the index. */
    method SaveEventRows(b: Business, eventId: string, condition: Option<string>, statements: nat) returns (ok: bool)
      requires CacheExact()
      modifies this`meta, this`parts, this`loaded, this`saved, this`index
      ensures ok ==> CacheExact() && meta == Scalars(b.scalars)
      ensures ok ==> parts == EventSaved(old(parts), b, eventId, condition)
      ensures statements >= EventWrites(old(parts), b, eventId, condition) ==> ok
    {
      hide Flat, Replaced, IndexExact, EventTargets, EventSaved, Stored;
      LoadRows();
      if statements == 0 {
        return false;
      }
      meta := Scalars(b.scalars);
      var left := statements - 1;
      ghost var start := parts;
      ok, left := SyncRows(Cycles, b, {eventId}, false, left);
      if !ok { return; }
      IndexAnswers(index, parts, eventId);
      CyclesKeepTargets(start, b, eventId);
      var keys := (if eventId in index then index[eventId] else {}) + EventTargets(b.targets, eventId);
      ok, left := SyncRows(Targets, b, keys, false, left);
      if !ok { return; }
      ghost var claims := if condition.Some? then {condition.value} else {};
      if condition.Some? {
        ok, left := SyncRows(Claims, b, {condition.value}, false, left);
        if !ok { return; }
      } else {
        ReplaceNone(parts, b, PartsOf(Claims, claims));
      }
      SavedInSteps(start, b, eventId, condition, keys, claims);
    }

    /** An Event's save in its own transaction: it commits whole or leaves no trace. The
        database may fail at any statement and, with `commits` false, at the commit itself. */
    method SaveEvent(b: Business, eventId: string, condition: Option<string>, statements: nat, commits: bool)
      returns (ok: bool)
      requires CacheExact() && !inTransaction
      modifies this
      ensures CacheExact() && !inTransaction && (ok ==> commits)
      ensures statements >= EventWrites(old(parts), b, eventId, condition) && commits ==> ok
      ensures meta == if ok then Scalars(b.scalars) else old(meta)
      ensures parts == if ok then EventSaved(old(parts), b, eventId, condition) else old(parts)
      ensures ok && OnlyEventChanged(old(parts), b, eventId, condition) ==> ReadBusiness(meta, parts) == Ok(Some(b))
    {
      ghost var start := parts;
      Begin();
      ok := SaveEventRows(b, eventId, condition, statements);
      ok := ok && commits;
      if ok {
        Commit();
        SavedEventReadsBack(start, b, eventId, condition);
      } else {
        Rollback();
      }
    }

    method SaveAll(b: Business, force: bool, statements: nat, commits: bool) returns (ok: bool)
      requires CacheExact() && !inTransaction
      modifies this
      ensures CacheExact() && !inTransaction && (ok ==> commits)
      ensures statements >= AllWrites(old(parts), b) && commits ==> ok
      ensures !ok ==> meta == old(meta) && parts == old(parts)
      ensures ok ==> ReadBusiness(meta, parts) == Ok(Some(b))
    {
      Begin();
      ok := SaveEverything(b, force, statements);
      ok := ok && commits;
      if ok {
        Commit();
        FlatReadsBack(b, parts);
      } else {
        Rollback();
      }
    }
  }

  lemma ReplaceNone(parts: Parts, b: Business, at: set<Part>)
    requires at == {}
    ensures Replaced(parts, b, at) == parts
  {
  }

  lemma SavedInSteps(parts: Parts, b: Business, eventId: string, condition: Option<string>, keys: set<string>, claims: set<string>)
    requires keys == EventTargets(Stored(parts, Targets), eventId) + EventTargets(b.targets, eventId)
    requires claims == if condition.Some? then {condition.value} else {}
    ensures Replaced(Replaced(Replaced(parts, b, PartsOf(Cycles, {eventId})), b, PartsOf(Targets, keys)), b, PartsOf(Claims, claims))
            == EventSaved(parts, b, eventId, condition)
  {
    var c, t, l := PartsOf(Cycles, {eventId}), PartsOf(Targets, keys), PartsOf(Claims, claims);
    ReplaceTwice(parts, b, c, t);
    ReplaceTwice(parts, b, c + t, l);
    assert c == {Part(Cycles, eventId)};
    assert l == if condition.Some? then {Part(Claims, condition.value)} else {};
  }

  /** The stored rows of a collection are the ledger's. */
  ghost predicate Holds(parts: Parts, b: Business, c: Collection) { Stored(parts, c) == b.Of(c) }

  /** A collection synchronised at all its stored and current keys holds; the others are as before. */
  lemma SyncedCollection(parts: Parts, b: Business, c: Collection, keys: set<string>)
    requires keys == Stored(parts, c).Keys + b.Of(c).Keys
    ensures Holds(Replaced(parts, b, PartsOf(c, keys)), b, c)
    ensures forall d :: d != c && Holds(parts, b, d) ==> Holds(Replaced(parts, b, PartsOf(c, keys)), b, d)
    ensures forall d :: d != c ==> Stored(Replaced(parts, b, PartsOf(c, keys)), d) == Stored(parts, d)
  {
    hide Flat, Stored;
    var after := Replaced(parts, b, PartsOf(c, keys));
    forall d
      ensures Stored(after, d) == if d == c then b.Of(c) else Stored(parts, d)
    {
      StoredAt(parts, d);
      StoredAt(after, d);
      var want := if d == c then b.Of(c) else Stored(parts, d);
      forall k
        ensures k in Stored(after, d) <==> k in want
        ensures k in want ==> Stored(after, d)[k] == want[k]
      {
        FlatAt(b, Part(d, k));
        assert Part(d, k) in PartsOf(c, keys) <==> d == c && k in keys;
      }
    }
  }

  lemma HeldDecidesParts(parts: Parts, b: Business)
    requires Holds(parts, b, Cycles) && Holds(parts, b, Targets) && Holds(parts, b, Claims)
    ensures parts == Flat(b)
  {
    forall p
      ensures SameRow(parts, Flat(b), p)
    {
      FlatAt(b, p);
      StoredAt(parts, p.collection);
      assert Holds(parts, b, p.collection);
      assert p == Part(p.collection, p.key);
    }
    SameRows(parts, Flat(b));
  }

  lemma StoredOfFlat(b: Business, c: Collection)
    ensures Stored(Flat(b), c) == b.Of(c)
  {
    StoredAt(Flat(b), c);
    forall k
      ensures k in Stored(Flat(b), c) <==> k in b.Of(c)
      ensures k in b.Of(c) ==> Stored(Flat(b), c)[k] == b.Of(c)[k]
    {
      FlatAt(b, Part(c, k));
    }
  }

  ghost predicate SameRow(a: Parts, b: Parts, p: Part) {
    (p in a <==> p in b) && (p in a ==> a[p] == b[p])
  }

  lemma SameRows(a: Parts, b: Parts)
    requires forall p :: SameRow(a, b, p)
    ensures a == b
  {
    forall p | p in a
      ensures p in b && a[p] == b[p]
    {
      assert SameRow(a, b, p);
    }
    forall p | p in b
      ensures p in a
    {
      assert SameRow(a, b, p);
    }
  }

  lemma CyclesKeepTargets(parts: Parts, b: Business, eventId: string)
    ensures EventTargets(Stored(Replaced(parts, b, PartsOf(Cycles, {eventId})), Targets), eventId)
            == EventTargets(Stored(parts, Targets), eventId)
  {
    var after := Replaced(parts, b, PartsOf(Cycles, {eventId}));
    StoredAt(parts, Targets);
    StoredAt(after, Targets);
    forall k
      ensures k in Stored(after, Targets) <==> k in Stored(parts, Targets)
      ensures k in Stored(after, Targets) ==> Stored(after, Targets)[k] == Stored(parts, Targets)[k]
    {
      assert Part(Targets, k) !in PartsOf(Cycles, {eventId});
    }
  }

  // ------------------------------------------- saving one Event, read back whole

  lemma FlatReadsBack(b: Business, parts: Parts)
    ensures ReadBusiness(Scalars(b.scalars), parts) == Ok(Some(b)) <==> parts == Flat(b)
  {
    FlatIsRead(b);
    if ReadBusiness(Scalars(b.scalars), parts) == Ok(Some(b)) {
      ReadIsFlat(b, parts);
    }
  }

  lemma ReadIsFlat(b: Business, parts: Parts)
    requires ReadBusiness(Scalars(b.scalars), parts).value.value == b
    ensures parts == Flat(b)
  {
    assert Holds(parts, b, Cycles);
    assert Holds(parts, b, Targets);
    assert Holds(parts, b, Claims);
    HeldDecidesParts(parts, b);
  }

  lemma FlatIsRead(b: Business)
    ensures ReadBusiness(Scalars(b.scalars), Flat(b)) == Ok(Some(b))
  {
    StoredOfFlat(b, Cycles);
    StoredOfFlat(b, Targets);
    StoredOfFlat(b, Claims);
    assert b == Business(b.scalars, b.cycles, b.targets, b.claims);
  }

  /** Nothing but this Event's cycle and targets, and one claim, differs from what is stored. */
  ghost predicate OnlyEventChanged(parts: Parts, b: Business, eventId: string, condition: Option<string>) {
    forall p :: p !in EventParts(parts, b, eventId, condition) ==> SameRow(parts, Flat(b), p)
  }

  /** Saving just one Event makes the rows read back as the whole business exactly
      when nothing else had changed since they were stored. */
  lemma SavedEventReadsBack(parts: Parts, b: Business, eventId: string, condition: Option<string>)
    ensures ReadBusiness(Scalars(b.scalars), EventSaved(parts, b, eventId, condition)) == Ok(Some(b))
            <==> OnlyEventChanged(parts, b, eventId, condition)
  {
    var at := EventParts(parts, b, eventId, condition);
    var after := Replaced(parts, b, at);
    FlatReadsBack(b, after);
    if OnlyEventChanged(parts, b, eventId, condition) {
      forall p
        ensures SameRow(after, Flat(b), p)
      {
        assert p !in at ==> SameRow(parts, Flat(b), p);
      }
      SameRows(after, Flat(b));
    } else {
      var p :| p !in at && !SameRow(parts, Flat(b), p);
      assert SameRow(after, parts, p);
    }
  }

  // ------------------------------------------- runs of saves

  /** One save of a run: what the ledger is now, what it touched, and whether the save committed. */
  datatype Save = Save(business: Business, eventId: string, condition: Option<string>, committed: bool)

  datatype Disk = Disk(meta: Meta, parts: Parts)

  function SaveStep(d: Disk, s: Save): Disk {
    if s.committed then Disk(Scalars(s.business.scalars), EventSaved(d.parts, s.business, s.eventId, s.condition)) else d
  }

  function SaveRun(d: Disk, run: seq<Save>): Disk
    decreases |run|
  {
    if run == [] then d else SaveRun(SaveStep(d, run[0]), run[1..])
  }

  function Next(last: Business, s: Save): Business { if s.committed then s.business else last }

  function LastCommitted(last: Business, run: seq<Save>): Business
    decreases |run|
  {
    if run == [] then last else LastCommitted(Next(last, run[0]), run[1..])
  }

  /** Each ledger differs from the last committed one only in the Event and claim it names. */
  ghost predicate Incremental(last: Business, run: seq<Save>)
    decreases |run|
  {
    run == [] ||
    (&& OnlyEventChanged(Flat(last), run[0].business, run[0].eventId, run[0].condition)
     && Incremental(Next(last, run[0]), run[1..]))
  }

  /** However many Event saves commit or roll back, the rows read back as the last committed ledger. */
  lemma {:induction false} SavesReadBack(d: Disk, last: Business, run: seq<Save>)
    requires d == Disk(Scalars(last.scalars), Flat(last))
    requires Incremental(last, run)
    ensures ReadBusiness(SaveRun(d, run).meta, SaveRun(d, run).parts) == Ok(Some(LastCommitted(last, run)))
    decreases |run|
  {
    if run == [] {
      FlatReadsBack(last, d.parts);
    } else {
      var s := run[0];
      if s.committed {
        SavedEventReadsBack(d.parts, s.business, s.eventId, s.condition);
        FlatReadsBack(s.business, SaveStep(d, s).parts);
      }
      SavesReadBack(SaveStep(d, s), Next(last, s), run[1..]);
    }
  }
}
