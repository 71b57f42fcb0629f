/**
 * The per-user score ledger of `DiscordBot`: the in-memory dictionary
 * `user_scores` and the JSON file it is dumped to after every change.
 *
 * Memory is keyed by whatever the code used: the raw integer
 * `message.author.id` when `update_scores` or `!reset` inserts a user, the
 * string keys of the file after a load. The file only has string keys, since
 * `json.dump` writes an integer key `n` as `str(n)`.
 */
module Ledger {
  import opened Decimal
  import opened Categories
  import opened Scoring

  datatype Key = IntId(id: int) | StrId(name: string)

  /** The key `json.dump` writes for a memory key. */
  function KeyString(k: Key): string {
    match k
    case IntId(n) => IntToString(n)
    case StrId(s) => s
  }

  type Mem = map<Key, Scores>

  /** The file as `json.load` reads it back. */
  type Disk = map<string, Scores>

  /** The bot's ledger state: the dictionary in memory and the file on disk. */
  datatype State = State(mem: Mem, disk: Disk)

  /** Some integer key of `mem` is written out as `s`. */
  ghost predicate Shadowed(mem: Mem, s: string) {
    exists k :: k in mem && k.IntId? && IntToString(k.id) == s
  }

  /** Memory holds only string keys, as right after a load. */
  predicate NamedOnly(mem: Mem) {
    forall k :: k in mem ==> k.StrId?
  }

  /**
   * `save_user_scores` followed by reading the file back. When an integer key
   * and a string key print the same, the dump holds both and the load keeps
   * the later one, which is always the integer key: string keys enter memory
   * only through a load, which replaces the whole dictionary, and integer
   * keys are inserted after it.
   */
  function Persist(mem: Mem): (disk: Disk)
    ensures forall s :: s in disk <==> StrId(s) in mem || Shadowed(mem, s)
    ensures forall n :: IntId(n) in mem ==> IntToString(n) in disk && disk[IntToString(n)] == mem[IntId(n)]
    ensures forall s :: StrId(s) in mem && !Shadowed(mem, s) ==> disk[s] == mem[StrId(s)]
  {
    IntToStringInjective();
    var named := map k | k in mem && k.StrId? :: k.name := mem[k];
    var numbered := map k | k in mem && k.IntId? :: IntToString(k.id) := mem[k];
    named + numbered
  }

  /** `load_user_scores`: every file key becomes a string key of memory. */
  function Load(disk: Disk): (mem: Mem)
    ensures NamedOnly(mem)
    ensures forall s :: StrId(s) in mem <==> s in disk
    ensures forall s :: s in disk ==> mem[StrId(s)] == disk[s]
  {
    map s | s in disk :: StrId(s) := disk[s]
  }

  /** Dumping what was just loaded rewrites the same file. */
  lemma PersistLoad(disk: Disk)
    ensures Persist(Load(disk)) == disk
  {
  }

  /** For a string-keyed memory, loading what was dumped gives the same memory. */
  lemma LoadPersist(mem: Mem)
    requires NamedOnly(mem)
    ensures Load(Persist(mem)) == mem
  {
    var m := Load(Persist(mem));
    forall k | k in mem
      ensures k in m && m[k] == mem[k]
    {
      assert !Shadowed(mem, k.name);
    }
  }

  /** The file is the dump of memory, as after every write the bot makes. */
  ghost predicate Consistent(st: State) {
    st.disk == Persist(st.mem)
  }

  /**
   * Writing memory under integer key `n` changes the file at `str(n)` and
   * nowhere else.
   */
  lemma PersistSetNumbered(mem: Mem, n: int, v: Scores)
    ensures IntToString(n) in Persist(mem[IntId(n) := v])
    ensures Persist(mem[IntId(n) := v])[IntToString(n)] == v
    ensures forall t :: t != IntToString(n) ==>
      (t in Persist(mem[IntId(n) := v]) <==> t in Persist(mem)) &&
      (t in Persist(mem) ==> Persist(mem[IntId(n) := v])[t] == Persist(mem)[t])
  {
    var mem' := mem[IntId(n) := v];
    forall t | t != IntToString(n)
      ensures Shadowed(mem', t) <==> Shadowed(mem, t)
      ensures (t in Persist(mem') <==> t in Persist(mem))
      ensures t in Persist(mem) ==> Persist(mem')[t] == Persist(mem)[t]
    {
      if Shadowed(mem', t) {
        var k :| k in mem' && k.IntId? && IntToString(k.id) == t;
        assert k in mem && mem'[k] == mem[k];
        assert Persist(mem')[t] == mem'[k];
        assert Persist(mem)[t] == mem[k];
      }
      if Shadowed(mem, t) {
        var k :| k in mem && k.IntId? && IntToString(k.id) == t;
        assert k in mem';
      }
    }
  }

  /**
   * Writing a string key that no integer key shadows changes the file at that
   * key and nowhere else.
   */
  lemma PersistSetNamed(mem: Mem, s: string, v: Scores)
    requires !Shadowed(mem, s)
    ensures s in Persist(mem[StrId(s) := v])
    ensures Persist(mem[StrId(s) := v])[s] == v
    ensures forall t :: t != s ==>
      (t in Persist(mem[StrId(s) := v]) <==> t in Persist(mem)) &&
      (t in Persist(mem) ==> Persist(mem[StrId(s) := v])[t] == Persist(mem)[t])
  {
    var mem' := mem[StrId(s) := v];
    forall t | t != s
      ensures Shadowed(mem', t) <==> Shadowed(mem, t)
      ensures (t in Persist(mem') <==> t in Persist(mem))
      ensures t in Persist(mem) ==> Persist(mem')[t] == Persist(mem)[t]
    {
      if Shadowed(mem', t) {
        var k :| k in mem' && k.IntId? && IntToString(k.id) == t;
        assert k in mem && mem'[k] == mem[k];
        assert Persist(mem')[t] == mem'[k];
        assert Persist(mem)[t] == mem[k];
      }
      if Shadowed(mem, t) {
        var k :| k in mem && k.IntId? && IntToString(k.id) == t;
        assert k in mem';
      }
    }
  }

  /** `save_user_scores`: the file becomes the dump of memory. */
  function SaveUserScores(st: State): (r: State)
    ensures r.mem == st.mem
    ensures Consistent(r)
  {
    State(st.mem, Persist(st.mem))
  }

  /**
   * `save_updated_scores`: add each increment to the user's totals, then save.
   * The user must already be present; the source reads the entry with `[]`.
   */
  function SaveUpdatedScores(st: State, key: Key, increments: Scores): (r: State)
    requires key in st.mem
    ensures r.mem.Keys == st.mem.Keys
    ensures forall c :: r.mem[key].Get(c) == st.mem[key].Get(c) + increments.Get(c)
    ensures forall k :: k in st.mem && k != key ==> r.mem[k] == st.mem[k]
    ensures Consistent(r)
  {
    SaveUserScores(State(st.mem[key := Plus(st.mem[key], increments)], st.disk))
  }

  /** The totals a user's next increments are added to. */
  function Prior(mem: Mem, key: Key): Scores {
    if key in mem then mem[key] else DefaultScores()
  }

  /**
   * `update_scores`: an absent user first gets the default record, then
   * every total grows by exactly its increment; other users keep theirs.
   */
  function UpdateScores(st: State, key: Key, increments: Scores): (r: State)
    ensures r.mem.Keys == st.mem.Keys + {key}
    ensures key !in st.mem ==> forall c :: r.mem[key].Get(c) == 10 + increments.Get(c)
    ensures key in st.mem ==> forall c :: r.mem[key].Get(c) == st.mem[key].Get(c) + increments.Get(c)
    ensures forall k :: k in st.mem && k != key ==> r.mem[k] == st.mem[k]
    ensures Consistent(r)
  {
    var installed := if key !in st.mem then State(st.mem[key := DefaultScores()], st.disk) else st;
    SaveUpdatedScores(installed, key, increments)
  }

  /** The `!reset` branch: the user's record becomes the defaults, whatever it was. */
  function ResetScores(st: State, key: Key): (r: State)
    ensures r.mem.Keys == st.mem.Keys + {key}
    ensures r.mem[key] == DefaultScores()
    ensures forall k :: k in st.mem && k != key ==> r.mem[k] == st.mem[k]
    ensures Consistent(r)
  {
    SaveUserScores(State(st.mem[key := DefaultScores()], st.disk))
  }

  /** Resetting twice leaves the same memory and file as resetting once. */
  lemma ResetIdempotent(st: State, key: Key)
    ensures ResetScores(ResetScores(st, key), key) == ResetScores(st, key)
  {
    var once := ResetScores(st, key);
    assert once.mem[key := DefaultScores()] == once.mem;
  }

  /** A key whose write lands at its own file entry: integer keys always, string keys unless shadowed. */
  ghost predicate Visible(mem: Mem, key: Key) {
    key.IntId? || !Shadowed(mem, key.name)
  }

  /** Writing `v` under a visible key changes the file at that key's string and nowhere else. */
  lemma PersistSet(mem: Mem, key: Key, v: Scores)
    requires Visible(mem, key)
    ensures KeyString(key) in Persist(mem[key := v])
    ensures Persist(mem[key := v])[KeyString(key)] == v
    ensures forall t :: t != KeyString(key) ==>
      (t in Persist(mem[key := v]) <==> t in Persist(mem)) &&
      (t in Persist(mem) ==> Persist(mem[key := v])[t] == Persist(mem)[t])
  {
    match key
    case IntId(n) => PersistSetNumbered(mem, n, v);
    case StrId(s) => PersistSetNamed(mem, s, v);
  }

  /**
   * `update_scores` as seen in the file: the user's entry becomes their prior
   * totals plus the increments, and no other entry changes.
   */
  lemma UpdatePersisted(st: State, key: Key, increments: Scores)
    requires Consistent(st) && Visible(st.mem, key)
    ensures var r := UpdateScores(st, key, increments);
      && KeyString(key) in r.disk
      && (forall c :: r.disk[KeyString(key)].Get(c) == Prior(st.mem, key).Get(c) + increments.Get(c))
      && (forall t :: t != KeyString(key) ==>
            (t in r.disk <==> t in st.disk) && (t in st.disk ==> r.disk[t] == st.disk[t]))
  {
    var total := Plus(Prior(st.mem, key), increments);
    UpdateMemory(st, key, increments);
    PersistSet(st.mem, key, total);
  }

  /** `update_scores` leaves memory as one write of the new totals. */
  lemma UpdateMemory(st: State, key: Key, increments: Scores)
    ensures UpdateScores(st, key, increments).mem == st.mem[key := Plus(Prior(st.mem, key), increments)]
  {
  }

  /** `!reset` as seen in the file: the user's entry becomes the defaults, no other entry changes. */
  lemma ResetPersisted(st: State, key: Key)
    requires Consistent(st) && Visible(st.mem, key)
    ensures var r := ResetScores(st, key);
      && KeyString(key) in r.disk
      && r.disk[KeyString(key)] == DefaultScores()
      && (forall t :: t != KeyString(key) ==>
            (t in r.disk <==> t in st.disk) && (t in st.disk ==> r.disk[t] == st.disk[t]))
  {
    var r := ResetScores(st, key);
    assert r.mem == st.mem[key := DefaultScores()];
    PersistSet(st.mem, key, DefaultScores());
  }
}
