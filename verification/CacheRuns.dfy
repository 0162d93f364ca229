/**
 Readers and writers of one cached shelter, interleaved step by step. Any number of loads run at once:
 the per-process deduplication of loads only takes interleavings away.
 */
module CacheRuns {
  import opened Results
  import opened ShelterRows

  type ReaderId = nat
  type WriterId = nat

  const TTL := 60.0

  /** A committed version of the row and the instant of its commit. */
  datatype Version = Version(row: Shelter, at: real)

  /** What a load found: which version, when, and how many DELs had run by then. */
  datatype Found = Found(version: nat, readAt: real, seen: nat)

  datatype Entry = Entry(row: Shelter, source: Found, setAt: real, setSeen: nat, ttl: real)

  datatype Reader = Missed | Loaded(found: Found)

  /**
   `pending` holds the writers that have committed and not yet deleted the key, with the version each
   committed; `dels` the versions whose DEL ran, in order; `missed` those whose DEL failed or never ran.
   */
  datatype Shared = Shared(now: real, history: seq<Version>, entry: Option<Entry>, readers: map<ReaderId, Reader>,
                           pending: map<WriterId, nat>, dels: seq<nat>, missed: set<nat>)

  datatype Step =
    | Tick(dt: real)
    | Miss(r: ReaderId)
    | Load(r: ReaderId)
    | LoadFails(r: ReaderId)
    | Backfill(r: ReaderId, stored: bool, spread: real)
    | CommitRow(w: WriterId, row: Shelter)
    | Del(w: WriterId, ok: bool)
    | Evict

  /** jitter: 80% of the TTL plus a random share of 40% of it. */
  function Jitter(ttl: real, spread: real): real {
    if ttl <= 0.0 then ttl else ttl - 0.2 * ttl + spread * 2.0 * (0.2 * ttl)
  }

  predicate Live(s: Shared) { s.entry.Some? && s.now < s.entry.value.setAt + s.entry.value.ttl }

  ghost predicate Enabled(s: Shared, step: Step) {
    match step
    case Tick(dt) => dt >= 0.0
    case Miss(r) => r !in s.readers && !Live(s)
    case Load(r) => r in s.readers && s.readers[r].Missed? && s.history != []
    case LoadFails(r) => r in s.readers && s.readers[r].Missed?
    case Backfill(r, _, spread) => r in s.readers && s.readers[r].Loaded? && 0.0 <= spread < 1.0
    case CommitRow(w, _) => w !in s.pending
    case Del(w, _) => w in s.pending
    case Evict => true
  }

  function Apply(s: Shared, step: Step): Shared {
    match step
    case Tick(dt) => s.(now := s.now + dt)
    case Miss(r) => s.(readers := s.readers[r := Missed])
    case Load(r) =>
      if s.history == [] then s
      else s.(readers := s.readers[r := Loaded(Found(|s.history| - 1, s.now, |s.dels|))])
    case LoadFails(r) => s.(readers := s.readers - {r})
    case Backfill(r, stored, spread) =>
      if r !in s.readers || !s.readers[r].Loaded? then s else
        var f := s.readers[r].found;
        var rest := s.(readers := s.readers - {r});
        if !stored || f.version >= |s.history| then rest
        else rest.(entry := Some(Entry(s.history[f.version].row, f, s.now, |s.dels|, Jitter(TTL, spread))))
    case CommitRow(w, row) =>
      s.(history := s.history + [Version(row, s.now)], pending := s.pending[w := |s.history|])
    case Del(w, ok) =>
      if w !in s.pending then s
      else if ok then s.(entry := None, pending := s.pending - {w}, dels := s.dels + [s.pending[w]])
      else s.(pending := s.pending - {w}, missed := s.missed + {s.pending[w]})
    case Evict => s.(entry := None)
  }

  predicate IsCommitted(s: Shared, row: Shelter) { s.history != [] && s.history[|s.history| - 1].row == row }

  // --- What every step keeps ---

  ghost predicate Waiting(pending: map<WriterId, nat>, v: nat) { exists w :: w in pending && pending[w] == v }

  predicate RanBetween(dels: seq<nat>, lo: nat, hi: nat, v: nat) {
    hi <= |dels| && exists k | lo <= k < hi :: dels[k] == v
  }

  /** A newer version is excused: its DEL is still to come, was missed, or ran between the read and `hi`. */
  ghost predicate Excused(s: Shared, f: Found, hi: nat, v: nat) {
    Waiting(s.pending, v) || v in s.missed || RanBetween(s.dels, f.seen, hi, v)
  }

  ghost predicate NewerExcused(s: Shared, f: Found, hi: nat) {
    forall v | f.version < v < |s.history| :: Excused(s, f, hi, v)
  }

  /** The version was the committed one at the instant it was read. */
  predicate CurrentAt(history: seq<Version>, version: nat, t: real) {
    version < |history| && history[version].at <= t && (version + 1 < |history| ==> t <= history[version + 1].at)
  }

  ghost predicate FoundOk(s: Shared, f: Found) {
    CurrentAt(s.history, f.version, f.readAt) && f.readAt <= s.now && f.seen <= |s.dels|
  }

  ghost predicate EntryOk(s: Shared, e: Entry) {
    && FoundOk(s, e.source) && e.row == s.history[e.source.version].row
    && e.source.readAt <= e.setAt <= s.now && 48.0 <= e.ttl < 72.0
    && e.setSeen <= |s.dels| && NewerExcused(s, e.source, e.setSeen)
  }

  ghost predicate ReaderOk(s: Shared, r: Reader) {
    r.Loaded? ==> FoundOk(s, r.found) && NewerExcused(s, r.found, |s.dels|)
  }

  ghost predicate CacheInv(s: Shared) {
    && (forall k | 0 <= k < |s.history| :: s.history[k].at <= s.now)
    && (s.entry.Some? ==> EntryOk(s, s.entry.value))
    && (forall r | r in s.readers :: ReaderOk(s, s.readers[r]))
  }

  lemma JitterRange(spread: real)
    requires 0.0 <= spread < 1.0
    ensures 48.0 <= Jitter(TTL, spread) == 48.0 + 24.0 * spread < 72.0
  {
    assert Jitter(TTL, spread) == 48.0 + spread * 24.0;
  }

  /** Nothing but the entry's own DEL takes an excuse away. */
  lemma ExcusesLast(s: Shared, step: Step, f: Found, hi: nat)
    requires Enabled(s, step) && FoundOk(s, f) && hi <= |s.dels| && NewerExcused(s, f, hi)
    requires !(step.Del? && step.ok)
    ensures FoundOk(Apply(s, step), f)
    ensures NewerExcused(Apply(s, step), f, hi)
  {
    var s' := Apply(s, step);
    forall v | f.version < v < |s'.history| ensures Excused(s', f, hi, v) {
      if v < |s.history| {
        assert Excused(s, f, hi, v);
        if w :| w in s.pending && s.pending[w] == v { assert w in s'.pending || v in s'.missed; }
      } else {
        assert step.w in s'.pending && s'.pending[step.w] == v;
      }
    }
  }

  lemma DelExcuses(s: Shared, step: Step, f: Found)
    requires Enabled(s, step) && step.Del? && step.ok && FoundOk(s, f) && NewerExcused(s, f, |s.dels|)
    ensures var s' := Apply(s, step); NewerExcused(s', f, |s'.dels|)
  {
    var s' := Apply(s, step);
    forall v | f.version < v < |s'.history| ensures Excused(s', f, |s'.dels|, v) {
      assert Excused(s, f, |s.dels|, v);
      if v == s.pending[step.w] {
        assert s'.dels[|s.dels|] == v;
      } else if RanBetween(s.dels, f.seen, |s.dels|, v) {
        var k :| f.seen <= k < |s.dels| && s.dels[k] == v;
        assert s'.dels[k] == v;
      } else if w :| w in s.pending && s.pending[w] == v {
        assert w in s'.pending;
      }
    }
  }

  lemma ReaderStays(s: Shared, step: Step, r: Reader)
    requires CacheInv(s) && Enabled(s, step) && ReaderOk(s, r)
    ensures ReaderOk(Apply(s, step), r)
  {
    if r.Loaded? {
      if step.Del? && step.ok { DelExcuses(s, step, r.found); } else { ExcusesLast(s, step, r.found, |s.dels|); }
    }
  }

  lemma EntryStays(s: Shared, step: Step)
    requires CacheInv(s) && Enabled(s, step) && !step.Backfill?
    ensures var s' := Apply(s, step); s'.entry.Some? ==> EntryOk(s', s'.entry.value)
  {
    if s.entry.Some? && !(step.Del? && step.ok) {
      ExcusesLast(s, step, s.entry.value.source, s.entry.value.setSeen);
    }
  }

  lemma BackfillEntry(s: Shared, step: Step)
    requires CacheInv(s) && Enabled(s, step) && step.Backfill?
    ensures var s' := Apply(s, step); s'.entry.Some? ==> EntryOk(s', s'.entry.value)
  {
    JitterRange(step.spread);
    var f := s.readers[step.r].found;
    assert ReaderOk(s, s.readers[step.r]);
    ExcusesLast(s, step, f, |s.dels|);
    if s.entry.Some? { ExcusesLast(s, step, s.entry.value.source, s.entry.value.setSeen); }
  }

  lemma StepKeepsCache(s: Shared, step: Step)
    requires CacheInv(s) && Enabled(s, step)
    ensures CacheInv(Apply(s, step))
  {
    var s' := Apply(s, step);
    if step.Backfill? { BackfillEntry(s, step); } else { EntryStays(s, step); }
    forall r | r in s'.readers ensures ReaderOk(s', s'.readers[r]) {
      if r in s.readers && s.readers[r] == s'.readers[r] { ReaderStays(s, step, s.readers[r]); }
    }
  }

  // --- Whole runs ---

  ghost predicate Init(s: Shared) {
    s.now >= 0.0 && |s.history| == 1 && s.history[0].at <= s.now && s.entry.None? && s.readers == map[] && s.pending == map[]
    && s.dels == [] && s.missed == {}
  }

  ghost predicate Run(states: seq<Shared>, steps: seq<Step>) {
    && |states| == |steps| + 1 && Init(states[0])
    && forall k | 0 <= k < |steps| :: Enabled(states[k], steps[k]) && states[k + 1] == Apply(states[k], steps[k])
  }

  lemma {:induction false} RunKeepsCache(states: seq<Shared>, steps: seq<Step>, n: nat)
    requires Run(states, steps) && n <= |steps|
    ensures CacheInv(states[n]) && states[n].history != []
  {
    if n > 0 {
      RunKeepsCache(states, steps, n - 1);
      StepKeepsCache(states[n - 1], steps[n - 1]);
    }
  }

  /**
   Coherence: a cached shelter that differs from the committed row means that every version committed since
   its load has its DEL still to come, had it fall between that load's read and its SET, or missed it.
   */
  lemma StaleOnlyIfExcused(states: seq<Shared>, steps: seq<Step>, n: nat)
    requires Run(states, steps) && n <= |steps| && states[n].entry.Some?
    ensures var s, e := states[n], states[n].entry.value;
            (s.history == [] || s.history[|s.history| - 1].row != e.row) ==>
              && e.source.version < |s.history| - 1
              && forall v | e.source.version < v < |s.history| ::
                   Waiting(s.pending, v) || v in s.missed || RanBetween(s.dels, e.source.seen, e.setSeen, v)
  {
    RunKeepsCache(states, steps, n);
    var s, e := states[n], states[n].entry.value;
    assert EntryOk(s, e);
    forall v | e.source.version < v < |s.history|
      ensures Waiting(s.pending, v) || v in s.missed || RanBetween(s.dels, e.source.seen, e.setSeen, v)
    {
      assert Excused(s, e.source, e.setSeen, v);
    }
  }

  /** With every DEL run and none between a read and its SET, the cache cannot differ from the database. */
  lemma QuietCacheIsCoherent(states: seq<Shared>, steps: seq<Step>, n: nat)
    requires Run(states, steps) && n <= |steps| && states[n].entry.Some?
    requires states[n].pending == map[] && states[n].missed == {}
    requires states[n].entry.value.source.seen == states[n].entry.value.setSeen
    ensures states[n].history != [] && states[n].entry.value.row == states[n].history[|states[n].history| - 1].row
  {
    var s, e := states[n], states[n].entry.value;
    RunKeepsCache(states, steps, n);
    assert EntryOk(s, e);
    var v := |s.history| - 1;
    assert v > e.source.version ==> Excused(s, e.source, e.setSeen, v);
  }

  /** Bounded staleness, even with failed DELs: a hit is the row committed at its load's read, under 72 s after that load's SET. */
  lemma HitsAreBounded(states: seq<Shared>, steps: seq<Step>, n: nat)
    requires Run(states, steps) && n <= |steps| && states[n].entry.Some?
    requires states[n].now < states[n].entry.value.setAt + states[n].entry.value.ttl
    ensures var s, e := states[n], states[n].entry.value;
            && CurrentAt(s.history, e.source.version, e.source.readAt) && e.row == s.history[e.source.version].row
            && s.now - e.source.readAt < 72.0 + (e.setAt - e.source.readAt)
  {
    RunKeepsCache(states, steps, n);
    assert EntryOk(states[n], states[n].entry.value);
  }

  // --- One reader, or one writer, with nobody in between ---

  /** A read that finds nothing alive loads the committed row and leaves it cached for 48 to 72 s. */
  lemma ReadFills(s: Shared, r: ReaderId, spread: real) returns (states: seq<Shared>)
    requires r !in s.readers && s.history != [] && 0.0 <= spread < 1.0
    requires s.entry.Some? ==> s.now >= s.entry.value.setAt + s.entry.value.ttl
    ensures |states| == 4 && states[0] == s
    ensures Enabled(s, Miss(r)) && states[1] == Apply(s, Miss(r))
    ensures Enabled(states[1], Load(r)) && states[2] == Apply(states[1], Load(r))
    ensures Enabled(states[2], Backfill(r, true, spread)) && states[3] == Apply(states[2], Backfill(r, true, spread))
    ensures var last := |s.history| - 1;
            states[3] == s.(entry := Some(Entry(s.history[last].row, Found(last, s.now, |s.dels|), s.now, |s.dels|, 48.0 + 24.0 * spread)))
  {
    JitterRange(spread);
    var s1 := Apply(s, Miss(r));
    var s2 := Apply(s1, Load(r));
    var s3 := Apply(s2, Backfill(r, true, spread));
    assert s3.readers == s.readers;
    states := [s, s1, s2, s3];
  }

  /** A write commits its row and takes the key out of the cache. */
  lemma WriteInvalidates(s: Shared, w: WriterId, row: Shelter)
    requires w !in s.pending
    ensures Enabled(s, CommitRow(w, row)) && Enabled(Apply(s, CommitRow(w, row)), Del(w, true))
    ensures Apply(Apply(s, CommitRow(w, row)), Del(w, true)) ==
              s.(history := s.history + [Version(row, s.now)], entry := None, dels := s.dels + [|s.history|])
  {
    var s2 := Apply(Apply(s, CommitRow(w, row)), Del(w, true));
    assert s2.pending == s.pending;
  }

  /** The unavoidable race is real: every DEL ran, and the cache still holds the old row. */
  lemma LateBackfillIsStale() returns (states: seq<Shared>, steps: seq<Step>)
    ensures Run(states, steps) && states[|steps|].history != []
    ensures var s := states[|steps|];
            && s.pending == map[] && s.missed == {} && s.entry.Some? && s.now < s.entry.value.setAt + s.entry.value.ttl
            && s.entry.value.row != s.history[|s.history| - 1].row
  {
    var before, after := Shelter(Open, 1, 0), Shelter(Open, 1, 1);
    var v0, v1 := Version(before, 0.0), Version(after, 0.0);
    var f := Found(0, 0.0, 0);
    var none: seq<nat> := [];
    var s0 := Shared(0.0, [v0], None, map[], map[], none, {});
    var s1 := s0.(readers := map[0 := Missed]);
    var s2 := s0.(readers := map[0 := Loaded(f)]);
    var s3 := s2.(history := [v0, v1], pending := map[0 := 1]);
    var s4 := s3.(pending := map[], dels := [1]);
    var s5 := s4.(readers := map[], entry := Some(Entry(before, f, 0.0, 1, Jitter(TTL, 0.0))));
    JitterRange(0.0);
    states := [s0, s1, s2, s3, s4, s5];
    steps := [Miss(0), Load(0), CommitRow(0, after), Del(0, true), Backfill(0, true, 0.0)];
    assert Apply(s2, steps[2]) == s3;
    assert Apply(s3, steps[3]) == s4 by { assert none + [1] == [1]; }
    assert Apply(s4, steps[4]) == s5;
  }
}
