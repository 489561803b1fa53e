// The control channel: one writer publishes backend snapshots under a sequence lock, one reader
// takes them over. Every load and store is one step; the steps of both sides interleave freely,
// in a sequentially consistent memory.
module Seqlock {
  import opened Modular

  const MAX_ENTRIES: nat := 64
  const ENTRY_WORDS: nat := 4

  // A snapshot is an entry count and the words of that many entries.
  datatype Snap = Snap(count: nat, words: seq<nat>)

  predicate WellSized(s: Snap) {
    |s.words| == s.count * ENTRY_WORDS
  }

  const EMPTY := Snap(0, [])

  // What remains of a snapshot in the fixed array of entries.
  function Clamp(s: Snap): (c: Snap)
    requires WellSized(s)
    ensures WellSized(c) && c.count <= MAX_ENTRIES
  {
    if s.count <= MAX_ENTRIES then s else Snap(MAX_ENTRIES, s.words[..MAX_ENTRIES * ENTRY_WORDS])
  }

  // ---- the two programs ----

  datatype Writer =
    | Idle
    | Loaded(start: nat, snap: Snap)                 // start holds seq
    | Locked(start: nat, snap: Snap)                 // seq = start + 1 stored
    | Copying(start: nat, snap: Snap, next: nat)     // count stored, words below next stored

  datatype Reader =
    | Polling
    | Begun(before: nat)                                        // seq loaded and even
    | Reading(before: nat, count: nat, got: seq<nat>)           // count loaded, |got| words copied
    | Got(before: nat, snap: Snap)                              // the second load agreed

  // A finished read: the value returned, and the writer's progress when it began and ended.
  datatype Result = Result(seqno: nat, snap: Snap, began: nat, ended: nat)

  // modulus is 2^32 for a uint32 sequence number. ticks counts the stores to seq without wrapping;
  // published, ticks, began and log only record history.
  datatype Sys = Sys(
    modulus: nat,
    seqno: nat, count: nat, words: seq<nat>,
    writer: Writer, reader: Reader,
    published: seq<Snap>, ticks: nat, began: nat, log: seq<Result>)

  function Init(modulus: nat): Sys {
    Sys(modulus, 0, 0, seq(MAX_ENTRIES * ENTRY_WORDS, _ => 0), Idle, Polling, [EMPTY], 0, 0, [])
  }

  datatype Action = Publish(snap: Snap) | WriterStep | ReaderStep

  predicate WellFormed(a: Action) {
    a.Publish? ==> WellSized(a.snap)
  }

  function WriterNext(sys: Sys, a: Action): (sys': Sys)
    requires WellFormed(a)
  {
    match sys.writer
    case Idle =>
      if a.Publish? then sys.(writer := Loaded(sys.seqno, Clamp(a.snap))) else sys
    case Loaded(start, snap) =>
      sys.(seqno := Wrap(start + 1, sys.modulus), ticks := sys.ticks + 1, writer := Locked(start, snap))
    case Locked(start, snap) =>
      sys.(count := snap.count, writer := Copying(start, snap, 0))
    case Copying(start, snap, next) =>
      if next < |snap.words| && next < |sys.words| then
        sys.(words := sys.words[next := snap.words[next]], writer := Copying(start, snap, next + 1))
      else
        sys.(seqno := Wrap(start + 2, sys.modulus), ticks := sys.ticks + 1, published := sys.published + [snap],
          writer := Idle)
  }

  function ReaderNext(sys: Sys): (sys': Sys)
  {
    match sys.reader
    case Polling =>
      if sys.seqno % 2 == 1 then sys else sys.(reader := Begun(sys.seqno), began := sys.ticks)
    case Begun(before) =>
      sys.(reader := Reading(before, if sys.count <= MAX_ENTRIES then sys.count else MAX_ENTRIES, []))
    case Reading(before, count, got) =>
      if |got| < count * ENTRY_WORDS && |got| < |sys.words| then
        sys.(reader := Reading(before, count, got + [sys.words[|got|]]))
      else if sys.seqno == before then
        sys.(reader := Got(before, Snap(count, got)),
             log := sys.log + [Result(before, Snap(count, got), sys.began, sys.ticks)])
      else
        sys.(reader := Polling)
    case Got(_, _) =>
      sys.(reader := Polling)
  }

  function Next(sys: Sys, a: Action): (sys': Sys)
    requires WellFormed(a)
    ensures sys'.modulus == sys.modulus
  {
    if a.ReaderStep? then ReaderNext(sys) else WriterNext(sys, a)
  }

  function Run(sys: Sys, acts: seq<Action>): (sys': Sys)
    requires forall k | 0 <= k < |acts| :: WellFormed(acts[k])
    ensures sys'.modulus == sys.modulus
  {
    if acts == [] then sys else Next(Run(sys, acts[..|acts| - 1]), acts[|acts| - 1])
  }

  // ---- the invariant ----

  // The memory holds snapshot s.
  predicate Holds(sys: Sys, s: Snap) {
    sys.count == s.count && |s.words| <= |sys.words| && sys.words[..|s.words|] == s.words
  }

  predicate HistoryInv(sys: Sys) {
    && 0 < sys.modulus && sys.modulus % 2 == 0
    && sys.seqno == sys.ticks % sys.modulus
    && |sys.words| == MAX_ENTRIES * ENTRY_WORDS
    && |sys.published| == sys.ticks / 2 + 1
    && forall k | 0 <= k < |sys.published| :: WellSized(sys.published[k]) && sys.published[k].count <= MAX_ENTRIES
  }

  predicate WriterInv(sys: Sys)
    requires HistoryInv(sys)
  {
    match sys.writer
    case Idle => sys.ticks % 2 == 0 && Holds(sys, sys.published[sys.ticks / 2])
    case Loaded(start, snap) =>
      && sys.ticks % 2 == 0 && Holds(sys, sys.published[sys.ticks / 2])
      && start == sys.seqno && WellSized(snap) && snap.count <= MAX_ENTRIES
    case Locked(start, snap) =>
      && sys.ticks % 2 == 1 && start == (sys.ticks - 1) % sys.modulus && WellSized(snap) && snap.count <= MAX_ENTRIES
    case Copying(start, snap, next) =>
      && sys.ticks % 2 == 1 && start == (sys.ticks - 1) % sys.modulus && WellSized(snap) && snap.count <= MAX_ENTRIES
      && sys.count == snap.count && next <= |snap.words| && sys.words[..next] == snap.words[..next]
  }

  // While the writer has not stored to seq since the read began, what was read agrees with the
  // snapshot current at that time.
  predicate ReaderInv(sys: Sys)
    requires HistoryInv(sys)
  {
    && sys.began <= sys.ticks
    && (sys.reader.Begun? || sys.reader.Reading? ==> sys.began % 2 == 0 && sys.reader.before == sys.began % sys.modulus)
    && (sys.reader.Reading? && sys.ticks == sys.began ==>
          var s := sys.published[sys.began / 2];
          sys.reader.count == s.count && |sys.reader.got| <= |s.words| && sys.reader.got == s.words[..|sys.reader.got|])
    && (sys.reader.Reading? ==> sys.reader.count <= MAX_ENTRIES && |sys.reader.got| <= sys.reader.count * ENTRY_WORDS)
  }

  // A read during which the writer stored to seq fewer than modulus times.
  predicate Brief(modulus: nat, r: Result) {
    r.ended - r.began < modulus
  }

  predicate Faithful(modulus: nat, published: seq<Snap>, r: Result)
    requires 0 < modulus
  {
    && r.began == r.ended && r.began % 2 == 0 && r.began / 2 < |published|
    && r.seqno == r.began % modulus && r.seqno % 2 == 0
    && r.snap == published[r.began / 2]
  }

  predicate LogInv(sys: Sys)
    requires HistoryInv(sys)
  {
    && (forall k | 0 <= k < |sys.log| :: sys.log[k].began <= sys.log[k].ended <= sys.ticks
          && (Brief(sys.modulus, sys.log[k]) ==> Faithful(sys.modulus, sys.published, sys.log[k])))
    && (forall k | 0 <= k < |sys.log| - 1 :: sys.log[k].ended <= sys.log[k + 1].began)
    && (sys.log != [] && (sys.reader.Begun? || sys.reader.Reading?) ==> sys.log[|sys.log| - 1].ended <= sys.began)
  }

  predicate Inv(sys: Sys) {
    HistoryInv(sys) && WriterInv(sys) && ReaderInv(sys) && LogInv(sys)
  }

  lemma InitInv(modulus: nat)
    requires 0 < modulus && modulus % 2 == 0
    ensures Inv(Init(modulus))
  {
  }

  // ---- every step keeps it ----

  lemma WriterKeeps(sys: Sys, a: Action)
    requires Inv(sys) && WellFormed(a)
    ensures var u := WriterNext(sys, a); HistoryInv(u) && WriterInv(u)
  {
    match sys.writer
    case Idle =>
    case Loaded(start, snap) =>
      ResidueStep(sys.ticks, sys.modulus, 1);
    case Locked(start, snap) =>
    case Copying(start, snap, next) =>
      if next < |snap.words| {
        var u := WriterNext(sys, a);
        assert u.words[..next + 1] == sys.words[..next] + [snap.words[next]];
        assert snap.words[..next + 1] == snap.words[..next] + [snap.words[next]];
      } else {
        ResidueStep(sys.ticks - 1, sys.modulus, 2);
      }
  }

  // The writer changes the memory only while the tick count is odd, so it never disturbs a read
  // that has not seen seq move.
  lemma WriterKeepsReads(sys: Sys, a: Action)
    requires Inv(sys) && WellFormed(a)
    ensures var u := WriterNext(sys, a); HistoryInv(u) && ReaderInv(u)
  {
    WriterKeeps(sys, a);
  }

  lemma WriterKeepsLog(sys: Sys, a: Action)
    requires Inv(sys) && WellFormed(a)
    ensures var u := WriterNext(sys, a); HistoryInv(u) && LogInv(u)
  {
    WriterKeeps(sys, a);
    SameLog(sys, WriterNext(sys, a));
  }

  // An unchanged log stays right as publications are added and time passes.
  lemma SameLog(sys: Sys, u: Sys)
    requires HistoryInv(sys) && HistoryInv(u) && LogInv(sys) && u.modulus == sys.modulus && u.log == sys.log
    requires sys.published <= u.published && sys.ticks <= u.ticks
    requires (u.reader.Begun? || u.reader.Reading?) && u.log != [] ==> u.log[|u.log| - 1].ended <= u.began
    ensures LogInv(u)
  {
    forall k | 0 <= k < |u.log| && Brief(u.modulus, u.log[k]) ensures Faithful(u.modulus, u.published, u.log[k]) {
      assert Faithful(sys.modulus, sys.published, sys.log[k]);
    }
  }

  lemma ReaderKeeps(sys: Sys)
    requires Inv(sys)
    ensures var u := ReaderNext(sys); HistoryInv(u) && WriterInv(u) && ReaderInv(u)
  {
    EvenResidue(sys.ticks, sys.modulus);
    var u := ReaderNext(sys);
    if sys.reader.Reading? && sys.ticks == sys.began && u.reader.Reading? {
      var s := sys.published[sys.began / 2];
      var n := |sys.reader.got|;
      assert sys.words[n] == sys.words[..|s.words|][n];
      assert s.words[..n + 1] == s.words[..n] + [s.words[n]];
    }
  }

  lemma ReaderKeepsLog(sys: Sys)
    requires Inv(sys)
    ensures HistoryInv(ReaderNext(sys)) && LogInv(ReaderNext(sys))
  {
    if ReaderNext(sys).log == sys.log {
      SameLog(sys, ReaderNext(sys));
    } else {
      LogsResult(sys);
    }
  }

  // A read that ends well logs a result, faithful if the read was brief.
  lemma LogsResult(sys: Sys)
    requires Inv(sys) && ReaderNext(sys).log != sys.log
    ensures HistoryInv(ReaderNext(sys)) && LogInv(ReaderNext(sys))
  {
    var u := ReaderNext(sys);
    var r := u.log[|sys.log|];
    assert u.log == sys.log + [r];
    assert r == Result(sys.reader.before, Snap(sys.reader.count, sys.reader.got), sys.began, sys.ticks);
    if Brief(sys.modulus, r) {
      SameResidue(sys.began, sys.ticks, sys.modulus);
      EvenResidue(sys.began, sys.modulus);
      assert Faithful(sys.modulus, sys.published, r);
    }
  }

  lemma NextKeeps(sys: Sys, a: Action)
    requires Inv(sys) && WellFormed(a)
    ensures Inv(Next(sys, a))
  {
    if a.ReaderStep? {
      ReaderKeeps(sys);
      ReaderKeepsLog(sys);
    } else {
      WriterKeeps(sys, a);
      WriterKeepsReads(sys, a);
      WriterKeepsLog(sys, a);
    }
  }

  lemma {:induction false} RunInv(sys: Sys, acts: seq<Action>)
    requires Inv(sys) && forall k | 0 <= k < |acts| :: WellFormed(acts[k])
    ensures Inv(Run(sys, acts))
  {
    if acts != [] {
      RunInv(sys, acts[..|acts| - 1]);
      NextKeeps(Run(sys, acts[..|acts| - 1]), acts[|acts| - 1]);
    }
  }

  // ---- the theorem ----

  lemma {:induction false} LogOrder(sys: Sys, i: nat, j: nat)
    requires HistoryInv(sys) && LogInv(sys) && i < j < |sys.log|
    ensures sys.log[i].ended <= sys.log[j].began
  {
    if i < j - 1 {
      LogOrder(sys, i, j - 1);
    }
  }

  // Under every interleaving, each read during which fewer than modulus / 2 publications took place
  // returned one complete published snapshot under its own even sequence number, and of two such
  // reads the later never returned an older snapshot.
  lemma SeqlockSafety(modulus: nat, acts: seq<Action>, i: nat, j: nat)
    requires 0 < modulus && modulus % 2 == 0 && forall k | 0 <= k < |acts| :: WellFormed(acts[k])
    requires i <= j < |Run(Init(modulus), acts).log|
    requires Brief(modulus, Run(Init(modulus), acts).log[i]) && Brief(modulus, Run(Init(modulus), acts).log[j])
    ensures var sys := Run(Init(modulus), acts);
      && Faithful(modulus, sys.published, sys.log[i]) && Faithful(modulus, sys.published, sys.log[j])
      && sys.log[i].began / 2 <= sys.log[j].began / 2
  {
    InitInv(modulus);
    RunInv(Init(modulus), acts);
    if i < j {
      LogOrder(Run(Init(modulus), acts), i, j);
    }
  }
}
