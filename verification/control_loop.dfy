// The control loop: every snapshot read becomes the backend pool the workers see.
module ControlLoop {
  import opened Modular
  import opened Net
  import opened BackendPools
  import opened Seqlock

  // ---- entries as words ----

  function Entries(s: Snap): (es: seq<ControlBackend>)
    requires WellSized(s)
    ensures |es| == s.count
  {
    seq(s.count, i requires 0 <= i < s.count =>
      ControlBackend(s.words[4 * i], s.words[4 * i + 1], s.words[4 * i + 2], s.words[4 * i + 3]))
  }

  function Words(es: seq<ControlBackend>): (words: seq<nat>)
    ensures |words| == ENTRY_WORDS * |es|
  {
    if es == [] then []
    else var b := es[|es| - 1]; Words(es[..|es| - 1]) + [b.ip, b.port, b.mac, b.enabled]
  }

  lemma {:induction false} WordsAt(es: seq<ControlBackend>, i: nat)
    requires i < |es|
    ensures var ws := Words(es);
      ws[4 * i] == es[i].ip && ws[4 * i + 1] == es[i].port && ws[4 * i + 2] == es[i].mac
        && ws[4 * i + 3] == es[i].enabled
  {
    var init := es[..|es| - 1];
    if i < |init| {
      WordsAt(init, i);
    }
  }

  function Packed(es: seq<ControlBackend>): (s: Snap)
    ensures WellSized(s)
  {
    Snap(|es|, Words(es))
  }

  lemma EntryAt(es: seq<ControlBackend>, i: nat)
    requires i < |es|
    ensures Entries(Packed(es))[i] == es[i]
  {
    WordsAt(es, i);
    var b := es[i];
    assert b == ControlBackend(b.ip, b.port, b.mac, b.enabled);
  }

  // Nothing of a backend is lost on its way through the shared memory.
  lemma EntriesRoundTrip(es: seq<ControlBackend>)
    ensures Entries(Packed(es)) == es
  {
    var back := Entries(Packed(es));
    forall i: nat | i < |es| ensures back[i] == es[i] {
      EntryAt(es, i);
    }
  }

  // ---- the loop ----

  // version is history: which published snapshot the pool was built from.
  datatype Applied = Applied(seqno: nat, pool: Pool, version: nat)

  datatype Control = Control(sys: Sys, applied: Option<Applied>)

  function ControlStart(modulus: nat): Control {
    Control(Init(modulus), None)
  }

  // The first snapshot is applied unconditionally, later ones when the sequence number differs.
  function Apply(c: Control): (c': Control)
    requires c.sys.reader.Got? && WellSized(c.sys.reader.snap) && c.sys.log != []
  {
    var r := c.sys.reader;
    var next := Control(c.sys.(reader := Polling), c.applied);
    if c.applied.Some? && c.applied.value.seqno == r.before then next
    else next.(applied := Some(Applied(r.before, PoolOf(Entries(r.snap)), c.sys.log[|c.sys.log| - 1].began / 2)))
  }

  // What the reader holds is the last result of the log.
  predicate GotInv(sys: Sys) {
    sys.reader.Got? ==>
      && sys.log != [] && WellSized(sys.reader.snap) && sys.reader.snap.count <= MAX_ENTRIES
      && var r := sys.log[|sys.log| - 1]; r.snap == sys.reader.snap && r.seqno == sys.reader.before
  }

  function Next(c: Control, a: Action): (c': Control)
    requires Inv(c.sys) && GotInv(c.sys) && WellFormed(a)
    ensures Inv(c'.sys) && GotInv(c'.sys) && c'.sys.modulus == c.sys.modulus
  {
    NextKeeps(c.sys, a);
    if a.ReaderStep? && c.sys.reader.Got? then Apply(c) else Control(Seqlock.Next(c.sys, a), c.applied)
  }

  function Run(c: Control, acts: seq<Action>): (c': Control)
    requires Inv(c.sys) && GotInv(c.sys) && forall k | 0 <= k < |acts| :: WellFormed(acts[k])
    ensures Inv(c'.sys) && GotInv(c'.sys) && c'.sys.modulus == c.sys.modulus
  {
    if acts == [] then c else Next(Run(c, acts[..|acts| - 1]), acts[|acts| - 1])
  }

  // ---- the invariant ----

  predicate AllBrief(sys: Sys) {
    forall k | 0 <= k < |sys.log| :: Brief(sys.modulus, sys.log[k])
  }

  // The pool in use is built from the published snapshot its sequence number stands for.
  predicate Current(sys: Sys, a: Applied)
    requires Inv(sys)
  {
    && a.version < |sys.published|
    && a.pool == PoolOf(Entries(sys.published[a.version]))
    && a.seqno == (2 * a.version) % sys.modulus
    && Fits(a.pool)
    && sys.log != [] && 2 * a.version <= sys.log[|sys.log| - 1].began
  }

  predicate ControlInv(c: Control)
    requires Inv(c.sys)
  {
    AllBrief(c.sys) && c.applied.Some? ==> Current(c.sys, c.applied.value)
  }

  lemma LogGrows(sys: Sys, a: Action)
    requires Inv(sys) && WellFormed(a)
    ensures var u := Seqlock.Next(sys, a);
      && Inv(u)
      && sys.published <= u.published && sys.log <= u.log && |u.log| <= |sys.log| + 1
      && (|u.log| > |sys.log| > 0 ==> sys.log[|sys.log| - 1].began <= u.log[|sys.log|].began)
  {
    NextKeeps(sys, a);
    var u := Seqlock.Next(sys, a);
    if |u.log| > |sys.log| > 0 {
      assert sys.log[|sys.log| - 1].ended <= sys.began;
    }
  }

  lemma PoolFits(es: seq<ControlBackend>)
    requires |es| <= MAX_BACKENDS
    ensures Fits(PoolOf(es))
  {
  }

  // The last result of the log, applied.
  lemma LastIsCurrent(sys: Sys)
    requires Inv(sys) && GotInv(sys) && sys.reader.Got? && Brief(sys.modulus, sys.log[|sys.log| - 1])
    ensures Current(sys, Applied(sys.reader.before, PoolOf(Entries(sys.reader.snap)), sys.log[|sys.log| - 1].began / 2))
  {
    var r := sys.log[|sys.log| - 1];
    assert Faithful(sys.modulus, sys.published, r);
    PoolFits(Entries(r.snap));
  }

  lemma ApplyKeeps(c: Control)
    requires Inv(c.sys) && GotInv(c.sys) && c.sys.reader.Got? && ControlInv(c)
    ensures Inv(Apply(c).sys) && ControlInv(Apply(c))
  {
    NextKeeps(c.sys, ReaderStep);
    if AllBrief(c.sys) {
      var sys := Apply(c).sys;
      LastIsCurrent(c.sys);
      StillCurrent(c.sys, sys, Apply(c).applied.value);
    }
  }

  lemma StillCurrent(sys: Sys, sys': Sys, a: Applied)
    requires Inv(sys) && Inv(sys') && Current(sys, a)
    requires sys'.published == sys.published && sys'.log == sys.log && sys'.modulus == sys.modulus
    ensures Current(sys', a)
  {
  }

  lemma StepKeeps(c: Control, a: Action)
    requires Inv(c.sys) && GotInv(c.sys) && ControlInv(c) && WellFormed(a)
    ensures ControlInv(Next(c, a))
  {
    if a.ReaderStep? && c.sys.reader.Got? {
      ApplyKeeps(c);
    } else {
      LogGrows(c.sys, a);
      if c.applied.Some? {
        OthersKeep(c.sys, Seqlock.Next(c.sys, a), c.applied.value);
      }
    }
  }

  // A longer history leaves the pool in use as it was.
  lemma OthersKeep(sys: Sys, u: Sys, a: Applied)
    requires Inv(sys) && Inv(u) && u.modulus == sys.modulus && sys.published <= u.published && sys.log <= u.log
    requires |u.log| <= |sys.log| + 1 && (|u.log| > |sys.log| > 0 ==>
      sys.log[|sys.log| - 1].began <= u.log[|sys.log|].began)
    requires AllBrief(sys) ==> Current(sys, a)
    ensures AllBrief(u) ==> Current(u, a)
  {
    if AllBrief(u) {
      forall k | 0 <= k < |sys.log| ensures Brief(sys.modulus, sys.log[k]) {
        assert u.log[k] == sys.log[k];
      }
    }
  }

  // ---- the indices always fit ----

  // Whatever was read, torn or not, has at most 64 entries.
  predicate AppliedFits(c: Control) {
    c.applied.Some? ==> Fits(c.applied.value.pool)
  }

  lemma NextFits(c: Control, a: Action)
    requires Inv(c.sys) && GotInv(c.sys) && WellFormed(a) && AppliedFits(c)
    ensures AppliedFits(Next(c, a))
  {
    if a.ReaderStep? && c.sys.reader.Got? {
      PoolFits(Entries(c.sys.reader.snap));
    }
  }

  // Under every interleaving, without any bound on how long a read takes, the indices of the pool in
  // use fit the 64 port pools and counters.
  lemma {:induction false} PoolAlwaysFits(modulus: nat, acts: seq<Action>)
    requires 0 < modulus && modulus % 2 == 0 && forall k | 0 <= k < |acts| :: WellFormed(acts[k])
    ensures Inv(ControlStart(modulus).sys) && GotInv(ControlStart(modulus).sys)
    ensures AppliedFits(Run(ControlStart(modulus), acts))
  {
    InitInv(modulus);
    if acts != [] {
      PoolAlwaysFits(modulus, acts[..|acts| - 1]);
      NextFits(Run(ControlStart(modulus), acts[..|acts| - 1]), acts[|acts| - 1]);
    }
  }

  // In every run whose reads were all brief, the pool the workers see is the one built from the
  // published snapshot of its sequence number.
  lemma {:induction false} PoolIsPublished(modulus: nat, acts: seq<Action>)
    requires 0 < modulus && modulus % 2 == 0 && forall k | 0 <= k < |acts| :: WellFormed(acts[k])
    ensures Inv(ControlStart(modulus).sys) && GotInv(ControlStart(modulus).sys)
    ensures ControlInv(Run(ControlStart(modulus), acts))
  {
    InitInv(modulus);
    if acts != [] {
      PoolIsPublished(modulus, acts[..|acts| - 1]);
      StepKeeps(Run(ControlStart(modulus), acts[..|acts| - 1]), acts[|acts| - 1]);
    }
  }

  // Handling a result leaves the pool at that result's snapshot, unless a whole period of
  // publications passed since the pool was last replaced.
  lemma ApplyFresh(c: Control)
    requires Inv(c.sys) && GotInv(c.sys) && c.sys.reader.Got? && ControlInv(c) && AllBrief(c.sys)
    requires var v := c.sys.log[|c.sys.log| - 1].began; c.applied.Some? ==>
      v < 2 * c.applied.value.version + c.sys.modulus
    ensures var a := Apply(c).applied; var r := c.sys.log[|c.sys.log| - 1];
      a.Some? && a.value.version == r.began / 2 && a.value.pool == PoolOf(Entries(r.snap))
  {
    var r := c.sys.log[|c.sys.log| - 1];
    assert Brief(c.sys.modulus, r) && Faithful(c.sys.modulus, c.sys.published, r);
    if c.applied.Some? && c.applied.value.seqno == r.seqno {
      SameResidue(2 * c.applied.value.version, r.began, c.sys.modulus);
    }
  }

  // New flows are only ever sent to backends that were published as enabled.
  lemma AppliedSelectsEnabled(hash: Hasher, sys: Sys, a: Applied, key: FlowKey)
    requires Inv(sys) && Current(sys, a) && a.pool.active != []
    ensures var b := Select(hash, a.pool, key); var es := Entries(sys.published[a.version]);
      b < |es| && es[b].enabled != 0 && a.pool.slots[b] == Backend(es[b].ip, es[b].port, es[b].mac)
  {
    SelectsEnabled(hash, Entries(sys.published[a.version]), key);
  }
}
