// What the bound on publications per read is for: with a period of publications in between, a read
// returns words of two snapshots under one sequence number.
module SeqlockLimits {
  import opened Modular
  import opened Seqlock

  function Exec(sys: Sys, acts: seq<Action>): Sys
    requires forall k | 0 <= k < |acts| :: WellFormed(acts[k])
    decreases |acts|
  {
    if acts == [] then sys else Exec(Next(sys, acts[0]), acts[1..])
  }

  lemma {:induction false} ExecConcat(sys: Sys, xs: seq<Action>, ys: seq<Action>)
    requires forall k | 0 <= k < |xs| :: WellFormed(xs[k])
    requires forall k | 0 <= k < |ys| :: WellFormed(ys[k])
    ensures forall k | 0 <= k < |xs + ys| :: WellFormed((xs + ys)[k])
    ensures Exec(sys, xs + ys) == Exec(Exec(sys, xs), ys)
    decreases |xs|
  {
    if xs == [] {
      assert xs + ys == ys;
    } else {
      assert (xs + ys)[1..] == xs[1..] + ys;
      ExecConcat(Next(sys, xs[0]), xs[1..], ys);
    }
  }

  lemma {:induction false} ExecIsRun(sys: Sys, acts: seq<Action>)
    requires forall k | 0 <= k < |acts| :: WellFormed(acts[k])
    ensures Exec(sys, acts) == Run(sys, acts)
  {
    if acts != [] {
      var init := acts[..|acts| - 1];
      ExecIsRun(sys, init);
      ExecConcat(sys, init, [acts[|acts| - 1]]);
      assert acts == init + [acts[|acts| - 1]];
      assert Exec(Exec(sys, init), [acts[|acts| - 1]]) == Next(Exec(sys, init), acts[|acts| - 1]);
    }
  }

  function Repeat(a: Action, n: nat): (acts: seq<Action>)
    requires !a.Publish?
    ensures |acts| == n && forall k | 0 <= k < n :: acts[k] == a
  {
    if n == 0 then [] else [a] + Repeat(a, n - 1)
  }

  lemma ExecRepeat(s: Sys, a: Action, n: nat)
    requires !a.Publish? && 0 < n
    ensures Exec(s, Repeat(a, n)) == Exec(Next(s, a), Repeat(a, n - 1))
  {
    assert Repeat(a, n)[1..] == Repeat(a, n - 1);
  }

  function Uniform(v: nat): Snap {
    Snap(1, [v, v, v, v])
  }

  function WriteWords(ws: seq<nat>, v: nat): seq<nat>
    requires 4 <= |ws|
  {
    ws[0 := v][1 := v][2 := v][3 := v]
  }

  function Publishing(v: nat): (acts: seq<Action>)
    ensures forall k | 0 <= k < |acts| :: WellFormed(acts[k])
  {
    [Publish(Uniform(v))] + Repeat(WriterStep, 7)
  }

  function PublishedNow(sys: Sys, v: nat): Sys
    requires 4 <= |sys.words|
  {
    sys.(seqno := Wrap(sys.seqno + 2, sys.modulus), count := 1, words := WriteWords(sys.words, v),
         published := sys.published + [Uniform(v)], ticks := sys.ticks + 2)
  }

  lemma PublishAlone(sys: Sys, v: nat)
    requires sys.writer.Idle? && 4 <= |sys.words|
    ensures Exec(sys, Publishing(v)) == PublishedNow(sys, v)
  {
    var s1 := sys.(writer := Loaded(sys.seqno, Uniform(v)));
    var s2 := s1.(seqno := Wrap(sys.seqno + 1, sys.modulus), ticks := sys.ticks + 1,
                  writer := Locked(sys.seqno, Uniform(v)));
    var s3 := s2.(count := 1, writer := Copying(sys.seqno, Uniform(v), 0));
    assert Publishing(v)[1..] == Repeat(WriterStep, 7) && Next(sys, Publishing(v)[0]) == s1;
    assert Next(s1, WriterStep) == s2 && Next(s2, WriterStep) == s3;
    ExecRepeat(s1, WriterStep, 7);
    ExecRepeat(s2, WriterStep, 6);
    CopyAlone(s3, v);
  }

  lemma CopyAlone(s: Sys, v: nat)
    requires s.writer.Copying? && s.writer.snap == Uniform(v) && s.writer.next == 0 && 4 <= |s.words|
    ensures Exec(s, Repeat(WriterStep, 5))
         == s.(seqno := Wrap(s.writer.start + 2, s.modulus), words := WriteWords(s.words, v),
               published := s.published + [Uniform(v)], ticks := s.ticks + 1, writer := Idle)
  {
    var st := s.writer.start;
    var s1 := s.(words := s.words[0 := v], writer := Copying(st, Uniform(v), 1));
    var s2 := s1.(words := s1.words[1 := v], writer := Copying(st, Uniform(v), 2));
    var s3 := s2.(words := s2.words[2 := v], writer := Copying(st, Uniform(v), 3));
    var s4 := s3.(words := s3.words[3 := v], writer := Copying(st, Uniform(v), 4));
    ExecRepeat(s, WriterStep, 5);
    ExecRepeat(s1, WriterStep, 4);
    ExecRepeat(s2, WriterStep, 3);
    ExecRepeat(s3, WriterStep, 2);
    ExecRepeat(s4, WriterStep, 1);
  }

  // ---- many publications in a row ----

  function PublishingMany(v: nat, n: nat): (acts: seq<Action>)
    ensures forall k | 0 <= k < |acts| :: WellFormed(acts[k])
  {
    if n == 0 then [] else PublishingMany(v, n - 1) + Publishing(v)
  }

  function SameSnaps(v: nat, n: nat): (snaps: seq<Snap>)
    ensures |snaps| == n && forall k | 0 <= k < n :: snaps[k] == Uniform(v)
  {
    seq(n, _ => Uniform(v))
  }

  // n publications of the same snapshot later.
  function PublishedTimes(sys: Sys, v: nat, n: nat): Sys
    requires 4 <= |sys.words| && 0 < sys.modulus
  {
    sys.(seqno := (sys.ticks + 2 * n) % sys.modulus, count := 1, words := WriteWords(sys.words, v),
         published := sys.published + SameSnaps(v, n), ticks := sys.ticks + 2 * n)
  }

  // One more publication of what is already there.
  lemma PublishedOnceMore(sys: Sys, v: nat, n: nat)
    requires 4 <= |sys.words| && 2 <= sys.modulus
    ensures PublishedNow(PublishedTimes(sys, v, n), v) == PublishedTimes(sys, v, n + 1)
  {
    var prev := PublishedTimes(sys, v, n);
    ResidueStep(prev.ticks, sys.modulus, 2);
    assert WriteWords(prev.words, v) == prev.words;
    assert prev.published + [Uniform(v)] == sys.published + SameSnaps(v, n + 1);
  }

  lemma PublishedFirst(sys: Sys, v: nat)
    requires 4 <= |sys.words| && 2 <= sys.modulus && sys.seqno == sys.ticks % sys.modulus
    ensures PublishedNow(sys, v) == PublishedTimes(sys, v, 1)
  {
    ResidueStep(sys.ticks, sys.modulus, 2);
    assert SameSnaps(v, 1) == [Uniform(v)];
  }

  lemma {:induction false} PublishMany(sys: Sys, v: nat, n: nat)
    requires sys.writer.Idle? && 4 <= |sys.words| && 2 <= sys.modulus && sys.seqno == sys.ticks % sys.modulus && 0 < n
    ensures Exec(sys, PublishingMany(v, n)) == PublishedTimes(sys, v, n)
  {
    if n == 1 {
      assert PublishingMany(v, 1) == Publishing(v) by {
        assert PublishingMany(v, 0) == [];
      }
      PublishAlone(sys, v);
      PublishedFirst(sys, v);
    } else {
      PublishMany(sys, v, n - 1);
      ExecConcat(sys, PublishingMany(v, n - 1), Publishing(v));
      PublishAlone(PublishedTimes(sys, v, n - 1), v);
      PublishedOnceMore(sys, v, n - 1);
    }
  }

  // ---- the read ----

  // The reader up to its first word, and from there to the end.
  lemma ReadBegins(s: Sys, v: nat)
    requires s.reader.Polling? && s.seqno % 2 == 0 && s.count == 1 && 4 <= |s.words| && s.words[0] == v
    ensures Exec(s, Repeat(ReaderStep, 3)) == s.(reader := Reading(s.seqno, 1, [v]), began := s.ticks)
  {
    var s1 := s.(reader := Begun(s.seqno), began := s.ticks);
    var s2 := s1.(reader := Reading(s.seqno, 1, []));
    var s3 := s1.(reader := Reading(s.seqno, 1, [v]));
    assert Next(s, ReaderStep) == s1 && Next(s1, ReaderStep) == s2;
    assert Next(s2, ReaderStep) == s3 by {
      assert [] + [v] == [v];
    }
    ExecRepeat(s, ReaderStep, 3);
    ExecRepeat(s1, ReaderStep, 2);
    ExecRepeat(s2, ReaderStep, 1);
  }

  lemma ReadEnds(s: Sys, v: nat, u: nat)
    requires s.reader == Reading(s.seqno, 1, [v]) && 4 <= |s.words| && s.words[1] == s.words[2] == s.words[3] == u
    ensures Exec(s, Repeat(ReaderStep, 4))
         == s.(reader := Got(s.seqno, Snap(1, [v, u, u, u])),
               log := s.log + [Result(s.seqno, Snap(1, [v, u, u, u]), s.began, s.ticks)])
  {
    var q := s.seqno;
    var s1 := s.(reader := Reading(q, 1, [v, u]));
    var s2 := s.(reader := Reading(q, 1, [v, u, u]));
    var s3 := s.(reader := Reading(q, 1, [v, u, u, u]));
    assert [v] + [u] == [v, u] && [v, u] + [u] == [v, u, u] && [v, u, u] + [u] == [v, u, u, u];
    ExecRepeat(s, ReaderStep, 4);
    ExecRepeat(s1, ReaderStep, 3);
    ExecRepeat(s2, ReaderStep, 2);
    ExecRepeat(s3, ReaderStep, 1);
  }

  // ---- the torn read ----

  function TornRun(modulus: nat): (acts: seq<Action>)
    ensures forall k | 0 <= k < |acts| :: WellFormed(acts[k])
  {
    Publishing(1) + Repeat(ReaderStep, 3) + PublishingMany(2, modulus / 2) + Repeat(ReaderStep, 4)
  }

  // Where the reader has one word of the first snapshot.
  function OneWordRead(modulus: nat): Sys
    requires 0 < modulus
  {
    var s := PublishedTimes(Init(modulus), 1, 1);
    s.(reader := Reading(s.seqno, 1, [1]), began := s.ticks)
  }

  lemma UpToOneWord(modulus: nat)
    requires 0 < modulus && modulus % 2 == 0
    ensures Exec(Init(modulus), Publishing(1) + Repeat(ReaderStep, 3)) == OneWordRead(modulus)
  {
    var s0 := Init(modulus);
    PublishAlone(s0, 1);
    PublishedFirst(s0, 1);
    EvenResidue(2, modulus);
    ReadBegins(PublishedTimes(s0, 1, 1), 1);
    ExecConcat(s0, Publishing(1), Repeat(ReaderStep, 3));
  }

  // A whole period of publications brings the sequence number back.
  lemma FullPeriod(modulus: nat)
    requires 0 < modulus && modulus % 2 == 0
    ensures var s := OneWordRead(modulus); PublishedTimes(s, 2, modulus / 2).seqno == s.seqno
  {
    var q := 2 / modulus;
    assert 2 == q * modulus + 2 % modulus;
    assert 2 + modulus == (q + 1) * modulus + 2 % modulus;
    ModUnique(2 + modulus, q + 1, 2 % modulus, modulus);
  }

  // For every period: a run in which exactly one period of stores to seq falls within a read. Its
  // only result mixes two snapshots and is none of those published.
  lemma TornRead(modulus: nat) returns (acts: seq<Action>)
    requires 0 < modulus && modulus % 2 == 0
    ensures forall k | 0 <= k < |acts| :: WellFormed(acts[k])
    ensures var sys := Run(Init(modulus), acts);
      && sys.published == [EMPTY, Uniform(1)] + SameSnaps(2, modulus / 2)
      && sys.log == [Result(2 % modulus, Snap(1, [1, 2, 2, 2]), 2, 2 + modulus)]
      && forall k | 0 <= k < |sys.published| :: sys.published[k] != sys.log[0].snap
  {
    acts := TornRun(modulus);
    TornExec(modulus);
    TornState(modulus);
    ExecIsRun(Init(modulus), acts);
  }

  lemma TornState(modulus: nat)
    requires 0 < modulus && modulus % 2 == 0
    ensures var s := PublishedTimes(OneWordRead(modulus), 2, modulus / 2);
      && s.seqno == 2 % modulus && s.began == 2 && s.ticks == 2 + modulus && s.log == []
      && s.published == [EMPTY, Uniform(1)] + SameSnaps(2, modulus / 2)
  {
    FullPeriod(modulus);
    assert [EMPTY] + SameSnaps(1, 1) == [EMPTY, Uniform(1)];
  }

  lemma TornExec(modulus: nat)
    requires 0 < modulus && modulus % 2 == 0
    ensures var s, snap := PublishedTimes(OneWordRead(modulus), 2, modulus / 2), Snap(1, [1, 2, 2, 2]);
      Exec(Init(modulus), TornRun(modulus))
      == s.(reader := Got(s.seqno, snap), log := s.log + [Result(s.seqno, snap, s.began, s.ticks)])
  {
    var s0, s2 := Init(modulus), OneWordRead(modulus);
    UpToOneWord(modulus);
    PublishMany(s2, 2, modulus / 2);
    FullPeriod(modulus);
    ReadEnds(PublishedTimes(s2, 2, modulus / 2), 1, 2);
    var begun, many := Publishing(1) + Repeat(ReaderStep, 3), PublishingMany(2, modulus / 2);
    ExecConcat(s0, begun, many);
    ExecConcat(s0, begun + many, Repeat(ReaderStep, 4));
  }
}
