// Runs of a byte automaton, and what splitting or extending the input does to them. The three message
// parsers are such automata.
module Automaton {
  import opened Bytes

  function Run<V>(step: (V, byte) -> V, v: V, bs: seq<byte>): V {
    if bs == [] then v else step(Run(step, v, bs[..|bs| - 1]), bs[|bs| - 1])
  }

  lemma {:induction false} RunSnoc<V>(step: (V, byte) -> V, v: V, bs: seq<byte>, b: byte)
    ensures Run(step, v, bs + [b]) == step(Run(step, v, bs), b)
  {
    assert (bs + [b])[..|bs + [b]| - 1] == bs;
  }

  /** Splitting the input anywhere changes nothing. */
  lemma {:induction false} RunAppend<V>(step: (V, byte) -> V, v: V, a: seq<byte>, b: seq<byte>)
    ensures Run(step, v, a + b) == Run(step, Run(step, v, a), b)
  {
    if b == [] {
      assert a + b == a;
    } else {
      assert (a + b)[..|a + b| - 1] == a + b[..|b| - 1];
      RunAppend(step, v, a, b[..|b| - 1]);
    }
  }

  /** A value that no byte changes. */
  ghost predicate Final<V>(step: (V, byte) -> V, v: V) { forall b: byte :: step(v, b) == v }

  lemma {:induction false} Absorbing<V>(step: (V, byte) -> V, v: V, bs: seq<byte>)
    requires Final(step, v)
    ensures Run(step, v, bs) == v
  {
    if bs != [] {
      Absorbing(step, v, bs[..|bs| - 1]);
    }
  }

  /** No proper prefix of `bs` has led to a value that is done. */
  predicate NotYet<V>(step: (V, byte) -> V, v: V, done: V -> bool, bs: seq<byte>) {
    forall k :: 0 <= k < |bs| ==> !done(Run(step, v, bs[..k]))
  }

  lemma {:induction false} NotYetPrefix<V>(step: (V, byte) -> V, v: V, done: V -> bool, bs: seq<byte>)
    requires bs != [] && NotYet(step, v, done, bs)
    ensures NotYet(step, v, done, bs[..|bs| - 1]) && !done(Run(step, v, bs[..|bs| - 1]))
  {
    var cs := bs[..|bs| - 1];
    forall k | 0 <= k < |cs|
      ensures !done(Run(step, v, cs[..k]))
    {
      assert cs[..k] == bs[..k];
    }
  }

  /** If a value that is done stays, and there is none just before the last byte, there was none
      earlier. */
  lemma {:induction false} NotYetSnoc<V>(step: (V, byte) -> V, v: V, done: V -> bool, bs: seq<byte>, b: byte)
    requires !done(Run(step, v, bs)) && forall w :: done(w) ==> Final(step, w)
    ensures NotYet(step, v, done, bs + [b])
  {
    forall k | 0 <= k < |bs + [b]|
      ensures !done(Run(step, v, (bs + [b])[..k]))
    {
      assert (bs + [b])[..k] == bs[..k] && bs[..k] + bs[k..] == bs;
      RunAppend(step, v, bs[..k], bs[k..]);
      if done(Run(step, v, bs[..k])) {
        Absorbing(step, Run(step, v, bs[..k]), bs[k..]);
      }
    }
  }

  /** One step of a run that is still not done. */
  lemma {:induction false} FirstByte<V>(step: (V, byte) -> V, v: V, done: V -> bool, bs: seq<byte>)
    requires bs != [] && !done(Run(step, v, bs)) && forall w :: done(w) ==> Final(step, w)
    ensures !done(step(v, bs[0])) && Run(step, v, bs) == Run(step, step(v, bs[0]), bs[1..])
  {
    RunSnoc(step, v, [], bs[0]);
    assert [] + [bs[0]] == [bs[0]] && bs == [bs[0]] + bs[1..];
    RunAppend(step, v, [bs[0]], bs[1..]);
    if done(step(v, bs[0])) {
      Absorbing(step, step(v, bs[0]), bs[1..]);
    }
  }

  // ---- Automata whose value determines what was fed ----

  datatype Machine<!V> = Machine(init: V, step: (V, byte) -> V, done: V -> bool, failed: V -> bool,
                                 sound: V -> bool, consumed: V -> seq<byte>)

  ghost predicate Remembers<V(!new)>(m: Machine<V>) {
    && m.sound(m.init) && m.consumed(m.init) == []
    && (forall v, b: byte :: m.sound(v) ==> m.sound(m.step(v, b)))
    && (forall v, b: byte :: m.sound(v) && !m.done(v) && !m.failed(m.step(v, b)) ==>
      !m.failed(v) && m.consumed(m.step(v, b)) == m.consumed(v) + [b])
  }

  /** Every value reached is sound; until the machine is done or fails it determines the bytes. */
  lemma {:induction false} RunConsumes<V(!new)>(m: Machine<V>, bs: seq<byte>)
    requires Remembers(m)
    ensures var v := Run(m.step, m.init, bs);
      m.sound(v) && (NotYet(m.step, m.init, m.done, bs) && !m.failed(v) ==> m.consumed(v) == bs)
  {
    if bs != [] {
      var cs, b := bs[..|bs| - 1], bs[|bs| - 1];
      RunConsumes(m, cs);
      if NotYet(m.step, m.init, m.done, bs) {
        NotYetPrefix(m.step, m.init, m.done, bs);
        assert cs + [b] == bs;
      }
    }
  }

  /** If fewer than `limit` bytes lead to any value without an answer, that many bytes contain one. */
  lemma {:induction false} AnswerIsBounded<V(!new)>(m: Machine<V>, limit: nat, bs: seq<byte>)
    requires Remembers(m) && limit <= |bs|
    requires forall v :: m.sound(v) && !m.done(v) && !m.failed(v) ==> |m.consumed(v)| < limit
    ensures exists k :: 0 <= k <= |bs| && (var v := Run(m.step, m.init, bs[..k]); m.done(v) || m.failed(v))
  {
    RunConsumes(m, bs);
    assert bs[..|bs|] == bs;
    if NotYet(m.step, m.init, m.done, bs) {
      var v := Run(m.step, m.init, bs[..|bs|]);
      assert m.done(v) || m.failed(v);
    }
  }
}
