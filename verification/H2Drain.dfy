/** The drain loop of the HTTP/2 scheduler ends, within a bound. */
module H2Drain {
  import opened Common
  import opened StreamBuffers
  import opened H2Send

  /** All bytes buffered for any stream. */
  ghost function TotalBytes(m: map<int, BufferView>): nat
    decreases m.Keys
  {
    if m.Keys == {} then 0
    else
      var id := AnyOf(m.Keys);
      |m[id].data| + TotalBytes(m - {id})
  }

  lemma {:induction false} TotalWithout(m: map<int, BufferView>, id: int)
    requires id in m
    ensures TotalBytes(m) == |m[id].data| + TotalBytes(m - {id})
    decreases m.Keys
  {
    var first := AnyOf(m.Keys);
    if first == id {
    } else {
      TotalWithout(m - {first}, id);
      TotalWithout(m - {id}, first);
      assert m - {first} - {id} == m - {id} - {first};
    }
  }

  /** What one turn of the drain loop uses up. */
  ghost function Fuel(s: Sched): nat { TotalBytes(s.buffers) + |s.ready| }

  /** One buffer changed, taken out, or kept. */
  lemma FewerBytes(m: map<int, BufferView>, id: int, m': map<int, BufferView>)
    requires id in m && m' - {id} == m - {id}
    requires id in m' ==> |m'[id].data| <= |m[id].data|
    ensures TotalBytes(m') <= TotalBytes(m)
    ensures id in m' && |m'[id].data| < |m[id].data| ==> TotalBytes(m') < TotalBytes(m)
  {
    TotalWithout(m, id);
    if id in m' {
      TotalWithout(m', id);
    } else {
      assert m' == m' - {id};
    }
  }

  /** A call uses up bytes, or takes its stream out of the ready ones. */
  lemma SendUses(s: Sched, w: Windows, id: int, r: Sent)
    requires Tidy(s) && id in s.ready && id in w.streams && Outcome(s, w, id, r)
    ensures r.sched.buffers - {id} == s.buffers - {id}
    ensures id in r.sched.buffers ==> |r.sched.buffers[id].data| <= |s.buffers[id].data|
    ensures if id in r.sched.ready then
              r.sched.ready == s.ready && id in r.sched.buffers
              && |r.sched.buffers[id].data| < |s.buffers[id].data|
            else r.sched.ready == s.ready - {id}
  {
  }

  lemma SendUsesFuel(s: Sched, w: Windows, id: int, r: Sent)
    requires Tidy(s) && id in s.ready && id in w.streams && Outcome(s, w, id, r)
    ensures Fuel(r.sched) < Fuel(s)
  {
    SendUses(s, w, id, r);
    FewerBytes(s.buffers, id, r.sched.buffers);
  }

  /** With no new input, the loop makes at most as many calls as there are
      buffered bytes and ready streams, whatever the tree picks and wherever
      the library raises. */
  lemma {:induction false} DrainIsBounded(s: Sched, w: Windows, picks: seq<Pick>)
    requires Tidy(s) && s.buffers.Keys <= w.streams.Keys && Picked(s, w, picks)
    ensures |picks| + Fuel(SendAll(s, w, picks).sched) <= Fuel(s)
    decreases |picks|
  {
    if picks == [] {
    } else {
      DrainIsBounded(s, w, Front(picks));
      var b := SendAll(s, w, Front(picks));
      var (id, fault) := Last(picks);
      SendOutcome(b.sched, b.windows, id, fault);
      SendUsesFuel(b.sched, b.windows, id, SendData(b.sched, b.windows, id, fault));
    }
  }

  /** Two batches in the same state, one of them with `log` sent before. */
  ghost predicate Alike(b: Batch, b': Batch, log: seq<Frame>)
  {
    b'.sched == b.sched && b'.windows == b.windows && b'.frames == log + b.frames
  }

  lemma ExtendAlike(b: Batch, b': Batch, log: seq<Frame>, pick: Pick)
    requires Alike(b, b', log) && b.sched.buffers.Keys <= b.windows.streams.Keys
    ensures Alike(Extend(b, pick), Extend(b', pick), log)
  {
    AppendAssoc(log, b.frames, SendData(b.sched, b.windows, pick.0, pick.1).frames);
  }

  /** `q` goes on from the batch `a`, as `pq` does from the batch before it. */
  ghost predicate Continues(s: Sched, w: Windows, a: Batch, q: seq<Pick>, pq: seq<Pick>)
    requires s.buffers.Keys <= w.streams.Keys && a.sched.buffers.Keys <= a.windows.streams.Keys
  {
    && Picked(s, w, pq) && Picked(a.sched, a.windows, q)
    && Alike(SendAll(a.sched, a.windows, q), SendAll(s, w, pq), a.frames)
  }

  lemma ContinueWith(s: Sched, w: Windows, a: Batch, q: seq<Pick>, pq: seq<Pick>)
    requires s.buffers.Keys <= w.streams.Keys && a.sched.buffers.Keys <= a.windows.streams.Keys
    requires q != [] && Continues(s, w, a, Front(q), pq) && Picked(a.sched, a.windows, q)
    ensures Continues(s, w, a, q, pq + [Last(q)])
  {
    PickedSnoc(s, w, pq, Last(q));
    ExtendAlike(SendAll(a.sched, a.windows, Front(q)), SendAll(s, w, pq), a.frames, Last(q));
  }

  /** Batches compose: draining on from where a drain stopped. */
  lemma {:induction false} SendAllAppend(s: Sched, w: Windows, p: seq<Pick>, q: seq<Pick>)
    requires s.buffers.Keys <= w.streams.Keys
    requires Picked(s, w, p) && Picked(SendAll(s, w, p).sched, SendAll(s, w, p).windows, q)
    ensures Continues(s, w, SendAll(s, w, p), q, p + q)
    decreases |q|
  {
    if q == [] {
      assert p + q == p;
    } else {
      SendAllAppend(s, w, p, Front(q));
      assert p + q == (p + Front(q)) + [Last(q)];
      ContinueWith(s, w, SendAll(s, w, p), q, p + Front(q));
    }
  }
}
