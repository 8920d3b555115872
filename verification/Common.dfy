/** Values shared by every part of the model: optional values, bytes, header
    lists and the concatenation of a sequence of parts. */
module Common {

  datatype Option<+T> = None | Some(value: T)

  newtype Byte = x: int | 0 <= x < 256

  type Bytes = seq<Byte>

  type Headers = seq<(Bytes, Bytes)>

  function Min(a: int, b: int): (r: int)
    ensures r <= a && r <= b && (r == a || r == b)
  {
    if a <= b then a else b
  }

  function Max(a: int, b: int): (r: int)
    ensures r >= a && r >= b && (r == a || r == b)
  {
    if a <= b then b else a
  }

  function Last<T>(s: seq<T>): T
    requires s != []
  {
    s[|s| - 1]
  }

  function Front<T>(s: seq<T>): seq<T>
    requires s != []
  {
    s[..|s| - 1]
  }

  lemma AppendAssoc<T>(a: seq<T>, b: seq<T>, c: seq<T>)
    ensures a + (b + c) == (a + b) + c
  {
  }

  /** All parts, one after the other. */
  function Concat<T>(parts: seq<seq<T>>): (r: seq<T>)
  {
    if parts == [] then [] else parts[0] + Concat(parts[1..])
  }

  lemma {:induction false} ConcatAppend<T>(a: seq<seq<T>>, b: seq<seq<T>>)
    ensures Concat(a + b) == Concat(a) + Concat(b)
  {
    if a == [] {
      assert a + b == b;
    } else {
      assert (a + b)[0] == a[0] && (a + b)[1..] == a[1..] + b;
      ConcatAppend(a[1..], b);
    }
  }

  lemma ConcatSnoc<T>(a: seq<seq<T>>, x: seq<T>)
    ensures Concat(a + [x]) == Concat(a) + x
  {
    ConcatAppend(a, [x]);
    assert Concat([x]) == x;
  }

  ghost function AnyOf<T>(s: set<T>): (x: T)
    requires s != {}
    ensures x in s
  {
    var x :| x in s;
    x
  }

  /** An arbitrary element, left to the environment. */
  method Choose<T>(s: set<T>) returns (x: T)
    requires s != {}
    ensures x in s
  {
    x :| x in s;
  }

  /** Two maps that agree but for one key. */
  lemma SameElsewhere<V>(m: map<int, V>, m': map<int, V>, id: int, j: int)
    requires m' - {id} == m - {id} && j != id
    ensures j in m' <==> j in m
    ensures j in m ==> m'[j] == m[j]
  {
    assert j in m ==> j in m - {id} && (m - {id})[j] == m[j];
    assert j in m' ==> j in m' - {id} && (m' - {id})[j] == m'[j];
  }

  /** The sum of a map's values. */
  ghost function Sum(m: map<int, nat>): nat
    decreases m.Keys
  {
    if m.Keys == {} then 0
    else
      var id := AnyOf(m.Keys);
      m[id] + Sum(m - {id})
  }

  lemma {:induction false} SumWithout(m: map<int, nat>, id: int)
    requires id in m
    ensures Sum(m) == m[id] + Sum(m - {id})
    decreases m.Keys
  {
    var first := AnyOf(m.Keys);
    if first == id {
    } else {
      SumWithout(m - {first}, id);
      SumWithout(m - {id}, first);
      assert m - {first} - {id} == m - {id} - {first};
    }
  }

  lemma SumDrops(m: map<int, nat>, id: int, m': map<int, nat>, n: nat)
    requires id in m && id in m' && m' - {id} == m - {id} && m'[id] + n <= m[id]
    ensures Sum(m') + n <= Sum(m)
  {
    SumWithout(m, id);
    SumWithout(m', id);
  }

  lemma OneKeyLess<V>(m: map<int, V>, id: int)
    requires id in m
    ensures |m - {id}| == |m| - 1
  {
    assert (m - {id}).Keys == m.Keys - {id};
    assert |m - {id}| == |(m - {id}).Keys| && |m| == |m.Keys|;
  }

  lemma TimesOneMore(k: int, n: int)
    ensures k * n == (k - 1) * n + n
  {
  }

  lemma {:induction false} SumGrows(m: map<int, nat>, m': map<int, nat>, n: nat)
    requires m'.Keys == m.Keys && forall id :: id in m ==> m'[id] <= m[id] + n
    ensures Sum(m') <= Sum(m) + |m| * n
    decreases m.Keys
  {
    if m.Keys == {} {
    } else {
      var id := AnyOf(m.Keys);
      SumGrows(m - {id}, m' - {id}, n);
      SumWithout(m', id);
      OneKeyLess(m, id);
      TimesOneMore(|m|, n);
    }
  }
}
