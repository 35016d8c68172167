/** The scenario's batch ordering: a stable sort of the events by time offset,
    and the proof that a stable sort's result is unique. */
module Ordering {
  import opened Events

  /** Offsets never decrease along `s`. */
  predicate Ordered(s: seq<Evento>) {
    forall i, j :: 0 <= i < j < |s| ==> s[i].tempo <= s[j].tempo
  }

  /** The events of `s` whose offset is exactly `t`, in their order in `s`. */
  function Ties(s: seq<Evento>, t: real): seq<Evento> {
    if |s| == 0 then []
    else (if s[0].tempo == t then [s[0]] else []) + Ties(s[1..], t)
  }

  /** `r` is `s` stably sorted by offset: offsets ascend and, for every offset,
      the events sharing it appear in `r` exactly as they appear in `s`. */
  ghost predicate StableSortOf(r: seq<Evento>, s: seq<Evento>) {
    Ordered(r) && forall t :: Ties(r, t) == Ties(s, t)
  }

  lemma TiesCons(x: Evento, s: seq<Evento>, t: real)
    ensures Ties([x] + s, t) == (if x.tempo == t then [x] else []) + Ties(s, t)
  {
    assert ([x] + s)[1..] == s;
  }

  lemma TiesUnfold(s: seq<Evento>, t: real)
    requires |s| > 0
    ensures Ties(s, t) == (if s[0].tempo == t then [s[0]] else []) + Ties(s[1..], t)
  {
  }

  /** Every event of `s` with offset `t` is among the ties at `t`, and nothing else is. */
  lemma {:induction false} TiesMembers(s: seq<Evento>, t: real, x: Evento)
    ensures x in Ties(s, t) <==> x in s && x.tempo == t
  {
    if |s| > 0 {
      TiesMembers(s[1..], t, x);
      assert s == [s[0]] + s[1..];
    }
  }

  /** Inserts `e` before the first event whose offset is not smaller, so `e`
      lands ahead of every event that ties with it. */
  function Insert(e: Evento, s: seq<Evento>): (r: seq<Evento>)
    ensures multiset(r) == multiset(s) + multiset{e}
  {
    if |s| == 0 then [e]
    else if e.tempo <= s[0].tempo then [e] + s
    else
      assert s == [s[0]] + s[1..];
      [s[0]] + Insert(e, s[1..])
  }

  lemma {:induction false} InsertOrdered(e: Evento, s: seq<Evento>)
    requires Ordered(s)
    ensures Ordered(Insert(e, s))
  {
    if |s| > 0 && e.tempo > s[0].tempo {
      InsertOrdered(e, s[1..]);
      var r := Insert(e, s[1..]);
      assert multiset(r) == multiset(s[1..]) + multiset{e};
      forall x | x in r
        ensures s[0].tempo <= x.tempo
      {
        assert x in multiset(r);
        if x != e {
          assert x in multiset(s[1..]);
        }
      }
    }
  }

  /** Inserting `e` puts it first among the events that tie with it. */
  lemma {:induction false} InsertTies(e: Evento, s: seq<Evento>, t: real)
    ensures Ties(Insert(e, s), t) == (if e.tempo == t then [e] else []) + Ties(s, t)
  {
    if |s| == 0 {
      TiesCons(e, [], t);
    } else if e.tempo <= s[0].tempo {
      TiesCons(e, s, t);
    } else {
      var rest := Insert(e, s[1..]);
      assert Insert(e, s) == [s[0]] + rest;
      InsertTies(e, s[1..], t);
      TiesCons(s[0], rest, t);
      TiesUnfold(s, t);
    }
  }

  /** Python's `sorted(events, key=offset)`: an insertion sort that is stable. */
  function SortByOffset(s: seq<Evento>): (r: seq<Evento>)
    ensures StableSortOf(r, s)
    ensures multiset(r) == multiset(s)
    ensures |r| == |s|
  {
    if |s| == 0 then []
    else
      var rest := SortByOffset(s[1..]);
      assert s == [s[0]] + s[1..];
      assert multiset(s) == multiset{s[0]} + multiset(s[1..]);
      InsertOrdered(s[0], rest);
      assert forall t :: Ties(Insert(s[0], rest), t) == Ties(s, t) by {
        forall t ensures Ties(Insert(s[0], rest), t) == Ties(s, t) {
          InsertTies(s[0], rest, t);
          TiesCons(s[0], s[1..], t);
        }
      }
      Insert(s[0], rest)
  }

  /** An ordered sequence starts with an event of least offset. */
  lemma HeadIsLeast(s: seq<Evento>, x: Evento)
    requires Ordered(s) && x in s
    ensures s[0].tempo <= x.tempo
  {
    var k :| 0 <= k < |s| && s[k] == x;
  }

  /** Ordered sequences with the same ties at every offset start at the same offset. */
  lemma SameLeastOffset(a: seq<Evento>, b: seq<Evento>)
    requires Ordered(a) && Ordered(b) && |a| > 0
    requires forall t :: Ties(a, t) == Ties(b, t)
    ensures |b| > 0 && a[0].tempo == b[0].tempo
  {
    var m := a[0].tempo;
    TiesMembers(a, m, a[0]);
    assert Ties(a, m) == Ties(b, m);
    TiesMembers(b, m, a[0]);
    HeadIsLeast(b, a[0]);
    var n := b[0].tempo;
    TiesMembers(b, n, b[0]);
    assert Ties(a, n) == Ties(b, n);
    TiesMembers(a, n, b[0]);
    HeadIsLeast(a, b[0]);
  }

  /** Ordered sequences with the same ties at every offset start with the same event. */
  lemma SameHead(a: seq<Evento>, b: seq<Evento>)
    requires Ordered(a) && Ordered(b) && |a| > 0
    requires forall t :: Ties(a, t) == Ties(b, t)
    ensures |b| > 0 && a[0] == b[0]
  {
    SameLeastOffset(a, b);
    var m := a[0].tempo;
    TiesUnfold(a, m);
    TiesUnfold(b, m);
    assert Ties(a, m)[0] == a[0];
    assert Ties(b, m)[0] == b[0];
    assert Ties(a, m) == Ties(b, m);
  }

  /** Removing the same head from both sides keeps the ties equal. */
  lemma {:induction false} SameTailTies(a: seq<Evento>, b: seq<Evento>)
    requires |a| > 0 && |b| > 0 && a[0] == b[0]
    requires forall t :: Ties(a, t) == Ties(b, t)
    ensures forall t :: Ties(a[1..], t) == Ties(b[1..], t)
  {
    forall t
      ensures Ties(a[1..], t) == Ties(b[1..], t)
    {
      var head := if a[0].tempo == t then [a[0]] else [];
      TiesUnfold(a, t);
      TiesUnfold(b, t);
      assert Ties(a[1..], t) == Ties(a, t)[|head|..];
      assert Ties(b[1..], t) == Ties(b, t)[|head|..];
    }
  }

  /** Two stable sorts of the same events are the same sequence: the ordering
      is fully determined, ties included. */
  lemma {:induction false} StableSortUnique(a: seq<Evento>, b: seq<Evento>)
    requires Ordered(a) && Ordered(b)
    requires forall t :: Ties(a, t) == Ties(b, t)
    ensures a == b
    decreases |a|
  {
    if |a| == 0 {
      if |b| > 0 {
        SameHead(b, a);
      }
    } else {
      SameHead(a, b);
      SameTailTies(a, b);
      StableSortUnique(a[1..], b[1..]);
      assert a == [a[0]] + a[1..];
      assert b == [b[0]] + b[1..];
    }
  }

  /** Events already in offset order come out of the sort unchanged. */
  lemma SortOfOrderedIsIdentity(s: seq<Evento>)
    requires Ordered(s)
    ensures SortByOffset(s) == s
  {
    StableSortUnique(SortByOffset(s), s);
  }

  /** Any prefix of an ordered sequence is ordered. */
  lemma OrderedPrefix(s: seq<Evento>, k: nat)
    requires Ordered(s) && k <= |s|
    ensures Ordered(s[..k])
  {
  }
}
