/**
 * Batch grouping: entries taken in iteration order are cut into consecutive
 * batches of `size`, a new batch starting whenever the running counter is a
 * multiple of `size`.
 */
module Batching {

  /** The batches the grouping loops build from `s`. */
  function Batches<T>(s: seq<T>, size: nat): (r: seq<seq<T>>)
    requires size > 0
    ensures |r| == 0 <==> |s| == 0
    decreases |s|
  {
    if |s| == 0 then []
    else if |s| <= size then [s]
    else [s[..size]] + Batches(s[size..], size)
  }

  /** ceil(n / size): the number of batches `n` entries fill. */
  function BatchCount(n: nat, size: nat): nat
    requires size > 0
  {
    (n + size - 1) / size
  }

  function Flatten<T>(bs: seq<seq<T>>): seq<T>
  {
    if bs == [] then [] else bs[0] + Flatten(bs[1..])
  }

  lemma {:induction false} FlattenAppend<T>(a: seq<seq<T>>, b: seq<seq<T>>)
    ensures Flatten(a + b) == Flatten(a) + Flatten(b)
  {
    if a == [] {
      assert a + b == b;
    } else {
      assert (a + b)[1..] == a[1..] + b;
      FlattenAppend(a[1..], b);
    }
  }

  /** x = a * size + b with 0 <= b < size fixes the quotient and the remainder. */
  lemma DivModUnique(x: int, a: int, b: int, size: int)
    requires size > 0 && 0 <= b < size && x == a * size + b
    ensures x / size == a && x % size == b
  {
    var q, r := x / size, x % size;
    assert (q - a) * size == b - r;
    if q - a >= 1 {
      assert false;
    } else if q - a <= -1 {
      assert false;
    }
  }

  lemma ModStep(n: int, size: int)
    requires size > 0 && n >= size
    ensures (n - size) % size == n % size
  {
    DivModUnique(n - size, n / size - 1, n % size, size);
  }

  lemma CountStep(n: nat, size: nat)
    requires size > 0 && n >= size
    ensures BatchCount(n - size, size) == BatchCount(n, size) - 1
  {
    var m := n + size - 1;
    DivModUnique(m - size, m / size - 1, m % size, size);
  }

  /** Concatenating the batches gives back the entries, in order. */
  lemma {:induction false} BatchesFlatten<T>(s: seq<T>, size: nat)
    requires size > 0
    ensures Flatten(Batches(s, size)) == s
  {
    if |s| == 0 {
    } else if |s| <= size {
      assert Flatten([s]) == s + Flatten([s][1..]);
    } else {
      var r := Batches(s, size);
      assert r[0] == s[..size] && r[1..] == Batches(s[size..], size);
      BatchesFlatten(s[size..], size);
    }
  }

  /** ceil(|s| / size) batches; each non-empty and at most `size` long; all but the last exactly `size`. */
  lemma {:induction false} BatchesSizes<T>(s: seq<T>, size: nat)
    requires size > 0
    ensures |Batches(s, size)| == BatchCount(|s|, size)
    ensures forall j :: 0 <= j < |Batches(s, size)| ==> 0 < |Batches(s, size)[j]| <= size
    ensures forall j :: 0 <= j < |Batches(s, size)| - 1 ==> |Batches(s, size)[j]| == size
  {
    if |s| == 0 {
    } else if |s| <= size {
      assert BatchCount(|s|, size) == 1;
    } else {
      var rest := Batches(s[size..], size);
      BatchesSizes(s[size..], size);
      CountStep(|s|, size);
      var r := Batches(s, size);
      assert r == [s[..size]] + rest;
      forall j | 0 <= j < |r|
        ensures 0 < |r[j]| <= size
        ensures j < |r| - 1 ==> |r[j]| == size
      {
        if j > 0 { assert r[j] == rest[j - 1]; }
      }
    }
  }

  /** The last batch holds the remainder, or a full batch when the count divides evenly. */
  lemma {:induction false} BatchesLast<T>(s: seq<T>, size: nat)
    requires size > 0 && |s| > 0
    ensures var r := Batches(s, size);
      |r[|r| - 1]| == if |s| % size == 0 then size else |s| % size
  {
    if |s| <= size {
      if |s| == size {
        DivModUnique(|s|, 1, 0, size);
      } else {
        DivModUnique(|s|, 0, |s|, size);
      }
    } else {
      BatchesLast(s[size..], size);
      ModStep(|s|, size);
      var r := Batches(s, size);
      var rest := Batches(s[size..], size);
      assert r == [s[..size]] + rest;
      assert r[|r| - 1] == rest[|rest| - 1];
    }
  }

  /** Appending one entry either opens a new batch (counter a multiple of size) or extends the last. */
  lemma {:induction false} BatchesSnoc<T>(s: seq<T>, x: T, size: nat)
    requires size > 0
    ensures |s| % size == 0 ==> Batches(s + [x], size) == Batches(s, size) + [[x]]
    ensures |s| % size != 0 ==>
      var b := Batches(s, size);
      Batches(s + [x], size) == b[..|b| - 1] + [b[|b| - 1] + [x]]
  {
    if |s| == 0 {
      assert s + [x] == [x];
    } else if |s| < size {
      DivModUnique(|s|, 0, |s|, size);
    } else if |s| == size {
      DivModUnique(|s|, 1, 0, size);
      assert (s + [x])[..size] == s && (s + [x])[size..] == [x];
    } else {
      ModStep(|s|, size);
      BatchesSnoc(s[size..], x, size);
      BatchesSnocStep(s, x, size);
      var b, rest := Batches(s, size), Batches(s[size..], size);
      if |s| % size == 0 {
        assert Batches(s + [x], size) == [s[..size]] + (rest + [[x]]);
      } else {
        assert |rest| > 0;
        assert b[..|b| - 1] == [s[..size]] + rest[..|rest| - 1];
        assert b[|b| - 1] == rest[|rest| - 1];
      }
    }
  }

  /** The step of BatchesSnoc for more than one batch: the first batch is shared. */
  lemma BatchesSnocStep<T>(s: seq<T>, x: T, size: nat)
    requires 0 < size < |s|
    ensures Batches(s + [x], size) == [s[..size]] + Batches(s[size..] + [x], size)
    ensures Batches(s, size) == [s[..size]] + Batches(s[size..], size)
  {
    assert (s + [x])[..size] == s[..size];
    assert (s + [x])[size..] == s[size..] + [x];
  }

  /**
   * One step of the grouping loops: open a new batch when the counter is a
   * multiple of the size, then append the entry to the last batch.
   */
  lemma GroupStep<T>(g: seq<seq<T>>, started: seq<seq<T>>, s: seq<T>, x: T, size: nat)
    requires size > 0 && g == Batches(s, size)
    requires started == if |s| % size == 0 then g + [[]] else g
    ensures |started| > 0 && started[..|started| - 1] + [started[|started| - 1] + [x]] == Batches(s + [x], size)
  {
    BatchesSnoc(s, x, size);
    if |s| % size == 0 {
      assert started[..|started| - 1] == g;
      assert started[|started| - 1] + [x] == [x];
    } else {
      assert |s| > 0;
    }
  }
}
