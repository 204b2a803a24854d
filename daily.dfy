/** The "today" view both log pages derive from a collection of entries: the
    entries created on a given day, and a total over them. Generic over the
    entry type; `createdAt` and the summed field are passed as projections. */
module Daily {
  import opened Wrappers
  import opened Dates

  /** `xs.filter(e => e.createdAt?.split('T')[0] === today)`. */
  function TodayOnly<T>(xs: seq<T>, createdAt: T -> Option<string>, today: string): (r: seq<T>)
    ensures |r| <= |xs|
    ensures forall i :: 0 <= i < |r| ==> r[i] in xs && CreatedOn(createdAt(r[i]), today)
    ensures forall i :: 0 <= i < |xs| && CreatedOn(createdAt(xs[i]), today) ==> xs[i] in r
  {
    if xs == [] then []
    else if CreatedOn(createdAt(xs[0]), today) then [xs[0]] + TodayOnly(xs[1..], createdAt, today)
    else TodayOnly(xs[1..], createdAt, today)
  }

  /** Filtering commutes with concatenation: the kept entries stay in their original order. */
  lemma {:induction false} TodayOnlyAppend<T>(xs: seq<T>, ys: seq<T>, createdAt: T -> Option<string>, today: string)
    ensures TodayOnly(xs + ys, createdAt, today) == TodayOnly(xs, createdAt, today) + TodayOnly(ys, createdAt, today)
  {
    if xs != [] {
      assert (xs + ys)[0] == xs[0];
      assert (xs + ys)[1..] == xs[1..] + ys;
      TodayOnlyAppend(xs[1..], ys, createdAt, today);
      if CreatedOn(createdAt(xs[0]), today) {
        assert TodayOnly(xs + ys, createdAt, today)
            == [xs[0]] + (TodayOnly(xs[1..], createdAt, today) + TodayOnly(ys, createdAt, today));
      }
    } else {
      assert xs + ys == ys;
    }
  }

  /** Every entry of today is kept as often as it occurs, every other entry is dropped. */
  lemma {:induction false} TodayOnlyCount<T>(xs: seq<T>, createdAt: T -> Option<string>, today: string, x: T)
    ensures multiset(TodayOnly(xs, createdAt, today))[x]
         == if CreatedOn(createdAt(x), today) then multiset(xs)[x] else 0
  {
    if xs != [] {
      assert xs == [xs[0]] + xs[1..];
      TodayOnlyCount(xs[1..], createdAt, today, x);
    }
  }

  /** Filtering an already filtered list changes nothing. */
  lemma {:induction false} TodayOnlyIdempotent<T>(xs: seq<T>, createdAt: T -> Option<string>, today: string)
    ensures TodayOnly(TodayOnly(xs, createdAt, today), createdAt, today) == TodayOnly(xs, createdAt, today)
  {
    if xs != [] {
      TodayOnlyIdempotent(xs[1..], createdAt, today);
    }
  }

  /** `xs.reduce((sum, e) => sum + f(e), 0)`, folded from the left as `reduce` does. */
  function SumOf<T>(xs: seq<T>, f: T -> int): int {
    if xs == [] then 0 else SumOf(xs[..|xs| - 1], f) + f(xs[|xs| - 1])
  }

  /** The total of a concatenation is the sum of the totals. */
  lemma {:induction false} SumOfAppend<T>(xs: seq<T>, ys: seq<T>, f: T -> int)
    ensures SumOf(xs + ys, f) == SumOf(xs, f) + SumOf(ys, f)
  {
    if ys != [] {
      var zs := xs + ys;
      assert zs[..|zs| - 1] == xs + ys[..|ys| - 1];
      assert zs[|zs| - 1] == ys[|ys| - 1];
      SumOfAppend(xs, ys[..|ys| - 1], f);
    } else {
      assert xs + ys == xs;
    }
  }

  /** Appending one entry to the collection raises today's total by that entry's
      amount if it was created today, and leaves it alone otherwise. */
  lemma TodayTotalAfterAppend<T>(xs: seq<T>, e: T, createdAt: T -> Option<string>, f: T -> int, today: string)
    ensures SumOf(TodayOnly(xs + [e], createdAt, today), f)
         == SumOf(TodayOnly(xs, createdAt, today), f) + (if CreatedOn(createdAt(e), today) then f(e) else 0)
  {
    TodayOnlyAppend(xs, [e], createdAt, today);
    SumOfAppend(TodayOnly(xs, createdAt, today), TodayOnly([e], createdAt, today), f);
    if CreatedOn(createdAt(e), today) {
      assert TodayOnly([e], createdAt, today) == [e];
      assert SumOf([e], f) == SumOf([e][..0], f) + f(e);
    } else {
      assert TodayOnly([e], createdAt, today) == [];
    }
  }
}
