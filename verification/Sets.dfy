/** Sizes of finite sets. */
module Sets {

  lemma {:induction false} SubsetSize<T>(a: set<T>, b: set<T>)
    requires a <= b
    ensures |a| <= |b| && (a != b ==> |a| < |b|)
  {
    if a != {} {
      var x :| x in a;
      SubsetSize(a - {x}, b - {x});
      if a != b {
        assert a - {x} != b - {x} by {
          assert a == (a - {x}) + {x} && b == (b - {x}) + {x};
        }
      }
    } else if b != {} {
      assert |b| > 0;
    }
  }

  /** The size of a set of consecutive numbers. */
  lemma {:induction false} RangeSize(low: nat, high: nat, range: set<nat>)
    requires low <= high && forall a :: a in range <==> low <= a < high
    ensures |range| == high - low
    decreases high - low
  {
    if low < high {
      assert low in range;
      RangeSize(low + 1, high, range - {low});
    } else {
      assert range == {};
    }
  }
}
