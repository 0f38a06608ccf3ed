/** How far an L4 balancer is from its desired form, and what each kind of change does to that. */
module L4Measure {
  import opened Base
  import opened Cloud

  type Listeners = map<Key, L4Listener>

  /** The members one set has to gain or lose to become the other. */
  function Gap(want: set<string>, have: set<string>): nat {
    |want - have| + |have - want|
  }

  /** A missing listener costs one plus all it has to be given; a present one what is wrong with it. */
  function Owed(want: Listeners, at: Listeners, k: Key): nat
    requires k in want
  {
    if k in at then Gap(want[k].targets, at[k].targets) + Gap(want[k].filters, at[k].filters)
    else 1 + |want[k].targets| + |want[k].filters|
  }

  function TotalOwed(ks: seq<Key>, want: Listeners, at: Listeners): nat
    requires Elems(ks) <= want.Keys
  {
    if ks == [] then 0
    else TotalOwed(ks[..|ks| - 1], want, at) + Owed(want, at, ks[|ks| - 1])
  }

  function Measure(ks: seq<Key>, want: Listeners, at: Listeners): nat
    requires Elems(ks) == want.Keys
  {
    TotalOwed(ks, want, at) + |at.Keys - want.Keys|
  }

  /** `now` gave up nothing that is wanted and gained nothing that is not. */
  ghost predicate Nearer(want: set<string>, have: set<string>, now: set<string>) {
    want * have <= now <= want + have
  }

  /** Listener by listener, `at'` is at least as near to `want` as `at` is. */
  ghost predicate Closer(want: Listeners, at: Listeners, at': Listeners) {
    && (forall k :: k in at' && k !in want ==> k in at && at'[k] == at[k])
    && (forall k :: k in want && k in at ==>
          k in at' &&
          Nearer(want[k].targets, at[k].targets, at'[k].targets) &&
          Nearer(want[k].filters, at[k].filters, at'[k].filters))
    && (forall k :: k in want && k in at' && k !in at ==>
          at'[k].targets <= want[k].targets && at'[k].filters <= want[k].filters)
  }

  lemma GapNearer(want: set<string>, have: set<string>, now: set<string>)
    requires Nearer(want, have, now)
    ensures Gap(want, now) <= Gap(want, have)
    ensures now != have ==> Gap(want, now) < Gap(want, have)
  {
    SmallerSet(want - now, want - have);
    SmallerSet(now - want, have - want);
    if want - now == want - have && now - want == have - want {
      forall x ensures x in now <==> x in have {
        assert x in want - now <==> x in want - have;
        assert x in now - want <==> x in have - want;
      }
    }
  }

  lemma OwedCloser(want: Listeners, at: Listeners, at': Listeners, k: Key)
    requires Closer(want, at, at') && k in want
    ensures Owed(want, at', k) <= Owed(want, at, k)
    ensures ((k in at <==> k in at') && (k in at ==> at[k] == at'[k])) || Owed(want, at', k) < Owed(want, at, k)
  {
    if k in at {
      GapNearer(want[k].targets, at[k].targets, at'[k].targets);
      GapNearer(want[k].filters, at[k].filters, at'[k].filters);
    } else if k in at' {
      SmallerSet(want[k].targets - at'[k].targets, want[k].targets);
      SmallerSet(want[k].filters - at'[k].filters, want[k].filters);
      assert at'[k].targets - want[k].targets == {} && at'[k].filters - want[k].filters == {};
    }
  }

  lemma {:induction false} TotalOwedCloser(ks: seq<Key>, want: Listeners, at: Listeners, at': Listeners)
    requires Elems(ks) <= want.Keys && Closer(want, at, at')
    ensures TotalOwed(ks, want, at') <= TotalOwed(ks, want, at)
    ensures (forall k :: k in ks ==> (k in at <==> k in at') && (k in at ==> at[k] == at'[k])) ||
            TotalOwed(ks, want, at') < TotalOwed(ks, want, at)
  {
    if ks != [] {
      TotalOwedCloser(ks[..|ks| - 1], want, at, at');
      OwedCloser(want, at, at', ks[|ks| - 1]);
      assert ks == ks[..|ks| - 1] + [ks[|ks| - 1]];
    }
  }

  lemma SameEverywhere(want: Listeners, at: Listeners, at': Listeners)
    requires Closer(want, at, at')
    requires forall k :: k in want ==> (k in at <==> k in at') && (k in at ==> at[k] == at'[k])
    requires at'.Keys - want.Keys == at.Keys - want.Keys
    ensures at == at'
  {
    forall k ensures k in at <==> k in at' {
      assert k in at'.Keys - want.Keys <==> k in at.Keys - want.Keys;
    }
  }

  /** Coming closer lowers the measure, strictly if anything changed at all. */
  lemma MeasureFalls(ks: seq<Key>, want: Listeners, at: Listeners, at': Listeners)
    requires Elems(ks) == want.Keys && Closer(want, at, at')
    ensures Measure(ks, want, at') <= Measure(ks, want, at)
    ensures at != at' ==> Measure(ks, want, at') < Measure(ks, want, at)
  {
    TotalOwedCloser(ks, want, at, at');
    SmallerSet(at'.Keys - want.Keys, at.Keys - want.Keys);
    if at'.Keys - want.Keys == at.Keys - want.Keys && TotalOwed(ks, want, at') == TotalOwed(ks, want, at) {
      assert forall k :: k in want ==> k in ks;
      SameEverywhere(want, at, at');
    }
  }

  lemma GapZero(want: set<string>, have: set<string>)
    ensures Gap(want, have) == 0 <==> want == have
  {
  }

  lemma {:induction false} TotalOwedZero(ks: seq<Key>, want: Listeners, at: Listeners)
    requires Elems(ks) <= want.Keys
    ensures TotalOwed(ks, want, at) == 0 <==> forall k :: k in ks ==> k in at && at[k] == want[k]
  {
    if ks != [] {
      var k := ks[|ks| - 1];
      TotalOwedZero(ks[..|ks| - 1], want, at);
      if k in at {
        GapZero(want[k].targets, at[k].targets);
        GapZero(want[k].filters, at[k].filters);
      }
    }
  }

  /** Nothing is left to do exactly when the listeners are the desired ones. */
  lemma MeasureZero(ks: seq<Key>, want: Listeners, at: Listeners)
    requires Elems(ks) == want.Keys
    ensures Measure(ks, want, at) == 0 <==> at == want
  {
    TotalOwedZero(ks, want, at);
    assert |at.Keys - want.Keys| == 0 <==> at.Keys - want.Keys == {};
    assert forall k :: k in want <==> k in ks;
    assert at == want <==> at.Keys - want.Keys == {} && forall k :: k in want ==> k in at && at[k] == want[k];
  }
}
