/** What the `Deployments` operations promise, proved on the abstract state. */
module DeploymentFacts {
  import opened Values
  import opened DeploymentStore

  predicate AllOk(args: seq<Arg>) {
    forall i :: 0 <= i < |args| ==> ArgOk(args[i])
  }

  predicate AllNamed(args: seq<Arg>)
    requires AllOk(args)
  {
    forall i :: 0 <= i < |args| ==> NameOf(Convert(args[i])).Ok?
  }

  /** The names of the configurations, in list order. */
  function NamesOf(args: seq<Arg>): (ns: seq<string>)
    requires AllOk(args) && AllNamed(args)
    ensures |ns| == |args|
    ensures forall i :: 0 <= i < |args| ==> ns[i] == NameOf(Convert(args[i])).value
  {
    seq(|args|, i requires 0 <= i < |args| => NameOf(Convert(args[i])).value)
  }

  /** Adding keeps the store well formed; a stored name leaves the store as it
      was (an extra key in the new configuration is not merged in); a new name
      grows the set by one and is found under that name. */
  lemma AddSpec(s: Store, a: Arg)
    requires StoreValid(s) && ArgOk(a) && NameOf(Convert(a)).Ok?
    ensures AddTo(s, a).Ok? && StoreValid(AddTo(s, a).value)
    ensures var n := NameOf(Convert(a)).value;
      && (n in s.table ==> AddTo(s, a).value == s)
      && (n !in s.table ==>
            && |AddTo(s, a).value.table| == |s.table| + 1
            && AddTo(s, a).value.table[n] == Convert(a)
            && Listed(AddTo(s, a).value) == Listed(s) + [Convert(a)])
  {
    var n := NameOf(Convert(a)).value;
    if n !in s.table {
      AddFresh(s, Convert(a), n);
    }
  }

  /** Appending a deployment under a name not yet stored. */
  lemma AddFresh(s: Store, d: Deployment, n: string)
    requires StoreValid(s) && WellTyped(d.config) && NameOf(d) == Ok(n) && n !in s.table
    ensures var s' := Store(s.order + [n], s.table[n := d]);
      StoreValid(s') && Listed(s') == Listed(s) + [d]
  {
    var order := s.order + [n];
    var s' := Store(order, s.table[n := d]);
    assert n !in s.order;
    assert Distinct(order) by {
      forall i, j | 0 <= i < j < |order| ensures order[i] != order[j] {
        if j == |s.order| { assert order[i] == s.order[i]; }
      }
    }
    assert forall m :: m in s'.table <==> m in order;
    assert Listed(s') == Listed(s) + [d] by {
      forall i | 0 <= i < |order| ensures Listed(s')[i] == (Listed(s) + [d])[i] {
        if i < |s.order| { assert order[i] == s.order[i]; }
      }
    }
  }

  /** Discarding removes exactly the named entry and keeps every other entry
      and the order of the rest; discarding an absent name changes nothing. */
  lemma DiscardSpec(s: Store, a: Arg)
    requires StoreValid(s) && ArgOk(a) && NameOf(Convert(a)).Ok?
    ensures DiscardFrom(s, a).Ok? && StoreValid(DiscardFrom(s, a).value)
    ensures var n := NameOf(Convert(a)).value; var s' := DiscardFrom(s, a).value;
      && n !in s'.table
      && (n !in s.table ==> s' == s)
      && (forall m :: m != n ==> (m in s'.table <==> m in s.table))
      && (forall m :: m != n && m in s.table ==> s'.table[m] == s.table[m])
      && (forall i :: 0 <= i < |s.order| && s.order[i] == n ==> s'.order == s.order[..i] + s.order[i + 1..])
  {
  }

  /** Construction succeeds exactly when every configuration has a name. */
  lemma {:induction false} CollectOkIffNamed(args: seq<Arg>)
    requires AllOk(args)
    ensures Collect(args).Ok? <==> AllNamed(args)
  {
    if args != [] {
      var init := args[..|args| - 1];
      CollectOkIffNamed(init);
      assert forall i :: 0 <= i < |init| ==> init[i] == args[i];
    }
  }

  /** Construction keeps one entry per distinct name, in first-occurrence order. */
  lemma {:induction false} CollectOrderIsDedup(args: seq<Arg>)
    requires AllOk(args) && AllNamed(args)
    ensures Collect(args).Ok?
    ensures StoreValid(Collect(args).value)
    ensures Collect(args).value.order == Dedup(NamesOf(args))
  {
    CollectOkIffNamed(args);
    if args != [] {
      var init := args[..|args| - 1];
      assert forall i :: 0 <= i < |init| ==> init[i] == args[i];
      CollectOrderIsDedup(init);
      assert NamesOf(args)[..|args| - 1] == NamesOf(init);
      AddSpec(Collect(init).value, args[|args| - 1]);
    } else {
      assert StoreValid(Store([], map[]));
    }
  }

  /** The stored configuration for a name is the first one given for it. */
  lemma {:induction false} CollectKeepsFirst(args: seq<Arg>, j: nat)
    requires AllOk(args) && AllNamed(args) && j < |args|
    requires forall k :: 0 <= k < j ==> NamesOf(args)[k] != NamesOf(args)[j]
    ensures Collect(args).Ok?
    ensures NamesOf(args)[j] in Collect(args).value.table
    ensures Collect(args).value.table[NamesOf(args)[j]] == Convert(args[j])
  {
    var init := args[..|args| - 1];
    assert AllOk(init) && AllNamed(init) && NamesOf(init) == NamesOf(args)[..|args| - 1] by {
      assert forall i :: 0 <= i < |init| ==> init[i] == args[i];
    }
    CollectOrderIsDedup(init);
    var s0 := Collect(init).value;
    var n := NamesOf(args)[j];
    assert Collect(args) == AddTo(s0, args[|args| - 1]);
    if j < |args| - 1 {
      assert init[j] == args[j] && NamesOf(init)[j] == n;
      CollectKeepsFirst(init, j);
    } else {
      assert n !in s0.table by {
        DedupElements(NamesOf(init));
      }
    }
  }

  /** The number of deployments built equals the number of distinct names given. */
  lemma CollectLength(args: seq<Arg>)
    requires AllOk(args) && AllNamed(args)
    ensures Collect(args).Ok?
    ensures |Collect(args).value.table| == |set k | 0 <= k < |args| :: NamesOf(args)[k]|
  {
    CollectOrderIsDedup(args);
    var s := Collect(args).value;
    var names := set k | 0 <= k < |args| :: NamesOf(args)[k];
    DedupElements(NamesOf(args));
    forall x ensures x in names <==> x in s.order {
      if x in NamesOf(args) {
        var k :| 0 <= k < |args| && NamesOf(args)[k] == x;
        assert x in names;
      }
    }
    DistinctCardinality(s.order, s.table.Keys);
    DistinctCardinality(s.order, names);
  }

  /** `Dedup` keeps exactly the elements, once each. */
  lemma {:induction false} DedupElements(xs: seq<string>)
    ensures Distinct(Dedup(xs))
    ensures forall x :: x in Dedup(xs) <==> x in xs
  {
    if xs != [] {
      var init := xs[..|xs| - 1];
      DedupElements(init);
      assert forall x :: x in xs <==> x in init || x == xs[|xs| - 1];
      var d := Dedup(init);
      if xs[|xs| - 1] !in d {
        var d' := d + [xs[|xs| - 1]];
        forall i, j | 0 <= i < j < |d'| ensures d'[i] != d'[j] {
          if j == |d| { assert d'[i] == d[i]; }
        }
      }
    }
  }

  /** The first `i` entries of a store. */
  function Prefix(s: Store, i: nat): Store
    requires i <= |s.order| && forall n :: n in s.order ==> n in s.table
  {
    Store(s.order[..i], map n | n in s.order[..i] :: s.table[n])
  }

  /** The first `i` entries are the first `i - 1` entries plus the `i`-th name. */
  lemma PrefixStep(s: Store, i: nat)
    requires StoreValid(s) && 0 < i <= |s.order|
    ensures s.order[i - 1] !in Prefix(s, i - 1).table
    ensures Prefix(s, i) == Store(Prefix(s, i - 1).order + [s.order[i - 1]],
                                  Prefix(s, i - 1).table[s.order[i - 1] := s.table[s.order[i - 1]]])
  {
    var n := s.order[i - 1];
    assert s.order[..i] == s.order[..i - 1] + [n];
    forall k | 0 <= k < i - 1 ensures s.order[k] != n {
    }
    assert n !in s.order[..i - 1];
  }

  /** Rebuilding from the first `i` written configurations gives the first `i` entries. */
  lemma {:induction false} RebuildPrefix(s: Store, i: nat)
    requires StoreValid(s) && i <= |s.order|
    ensures AllOk(Written(s)[..i])
    ensures Collect(Written(s)[..i]) == Ok(Prefix(s, i))
  {
    var w := Written(s)[..i];
    forall k | 0 <= k < |w| ensures ArgOk(w[k]) {
      assert w[k] == Dict(s.table[s.order[k]].config);
    }
    if i > 0 {
      RebuildPrefix(s, i - 1);
      assert w[..i - 1] == Written(s)[..i - 1];
      var n := s.order[i - 1];
      assert Convert(w[i - 1]) == s.table[n];
      PrefixStep(s, i);
    }
  }

  /** Round trip: rebuilding a set from the list `write` emits gives the same
      names, in the same order, with equal configurations. */
  lemma WriteThenRebuild(s: Store)
    requires StoreValid(s)
    ensures AllOk(Written(s))
    ensures Collect(Written(s)) == Ok(s)
  {
    RebuildPrefix(s, |s.order|);
    assert Written(s)[..|s.order|] == Written(s);
    assert s.order[..|s.order|] == s.order;
    assert Prefix(s, |s.order|).table == s.table;
  }
}
