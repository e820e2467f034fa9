/** Values shared by the deployment registry, the deploy task and the frontend:
    the exceptions the core raises, the configuration values a deployment holds,
    and the insertion-ordered string dictionaries used for secret files. */
module Values {

  datatype Option<T> = None | Some(value: T)

  /** The exceptions that the core raises or lets through. `Interrupt` is the
      task's `Thread_Interrupt`; `External` stands for an exception raised inside
      a library whose code is not part of this model (Git, YAML). */
  datatype Error =
    | KeyError(key: string)
    | ValueError(message: string)
    | RuntimeError(message: string)
    | OSError(message: string)
    | Interrupt
    | External(message: string)

  datatype Result<T> = Ok(value: T) | Err(error: Error)

  /** An insertion-ordered `str -> str` dictionary (Python's `dict`/`OrderedDict`). */
  type Dict = seq<(string, string)>

  /** A value stored under a key of a deployment configuration (JSON text,
      boolean, list of text, or a dictionary of secret files). */
  datatype Value =
    | Text(text: string)
    | Flag(flag: bool)
    | Names(names: seq<string>)
    | Files(files: Dict)

  predicate Distinct<T(==)>(s: seq<T>) {
    forall i, j :: 0 <= i < j < |s| ==> s[i] != s[j]
  }

  /** The keys of a dictionary, in insertion order. */
  function Keys(d: Dict): (ks: seq<string>)
    ensures |ks| == |d|
    ensures forall i :: 0 <= i < |d| ==> ks[i] == d[i].0
  {
    if d == [] then [] else [d[0].0] + Keys(d[1..])
  }

  /** `d.get(key)`: the value of the entry for `key`, if any. */
  function Lookup(d: Dict, key: string): Option<string>
  {
    if d == [] then None
    else if d[0].0 == key then Some(d[0].1)
    else Lookup(d[1..], key)
  }

  /** `d.get(key)` finds nothing exactly when `key` is not among the keys. */
  lemma {:induction false} LookupNoneIffAbsent(d: Dict, key: string)
    ensures Lookup(d, key).None? <==> key !in Keys(d)
  {
    if d != [] {
      LookupNoneIffAbsent(d[1..], key);
      assert Keys(d) == [d[0].0] + Keys(d[1..]);
    }
  }

  /** `d[key] = value`: overwrites an existing entry in its place, or appends a new one. */
  function Put(d: Dict, key: string, value: string): Dict
  {
    if d == [] then [(key, value)]
    else if d[0].0 == key then [(key, value)] + d[1..]
    else [d[0]] + Put(d[1..], key, value)
  }

  /** After `d[key] = value`: the keys are unchanged when `key` was there and
      gain `key` at the end otherwise; `key` holds `value` and every other key
      keeps its value. */
  lemma {:induction false} PutSpec(d: Dict, key: string, value: string)
    ensures key in Keys(d) ==> Keys(Put(d, key, value)) == Keys(d)
    ensures key !in Keys(d) ==> Keys(Put(d, key, value)) == Keys(d) + [key]
    ensures Lookup(Put(d, key, value), key) == Some(value)
    ensures forall k :: k != key ==> Lookup(Put(d, key, value), k) == Lookup(d, k)
  {
    var r := Put(d, key, value);
    if d != [] {
      assert Keys(d) == [d[0].0] + Keys(d[1..]);
      if d[0].0 == key {
        assert r[1..] == d[1..];
      } else {
        PutSpec(d[1..], key, value);
        assert r[1..] == Put(d[1..], key, value);
      }
    }
  }

  /** Successive `d[k] = v` assignments, in order. */
  function PutAll(d: Dict, entries: seq<(string, string)>): Dict
  {
    if entries == [] then d
    else var last := entries[|entries| - 1];
      Put(PutAll(d, entries[..|entries| - 1]), last.0, last.1)
  }

  /** Keys of a dictionary stay distinct under assignment. */
  lemma {:induction false} PutKeepsKeysDistinct(d: Dict, key: string, value: string)
    requires Distinct(Keys(d))
    ensures Distinct(Keys(Put(d, key, value)))
  {
    var ks := Keys(d);
    PutSpec(d, key, value);
    if key !in ks {
      var ks' := ks + [key];
      forall i, j | 0 <= i < j < |ks'| ensures ks'[i] != ks'[j] {
        if j == |ks| { assert ks'[i] == ks[i]; }
      }
    }
  }

  /** Assigning a key that is not there yet appends the entry. */
  lemma {:induction false} PutNewKey(d: Dict, key: string, value: string)
    requires key !in Keys(d)
    ensures Put(d, key, value) == d + [(key, value)]
  {
    if d != [] {
      assert d[0].0 == Keys(d)[0] != key;
      assert Keys(d[1..]) == Keys(d)[1..];
      PutNewKey(d[1..], key, value);
      assert Put(d, key, value) == [d[0]] + (d[1..] + [(key, value)]);
      assert d == [d[0]] + d[1..];
    }
  }

  /** With distinct keys, the entry at position `i` is what `Lookup` finds. */
  lemma {:induction false} LookupAt(d: Dict, i: nat)
    requires Distinct(Keys(d)) && i < |d|
    ensures Lookup(d, d[i].0) == Some(d[i].1)
  {
    if i > 0 {
      assert Keys(d[1..]) == Keys(d)[1..];
      assert d[0].0 == Keys(d)[0] != Keys(d)[i] == d[i].0;
      LookupAt(d[1..], i - 1);
    }
  }

  /** Assignments to keys that are all new and distinct build exactly that dictionary. */
  lemma {:induction false} PutAllNew(es: seq<(string, string)>)
    requires Distinct(Keys(es))
    ensures PutAll([], es) == es
  {
    if es != [] {
      var init := es[..|es| - 1];
      var last := es[|es| - 1];
      assert Keys(init) == Keys(es)[..|es| - 1];
      PutAllNew(init);
      assert last.0 !in Keys(init) by {
        forall k | 0 <= k < |init| ensures Keys(init)[k] != last.0 {
          assert Keys(es)[k] != Keys(es)[|es| - 1];
        }
      }
      PutNewKey(init, last.0, last.1);
      assert init + [last] == es;
    }
  }

  /** Assigning only keys that are already there keeps the keys and their order. */
  lemma {:induction false} PutAllExistingKeys(d: Dict, es: seq<(string, string)>)
    requires forall k :: 0 <= k < |es| ==> es[k].0 in Keys(d)
    ensures Keys(PutAll(d, es)) == Keys(d)
  {
    if es != [] {
      var init := es[..|es| - 1];
      assert forall k :: 0 <= k < |init| ==> init[k] == es[k];
      PutAllExistingKeys(d, init);
      PutSpec(PutAll(d, init), es[|es| - 1].0, es[|es| - 1].1);
    }
  }

  /** A key that no assignment names keeps its value. */
  lemma {:induction false} PutAllUntouched(d: Dict, es: seq<(string, string)>, key: string)
    requires forall k :: 0 <= k < |es| ==> es[k].0 != key
    ensures Lookup(PutAll(d, es), key) == Lookup(d, key)
  {
    if es != [] {
      var init := es[..|es| - 1];
      assert forall k :: 0 <= k < |init| ==> init[k] == es[k];
      PutAllUntouched(d, init, key);
      PutSpec(PutAll(d, init), es[|es| - 1].0, es[|es| - 1].1);
    }
  }

  /** A key holds the value of the last assignment to it. */
  lemma {:induction false} PutAllLast(d: Dict, es: seq<(string, string)>, i: nat)
    requires i < |es| && forall k :: i < k < |es| ==> es[k].0 != es[i].0
    ensures Lookup(PutAll(d, es), es[i].0) == Some(es[i].1)
  {
    var init := es[..|es| - 1];
    assert forall k :: 0 <= k < |init| ==> init[k] == es[k];
    PutSpec(PutAll(d, init), es[|es| - 1].0, es[|es| - 1].1);
    if i < |es| - 1 {
      PutAllLast(d, init, i);
    }
  }

  /** One more assignment from a list extends the assignments made so far. */
  lemma PutAllStep(d: Dict, es: seq<(string, string)>, i: nat)
    requires i < |es|
    ensures PutAll(d, es[..i + 1]) == Put(PutAll(d, es[..i]), es[i].0, es[i].1)
  {
    assert es[..i + 1][..i] == es[..i];
  }

  /** A dictionary's keys are the names its entries carry, position by position. */
  lemma KeysAre(d: Dict, names: seq<string>)
    requires |d| == |names| && forall i :: 0 <= i < |d| ==> d[i].0 == names[i]
    ensures Keys(d) == names
  {
  }

  /** With distinct keys `names`, the `i`-th name finds the `i`-th value. */
  lemma LookupNamed(d: Dict, names: seq<string>, i: nat)
    requires |d| == |names| && forall k :: 0 <= k < |d| ==> d[k].0 == names[k]
    requires Distinct(names) && i < |d|
    ensures Lookup(d, names[i]) == Some(d[i].1)
  {
    KeysAre(d, names);
    LookupAt(d, i);
  }

  /** `d` with the values of its first `|es|` entries taken from `es`. */
  function Overwrite(d: Dict, es: seq<(string, string)>): (r: Dict)
    requires |es| <= |d|
    ensures |r| == |d|
    ensures forall k :: 0 <= k < |d| ==> r[k] == (d[k].0, if k < |es| then es[k].1 else d[k].1)
  {
    seq(|d|, k requires 0 <= k < |d| => (d[k].0, if k < |es| then es[k].1 else d[k].1))
  }

  /** Assigning a key that is there replaces its value in place. */
  lemma {:induction false} PutAt(d: Dict, i: nat, value: string)
    requires Distinct(Keys(d)) && i < |d|
    ensures Put(d, d[i].0, value) == d[i := (d[i].0, value)]
  {
    var key := d[i].0;
    if i > 0 {
      var tail := d[1..];
      assert d[0].0 == Keys(d)[0] != Keys(d)[i] == key;
      assert Keys(tail) == Keys(d)[1..];
      assert tail[i - 1] == d[i];
      PutAt(tail, i - 1, value);
      var r := tail[i - 1 := (key, value)];
      assert Put(d, key, value) == [d[0]] + Put(tail, key, value);
      assert [d[0]] + r == d[i := (key, value)] by {
        forall k | 0 <= k < |d| ensures ([d[0]] + r)[k] == d[i := (key, value)][k] {
          if k > 0 { assert ([d[0]] + r)[k] == r[k - 1]; }
        }
      }
    } else {
      assert Put(d, key, value) == [(key, value)] + d[1..];
    }
  }

  /** Assigning the first keys of a dictionary with distinct keys, in order,
      overwrites their values in place. */
  lemma {:induction false} PutAllPrefix(d: Dict, es: seq<(string, string)>)
    requires Distinct(Keys(d)) && |es| <= |d|
    requires forall j :: 0 <= j < |es| ==> es[j].0 == d[j].0
    ensures PutAll(d, es) == Overwrite(d, es)
  {
    if es == [] {
      assert Overwrite(d, es) == d;
    } else {
      var n := |es| - 1;
      var init := es[..n];
      PutAllPrefix(d, init);
      var o := Overwrite(d, init);
      KeysAre(o, Keys(d));
      PutAt(o, n, es[n].1);
      assert o[n := (o[n].0, es[n].1)] == Overwrite(d, es);
    }
  }
}
