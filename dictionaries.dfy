/**
 * Plain JavaScript objects used as string dictionaries. Both discovery loops of
 * the collector fill one with `dictionary[key] = value`, one pair at a time.
 */
module Dictionaries {
  import opened Wrappers

  /** The display name `${base}/${quote}` stored for a symbol. */
  function DisplayName(base: string, quote: string): string
  {
    base + "/" + quote
  }

  /** The keys a sequence of assignments writes. */
  function KeysOf(writes: seq<(string, string)>): set<string>
  {
    set i | 0 <= i < |writes| :: writes[i].0
  }

  /** The dictionary after performing `m[k] = v` for every pair of `writes`, in order. */
  function Assign(m: map<string, string>, writes: seq<(string, string)>): map<string, string>
    decreases |writes|
  {
    if writes == [] then m
    else
      var last := writes[|writes| - 1];
      Assign(m, writes[..|writes| - 1])[last.0 := last.1]
  }

  /** No write after the i-th one uses the same key. */
  predicate LastWrite(writes: seq<(string, string)>, i: int)
  {
    0 <= i < |writes| && forall j :: i < j < |writes| ==> writes[j].0 != writes[i].0
  }

  /** `dictionary[key]` on a plain object: `None` is `undefined`, for a key never written. */
  function Lookup(dictionary: map<string, string>, key: string): (r: Option<string>)
    ensures r.Some? <==> key in dictionary
    ensures r.Some? ==> r.value == dictionary[key]
  {
    if key in dictionary then Some(dictionary[key]) else None
  }

  /** Reading the dictionary after a loop of writes: a key gets the value of its last write. */
  lemma LookupAfterAssign(m: map<string, string>, writes: seq<(string, string)>, i: int)
    requires LastWrite(writes, i)
    ensures Lookup(Assign(m, writes), writes[i].0) == Some(writes[i].1)
  {
    AssignLastWrite(m, writes, i);
  }

  /** A key no write of the loop uses reads as it did before the loop (also when `undefined`). */
  lemma LookupUnwritten(m: map<string, string>, writes: seq<(string, string)>, key: string)
    requires key !in KeysOf(writes)
    ensures Lookup(Assign(m, writes), key) == Lookup(m, key)
  {
    AssignKeys(m, writes);
    if key in m {
      AssignKeepsOthers(m, writes, key);
    }
  }

  /** One more assignment at the end of the loop updates one key. */
  lemma AssignSnoc(m: map<string, string>, writes: seq<(string, string)>, k: string, v: string)
    ensures Assign(m, writes + [(k, v)]) == Assign(m, writes)[k := v]
  {
    assert (writes + [(k, v)])[..|writes|] == writes;
  }

  /** Assignments only add keys: the keys afterwards are the old ones and the written ones. */
  lemma {:induction false} AssignKeys(m: map<string, string>, writes: seq<(string, string)>)
    ensures Assign(m, writes).Keys == m.Keys + KeysOf(writes)
    decreases |writes|
  {
    if writes != [] {
      var init := writes[..|writes| - 1];
      AssignKeys(m, init);
      assert KeysOf(writes) == KeysOf(init) + {writes[|writes| - 1].0} by {
        forall k | k in KeysOf(writes) ensures k in KeysOf(init) + {writes[|writes| - 1].0} {
          var i :| 0 <= i < |writes| && writes[i].0 == k;
          if i < |writes| - 1 { assert init[i] == writes[i]; }
        }
        forall k | k in KeysOf(init) ensures k in KeysOf(writes) {
          var i :| 0 <= i < |init| && init[i].0 == k;
          assert writes[i] == init[i];
        }
      }
    }
  }

  /** The value a key ends with is the one its last write stored (later writes overwrite). */
  lemma {:induction false} AssignLastWrite(m: map<string, string>, writes: seq<(string, string)>, i: int)
    requires LastWrite(writes, i)
    ensures writes[i].0 in Assign(m, writes) && Assign(m, writes)[writes[i].0] == writes[i].1
    decreases |writes|
  {
    var init := writes[..|writes| - 1];
    if i < |writes| - 1 {
      assert init[i] == writes[i];
      assert LastWrite(init, i) by {
        forall j | i < j < |init| ensures init[j].0 != init[i].0 {
          assert init[j] == writes[j];
        }
      }
      AssignLastWrite(m, init, i);
    }
  }

  /** A key that no write uses keeps its old value. */
  lemma {:induction false} AssignKeepsOthers(m: map<string, string>, writes: seq<(string, string)>, k: string)
    requires k in m && k !in KeysOf(writes)
    ensures k in Assign(m, writes) && Assign(m, writes)[k] == m[k]
    decreases |writes|
  {
    if writes != [] {
      var init := writes[..|writes| - 1];
      assert k != writes[|writes| - 1].0;
      assert k !in KeysOf(init) by {
        forall i | 0 <= i < |init| ensures init[i].0 != k {
          assert init[i] == writes[i];
        }
      }
      AssignKeepsOthers(m, init, k);
    }
  }

  /** Two loops over the same dictionary, one after the other, are one loop over both lists. */
  lemma {:induction false} AssignConcat(m: map<string, string>, first: seq<(string, string)>, second: seq<(string, string)>)
    ensures Assign(m, first + second) == Assign(Assign(m, first), second)
    decreases |second|
  {
    if second == [] {
      assert first + second == first;
    } else {
      var init := second[..|second| - 1];
      var last := second[|second| - 1];
      assert (first + second)[..|first + second| - 1] == first + init;
      AssignConcat(m, first, init);
    }
  }
}
