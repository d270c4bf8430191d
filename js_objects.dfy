/**
 * Plain JavaScript objects as ordered dictionaries: own keys in insertion
 * order, each key at most once.  Assigning an existing key keeps its
 * position; assigning a new key appends it.
 */
module JsObjects {
  import opened JsValues

  ghost predicate UniqueKeys<V>(o: seq<(string, V)>) {
    forall i, j :: 0 <= i < j < |o| ==> o[i].0 != o[j].0
  }

  type JsObject<V> = o: seq<(string, V)> | UniqueKeys(o) witness []

  /** `_.keys(o)` */
  function Keys<V>(o: seq<(string, V)>): (ks: seq<string>)
    ensures |ks| == |o| && forall i :: 0 <= i < |o| ==> ks[i] == o[i].0
  {
    seq(|o|, i requires 0 <= i < |o| => o[i].0)
  }

  /** The position of key `k` in `o`. */
  function IndexOf<V>(o: seq<(string, V)>, k: string): (i: nat)
    requires k in Keys(o)
    ensures i < |o| && o[i].0 == k
  {
    if o[0].0 == k then 0
    else
      KeysCons(o);
      1 + IndexOf(o[1..], k)
  }

  /** `o[k]`, `None` standing for an absent key. */
  function Get<V>(o: JsObject<V>, k: string): (r: Option<V>)
    ensures r.None? <==> k !in Keys(o)
    ensures forall i :: 0 <= i < |o| && o[i].0 == k ==> r == Some(o[i].1)
  {
    if k in Keys(o) then Some(o[IndexOf(o, k)].1) else None
  }

  /** `o[k] = v` on a copy of `o`. */
  function Set<V>(o: JsObject<V>, k: string, v: V): (r: JsObject<V>)
    ensures Keys(r) == if k in Keys(o) then Keys(o) else Keys(o) + [k]
    ensures Get(r, k) == Some(v)
    ensures forall k' :: k' != k ==> Get(r, k') == Get(o, k')
  {
    if k in Keys(o) then
      var i := IndexOf(o, k);
      var r := o[i := (k, v)];
      assert Keys(r) == Keys(o);
      r
    else
      var r := o + [(k, v)];
      assert Keys(r) == Keys(o) + [k];
      r
  }

  /** `_.assign(o, src)`: every own key of `src`, in order, assigned onto `o`. */
  function Assign<V>(o: JsObject<V>, src: JsObject<V>): (r: JsObject<V>)
    decreases |src|
  {
    if src == [] then o else Assign(Set(o, src[0].0, src[0].1), src[1..])
  }

  /** `_.omit(o, k)` */
  function Omit<V>(o: JsObject<V>, k: string): (r: JsObject<V>)
    ensures Get(r, k) == None
    ensures forall k' :: k' != k ==> Get(r, k') == Get(o, k')
    ensures k !in Keys(o) ==> r == o
  {
    if k in Keys(o) then
      var i := IndexOf(o, k);
      var r := o[..i] + o[i + 1..];
      RemoveAtGet(o, i, r);
      r
    else o
  }

  lemma RemoveAtGet<V>(o: JsObject<V>, i: nat, r: JsObject<V>)
    requires i < |o| && |r| == |o| - 1
    requires forall j :: 0 <= j < i ==> r[j] == o[j]
    requires forall j :: i <= j < |r| ==> r[j] == o[j + 1]
    ensures Get(r, o[i].0) == None
    ensures forall k' :: k' != o[i].0 ==> Get(r, k') == Get(o, k')
  {
    forall j | 0 <= j < |r|
      ensures r[j].0 != o[i].0
    {
      if j < i {
        assert r[j] == o[j];
      } else {
        assert r[j] == o[j + 1];
      }
    }
    forall k' | k' != o[i].0
      ensures Get(r, k') == Get(o, k')
    {
      if k' in Keys(o) {
        var j := IndexOf(o, k');
        if j < i {
          assert r[j] == o[j];
        } else {
          assert j != i;
          assert r[j - 1] == o[j];
        }
      } else {
        forall j | 0 <= j < |r|
          ensures Keys(r)[j] != k'
        {
          if j < i {
            assert r[j] == o[j] && Keys(o)[j] == o[j].0;
          } else {
            assert r[j] == o[j + 1] && Keys(o)[j + 1] == o[j + 1].0;
          }
        }
      }
    }
  }

  /** Looking a key up in an object is looking at its first entry, then the rest. */
  lemma GetCons<V>(o: JsObject<V>, k: string)
    requires o != []
    ensures Get(o, k) == if k == o[0].0 then Some(o[0].1) else Get(o[1..], k)
    ensures k in Keys(o) <==> k == o[0].0 || k in Keys(o[1..])
  {
    var tail: JsObject<V> := o[1..];
    assert Keys(o) == [o[0].0] + Keys(tail);
    if k != o[0].0 && k in Keys(tail) {
      var i := IndexOf(tail, k);
      assert tail[i] == o[i + 1];
    }
  }

  /** Lodash's assign: the source's keys win, the target's other keys stay. */
  lemma {:induction false} GetAssign<V>(o: JsObject<V>, src: JsObject<V>, k: string)
    ensures Get(Assign(o, src), k) == if k in Keys(src) then Get(src, k) else Get(o, k)
    decreases |src|
  {
    if src != [] {
      GetAssign(Set(o, src[0].0, src[0].1), src[1..], k);
      GetCons(src, k);
    }
  }

  /** The keys of a non-empty object: its first key, then the rest's. */
  lemma KeysCons<V>(o: seq<(string, V)>)
    requires o != []
    ensures Keys(o) == [o[0].0] + Keys(o[1..])
  {
  }

  /** A prefix of a prefix is a prefix. */
  lemma PrefixOfPrefix(a: seq<string>, b: seq<string>, c: seq<string>)
    requires |b| <= |a| && a[..|b|] == b
    requires |c| <= |b| && b[..|c|] == c
    ensures |c| <= |a| && a[..|c|] == c
  {
    assert a[..|c|] == a[..|b|][..|c|];
  }

  lemma ConcatStrings(a: seq<string>, b: seq<string>, c: seq<string>)
    ensures a + b + c == a + (b + c)
  {
  }

  /** Setting a key keeps the existing keys as a prefix and adds at most that key. */
  lemma SetKeys<V>(o: JsObject<V>, k: string, v: V)
    ensures |Keys(o)| <= |Keys(Set(o, k, v))| && Keys(Set(o, k, v))[..|Keys(o)|] == Keys(o)
    ensures forall x :: x in Keys(Set(o, k, v)) <==> x in Keys(o) || x == k
  {
    var ko, ks := Keys(o), Keys(Set(o, k, v));
    if k in ko {
      assert ks == ko;
    } else {
      assert ks == ko + [k];
      assert ks[..|ko|] == ko;
    }
  }

  /** Assign keeps the target's keys in place and only appends. */
  lemma {:induction false} KeysAssign<V>(o: JsObject<V>, src: JsObject<V>)
    ensures |Keys(o)| <= |Keys(Assign(o, src))|
    ensures Keys(Assign(o, src))[..|Keys(o)|] == Keys(o)
    ensures forall k :: k in Keys(Assign(o, src)) <==> k in Keys(o) || k in Keys(src)
    decreases |src|
  {
    if src != [] {
      var head := Set(o, src[0].0, src[0].1);
      var tail: JsObject<V> := src[1..];
      var a := Assign(o, src);
      assert a == Assign(head, tail);
      KeysAssign(head, tail);
      SetKeys(o, src[0].0, src[0].1);
      PrefixOfPrefix(Keys(a), Keys(head), Keys(o));
      KeysCons(src);
    }
  }

  /** Omitting a key forgets whatever was assigned to it. */
  lemma OmitSet<V>(o: JsObject<V>, k: string, v: V)
    ensures Omit(Set(o, k, v), k) == Omit(o, k)
  {
    if k in Keys(o) {
      var i := IndexOf(o, k);
      var s := o[i := (k, v)];
      assert Keys(s)[i] == k;
      assert IndexOf(s, k) == i by {
        IndexOfUnique(s, k, IndexOf(s, k), i);
      }
      assert s[..i] == o[..i] && s[i + 1..] == o[i + 1..];
    } else {
      var s := o + [(k, v)];
      assert Keys(s)[|o|] == k;
      assert IndexOf(s, k) == |o| by {
        IndexOfUnique(s, k, IndexOf(s, k), |o|);
      }
      assert s[..|o|] == o;
    }
  }

  /** Omitting twice is omitting once. */
  lemma OmitOmit<V>(o: JsObject<V>, k: string)
    ensures Omit(Omit(o, k), k) == Omit(o, k)
  {
  }

  lemma IndexOfUnique<V>(o: JsObject<V>, k: string, i: nat, j: nat)
    requires i < |o| && j < |o| && o[i].0 == k && o[j].0 == k
    ensures i == j
  {
  }

  /** Assigning fresh keys appends them, in the source's order. */
  lemma {:induction false} KeysAssignDisjoint<V>(o: JsObject<V>, src: JsObject<V>)
    requires forall k :: k in Keys(src) ==> k !in Keys(o)
    ensures Keys(Assign(o, src)) == Keys(o) + Keys(src)
    decreases |src|
  {
    if src != [] {
      var head := Set(o, src[0].0, src[0].1);
      var tail: JsObject<V> := src[1..];
      TailStaysFresh(o, src);
      KeysAssignDisjoint(head, tail);
      assert Assign(o, src) == Assign(head, tail);
      KeysCons(src);
      ConcatStrings(Keys(o), [src[0].0], Keys(tail));
    }
  }

  lemma TailStaysFresh<V>(o: JsObject<V>, src: JsObject<V>)
    requires src != []
    requires forall k :: k in Keys(src) ==> k !in Keys(o)
    ensures Keys(Set(o, src[0].0, src[0].1)) == Keys(o) + [src[0].0]
    ensures forall k :: k in Keys(src[1..]) ==> k !in Keys(Set(o, src[0].0, src[0].1))
  {
    var tail: JsObject<V> := src[1..];
    forall k | k in Keys(tail) ensures k != src[0].0 && k in Keys(src) {
      var i := IndexOf(tail, k);
      assert tail[i] == src[i + 1];
      assert Keys(src)[i + 1] == k;
    }
  }

  /** Assigning an object of fresh keys: they are appended and everything else stays. */
  lemma AssignDisjoint<V>(o: JsObject<V>, src: JsObject<V>)
    requires forall k :: k in Keys(src) ==> k !in Keys(o)
    ensures Keys(Assign(o, src)) == Keys(o) + Keys(src)
    ensures forall k :: Get(Assign(o, src), k) == if k in Keys(src) then Get(src, k) else Get(o, k)
  {
    KeysAssignDisjoint(o, src);
    forall k ensures Get(Assign(o, src), k) == if k in Keys(src) then Get(src, k) else Get(o, k) {
      GetAssign(o, src, k);
    }
  }

  /**
   * Assigning onto a one-key object an object that lacks that key: the key
   * stays first and keeps its value, and every other key reads the source.
   */
  lemma AssignOntoSingle<V>(obj: JsObject<V>, src: JsObject<V>, key: string)
    requires Keys(obj) == [key] && key !in Keys(src)
    ensures Keys(Assign(obj, src)) == [key] + Keys(src)
    ensures Get(Assign(obj, src), key) == Get(obj, key)
    ensures forall k :: k != key ==> Get(Assign(obj, src), k) == Get(src, k)
  {
    AssignDisjoint(obj, src);
  }
}
