/**
  The formatter's `$pairs`: a PHP associative array from key to the pair's
  rendered `key=value` text. Assigning to a key that is present replaces its
  text where it stands; assigning to a new key appends it at the end.
 */
module Pairs {
  import opened Values

  datatype Pair = Pair(key: string, text: string)

  function Keys(ps: seq<Pair>): (ks: seq<string>)
    ensures |ks| == |ps|
    ensures forall i :: 0 <= i < |ps| ==> ks[i] == ps[i].key
  {
    seq(|ps|, i requires 0 <= i < |ps| => ps[i].key)
  }

  function Texts(ps: seq<Pair>): (ts: seq<string>)
    ensures |ts| == |ps|
    ensures forall i :: 0 <= i < |ps| ==> ts[i] == ps[i].text
  {
    seq(|ps|, i requires 0 <= i < |ps| => ps[i].text)
  }

  lemma KeysAppend(ps: seq<Pair>, qs: seq<Pair>)
    ensures Keys(ps + qs) == Keys(ps) + Keys(qs)
  {
  }

  /** No key occurs twice: what a PHP array guarantees of its keys. */
  predicate DistinctKeys(ps: seq<Pair>)
  {
    forall i, j :: 0 <= i < j < |ps| ==> ps[i].key != ps[j].key
  }

  /** The position of `key` in the array, when present. */
  function IndexOf(ps: seq<Pair>, key: string): (i: nat)
    requires key in Keys(ps)
    ensures i < |ps| && ps[i].key == key
    ensures forall j :: 0 <= j < i ==> ps[j].key != key
    decreases |ps|
  {
    if ps[0].key == key then 0
    else
      assert key in Keys(ps[1..]) by {
        var k :| 0 <= k < |ps| && Keys(ps)[k] == key;
        assert Keys(ps[1..])[k - 1] == key;
      }
      var i := 1 + IndexOf(ps[1..], key);
      assert forall j :: 1 <= j < i ==> ps[j] == ps[1..][j - 1];
      i
  }

  /** The first position holding a key is the one `IndexOf` finds. */
  lemma IndexOfUnique(ps: seq<Pair>, key: string, i: nat)
    requires i < |ps| && ps[i].key == key
    requires forall j :: 0 <= j < i ==> ps[j].key != key
    ensures key in Keys(ps) && IndexOf(ps, key) == i
  {
    assert Keys(ps)[i] == key;
  }

  /** `$pairs[$key]`, or `None` when `array_key_exists` would say no. */
  function Get(ps: seq<Pair>, key: string): (r: Option<string>)
    ensures r.None? <==> key !in Keys(ps)
    ensures r.Some? ==> exists i :: 0 <= i < |ps| && ps[i] == Pair(key, r.value)
  {
    if key in Keys(ps) then Some(ps[IndexOf(ps, key)].text) else None
  }

  /**
    `$pairs[$key] = $text`: a present key keeps its place and takes the new
    text; a new key goes to the end.
   */
  function Put(ps: seq<Pair>, key: string, text: string): (r: seq<Pair>)
    ensures key !in Keys(ps) ==> r == ps + [Pair(key, text)]
    ensures key in Keys(ps) ==> |r| == |ps| && Keys(r) == Keys(ps)
    ensures DistinctKeys(ps) && key in Keys(ps) ==>
      forall i :: 0 <= i < |ps| ==> r[i] == (if ps[i].key == key then Pair(key, text) else ps[i])
    ensures DistinctKeys(ps) ==> DistinctKeys(r)
  {
    if key in Keys(ps) then
      var i := IndexOf(ps, key);
      var r := ps[i := Pair(key, text)];
      assert forall j :: 0 <= j < |ps| ==> r[j].key == ps[j].key;
      r
    else ps + [Pair(key, text)]
  }

  /** Assigning to the first key replaces its text there and leaves the rest alone. */
  lemma PutHead(key: string, old_text: string, text: string, rest: seq<Pair>)
    ensures Put([Pair(key, old_text)] + rest, key, text) == [Pair(key, text)] + rest
  {
    var ps := [Pair(key, old_text)] + rest;
    assert Keys(ps)[0] == key;
    assert IndexOf(ps, key) == 0;
  }

  /** Reading back what was just written gives it; every other key reads as before. */
  lemma GetPut(ps: seq<Pair>, key: string, text: string, other: string)
    ensures Get(Put(ps, key, text), key) == Some(text)
    ensures other != key ==> Get(Put(ps, key, text), other) == Get(ps, other)
  {
    var r := Put(ps, key, text);
    var i := if key in Keys(ps) then IndexOf(ps, key) else |ps|;
    assert r[i] == Pair(key, text);
    assert forall j :: 0 <= j < |r| && j != i ==> r[j] == ps[j];
    IndexOfUnique(r, key, i);
    if other != key && other in Keys(ps) {
      var j := IndexOf(ps, other);
      IndexOfUnique(r, other, j);
    }
    if other != key && other !in Keys(ps) {
      assert Keys(r) == Keys(ps) || Keys(r) == Keys(ps) + [key];
    }
  }

  /** With distinct keys, reading a key gives the text stored at its position. */
  lemma GetAt(ps: seq<Pair>, i: nat)
    requires DistinctKeys(ps) && i < |ps|
    ensures Get(ps, ps[i].key) == Some(ps[i].text)
  {
    IndexOfUnique(ps, ps[i].key, i);
  }

  /** Pairs appended after a key do not change what it reads. */
  lemma GetPrefix(ps: seq<Pair>, qs: seq<Pair>, key: string)
    requires key in Keys(ps)
    ensures Get(ps + qs, key) == Get(ps, key)
  {
    var i := IndexOf(ps, key);
    IndexOfUnique(ps + qs, key, i);
  }

  /** The assignments of `news`, one after the other, in order. */
  function PutAll(ps: seq<Pair>, news: seq<Pair>): seq<Pair>
    decreases |news|
  {
    if news == [] then ps else PutAll(Put(ps, news[0].key, news[0].text), news[1..])
  }

  lemma {:induction false} PutAllAppend(ps: seq<Pair>, a: seq<Pair>, b: seq<Pair>)
    ensures PutAll(ps, a + b) == PutAll(PutAll(ps, a), b)
    decreases |a|
  {
    if a == [] {
      assert a + b == b;
    } else {
      var p1 := Put(ps, a[0].key, a[0].text);
      assert (a + b)[0] == a[0];
      assert (a + b)[1..] == a[1..] + b;
      assert PutAll(ps, a + b) == PutAll(p1, a[1..] + b);
      PutAllAppend(p1, a[1..], b);
    }
  }

  /** Assignments never move or remove a key: the old keys stay a prefix of the new ones. */
  lemma {:induction false} PutAllKeepsKeys(ps: seq<Pair>, news: seq<Pair>)
    ensures |ps| <= |PutAll(ps, news)|
    ensures Keys(ps) == Keys(PutAll(ps, news))[..|ps|]
    decreases |news|
  {
    if news != [] {
      var p1 := Put(ps, news[0].key, news[0].text);
      PutAllKeepsKeys(p1, news[1..]);
      assert Keys(ps) == Keys(p1)[..|ps|];
    }
  }

  /** A key that is neither present nor assigned stays absent. */
  lemma {:induction false} PutAllKeyAbsent(ps: seq<Pair>, news: seq<Pair>, key: string)
    requires key !in Keys(ps)
    requires forall p :: p in news ==> p.key != key
    ensures key !in Keys(PutAll(ps, news))
    decreases |news|
  {
    if news != [] {
      var p1 := Put(ps, news[0].key, news[0].text);
      assert news[0] in news;
      assert key !in Keys(p1) by {
        if news[0].key !in Keys(ps) {
          KeysAppend(ps, [news[0]]);
        }
      }
      assert forall p :: p in news[1..] ==> p in news;
      PutAllKeyAbsent(p1, news[1..], key);
    }
  }

  /** Distinct keys over two arrays appended: each is distinct, and no key of the second is in the first. */
  lemma DistinctAppend(ps: seq<Pair>, qs: seq<Pair>)
    requires DistinctKeys(ps + qs)
    ensures DistinctKeys(ps) && DistinctKeys(qs)
    ensures forall i :: 0 <= i < |qs| ==> qs[i].key !in Keys(ps)
  {
    forall i | 0 <= i < |qs|
      ensures qs[i].key !in Keys(ps)
    {
      assert (ps + qs)[|ps| + i] == qs[i];
      forall j | 0 <= j < |ps|
        ensures Keys(ps)[j] != qs[i].key
      {
        assert (ps + qs)[j] == ps[j];
      }
    }
    forall i, j | 0 <= i < j < |qs|
      ensures qs[i].key != qs[j].key
    {
      assert (ps + qs)[|ps| + i] == qs[i] && (ps + qs)[|ps| + j] == qs[j];
    }
    forall i, j | 0 <= i < j < |ps|
      ensures ps[i].key != ps[j].key
    {
      assert (ps + qs)[i] == ps[i] && (ps + qs)[j] == ps[j];
    }
  }

  /** Two arrays with distinct keys and no key in common append to an array with distinct keys. */
  lemma DistinctConcat(ps: seq<Pair>, qs: seq<Pair>)
    requires DistinctKeys(ps) && DistinctKeys(qs)
    requires forall i :: 0 <= i < |qs| ==> qs[i].key !in Keys(ps)
    ensures DistinctKeys(ps + qs)
  {
    forall i, j | 0 <= i < j < |ps + qs|
      ensures (ps + qs)[i].key != (ps + qs)[j].key
    {
      if i < |ps| && j >= |ps| {
        assert Keys(ps)[i] == ps[i].key;
        assert (ps + qs)[j] == qs[j - |ps|];
      }
    }
  }

  /** Assignments to distinct keys that are all new only append: `PutAll` is then `+`. */
  lemma {:induction false} PutAllFresh(ps: seq<Pair>, news: seq<Pair>)
    requires DistinctKeys(news)
    requires forall i :: 0 <= i < |news| ==> news[i].key !in Keys(ps)
    ensures PutAll(ps, news) == ps + news
    decreases |news|
  {
    if news != [] {
      assert news[0].key !in Keys(ps);
      FreshTail(ps, news);
      PutAllFresh(ps + [news[0]], news[1..]);
      assert ps + [news[0]] + news[1..] == ps + news;
    }
  }

  /** After the first fresh assignment, the remaining ones are still distinct and fresh. */
  lemma FreshTail(ps: seq<Pair>, news: seq<Pair>)
    requires news != [] && DistinctKeys(news)
    requires forall i :: 0 <= i < |news| ==> news[i].key !in Keys(ps)
    ensures DistinctKeys(news[1..])
    ensures forall i :: 0 <= i < |news| - 1 ==> news[1..][i].key !in Keys(ps + [news[0]])
  {
    KeysAppend(ps, [news[0]]);
    assert forall i :: 0 <= i < |news| - 1 ==> news[1..][i] == news[i + 1];
  }

  /** Assignments keep the keys distinct. */
  lemma {:induction false} PutAllDistinct(ps: seq<Pair>, news: seq<Pair>)
    requires DistinctKeys(ps)
    ensures DistinctKeys(PutAll(ps, news))
    decreases |news|
  {
    if news != [] {
      PutAllDistinct(Put(ps, news[0].key, news[0].text), news[1..]);
    }
  }
}
