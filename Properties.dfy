/**
  What the formatter promises about the lines it writes: which standard
  fields appear and where, which context and extra entries survive, how
  flattening names its pairs, and what a batch is.
 */
module LogfmtProperties {
  import opened Values
  import opened Text
  import opened Pairs
  import opened Logfmt

  // ---------------------------------------------------------------------
  // Configured keys

  /**
    A standard field is enabled exactly when its key argument is a truthy
    string whose trimmed form is non-empty and free of control characters,
    DEL, whitespace, `"` and `=`.
   */
  lemma KeyEnabledIff(k: Option<string>)
    ensures KeyValid(ConfiguredKey(k)) <==>
      && k.Some?
      && k.value != "" && k.value != "0"
      && Trim(k.value) != ""
      && forall i :: 0 <= i < |Trim(k.value)| ==> !InForbiddenClass(Trim(k.value)[i])
  {
    if k.Some? {
      ValidStringIff(Trim(k.value));
    }
  }

  /** A key made only of whitespace (or empty) disables its field. */
  lemma BlankKeyDisables(s: string)
    requires forall i :: 0 <= i < |s| ==> IsTrimChar(s[i])
    ensures !KeyValid(ConfiguredKey(Some(s)))
  {
    assert Trim(s) == [];
  }

  /** Surrounding whitespace is trimmed away before the key is checked. */
  lemma PaddedKeyIsTrimmed()
    ensures ConfiguredKey(Some(" msg\t")) == Some("msg")
    ensures KeyValid(ConfiguredKey(Some(" msg\t")))
    ensures ConfiguredKey(Some("0")) == None
  {
    var s := " msg\t";
    var t := s[1..];
    assert t == "msg\t";
    assert LeadingTrim(t) == 0;
    assert LeadingTrim(s) == 1;
    assert t[..3] == "msg";
    assert TrailingTrim(t[..3]) == 0;
    assert TrailingTrim(t) == 1;
    assert Trim(s) == "msg";
    ValidStringIff("msg");
  }

  // ---------------------------------------------------------------------
  // Standard fields

  /** The single pair a standard field contributes when its key has no twin. */
  function Field(key: Option<string>, text: string): seq<Pair>
  {
    if KeyValid(key) then [Pair(key.value, key.value + "=" + text)] else []
  }

  /** No two enabled standard fields share a key. */
  predicate EnabledKeysDistinct(s: Settings)
  {
    var ks := [s.timeKey, s.levelKey, s.channelKey, s.messageKey];
    forall i, j :: 0 <= i < j < 4 && KeyValid(ks[i]) && KeyValid(ks[j]) ==> ks[i] != ks[j]
  }

  lemma PutFieldAppends(ps: seq<Pair>, key: Option<string>, text: string)
    requires KeyValid(key) ==> key.value !in Keys(ps)
    ensures PutField(ps, key, text) == ps + Field(key, text)
  {
  }

  /**
    With distinct keys, the enabled standard fields are written in the
    fixed order time, level, channel, message; time and level text are
    written as they come, channel and message through `StringifyVal`.
   */
  lemma StandardPairsInOrder(s: Settings, json: Json, r: Record)
    requires EnabledKeysDistinct(s)
    ensures StandardPairs(s, json, r) ==
      Field(s.timeKey, r.datetime) + Field(s.levelKey, r.levelName)
      + Field(s.channelKey, StringifyVal(json, r.channel))
      + Field(s.messageKey, StringifyVal(json, r.message))
  {
    var ks := [s.timeKey, s.levelKey, s.channelKey, s.messageKey];
    assert ks[0] == s.timeKey && ks[1] == s.levelKey && ks[2] == s.channelKey && ks[3] == s.messageKey;
    var f1 := Field(s.timeKey, r.datetime);
    var f2 := Field(s.levelKey, r.levelName);
    var f3 := Field(s.channelKey, StringifyVal(json, r.channel));
    var f4 := Field(s.messageKey, StringifyVal(json, r.message));
    assert PutField([], s.timeKey, r.datetime) == f1 by {
      PutFieldAppends([], s.timeKey, r.datetime);
    }
    assert PutField(f1, s.levelKey, r.levelName) == f1 + f2 by {
      FieldKeys(s.timeKey, r.datetime);
      PutFieldAppends(f1, s.levelKey, r.levelName);
    }
    assert PutField(f1 + f2, s.channelKey, StringifyVal(json, r.channel)) == f1 + f2 + f3 by {
      FieldKeys(s.timeKey, r.datetime);
      FieldKeys(s.levelKey, r.levelName);
      KeysAppend(f1, f2);
      PutFieldAppends(f1 + f2, s.channelKey, StringifyVal(json, r.channel));
    }
    assert PutField(f1 + f2 + f3, s.messageKey, StringifyVal(json, r.message)) == f1 + f2 + f3 + f4 by {
      FieldKeys(s.timeKey, r.datetime);
      FieldKeys(s.levelKey, r.levelName);
      FieldKeys(s.channelKey, StringifyVal(json, r.channel));
      KeysAppend(f1, f2);
      KeysAppend(f1 + f2, f3);
      PutFieldAppends(f1 + f2 + f3, s.messageKey, StringifyVal(json, r.message));
    }
  }

  lemma FieldKeys(key: Option<string>, text: string)
    ensures Keys(Field(key, text)) == if KeyValid(key) then [key.value] else []
  {
  }

  /**
    What a standard key reads in the standard pairs: the text of the LAST
    enabled field configured with that key, so two fields sharing a key
    collapse into one slot holding the later value.
   */
  lemma StandardGet(s: Settings, json: Json, r: Record, k: string)
    ensures Get(StandardPairs(s, json, r), k) ==
      if KeyValid(s.messageKey) && s.messageKey.value == k then Some(k + "=" + StringifyVal(json, r.message))
      else if KeyValid(s.channelKey) && s.channelKey.value == k then Some(k + "=" + StringifyVal(json, r.channel))
      else if KeyValid(s.levelKey) && s.levelKey.value == k then Some(k + "=" + r.levelName)
      else if KeyValid(s.timeKey) && s.timeKey.value == k then Some(k + "=" + r.datetime)
      else None
  {
    var p1 := PutField([], s.timeKey, r.datetime);
    var p2 := PutField(p1, s.levelKey, r.levelName);
    var p3 := PutField(p2, s.channelKey, StringifyVal(json, r.channel));
    var p4 := PutField(p3, s.messageKey, StringifyVal(json, r.message));
    if KeyValid(s.timeKey) { GetPut([], s.timeKey.value, s.timeKey.value + "=" + r.datetime, k); }
    if KeyValid(s.levelKey) { GetPut(p1, s.levelKey.value, s.levelKey.value + "=" + r.levelName, k); }
    if KeyValid(s.channelKey) { GetPut(p2, s.channelKey.value, s.channelKey.value + "=" + StringifyVal(json, r.channel), k); }
    if KeyValid(s.messageKey) { GetPut(p3, s.messageKey.value, s.messageKey.value + "=" + StringifyVal(json, r.message), k); }
  }

  /**
    Time and message configured under the same key: that key keeps the time
    field's slot, first in the line, and holds the message, while level and
    channel (when enabled under keys of their own) follow in their slots.
   */
  lemma TimeAndMessageShareKey(s: Settings, json: Json, r: Record)
    requires KeyValid(s.timeKey) && s.messageKey == s.timeKey
    requires KeyValid(s.levelKey) ==> s.levelKey != s.timeKey
    requires KeyValid(s.channelKey) ==> s.channelKey != s.timeKey
    requires KeyValid(s.levelKey) && KeyValid(s.channelKey) ==> s.levelKey != s.channelKey
    ensures StandardPairs(s, json, r) ==
      [Pair(s.timeKey.value, s.timeKey.value + "=" + StringifyVal(json, r.message))]
      + Field(s.levelKey, r.levelName) + Field(s.channelKey, StringifyVal(json, r.channel))
  {
    FirstKeyRewritten(s.timeKey, s.levelKey, s.channelKey,
      r.datetime, r.levelName, StringifyVal(json, r.channel), StringifyVal(json, r.message));
  }

  /** Four field writes whose last reuses the first key: that pair takes the last text, in the first slot. */
  lemma FirstKeyRewritten(k: Option<string>, k2: Option<string>, k3: Option<string>, t1: string, t2: string, t3: string, t4: string)
    requires KeyValid(k)
    requires KeyValid(k2) ==> k2 != k
    requires KeyValid(k3) ==> k3 != k
    requires KeyValid(k2) && KeyValid(k3) ==> k2 != k3
    ensures PutField(PutField(PutField(PutField([], k, t1), k2, t2), k3, t3), k, t4)
         == [Pair(k.value, k.value + "=" + t4)] + Field(k2, t2) + Field(k3, t3)
  {
    var key := k.value;
    var rest := Field(k2, t2) + Field(k3, t3);
    ThreeFieldsAppend(k, k2, k3, t1, t2, t3);
    PutHead(key, key + "=" + t1, key + "=" + t4, rest);
  }

  /** Three field writes under distinct keys append their pairs in order. */
  lemma ThreeFieldsAppend(k: Option<string>, k2: Option<string>, k3: Option<string>, t1: string, t2: string, t3: string)
    requires KeyValid(k)
    requires KeyValid(k2) ==> k2 != k
    requires KeyValid(k3) ==> k3 != k
    requires KeyValid(k2) && KeyValid(k3) ==> k2 != k3
    ensures PutField(PutField(PutField([], k, t1), k2, t2), k3, t3)
         == [Pair(k.value, k.value + "=" + t1)] + (Field(k2, t2) + Field(k3, t3))
  {
    var first := [Pair(k.value, k.value + "=" + t1)];
    var f2 := Field(k2, t2);
    var f3 := Field(k3, t3);
    assert PutField([], k, t1) == first;
    assert PutField(first, k2, t2) == first + f2 by {
      PutFieldAppends(first, k2, t2);
    }
    assert PutField(first + f2, k3, t3) == first + f2 + f3 by {
      FieldKeys(k2, t2);
      KeysAppend(first, f2);
      PutFieldAppends(first + f2, k3, t3);
    }
  }

  lemma StandardPairsDistinct(s: Settings, json: Json, r: Record)
    ensures DistinctKeys(StandardPairs(s, json, r))
  {
    var p1 := PutField([], s.timeKey, r.datetime);
    assert DistinctKeys(p1);
    var p2 := PutField(p1, s.levelKey, r.levelName);
    assert DistinctKeys(p2);
    var p3 := PutField(p2, s.channelKey, StringifyVal(json, r.channel));
    assert DistinctKeys(p3);
  }

  // ---------------------------------------------------------------------
  // The line as a whole, in either mode

  lemma {:induction false} AddEntriesKeepsKeys(flatten: bool, json: Json, ps: seq<Pair>, es: seq<(string, Value)>)
    ensures |ps| <= |AddEntries(flatten, json, ps, es)|
    ensures Keys(ps) == Keys(AddEntries(flatten, json, ps, es))[..|ps|]
    ensures DistinctKeys(ps) ==> DistinctKeys(AddEntries(flatten, json, ps, es))
    decreases |es|
  {
    if es != [] {
      var next := Step(flatten, json, ps, es[0]);
      if next != ps {
        PutAllKeepsKeys(ps, Leaves(flatten, json, es[0].0, es[0].1));
        if DistinctKeys(ps) {
          PutAllDistinct(ps, Leaves(flatten, json, es[0].0, es[0].1));
        }
      }
      AddEntriesKeepsKeys(flatten, json, next, es[1..]);
      assert Keys(ps) == Keys(next)[..|ps|];
    }
  }

  /** The extra loop continues where the context loop stopped: two loops are one loop over both lists. */
  lemma {:induction false} AddEntriesAppend(flatten: bool, json: Json, ps: seq<Pair>, a: seq<(string, Value)>, b: seq<(string, Value)>)
    ensures AddEntries(flatten, json, ps, a + b) == AddEntries(flatten, json, AddEntries(flatten, json, ps, a), b)
    decreases |a|
  {
    if a == [] {
      assert a + b == b;
    } else {
      assert (a + b)[0] == a[0];
      assert (a + b)[1..] == a[1..] + b;
      AddEntriesAppend(flatten, json, Step(flatten, json, ps, a[0]), a[1..], b);
    }
  }

  /** With only the message field enabled, the standard pairs are that one pair. */
  lemma OnlyMessagePairs(s: Settings, json: Json, r: Record, k: string, m: string)
    requires s.timeKey == None && s.levelKey == None && s.channelKey == None && s.messageKey == Some(k)
    requires KeyValid(Some(k)) && StringifyVal(json, r.message) == m
    ensures StandardPairs(s, json, r) == [Pair(k, k + "=" + m)]
  {
  }

  /** A record with one context entry and no extra: the line pairs are one loop step after the standard pairs. */
  lemma OneContextEntry(s: Settings, json: Json, r: Record)
    requires |r.context| == 1 && r.extra == []
    ensures FinalPairs(s, json, r) == Step(s.flatten, json, StandardPairs(s, json, r), r.context[0])
  {
    var next := Step(s.flatten, json, StandardPairs(s, json, r), r.context[0]);
    assert r.context[1..] == [];
    assert AddEntries(s.flatten, json, StandardPairs(s, json, r), r.context) == AddEntries(s.flatten, json, next, []);
  }

  /**
    In every mode the standard fields hold the first slots of the line, in
    their order, and no key occurs twice in a line.
   */
  lemma StandardSlotsFirst(s: Settings, json: Json, r: Record)
    ensures |StandardPairs(s, json, r)| <= |FinalPairs(s, json, r)|
    ensures Keys(StandardPairs(s, json, r)) == Keys(FinalPairs(s, json, r))[..|StandardPairs(s, json, r)|]
    ensures DistinctKeys(FinalPairs(s, json, r))
  {
    var std := StandardPairs(s, json, r);
    StandardPairsDistinct(s, json, r);
    var mid := AddEntries(s.flatten, json, std, r.context);
    AddEntriesKeepsKeys(s.flatten, json, std, r.context);
    AddEntriesKeepsKeys(s.flatten, json, mid, r.extra);
    var fin := FinalPairs(s, json, r);
    assert Keys(std) == Keys(mid)[..|std|];
    assert Keys(mid) == Keys(fin)[..|mid|];
    assert Keys(fin)[..|mid|][..|std|] == Keys(fin)[..|std|];
  }

  /** The line is the pair texts joined by single spaces, then the terminator (nothing for null). */
  lemma LineShape(s: Settings, json: Json, r: Record)
    ensures s.terminator.None? ==> Line(s, json, r) == Join(Texts(FinalPairs(s, json, r)))
    ensures s.terminator.Some? ==> Line(s, json, r) == Join(Texts(FinalPairs(s, json, r))) + s.terminator.value
    ensures (forall k :: 0 <= k < |FinalPairs(s, json, r)| ==> HasNoSpace(FinalPairs(s, json, r)[k].text))
            && FinalPairs(s, json, r) != [] && s.terminator.None? ==>
            Split(Line(s, json, r)) == Texts(FinalPairs(s, json, r))
  {
    var ps := FinalPairs(s, json, r);
    if (forall k :: 0 <= k < |ps| ==> HasNoSpace(ps[k].text)) && ps != [] {
      SplitJoin(Texts(ps));
    }
  }

  // ---------------------------------------------------------------------
  // Without flattening: a reference definition of which entries survive

  /**
    The entries that make it into the line, in order: an entry survives
    when its key is a valid identifier that is neither already present nor
    the key of an earlier survivor.
   */
  function Survivors(seen: seq<string>, es: seq<(string, Value)>): seq<(string, Value)>
    decreases |es|
  {
    if es == [] then []
    else if es[0].0 in seen || !IsValidIdent(Str(es[0].0)) then Survivors(seen, es[1..])
    else [es[0]] + Survivors(seen + [es[0].0], es[1..])
  }

  function EntryKeys(es: seq<(string, Value)>): (ks: seq<string>)
    ensures |ks| == |es|
    ensures forall i :: 0 <= i < |es| ==> ks[i] == es[i].0
  {
    seq(|es|, i requires 0 <= i < |es| => es[i].0)
  }

  /** One pair per entry, `key=stringifyVal(value)`. */
  function Rendered(json: Json, es: seq<(string, Value)>): (ps: seq<Pair>)
    ensures |ps| == |es|
    ensures Keys(ps) == EntryKeys(es)
    ensures forall i :: 0 <= i < |es| ==> ps[i] == Pair(es[i].0, PairText(json, es[i].0, es[i].1))
  {
    seq(|es|, i requires 0 <= i < |es| => Pair(es[i].0, PairText(json, es[i].0, es[i].1)))
  }

  lemma RenderedAppend(json: Json, a: seq<(string, Value)>, b: seq<(string, Value)>)
    ensures Rendered(json, a + b) == Rendered(json, a) + Rendered(json, b)
  {
  }

  /** Every survivor is an entry with a valid key not seen before; survivors' keys are distinct. */
  lemma {:induction false} SurvivorsSound(seen: seq<string>, es: seq<(string, Value)>)
    ensures forall e :: e in Survivors(seen, es) ==> e in es && IsValidIdent(Str(e.0)) && e.0 !in seen
    ensures forall i, j :: 0 <= i < j < |Survivors(seen, es)| ==> Survivors(seen, es)[i].0 != Survivors(seen, es)[j].0
    decreases |es|
  {
    if es != [] {
      if es[0].0 in seen || !IsValidIdent(Str(es[0].0)) {
        SurvivorsSound(seen, es[1..]);
      } else {
        SurvivorsSound(seen + [es[0].0], es[1..]);
      }
    }
  }

  /** The first entry with a given valid, unseen key always survives. */
  lemma {:induction false} FirstOccurrenceSurvives(seen: seq<string>, es: seq<(string, Value)>, j: nat)
    requires j < |es| && IsValidIdent(Str(es[j].0)) && es[j].0 !in seen
    requires forall i :: 0 <= i < j ==> es[i].0 != es[j].0
    ensures es[j] in Survivors(seen, es)
    decreases |es|
  {
    if j > 0 {
      var seen' := if es[0].0 in seen || !IsValidIdent(Str(es[0].0)) then seen else seen + [es[0].0];
      FirstOccurrenceSurvives(seen', es[1..], j - 1);
    }
  }

  /** Without flattening, the loop over entries appends exactly the survivors' pairs. */
  lemma {:induction false} NonFlattenEntries(json: Json, ps: seq<Pair>, es: seq<(string, Value)>)
    requires DistinctKeys(ps)
    ensures AddEntries(false, json, ps, es) == ps + Rendered(json, Survivors(Keys(ps), es))
    decreases |es|
  {
    if es == [] {
      assert ps + Rendered(json, []) == ps;
    } else if es[0].0 in Keys(ps) || !IsValidIdent(Str(es[0].0)) {
      NonFlattenEntries(json, ps, es[1..]);
    } else {
      var k := es[0].0;
      var p := Pair(k, PairText(json, k, es[0].1));
      var next := ps + [p];
      assert Step(false, json, ps, es[0]) == next by {
        NonFlattenStep(json, ps, es[0]);
      }
      assert DistinctKeys(next) && Keys(next) == Keys(ps) + [k] by {
        KeysAppend(ps, [p]);
      }
      var rest := Survivors(Keys(ps) + [k], es[1..]);
      assert AddEntries(false, json, next, es[1..]) == next + Rendered(json, rest) by {
        NonFlattenEntries(json, next, es[1..]);
      }
      assert Rendered(json, [es[0]] + rest) == [p] + Rendered(json, rest) by {
        RenderedAppend(json, [es[0]], rest);
      }
    }
  }

  /** Without flattening, an entry with a new valid key appends its single pair. */
  lemma NonFlattenStep(json: Json, ps: seq<Pair>, e: (string, Value))
    requires e.0 !in Keys(ps) && IsValidIdent(Str(e.0))
    ensures Step(false, json, ps, e) == ps + [Pair(e.0, PairText(json, e.0, e.1))]
  {
    var p := Pair(e.0, PairText(json, e.0, e.1));
    assert PutAll(ps, [p]) == PutAll(Put(ps, p.key, p.text), []);
  }

  /**
    Without flattening, a line holds the standard pairs, then one pair
    `key=stringifyVal(value)` per surviving context-then-extra entry, in
    their original order.
   */
  lemma NonFlattenPairs(s: Settings, json: Json, r: Record)
    requires !s.flatten
    ensures FinalPairs(s, json, r) ==
      StandardPairs(s, json, r)
      + Rendered(json, Survivors(Keys(StandardPairs(s, json, r)), r.context + r.extra))
  {
    var std := StandardPairs(s, json, r);
    StandardPairsDistinct(s, json, r);
    AddEntriesAppend(false, json, std, r.context, r.extra);
    NonFlattenEntries(json, std, r.context + r.extra);
  }

  /** Without flattening, a context or extra entry never changes a standard field's pair. */
  lemma NonFlattenStandardKept(s: Settings, json: Json, r: Record)
    requires !s.flatten
    ensures StandardPairs(s, json, r) <= FinalPairs(s, json, r)
  {
    NonFlattenPairs(s, json, r);
  }

  /**
    Without flattening, the first context entry with a valid key that no
    standard field uses is written with its own value, whatever extra holds.
   */
  lemma ContextBeatsExtra(s: Settings, json: Json, r: Record, j: nat)
    requires !s.flatten
    requires j < |r.context| && IsValidIdent(Str(r.context[j].0))
    requires r.context[j].0 !in Keys(StandardPairs(s, json, r))
    requires forall i :: 0 <= i < j ==> r.context[i].0 != r.context[j].0
    ensures Get(FinalPairs(s, json, r), r.context[j].0)
         == Some(PairText(json, r.context[j].0, r.context[j].1))
  {
    var std := StandardPairs(s, json, r);
    var es := r.context + r.extra;
    var k, v := r.context[j].0, r.context[j].1;
    var sv := Survivors(Keys(std), es);
    assert (k, v) in sv by {
      assert es[j] == r.context[j];
      FirstOccurrenceSurvives(Keys(std), es, j);
    }
    var m :| 0 <= m < |sv| && sv[m] == (k, v);
    var fin := FinalPairs(s, json, r);
    assert fin == std + Rendered(json, sv) by {
      NonFlattenPairs(s, json, r);
    }
    assert fin[|std| + m] == Pair(k, PairText(json, k, v));
    assert DistinctKeys(fin) by {
      StandardSlotsFirst(s, json, r);
    }
    GetAt(fin, |std| + m);
  }

  /** Without flattening, an entry whose key a standard field uses is dropped: the field keeps its text. */
  lemma StandardBeatsEntries(s: Settings, json: Json, r: Record, k: string)
    requires !s.flatten
    requires k in Keys(StandardPairs(s, json, r))
    ensures Get(FinalPairs(s, json, r), k) == Get(StandardPairs(s, json, r), k)
  {
    NonFlattenPairs(s, json, r);
    var std := StandardPairs(s, json, r);
    GetPrefix(std, Rendered(json, Survivors(Keys(std), r.context + r.extra)), k);
  }

  // ---------------------------------------------------------------------
  // Flattening

  predicate HasPrefix(p: string, s: string)
  {
    |p| <= |s| && s[..|p|] == p
  }

  /** Every pair flattening writes for a value is named after its key. */
  lemma {:induction false} LeafKeysExtend(json: Json, key: string, v: Value)
    ensures forall p :: p in Leaves(true, json, key, v) ==> HasPrefix(key, p.key)
    ensures v.Arr? || (v.Obj? && v.normalized.Some? && v.normalized.value.Arr?) ==>
      forall p :: p in Leaves(true, json, key, v) ==> HasPrefix(key + "_", p.key)
    decreases v, 1, 0
  {
    match v
    case Arr(_) =>
      MemberKeysExtend(json, key, v, 0);
    case Obj(Some(n)) =>
      if n.Arr? {
        MemberKeysExtend(json, key, n, 0);
      }
    case _ =>
  }

  /** Every pair written for an array's members is named `prefix_…`. */
  lemma {:induction false} MemberKeysExtend(json: Json, prefix: string, arr: Value, i: nat)
    requires arr.Arr? && i <= |arr.entries|
    ensures forall p :: p in MemberLeaves(json, prefix, arr, i) ==> HasPrefix(prefix + "_", p.key)
    decreases arr, 0, |arr.entries| - i
  {
    if i < |arr.entries| {
      var (k, v) := arr.entries[i];
      var child := prefix + "_" + k;
      LeafKeysExtend(json, child, v);
      MemberKeysExtend(json, prefix, arr, i + 1);
      forall p | p in Leaves(true, json, child, v)
        ensures HasPrefix(prefix + "_", p.key)
      {
        assert p.key[..|child|] == child;
        assert p.key[..|prefix + "_"|] == child[..|prefix + "_"|];
      }
    }
  }

  /**
    With flattening, an array entry writes only `key_…` pairs, never `key`
    itself: the key stays free, so a later entry with the same key is not
    skipped.
   */
  lemma FlattenedKeyStaysFree(json: Json, ps: seq<Pair>, key: string, v: Value)
    requires v.Arr? && key !in Keys(ps)
    ensures key !in Keys(Step(true, json, ps, (key, v)))
  {
    var leaves := Leaves(true, json, key, v);
    LeafKeysExtend(json, key, v);
    forall p | p in leaves
      ensures p.key != key
    {
      assert HasPrefix(key + "_", p.key);
    }
    PutAllKeyAbsent(ps, leaves, key);
  }

  /** A scalar: neither an array nor an object. */
  predicate IsScalar(v: Value)
  {
    !v.Arr? && !v.Obj?
  }

  /**
    Flattening an array of scalars writes one pair per member, in order,
    named `key_member`; an empty array writes nothing.
   */
  lemma {:induction false} FlatArrayOfScalars(json: Json, key: string, es: seq<(string, Value)>, i: nat)
    requires i <= |es|
    requires forall m :: 0 <= m < |es| ==> IsScalar(es[m].1)
    ensures MemberLeaves(json, key, Arr(es), i) ==
      seq(|es| - i, m requires 0 <= m < |es| - i =>
        Pair(key + "_" + es[i + m].0, PairText(json, key + "_" + es[i + m].0, es[i + m].1)))
    decreases |es| - i
  {
    if i < |es| {
      var c := key + "_" + es[i].0;
      var arr := Arr(es);
      FlatArrayOfScalars(json, key, es, i + 1);
      assert Leaves(true, json, c, es[i].1) == [Pair(c, PairText(json, c, es[i].1))];
      assert MemberLeaves(json, key, arr, i) == Leaves(true, json, c, es[i].1) + MemberLeaves(json, key, arr, i + 1);
    }
  }

  /** A flattened context entry overwrites an earlier pair of the same name where it stands. */
  lemma FlattenOverwritesInPlace(json: Json, ps: seq<Pair>, prefix: string, member: string, v: Value, n: nat)
    requires DistinctKeys(ps) && IsScalar(v)
    requires n < |ps| && ps[n].key == prefix + "_" + member
    ensures PutAll(ps, Leaves(true, json, prefix, Arr([(member, v)])))
         == ps[n := Pair(prefix + "_" + member, PairText(json, prefix + "_" + member, v))]
  {
    var k := prefix + "_" + member;
    var arr := Arr([(member, v)]);
    assert MemberLeaves(json, prefix, arr, 1) == [];
    assert Leaves(true, json, k, v) == [Pair(k, PairText(json, k, v))];
    assert MemberLeaves(json, prefix, arr, 0) == Leaves(true, json, k, v) + MemberLeaves(json, prefix, arr, 1);
    assert Leaves(true, json, prefix, arr) == [Pair(k, PairText(json, k, v))];
    assert k in Keys(ps);
    var t := PairText(json, k, v);
    assert PutAll(ps, [Pair(k, t)]) == Put(ps, k, t);
  }

  /**
    With flattening, an entry with a new valid key whose pairs have
    distinct names, none already present, appends exactly those pairs.
   */
  lemma FlattenStep(json: Json, ps: seq<Pair>, e: (string, Value))
    requires e.0 !in Keys(ps) && IsValidIdent(Str(e.0))
    requires DistinctKeys(ps + Leaves(true, json, e.0, e.1))
    ensures Step(true, json, ps, e) == ps + Leaves(true, json, e.0, e.1)
  {
    var leaves := Leaves(true, json, e.0, e.1);
    DistinctAppend(ps, leaves);
    PutAllFresh(ps, leaves);
  }

  /** The pairs flattening writes for each entry, one entry after the other. */
  function FlatLeaves(json: Json, es: seq<(string, Value)>): seq<Pair>
    decreases |es|
  {
    if es == [] then [] else Leaves(true, json, es[0].0, es[0].1) + FlatLeaves(json, es[1..])
  }

  /**
    With flattening, when every entry's key is valid and not among the pairs
    written before it, and no two written pairs share a name, the entry loop
    appends every entry's pairs in order.
   */
  lemma {:induction false} FlattenEntries(json: Json, ps: seq<Pair>, es: seq<(string, Value)>)
    requires DistinctKeys(ps + FlatLeaves(json, es))
    requires forall j :: 0 <= j < |es| ==>
      IsValidIdent(Str(es[j].0)) && es[j].0 !in Keys(ps + FlatLeaves(json, es[..j]))
    ensures AddEntries(true, json, ps, es) == ps + FlatLeaves(json, es)
    decreases |es|
  {
    if es == [] {
      assert ps + [] == ps;
    } else {
      var leaves := Leaves(true, json, es[0].0, es[0].1);
      var rest := es[1..];
      assert ps + FlatLeaves(json, es) == (ps + leaves) + FlatLeaves(json, rest);
      assert Step(true, json, ps, es[0]) == ps + leaves by {
        assert es[..0] == [];
        assert ps + FlatLeaves(json, es[..0]) == ps;
        DistinctAppend(ps + leaves, FlatLeaves(json, rest));
        FlattenStep(json, ps, es[0]);
      }
      assert forall j :: 0 <= j < |rest| ==>
        IsValidIdent(Str(rest[j].0)) && rest[j].0 !in Keys(ps + leaves + FlatLeaves(json, rest[..j])) by {
        FlattenEntriesShift(json, ps, es);
      }
      FlattenEntries(json, ps + leaves, rest);
    }
  }

  /** The side condition of `FlattenEntries`, one entry further on. */
  lemma FlattenEntriesShift(json: Json, ps: seq<Pair>, es: seq<(string, Value)>)
    requires es != []
    requires forall j :: 0 <= j < |es| ==>
      IsValidIdent(Str(es[j].0)) && es[j].0 !in Keys(ps + FlatLeaves(json, es[..j]))
    ensures forall j :: 0 <= j < |es| - 1 ==>
      IsValidIdent(Str(es[1..][j].0))
      && es[1..][j].0 !in Keys(ps + Leaves(true, json, es[0].0, es[0].1) + FlatLeaves(json, es[1..][..j]))
  {
    var leaves := Leaves(true, json, es[0].0, es[0].1);
    var rest := es[1..];
    forall j | 0 <= j < |rest|
      ensures IsValidIdent(Str(rest[j].0)) && rest[j].0 !in Keys(ps + leaves + FlatLeaves(json, rest[..j]))
    {
      var pre := es[..j + 1];
      assert pre[0] == es[0] && pre[1..] == rest[..j];
      assert ps + FlatLeaves(json, pre) == ps + leaves + FlatLeaves(json, rest[..j]);
      assert rest[j] == es[j + 1];
    }
  }

  /** `FlatLeaves` of two lists of entries is `FlatLeaves` of each. */
  lemma {:induction false} FlatLeavesAppend(json: Json, a: seq<(string, Value)>, b: seq<(string, Value)>)
    ensures FlatLeaves(json, a + b) == FlatLeaves(json, a) + FlatLeaves(json, b)
    decreases |a|
  {
    if a == [] {
      assert a + b == b;
    } else {
      assert (a + b)[0] == a[0];
      assert (a + b)[1..] == a[1..] + b;
      FlatLeavesAppend(json, a[1..], b);
    }
  }

  /**
    With flattening and no name clashes, a line holds the standard pairs,
    then every context entry's pairs, then every extra entry's pairs.
   */
  lemma FlattenPairs(s: Settings, json: Json, r: Record)
    requires s.flatten
    requires DistinctKeys(StandardPairs(s, json, r) + FlatLeaves(json, r.context + r.extra))
    requires forall j :: 0 <= j < |r.context + r.extra| ==>
      IsValidIdent(Str((r.context + r.extra)[j].0))
      && (r.context + r.extra)[j].0 !in Keys(StandardPairs(s, json, r) + FlatLeaves(json, (r.context + r.extra)[..j]))
    ensures FinalPairs(s, json, r) == StandardPairs(s, json, r) + FlatLeaves(json, r.context + r.extra)
  {
    AddEntriesAppend(true, json, StandardPairs(s, json, r), r.context, r.extra);
    FlattenEntries(json, StandardPairs(s, json, r), r.context + r.extra);
  }

  // ---------------------------------------------------------------------
  // Flattening: a reference definition of the leaves and their names

  /**
    A leaf of a flattened value: the member names on the way to it, and the
    scalar written there, or the marker of an object the normaliser could
    not convert.
   */
  datatype Leaf = Leaf(path: seq<string>, value: Value) | Unconvertible(path: seq<string>)

  /**
    The leaves of a value, in iteration order: an array (or an object the
    normaliser turns into one) contributes the leaves of its members, each
    under the member's name; anything else is a leaf itself, at the empty
    path. No leaf holds an array, and every leaf of an array has a path.
   */
  function Paths(v: Value): (ls: seq<Leaf>)
    ensures forall l :: l in ls ==> !(l.Leaf? && l.value.Arr?)
    ensures v.Arr? ==> forall l :: l in ls ==> l.path != []
    decreases v, 1, 0
  {
    match v
    case Arr(_) => MemberPaths(v, 0)
    case Obj(None) => [Unconvertible([])]
    case Obj(Some(n)) => if n.Arr? then MemberPaths(n, 0) else [Leaf([], n)]
    case _ => [Leaf([], v)]
  }

  /** The leaves of the members of `arr` from the `i`-th on, each path led by its member's name. */
  function MemberPaths(arr: Value, i: nat): (ls: seq<Leaf>)
    requires arr.Arr? && i <= |arr.entries|
    ensures forall l :: l in ls ==> !(l.Leaf? && l.value.Arr?) && l.path != []
    decreases arr, 0, |arr.entries| - i
  {
    if i == |arr.entries| then []
    else
      var (k, v) := arr.entries[i];
      Under(k, Paths(v)) + MemberPaths(arr, i + 1)
  }

  /** The same leaves, one level deeper: under member `k`. */
  function Under(k: string, ls: seq<Leaf>): (r: seq<Leaf>)
    ensures |r| == |ls|
    ensures forall j :: 0 <= j < |ls| ==> r[j] == ls[j].(path := [k] + ls[j].path)
  {
    seq(|ls|, j requires 0 <= j < |ls| => ls[j].(path := [k] + ls[j].path))
  }

  /** The name of a leaf: the prefix, then `_` and each member name on its path. */
  function PathKey(prefix: string, path: seq<string>): string
    decreases |path|
  {
    if path == [] then prefix else PathKey(prefix + "_" + path[0], path[1..])
  }

  /** The pair written for a leaf under a prefix. */
  function LeafPair(json: Json, prefix: string, l: Leaf): Pair
  {
    var k := PathKey(prefix, l.path);
    match l
    case Leaf(_, v) => Pair(k, PairText(json, k, v))
    case Unconvertible(_) => Pair(k, k + "=" + ConversionErrorText)
  }

  function LeafPairs(json: Json, prefix: string, ls: seq<Leaf>): (ps: seq<Pair>)
    ensures |ps| == |ls|
    ensures forall j :: 0 <= j < |ls| ==> ps[j] == LeafPair(json, prefix, ls[j])
  {
    seq(|ls|, j requires 0 <= j < |ls| => LeafPair(json, prefix, ls[j]))
  }

  /**
    Flattening a value under `key` writes one pair per leaf, in order, named
    `key_k1_k2…` after the member names on the leaf's path: a scalar leaf as
    `stringifyVal`, an unconvertible object as the sentinel.
   */
  lemma {:induction false} LeavesFollowPaths(json: Json, key: string, v: Value)
    ensures Leaves(true, json, key, v) == LeafPairs(json, key, Paths(v))
    decreases v, 1, 0
  {
    match v
    case Arr(_) =>
      MemberLeavesFollowPaths(json, key, v, 0);
    case Obj(None) =>
      assert Leaves(true, json, key, v) == [Pair(key, key + "=" + ConversionErrorText)];
    case Obj(Some(n)) =>
      if n.Arr? {
        MemberLeavesFollowPaths(json, key, n, 0);
      }
    case _ =>
  }

  lemma {:induction false} MemberLeavesFollowPaths(json: Json, prefix: string, arr: Value, i: nat)
    requires arr.Arr? && i <= |arr.entries|
    ensures MemberLeaves(json, prefix, arr, i) == LeafPairs(json, prefix, MemberPaths(arr, i))
    decreases arr, 0, |arr.entries| - i
  {
    if i < |arr.entries| {
      var (k, v) := arr.entries[i];
      var ls := Paths(v);
      var below := MemberPaths(arr, i + 1);
      assert MemberLeaves(json, prefix, arr, i)
          == Leaves(true, json, prefix + "_" + k, v) + MemberLeaves(json, prefix, arr, i + 1);
      assert MemberPaths(arr, i) == Under(k, ls) + below;
      assert Leaves(true, json, prefix + "_" + k, v) == LeafPairs(json, prefix, Under(k, ls)) by {
        LeavesFollowPaths(json, prefix + "_" + k, v);
        LeafPairsUnder(json, prefix, k, ls);
      }
      MemberLeavesFollowPaths(json, prefix, arr, i + 1);
      LeafPairsAppend(json, prefix, Under(k, ls), below);
    }
  }

  /** Naming leaves under `prefix_k` is naming them under `prefix` one level deeper. */
  lemma LeafPairsUnder(json: Json, prefix: string, k: string, ls: seq<Leaf>)
    ensures LeafPairs(json, prefix + "_" + k, ls) == LeafPairs(json, prefix, Under(k, ls))
  {
    forall j | 0 <= j < |ls|
      ensures LeafPair(json, prefix + "_" + k, ls[j]) == LeafPair(json, prefix, Under(k, ls)[j])
    {
      assert ([k] + ls[j].path)[1..] == ls[j].path;
      assert PathKey(prefix, [k] + ls[j].path) == PathKey(prefix + "_" + k, ls[j].path);
    }
  }

  lemma LeafPairsAppend(json: Json, prefix: string, a: seq<Leaf>, b: seq<Leaf>)
    ensures LeafPairs(json, prefix, a + b) == LeafPairs(json, prefix, a) + LeafPairs(json, prefix, b)
  {
  }

  // ---------------------------------------------------------------------
  // Batches

  /** A batch is the concatenation of its records' lines; the empty batch is "". */
  lemma BatchIsConcatenation(s: Settings, json: Json, a: seq<Record>, b: seq<Record>, r: Record)
    ensures Batch(s, json, []) == ""
    ensures Batch(s, json, [r]) == Line(s, json, r)
    ensures Batch(s, json, a + b) == Batch(s, json, a) + Batch(s, json, b)
  {
    assert [r][..0] == [];
    BatchAppend(s, json, a, b);
  }
}
