/**
  Standard fields are documented to take precedence over context and extra
  fields of the same name. Without flattening the formatter keeps that
  promise. With flattening a derived name such as `user_id` is written with
  `$pairs[...] = ...`, which overwrites a standard field of that name in
  place. This module exhibits the overwrite, then gives the merge the
  precedence rule asks for (a derived pair whose name is already present is
  dropped) and proves that rule of it.
 */
module LogfmtPrecedence {
  import opened Values
  import opened Text
  import opened Pairs
  import opened Logfmt
  import opened LogfmtProperties

  // ---------------------------------------------------------------------
  // As written: a flattened context entry overwrites a standard field

  /** A formatter with only the message field, under the key `user_id`, and flattening on. */
  function UserIdSettings(): Settings
  {
    Settings(None, None, None, Some("user_id"), None, true)
  }

  /** A record whose message is 7 and whose context holds `user => ['id' => 5]`. */
  function UserIdRecord(t: string): Record
  {
    Record(t, "INFO", Str("app"), Int(7), [("user", Arr([("id", Int(5))]))], [])
  }

  /** `user => ['id' => 5]` flattens to the single pair `user_id=5`. */
  lemma UserLeaves(json: Json)
    ensures Leaves(true, json, "user", Arr([("id", Int(5))])) == [Pair("user_id", "user_id=5")]
  {
    var arr := Arr([("id", Int(5))]);
    assert IntText(5) == "5" by {
      assert DigitChar(5) == '5';
    }
    assert PairText(json, "user_id", Int(5)) == "user_id=5";
    assert MemberLeaves(json, "user", arr, 1) == [];
    assert "user" + "_" + arr.entries[0].0 == "user_id";
    assert MemberLeaves(json, "user", arr, 0) == Leaves(true, json, "user_id", Int(5)) + [];
  }

  /** A valid entry name not yet present whose only leaf carries the first key rewrites that key in place. */
  lemma StepOverwritesHead(json: Json, key: string, old_text: string, e: (string, Value), text: string)
    requires e.0 != key && IsValidIdent(Str(e.0))
    requires Leaves(true, json, e.0, e.1) == [Pair(key, text)]
    ensures Step(true, json, [Pair(key, old_text)], e) == [Pair(key, text)]
  {
    var ps := [Pair(key, old_text)];
    var leaves := [Pair(key, text)];
    assert Keys(ps) == [key];
    assert Step(true, json, ps, e) == PutAll(ps, leaves);
    PutHead(key, old_text, text, []);
    assert ps + [] == ps && leaves + [] == leaves;
    assert leaves[1..] == [];
    assert PutAll(ps, leaves) == PutAll(Put(ps, key, text), []);
  }

  lemma UserIdKeyValid()
    ensures KeyValid(Some("user_id"))
  {
    ValidStringIff("user_id");
  }

  lemma SevenText(json: Json)
    ensures StringifyVal(json, Int(7)) == "7"
  {
    assert DigitChar(7) == '7';
  }

  /** The standard pairs of that record: `user_id=7` alone. */
  lemma UserIdStandardPairs(json: Json, t: string)
    ensures StandardPairs(UserIdSettings(), json, UserIdRecord(t)) == [Pair("user_id", "user_id=7")]
  {
    var s := UserIdSettings();
    var r := UserIdRecord(t);
    assert s.timeKey == None && s.levelKey == None && s.channelKey == None && s.messageKey == Some("user_id");
    assert r.message == Int(7);
    UserIdKeyValid();
    SevenText(json);
    OnlyMessagePairs(s, json, r, "user_id", "7");
    assert "user_id" + "=" + "7" == "user_id=7";
  }

  /**
    The standard field `user_id=7` is written first, but the context entry
    `user` flattens to `user_id=5`, which replaces it: the line reads
    `user_id=5`.
   */
  lemma FlattenedEntryOverwritesStandardField(json: Json, t: string)
    ensures StandardPairs(UserIdSettings(), json, UserIdRecord(t)) == [Pair("user_id", "user_id=7")]
    ensures FinalPairs(UserIdSettings(), json, UserIdRecord(t)) == [Pair("user_id", "user_id=5")]
  {
    var s := UserIdSettings();
    var r := UserIdRecord(t);
    var std := [Pair("user_id", "user_id=7")];
    UserIdStandardPairs(json, t);
    assert Step(true, json, std, r.context[0]) == [Pair("user_id", "user_id=5")] by {
      UserLeaves(json);
      assert IsValidIdent(Str("user"));
      StepOverwritesHead(json, "user_id", "user_id=7", r.context[0], "user_id=5");
    }
    OneContextEntry(s, json, r);
  }


  // ---------------------------------------------------------------------
  // Corrected: the first writer of a name keeps it

  /** `$pairs[$key] = $text` only when `$key` is not yet present. */
  function PutIfAbsent(ps: seq<Pair>, key: string, text: string): seq<Pair>
  {
    if key in Keys(ps) then ps else ps + [Pair(key, text)]
  }

  function PutAllIfAbsent(ps: seq<Pair>, news: seq<Pair>): seq<Pair>
    decreases |news|
  {
    if news == [] then ps else PutAllIfAbsent(PutIfAbsent(ps, news[0].key, news[0].text), news[1..])
  }

  /** One iteration of the entry loop, with the first-writer-wins merge. */
  function StepFirstWins(flatten: bool, json: Json, ps: seq<Pair>, e: (string, Value)): seq<Pair>
  {
    if e.0 in Keys(ps) || !IsValidIdent(Str(e.0)) then ps
    else PutAllIfAbsent(ps, Leaves(flatten, json, e.0, e.1))
  }

  function AddEntriesFirstWins(flatten: bool, json: Json, ps: seq<Pair>, es: seq<(string, Value)>): seq<Pair>
    decreases |es|
  {
    if es == [] then ps else AddEntriesFirstWins(flatten, json, StepFirstWins(flatten, json, ps, es[0]), es[1..])
  }

  /** All pairs of a record in line order, when the first writer of a name keeps it. */
  function FinalPairsFirstWins(s: Settings, json: Json, r: Record): seq<Pair>
  {
    var afterContext := AddEntriesFirstWins(s.flatten, json, StandardPairs(s, json, r), r.context);
    AddEntriesFirstWins(s.flatten, json, afterContext, r.extra)
  }

  /** The merge never changes or moves a pair already written; it only appends. */
  lemma {:induction false} PutAllIfAbsentExtends(ps: seq<Pair>, news: seq<Pair>)
    ensures ps <= PutAllIfAbsent(ps, news)
    decreases |news|
  {
    if news != [] {
      var p1 := PutIfAbsent(ps, news[0].key, news[0].text);
      assert ps <= p1;
      PutAllIfAbsentExtends(p1, news[1..]);
    }
  }

  lemma {:induction false} AddEntriesFirstWinsExtends(flatten: bool, json: Json, ps: seq<Pair>, es: seq<(string, Value)>)
    ensures ps <= AddEntriesFirstWins(flatten, json, ps, es)
    decreases |es|
  {
    if es != [] {
      var next := StepFirstWins(flatten, json, ps, es[0]);
      if next != ps {
        PutAllIfAbsentExtends(ps, Leaves(flatten, json, es[0].0, es[0].1));
      }
      AddEntriesFirstWinsExtends(flatten, json, next, es[1..]);
    }
  }

  /**
    With the corrected merge, in either mode, the standard pairs open the
    line unchanged, so every standard key keeps the standard field's text.
   */
  lemma StandardFieldsWin(s: Settings, json: Json, r: Record, k: string)
    requires k in Keys(StandardPairs(s, json, r))
    ensures StandardPairs(s, json, r) <= FinalPairsFirstWins(s, json, r)
    ensures Get(FinalPairsFirstWins(s, json, r), k) == Get(StandardPairs(s, json, r), k)
  {
    var std := StandardPairs(s, json, r);
    var mid := AddEntriesFirstWins(s.flatten, json, std, r.context);
    var fin := FinalPairsFirstWins(s, json, r);
    AddEntriesFirstWinsExtends(s.flatten, json, std, r.context);
    AddEntriesFirstWinsExtends(s.flatten, json, mid, r.extra);
    assert fin == std + fin[|std|..];
    GetPrefix(std, fin[|std|..], k);
  }

  /** A derived pair whose key is already present is dropped. */
  lemma StepKeepsHead(json: Json, key: string, old_text: string, e: (string, Value), text: string)
    requires e.0 != key && IsValidIdent(Str(e.0))
    requires Leaves(true, json, e.0, e.1) == [Pair(key, text)]
    ensures StepFirstWins(true, json, [Pair(key, old_text)], e) == [Pair(key, old_text)]
  {
    var ps := [Pair(key, old_text)];
    var leaves := [Pair(key, text)];
    assert Keys(ps) == [key];
    assert StepFirstWins(true, json, ps, e) == PutAllIfAbsent(ps, leaves);
    assert leaves[1..] == [];
    assert PutAllIfAbsent(ps, leaves) == PutAllIfAbsent(PutIfAbsent(ps, key, text), []);
  }

  /** The corrected merge keeps `user_id=7` where the code writes `user_id=5`. */
  lemma FirstWinsKeepsStandardField(json: Json, t: string)
    ensures FinalPairsFirstWins(UserIdSettings(), json, UserIdRecord(t)) == [Pair("user_id", "user_id=7")]
  {
    var r := UserIdRecord(t);
    FlattenedEntryOverwritesStandardField(json, t);
    UserLeaves(json);
    assert IsValidIdent(Str("user"));
    StepKeepsHead(json, "user_id", "user_id=7", r.context[0], "user_id=5");
    assert r.context[1..] == [];
  }

  /**
    Without flattening the corrected merge and the code agree: every entry
    yields one pair under its own key, which the loop has just checked is new.
   */
  lemma {:induction false} FirstWinsAgreesWithoutFlatten(json: Json, ps: seq<Pair>, es: seq<(string, Value)>)
    ensures AddEntriesFirstWins(false, json, ps, es) == AddEntries(false, json, ps, es)
    decreases |es|
  {
    if es != [] {
      var e := es[0];
      if e.0 !in Keys(ps) && IsValidIdent(Str(e.0)) {
        var p := Pair(e.0, PairText(json, e.0, e.1));
        assert StepFirstWins(false, json, ps, e) == ps + [p] by {
          assert PutAllIfAbsent(ps, [p]) == PutAllIfAbsent(ps + [p], []);
        }
        assert Step(false, json, ps, e) == ps + [p] by {
          NonFlattenStep(json, ps, e);
        }
      }
      FirstWinsAgreesWithoutFlatten(json, StepFirstWins(false, json, ps, e), es[1..]);
    }
  }

  /** Without flattening, the corrected line pairs are exactly those the code writes. */
  lemma FinalPairsAgreeWithoutFlatten(s: Settings, json: Json, r: Record)
    requires !s.flatten
    ensures FinalPairsFirstWins(s, json, r) == FinalPairs(s, json, r)
  {
    var std := StandardPairs(s, json, r);
    FirstWinsAgreesWithoutFlatten(json, std, r.context);
    FirstWinsAgreesWithoutFlatten(json, AddEntries(false, json, std, r.context), r.extra);
  }
}
