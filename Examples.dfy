/**
  Concrete lines the formatter writes, for the records and settings of the
  repository's own test cases. The datetime is written verbatim, so it is a
  parameter `t` here; the JSON encoder stays abstract, so where a value needs
  quoting the expected line names `json(value)`.
 */
module LogfmtExamples {
  import opened Values
  import opened Text
  import opened Pairs
  import opened Logfmt
  import opened LogfmtProperties

  /** Settings of a formatter built with all its defaults (the flag aside). */
  function Defaults(flatten: bool): Settings
  {
    Settings(Some("ts"), Some("lvl"), Some("chan"), Some("msg"), Some("\n"), flatten)
  }

  /** A record of the test cases: level INFO, channel `app`. */
  function MessageRecord(t: string, message: Value, context: seq<(string, Value)>, extra: seq<(string, Value)>): Record
  {
    Record(t, "INFO", Str("app"), message, context, extra)
  }

  // ---------------------------------------------------------------------
  // Small steps the examples are built from

  /** A key without surrounding trim characters is stored as given. */
  lemma TrimKeepsCleanKey(s: string)
    requires s != [] && !IsTrimChar(s[0]) && !IsTrimChar(s[|s| - 1])
    ensures Trim(s) == s
  {
    assert LeadingTrim(s) == 0;
    assert !IsTrimChar(s[|s| - 1]);
  }

  /** A key argument that PHP finds truthy and that has nothing to trim at either end. */
  predicate IsCleanKey(k: string)
  {
    k != [] && k != "0" && !IsTrimChar(k[0]) && !IsTrimChar(k[|k| - 1])
  }

  /** A key argument that PHP finds truthy and that has nothing to trim is stored unchanged. */
  lemma CleanKeyKept(k: string)
    requires IsCleanKey(k)
    ensures ConfiguredKey(Some(k)) == Some(k)
  {
    TrimKeepsCleanKey(k);
  }

  /** A key argument that is not trimmed away but holds a forbidden character leaves its field out. */
  lemma ForbiddenKeyDisables(k: string, i: nat)
    requires k != [] && !IsTrimChar(k[0]) && !IsTrimChar(k[|k| - 1])
    requires i < |k| && InForbiddenClass(k[i])
    ensures !KeyValid(ConfiguredKey(Some(k)))
  {
    TrimKeepsCleanKey(k);
  }

  lemma DefaultKeysValid()
    ensures KeyValid(Some("ts")) && KeyValid(Some("lvl")) && KeyValid(Some("chan")) && KeyValid(Some("msg"))
  {
  }

  /** Four clean key arguments, as the constructor receives them, are all stored unchanged. */
  lemma CleanKeysKept(t: string, l: string, c: string, m: string)
    requires IsCleanKey(t) && IsCleanKey(l) && IsCleanKey(c) && IsCleanKey(m)
    ensures ConfiguredKey(Some(t)) == Some(t) && ConfiguredKey(Some(l)) == Some(l)
    ensures ConfiguredKey(Some(c)) == Some(c) && ConfiguredKey(Some(m)) == Some(m)
  {
    CleanKeyKept(t);
    CleanKeyKept(l);
    CleanKeyKept(c);
    CleanKeyKept(m);
  }

  /** The constructor's default key arguments are stored unchanged. */
  lemma DefaultConstructorKeys()
    ensures ConfiguredKey(Some("ts")) == Some("ts") && ConfiguredKey(Some("lvl")) == Some("lvl")
    ensures ConfiguredKey(Some("chan")) == Some("chan") && ConfiguredKey(Some("msg")) == Some("msg")
  {
    CleanKeysKept("ts", "lvl", "chan", "msg");
  }

  /** Settings whose four keys are the default ones, whatever their terminator and flag. */
  predicate HasDefaultKeys(s: Settings)
  {
    s.timeKey == Some("ts") && s.levelKey == Some("lvl") && s.channelKey == Some("chan") && s.messageKey == Some("msg")
  }

  /** A non-empty word of printable ASCII without `"` or `=` may be written bare. */
  lemma PrintableValid(s: string)
    requires s != "" && forall i :: 0 <= i < |s| ==> 0x21 <= s[i] as int < 0x7F && s[i] != '"' && s[i] != '='
    ensures IsValidIdent(Str(s))
  {
    ValidStringIff(s);
  }

  // ---------------------------------------------------------------------
  // Lines assembled from their parts

  lemma Join4(a: string, b: string, c: string, d: string)
    ensures Join([a, b, c, d]) == a + " " + b + " " + c + " " + d
  {
    assert [c, d][1..] == [d];
    assert Join([c, d]) == c + " " + d;
    assert [b, c, d][1..] == [c, d];
    assert Join([b, c, d]) == b + " " + (c + " " + d);
    assert [a, b, c, d][1..] == [b, c, d];
    assert Join([a, b, c, d]) == a + " " + (b + " " + (c + " " + d));
  }

  /** With four valid, distinct keys, the standard pairs join to all four fields in order. */
  lemma FourFieldsText(s: Settings, json: Json, r: Record)
    requires KeyValid(s.timeKey) && KeyValid(s.levelKey) && KeyValid(s.channelKey) && KeyValid(s.messageKey)
    requires EnabledKeysDistinct(s)
    ensures Keys(StandardPairs(s, json, r)) == [s.timeKey.value, s.levelKey.value, s.channelKey.value, s.messageKey.value]
    ensures Join(Texts(StandardPairs(s, json, r))) ==
      (s.timeKey.value + "=" + r.datetime) + " " + (s.levelKey.value + "=" + r.levelName) + " "
      + (s.channelKey.value + "=" + StringifyVal(json, r.channel)) + " " + (s.messageKey.value + "=" + StringifyVal(json, r.message))
  {
    StandardPairsInOrder(s, json, r);
    var t1 := s.timeKey.value + "=" + r.datetime;
    var t2 := s.levelKey.value + "=" + r.levelName;
    var t3 := s.channelKey.value + "=" + StringifyVal(json, r.channel);
    var t4 := s.messageKey.value + "=" + StringifyVal(json, r.message);
    var std := [Pair(s.timeKey.value, t1), Pair(s.levelKey.value, t2), Pair(s.channelKey.value, t3), Pair(s.messageKey.value, t4)];
    assert StandardPairs(s, json, r) == std;
    assert Texts(std) == [t1, t2, t3, t4];
    Join4(t1, t2, t3, t4);
  }

  /** The default keys are valid, and distinct from each other. */
  lemma DefaultKeysUsable(s: Settings)
    requires HasDefaultKeys(s)
    ensures KeyValid(s.timeKey) && KeyValid(s.levelKey) && KeyValid(s.channelKey) && KeyValid(s.messageKey)
    ensures EnabledKeysDistinct(s)
  {
    DefaultKeysValid();
    var ks := [s.timeKey, s.levelKey, s.channelKey, s.messageKey];
    assert ks == [Some("ts"), Some("lvl"), Some("chan"), Some("msg")];
  }

  /** The four default fields, regrouped as the line prints them. */
  lemma DefaultHeadText(datetime: string, m: string)
    ensures ("ts" + "=" + datetime) + " " + ("lvl" + "=" + "INFO") + " " + ("chan" + "=" + "app") + " " + ("msg" + "=" + m)
         == "ts=" + datetime + " lvl=INFO chan=app msg=" + m
  {
  }

  /** The default keys join to `ts=… lvl=INFO chan=app msg=…` for a record at level INFO on channel `app`. */
  lemma DefaultFieldsText(s: Settings, json: Json, r: Record)
    requires HasDefaultKeys(s)
    requires r.levelName == "INFO" && r.channel == Str("app")
    ensures Keys(StandardPairs(s, json, r)) == ["ts", "lvl", "chan", "msg"]
    ensures Join(Texts(StandardPairs(s, json, r))) == "ts=" + r.datetime + " lvl=INFO chan=app msg=" + StringifyVal(json, r.message)
  {
    DefaultHeadText(r.datetime, StringifyVal(json, r.message));
    DefaultKeysUsable(s);
    assert StringifyVal(json, Str("app")) == "app" by {
      assert IsValidIdent(Str("app"));
    }
    FourFieldsText(s, json, r);
  }

  /** When no entry survives, the line is the standard pairs and the terminator. */
  lemma StandardOnlyLine(s: Settings, json: Json, r: Record)
    requires !s.flatten
    requires Survivors(Keys(StandardPairs(s, json, r)), r.context + r.extra) == []
    ensures Line(s, json, r) == Join(Texts(StandardPairs(s, json, r))) + TerminatorText(s.terminator)
  {
    NonFlattenPairs(s, json, r);
    assert Rendered(json, []) == [];
    assert StandardPairs(s, json, r) + [] == StandardPairs(s, json, r);
  }

  /** Standard pairs followed by further pairs: their joins, one space apart, then the terminator. */
  lemma LineAfterStandard(s: Settings, json: Json, r: Record, ps: seq<Pair>)
    requires FinalPairs(s, json, r) == StandardPairs(s, json, r) + ps
    requires StandardPairs(s, json, r) != [] && ps != []
    ensures Line(s, json, r) ==
      Join(Texts(StandardPairs(s, json, r))) + " " + Join(Texts(ps)) + TerminatorText(s.terminator)
  {
    var std := StandardPairs(s, json, r);
    assert Texts(std + ps) == Texts(std) + Texts(ps);
    JoinAppend(Texts(std), Texts(ps));
  }

  /** Without flattening, the entries that survive follow the standard pairs, each rendered as `key=value`. */
  lemma EntriesLine(s: Settings, json: Json, r: Record, kept: seq<(string, Value)>)
    requires !s.flatten
    requires Survivors(Keys(StandardPairs(s, json, r)), r.context + r.extra) == kept
    requires StandardPairs(s, json, r) != [] && kept != []
    ensures Line(s, json, r) ==
      Join(Texts(StandardPairs(s, json, r))) + " " + Join(Texts(Rendered(json, kept))) + TerminatorText(s.terminator)
  {
    NonFlattenPairs(s, json, r);
    LineAfterStandard(s, json, r, Rendered(json, kept));
  }

  /** An entry whose name is taken or invalid is dropped. */
  lemma SurvivorsSkip(seen: seq<string>, e: (string, Value), rest: seq<(string, Value)>)
    requires e.0 in seen || !IsValidIdent(Str(e.0))
    ensures Survivors(seen, [e] + rest) == Survivors(seen, rest)
  {
    assert ([e] + rest)[1..] == rest;
  }

  /** An entry under a new, valid name is kept, and its name is taken from then on. */
  lemma SurvivorsKeep(seen: seq<string>, e: (string, Value), rest: seq<(string, Value)>)
    requires e.0 !in seen && IsValidIdent(Str(e.0))
    ensures Survivors(seen, [e] + rest) == [e] + Survivors(seen + [e.0], rest)
  {
    assert ([e] + rest)[1..] == rest;
  }

  /** The default line when no entry survives, for any terminator. */
  lemma DefaultLine(json: Json, r: Record, term: Option<string>)
    requires r.levelName == "INFO" && r.channel == Str("app")
    requires Survivors(["ts", "lvl", "chan", "msg"], r.context + r.extra) == []
    ensures Line(Defaults(false).(terminator := term), json, r)
         == "ts=" + r.datetime + " lvl=INFO chan=app msg=" + StringifyVal(json, r.message) + TerminatorText(term)
  {
    var s := Defaults(false).(terminator := term);
    DefaultFieldsText(s, json, r);
    StandardOnlyLine(s, json, r);
  }

  /** A record without context or extra keeps no entry. */
  lemma NoEntries(seen: seq<string>, r: Record)
    requires r.context == [] && r.extra == []
    ensures Survivors(seen, r.context + r.extra) == []
  {
    assert r.context + r.extra == [];
  }

  /** Default fields followed by the entries that survive, given the texts those take. */
  lemma DefaultEntriesLine(json: Json, r: Record, kept: seq<(string, Value)>, m: string, rest: string)
    requires r.levelName == "INFO" && r.channel == Str("app")
    requires Survivors(["ts", "lvl", "chan", "msg"], r.context + r.extra) == kept && kept != []
    requires StringifyVal(json, r.message) == m && Join(Texts(Rendered(json, kept))) == rest
    ensures Line(Defaults(false), json, r) == "ts=" + r.datetime + " lvl=INFO chan=app msg=" + m + " " + rest + "\n"
  {
    DefaultFieldsText(Defaults(false), json, r);
    EntriesLine(Defaults(false), json, r, kept);
  }

  /** One entry rendered alone is its `key=value` text. */
  lemma OneRendered(json: Json, k: string, v: Value)
    ensures Join(Texts(Rendered(json, [(k, v)]))) == k + "=" + StringifyVal(json, v)
  {
    assert Texts(Rendered(json, [(k, v)])) == [PairText(json, k, v)];
  }

  /** A lone entry under a new, valid name survives. */
  lemma LoneSurvivor(seen: seq<string>, e: (string, Value))
    requires e.0 !in seen && IsValidIdent(Str(e.0))
    ensures Survivors(seen, [e]) == [e]
  {
    SurvivorsKeep(seen, e, []);
    assert [e] + [] == [e];
  }

  /** Of two entries under the same new, valid name, only the first survives. */
  lemma ShadowedSurvivor(seen: seq<string>, a: (string, Value), b: (string, Value))
    requires a.0 == b.0 && a.0 !in seen && IsValidIdent(Str(a.0))
    ensures Survivors(seen, [a, b]) == [a]
  {
    SurvivorsKeep(seen, a, [b]);
    SurvivorsSkip(seen + [a.0], b, []);
    assert [a, b] == [a] + [b];
    assert [b] == [b] + [];
  }

  /** Entries whose names are all taken leave nothing. */
  lemma {:induction false} TakenDropped(seen: seq<string>, es: seq<(string, Value)>)
    requires forall i :: 0 <= i < |es| ==> es[i].0 in seen
    ensures Survivors(seen, es) == []
    decreases |es|
  {
    if es != [] {
      TakenDropped(seen, es[1..]);
    }
  }

  /** The invalid-keys test: five entries with invalid names around two with valid, distinct ones. */
  lemma InvalidKeysSurvivors(seen: seq<string>, e1: (string, Value), e2: (string, Value), e3: (string, Value),
                             e4: (string, Value), e5: (string, Value), e6: (string, Value), e7: (string, Value))
    requires !IsValidIdent(Str(e1.0)) && !IsValidIdent(Str(e3.0)) && !IsValidIdent(Str(e4.0))
    requires !IsValidIdent(Str(e6.0)) && !IsValidIdent(Str(e7.0))
    requires IsValidIdent(Str(e2.0)) && IsValidIdent(Str(e5.0)) && e2.0 !in seen && e5.0 !in seen + [e2.0]
    ensures Survivors(seen, [e1, e2, e3, e4, e5, e6, e7]) == [e2, e5]
  {
    var seen2 := seen + [e2.0];
    SurvivorsSkip(seen, e1, [e2, e3, e4, e5, e6, e7]);
    SurvivorsKeep(seen, e2, [e3, e4, e5, e6, e7]);
    SurvivorsSkip(seen2, e3, [e4, e5, e6, e7]);
    SurvivorsSkip(seen2, e4, [e5, e6, e7]);
    LoneSurvivor(seen2, e5);
    SurvivorsKeep(seen2, e5, [e6, e7]);
    SurvivorsSkip(seen2 + [e5.0], e6, [e7]);
    SurvivorsSkip(seen2 + [e5.0], e7, []);
    assert [e1, e2, e3, e4, e5, e6, e7] == [e1] + [e2, e3, e4, e5, e6, e7];
    assert [e2, e3, e4, e5, e6, e7] == [e2] + [e3, e4, e5, e6, e7];
    assert [e3, e4, e5, e6, e7] == [e3] + [e4, e5, e6, e7];
    assert [e4, e5, e6, e7] == [e4] + [e5, e6, e7];
    assert [e5, e6, e7] == [e5] + [e6, e7];
    assert [e6, e7] == [e6] + [e7];
    assert [e7] == [e7] + [];
  }

  /**
    With flattening, a record whose one context entry has a new, valid name:
    the default fields, then that entry's leaves.
   */
  lemma FlatEntryLine(json: Json, r: Record, leaves: seq<Pair>, m: string, rest: string)
    requires r.levelName == "INFO" && r.channel == Str("app") && |r.context| == 1 && r.extra == []
    requires r.context[0].0 !in ["ts", "lvl", "chan", "msg"] && IsValidIdent(Str(r.context[0].0))
    requires Leaves(true, json, r.context[0].0, r.context[0].1) == leaves && leaves != []
    requires DistinctKeys(leaves) && forall i :: 0 <= i < |leaves| ==> leaves[i].key !in ["ts", "lvl", "chan", "msg"]
    requires StringifyVal(json, r.message) == m && Join(Texts(leaves)) == rest
    ensures Line(Defaults(true), json, r) == "ts=" + r.datetime + " lvl=INFO chan=app msg=" + m + " " + rest + "\n"
  {
    var s := Defaults(true);
    var std := StandardPairs(s, json, r);
    DefaultFieldsText(s, json, r);
    StandardPairsDistinct(s, json, r);
    DistinctConcat(std, leaves);
    FlattenStep(json, std, r.context[0]);
    OneContextEntry(s, json, r);
    LineAfterStandard(s, json, r, leaves);
  }

  /** With every key invalid, no standard field is written. */
  lemma NoStandardPairs(s: Settings, json: Json, r: Record)
    requires !KeyValid(s.timeKey) && !KeyValid(s.levelKey) && !KeyValid(s.channelKey) && !KeyValid(s.messageKey)
    ensures StandardPairs(s, json, r) == []
  {
  }

  /** With only the level and channel fields enabled, the standard pairs are those two, in order. */
  lemma LevelChannelPairs(s: Settings, json: Json, r: Record)
    requires s.timeKey == None && s.messageKey == None && KeyValid(s.levelKey) && KeyValid(s.channelKey)
    requires s.levelKey != s.channelKey
    ensures StandardPairs(s, json, r) ==
      [Pair(s.levelKey.value, s.levelKey.value + "=" + r.levelName),
       Pair(s.channelKey.value, s.channelKey.value + "=" + StringifyVal(json, r.channel))]
  {
  }

  /** Settings whose four keys are the customised ones of the test cases. */
  predicate HasCustomKeys(s: Settings)
  {
    s.timeKey == Some("date") && s.levelKey == Some("level") && s.channelKey == Some("channel") && s.messageKey == Some("message")
  }

  /** The customised keys are valid, and distinct from each other. */
  lemma CustomKeysUsable(s: Settings)
    requires HasCustomKeys(s)
    ensures KeyValid(s.timeKey) && KeyValid(s.levelKey) && KeyValid(s.channelKey) && KeyValid(s.messageKey)
    ensures EnabledKeysDistinct(s)
  {
    PrintableValid("date");
    PrintableValid("level");
    PrintableValid("channel");
    PrintableValid("message");
    var ks := [s.timeKey, s.levelKey, s.channelKey, s.messageKey];
    assert ks == [Some("date"), Some("level"), Some("channel"), Some("message")];
  }

  /** The four customised fields, regrouped as the line prints them. */
  lemma CustomHeadText(datetime: string, m: string)
    ensures ("date" + "=" + datetime) + " " + ("level" + "=" + "INFO") + " " + ("channel" + "=" + "app") + " " + ("message" + "=" + m)
         == "date=" + datetime + " level=INFO channel=app message=" + m
  {
  }

  /** The customised line of a record at level INFO on channel `app` from which no entry survives. */
  lemma CustomLine(s: Settings, json: Json, r: Record)
    requires HasCustomKeys(s) && s.terminator == Some("\n") && !s.flatten
    requires r.levelName == "INFO" && r.channel == Str("app")
    requires Survivors(["date", "level", "channel", "message"], r.context + r.extra) == []
    ensures Line(s, json, r) == "date=" + r.datetime + " level=INFO channel=app message=" + StringifyVal(json, r.message) + "\n"
  {
    CustomHeadText(r.datetime, StringifyVal(json, r.message));
    CustomKeysUsable(s);
    PrintableValid("app");
    FourFieldsText(s, json, r);
    StandardOnlyLine(s, json, r);
  }

  /** One standard pair and no entry: its text, then the terminator. */
  lemma OneFieldLine(s: Settings, json: Json, r: Record, a: string)
    requires !s.flatten && |StandardPairs(s, json, r)| == 1 && StandardPairs(s, json, r)[0].text == a
    requires Survivors(Keys(StandardPairs(s, json, r)), r.context + r.extra) == []
    ensures Line(s, json, r) == a + TerminatorText(s.terminator)
  {
    StandardOnlyLine(s, json, r);
    assert Texts(StandardPairs(s, json, r)) == [a];
  }

  /** Two standard pairs and no entry: their texts, one space apart, then the terminator. */
  lemma TwoFieldsLine(s: Settings, json: Json, r: Record, a: string, b: string)
    requires !s.flatten && |StandardPairs(s, json, r)| == 2
    requires StandardPairs(s, json, r)[0].text == a && StandardPairs(s, json, r)[1].text == b
    requires Survivors(Keys(StandardPairs(s, json, r)), r.context + r.extra) == []
    ensures Line(s, json, r) == a + " " + b + TerminatorText(s.terminator)
  {
    StandardOnlyLine(s, json, r);
    var ts := Texts(StandardPairs(s, json, r));
    assert ts == [a, b];
    assert ts[1..] == [b];
  }

  // ---------------------------------------------------------------------
  // Facts about the words of the test cases

  lemma MessageBare(json: Json)
    ensures StringifyVal(json, Str("Message")) == "Message"
  {
    PrintableValid("Message");
  }

  /** A string holding a character of the class goes to the JSON encoder. */
  lemma Quoted(json: Json, m: string, i: nat)
    requires i < |m| && InForbiddenClass(m[i])
    ensures StringifyVal(json, Str(m)) == json(Str(m))
  {
  }

  lemma FooBarEntry(json: Json)
    ensures IsValidIdent(Str("foo")) && "foo" !in ["ts", "lvl", "chan", "msg"]
    ensures Join(Texts(Rendered(json, [("foo", Str("bar"))]))) == "foo=bar"
  {
    PrintableValid("foo");
    PrintableValid("bar");
    OneRendered(json, "foo", Str("bar"));
  }

  lemma SpacedValueEntry(json: Json)
    ensures IsValidIdent(Str("baz")) && "baz" !in ["ts", "lvl", "chan", "msg"]
    ensures Join(Texts(Rendered(json, [("baz", Str("something with spaces"))]))) == "baz=" + json(Str("something with spaces"))
  {
    PrintableValid("baz");
    Quoted(json, "something with spaces", 9);
    assert "baz" + "=" == "baz=";
    OneRendered(json, "baz", Str("something with spaces"));
  }

  lemma ContextValEntry(json: Json)
    ensures IsValidIdent(Str("foo")) && "foo" !in ["ts", "lvl", "chan", "msg"]
    ensures Join(Texts(Rendered(json, [("foo", Str("context val"))]))) == "foo=" + json(Str("context val"))
  {
    PrintableValid("foo");
    Quoted(json, "context val", 7);
    assert "foo" + "=" == "foo=";
    OneRendered(json, "foo", Str("context val"));
  }

  lemma InvalidKeyNames()
    ensures !IsValidIdent(Str("you ain't seen me")) && !IsValidIdent(Str("this=wrong")) && !IsValidIdent(Str("no\ttabs\tpls"))
    ensures !IsValidIdent(Str("\nwhat?")) && !IsValidIdent(Str(""))
  {
    assert InForbiddenClass("you ain't seen me"[3]) && InForbiddenClass("this=wrong"[4]);
    assert InForbiddenClass("no\ttabs\tpls"[2]) && InForbiddenClass("\nwhat?"[0]);
  }

  lemma ValidKeyNames()
    ensures IsValidIdent(Str("cool%story")) && IsValidIdent(Str("%^asdf"))
    ensures "cool%story" !in ["ts", "lvl", "chan", "msg"] && "%^asdf" !in ["ts", "lvl", "chan", "msg"] + ["cool%story"]
  {
    PrintableValid("cool%story");
    PrintableValid("%^asdf");
  }

  lemma LevelChannelText()
    ensures ("lvl" + "=" + "INFO") + " " + ("chan" + "=" + "app") + "\n" == "lvl=INFO chan=app" + "\n"
  {
  }

  lemma KeptEntriesText(json: Json)
    ensures Join(Texts(Rendered(json, [("cool%story", Str("bro")), ("%^asdf", Bool(true))]))) == ("cool%story=bro" + " " + "%^asdf=true")
  {
    var kept := [("cool%story", Str("bro")), ("%^asdf", Bool(true))];
    var ps := Rendered(json, kept);
    KeptPairTexts(json, ps);
    var ts := Texts(ps);
    assert ts == [ps[0].text, ps[1].text];
    assert ts[1..] == [ts[1]];
  }

  lemma KeptPairTexts(json: Json, ps: seq<Pair>)
    requires ps == Rendered(json, [("cool%story", Str("bro")), ("%^asdf", Bool(true))])
    ensures |ps| == 2 && ps[0].text == "cool%story=bro" && ps[1].text == "%^asdf=true"
  {
    PrintableValid("bro");
    assert ps[0].text == "cool%story" + "=" + "bro" == "cool%story=bro";
    assert ps[1].text == "%^asdf" + "=" + "true" == "%^asdf=true";
  }

  /** The context value of the nested-context test: `['inner' => ['one', 'two']]`. */
  function Outer(): Value
  {
    Arr([("inner", Arr([("0", Str("one")), ("1", Str("two"))]))])
  }

  /** The extra value of the nested-context test: `['inner' => ['one' => 1, 'two']]`. */
  function OuterMixed(): Value
  {
    Arr([("inner", Arr([("one", Int(1)), ("0", Str("two"))]))])
  }

  /** Without flattening, an array under `outer` is written whole, through the JSON encoder. */
  lemma OuterEntry(json: Json, v: Value)
    requires v.Arr?
    ensures IsValidIdent(Str("outer")) && "outer" !in ["ts", "lvl", "chan", "msg"]
    ensures Join(Texts(Rendered(json, [("outer", v)]))) == "outer=" + json(v)
  {
    PrintableValid("outer");
    assert "outer" + "=" == "outer=";
    OneRendered(json, "outer", v);
  }

  /** A PHP list: members keyed `0`, `1`, `2`. */
  function Items(): Value
  {
    Arr([("0", Str("apple")), ("1", Str("banana")), ("2", Str("cherry"))])
  }

  /** A three-member list of bare words flattens to one pair per member, named by its index. */
  lemma ListOfThreeLeaves(json: Json, key: string, w0: string, w1: string, w2: string)
    requires IsValidIdent(Str(w0)) && IsValidIdent(Str(w1)) && IsValidIdent(Str(w2))
    ensures Leaves(true, json, key, Arr([("0", Str(w0)), ("1", Str(w1)), ("2", Str(w2))])) ==
      [Pair(key + "_" + "0", key + "_" + "0" + "=" + w0), Pair(key + "_" + "1", key + "_" + "1" + "=" + w1),
       Pair(key + "_" + "2", key + "_" + "2" + "=" + w2)]
  {
    var es := [("0", Str(w0)), ("1", Str(w1)), ("2", Str(w2))];
    FlatArrayOfScalars(json, key, es, 0);
    var ls := MemberLeaves(json, key, Arr(es), 0);
    assert Leaves(true, json, key, Arr(es)) == ls;
    assert |ls| == 3;
    assert ls[0] == Pair(key + "_" + "0", PairText(json, key + "_" + "0", Str(w0)));
    assert ls[1] == Pair(key + "_" + "1", PairText(json, key + "_" + "1", Str(w1)));
    assert ls[2] == Pair(key + "_" + "2", PairText(json, key + "_" + "2", Str(w2)));
  }

  lemma ItemNames()
    ensures "items" + "_" + "0" == "items_0" && "items" + "_" + "1" == "items_1" && "items" + "_" + "2" == "items_2"
    ensures "items" + "_" + "0" + "=" + "apple" == "items_0=apple" && "items" + "_" + "1" + "=" + "banana" == "items_1=banana"
    ensures "items" + "_" + "2" + "=" + "cherry" == "items_2=cherry"
  {
  }

  lemma ItemsLeaves(json: Json)
    ensures Leaves(true, json, "items", Items()) ==
      [Pair("items_0", "items_0=apple"), Pair("items_1", "items_1=banana"), Pair("items_2", "items_2=cherry")]
  {
    PrintableValid("apple");
    PrintableValid("banana");
    PrintableValid("cherry");
    ItemNames();
    ListOfThreeLeaves(json, "items", "apple", "banana", "cherry");
  }

  lemma ItemsText()
    ensures Join(Texts([Pair("items_0", "items_0=apple"), Pair("items_1", "items_1=banana"), Pair("items_2", "items_2=cherry")]))
         == "items_0=apple items_1=banana items_2=cherry"
  {
    var ts := ["items_0=apple", "items_1=banana", "items_2=cherry"];
    assert ts[1..][1..] == ["items_2=cherry"];
    assert ts[1..] == ["items_1=banana", "items_2=cherry"];
  }

  lemma ItemsKeys()
    ensures IsValidIdent(Str("items")) && "items" !in ["ts", "lvl", "chan", "msg"]
    ensures DistinctKeys([Pair("items_0", "items_0=apple"), Pair("items_1", "items_1=banana"), Pair("items_2", "items_2=cherry")])
    ensures forall k :: k in ["items_0", "items_1", "items_2"] ==> k !in ["ts", "lvl", "chan", "msg"]
  {
  }

  /** A scalar flattens to its own `key=value` pair. */
  lemma ScalarLeaf(json: Json, key: string, v: Value)
    requires IsScalar(v)
    ensures Leaves(true, json, key, v) == [Pair(key, PairText(json, key, v))]
  {
  }

  /** Flattening a one-member array: that member's leaves, under `prefix_member`. */
  lemma OneMember(json: Json, prefix: string, a: (string, Value))
    ensures Leaves(true, json, prefix, Arr([a])) == Leaves(true, json, prefix + "_" + a.0, a.1)
  {
    var arr := Arr([a]);
    assert MemberLeaves(json, prefix, arr, 1) == [];
    assert MemberLeaves(json, prefix, arr, 0) == Leaves(true, json, prefix + "_" + a.0, a.1) + [];
  }

  /** Flattening a two-member array: the leaves of each member in turn. */
  lemma TwoMembers(json: Json, prefix: string, a: (string, Value), b: (string, Value))
    ensures Leaves(true, json, prefix, Arr([a, b])) ==
      Leaves(true, json, prefix + "_" + a.0, a.1) + Leaves(true, json, prefix + "_" + b.0, b.1)
  {
    var arr := Arr([a, b]);
    assert MemberLeaves(json, prefix, arr, 2) == [];
    assert MemberLeaves(json, prefix, arr, 1) == Leaves(true, json, prefix + "_" + b.0, b.1) + [];
  }

  /** Flattening a three-member array: the leaves of each member in turn. */
  lemma ThreeMembers(json: Json, prefix: string, a: (string, Value), b: (string, Value), c: (string, Value))
    ensures Leaves(true, json, prefix, Arr([a, b, c])) ==
      Leaves(true, json, prefix + "_" + a.0, a.1) + Leaves(true, json, prefix + "_" + b.0, b.1)
      + Leaves(true, json, prefix + "_" + c.0, c.1)
  {
    var arr := Arr([a, b, c]);
    assert MemberLeaves(json, prefix, arr, 3) == [];
    assert MemberLeaves(json, prefix, arr, 2) == Leaves(true, json, prefix + "_" + c.0, c.1) + [];
    assert MemberLeaves(json, prefix, arr, 1) == Leaves(true, json, prefix + "_" + b.0, b.1) + MemberLeaves(json, prefix, arr, 2);
  }

  /** The array of the associative-array test. */
  function User(): Value
  {
    Arr([("id", Int(123)), ("name", Str("John Doe")), ("roles", Arr([("0", Str("admin")), ("1", Str("editor"))]))])
  }

  lemma UserNames()
    ensures "user" + "_" + "id" == "user_id" && "user" + "_" + "name" == "user_name" && "user" + "_" + "roles" == "user_roles"
    ensures "user_roles" + "_" + "0" == "user_roles_0" && "user_roles" + "_" + "1" == "user_roles_1"
    ensures "user_id" + "=" + "123" == "user_id=123" && "user_name" + "=" == "user_name="
    ensures "user_roles_0" + "=" + "admin" == "user_roles_0=admin" && "user_roles_1" + "=" + "editor" == "user_roles_1=editor"
  {
  }

  lemma OneTwoThree()
    ensures IntText(123) == "123"
  {
    assert DigitChar(1) == '1' && DigitChar(2) == '2' && DigitChar(3) == '3';
    assert Digits(12) == Digits(1) + [DigitChar(2)];
  }

  /** The pairs the associative-array test's `user` entry flattens to. */
  function UserPairs(json: Json): seq<Pair>
  {
    [Pair("user_id", "user_id=123"), Pair("user_name", "user_name=" + json(Str("John Doe"))),
     Pair("user_roles_0", "user_roles_0=admin"), Pair("user_roles_1", "user_roles_1=editor")]
  }

  lemma UserArrayLeaves(json: Json)
    ensures Leaves(true, json, "user", User()) == UserPairs(json)
  {
    UserNames();
    OneTwoThree();
    Quoted(json, "John Doe", 4);
    PrintableValid("admin");
    PrintableValid("editor");
    var roles := Arr([("0", Str("admin")), ("1", Str("editor"))]);
    ThreeMembers(json, "user", ("id", Int(123)), ("name", Str("John Doe")), ("roles", roles));
    ScalarLeaf(json, "user_id", Int(123));
    ScalarLeaf(json, "user_name", Str("John Doe"));
    TwoMembers(json, "user_roles", ("0", Str("admin")), ("1", Str("editor")));
    ScalarLeaf(json, "user_roles_0", Str("admin"));
    ScalarLeaf(json, "user_roles_1", Str("editor"));
  }

  lemma UserKeys(json: Json)
    ensures IsValidIdent(Str("user")) && "user" !in ["ts", "lvl", "chan", "msg"]
    ensures DistinctKeys(UserPairs(json))
    ensures forall i :: 0 <= i < |UserPairs(json)| ==> UserPairs(json)[i].key !in ["ts", "lvl", "chan", "msg"]
    ensures Join(Texts(UserPairs(json))) == "user_id=123" + " " + ("user_name=" + json(Str("John Doe"))) + " " + "user_roles_0=admin" + " " + "user_roles_1=editor"
  {
    var ps := UserPairs(json);
    assert Keys(ps) == ["user_id", "user_name", "user_roles_0", "user_roles_1"];
    assert Texts(ps) == ["user_id=123", "user_name=" + json(Str("John Doe")), "user_roles_0=admin", "user_roles_1=editor"];
    Join4("user_id=123", "user_name=" + json(Str("John Doe")), "user_roles_0=admin", "user_roles_1=editor");
  }

  /** The array of the nested-array test: a list of two records under `items`. */
  function Data(): Value
  {
    Arr([("items", Arr([("0", Arr([("id", Int(1)), ("name", Str("Item 1"))])),
                        ("1", Arr([("id", Int(2)), ("name", Str("Item 2"))]))]))])
  }

  lemma DataNames()
    ensures "data" + "_" + "items" == "data_items"
    ensures "data_items" + "_" + "0" == "data_items_0" && "data_items" + "_" + "1" == "data_items_1"
    ensures "data_items_0" + "_" + "id" == "data_items_0_id" && "data_items_0" + "_" + "name" == "data_items_0_name"
    ensures "data_items_1" + "_" + "id" == "data_items_1_id" && "data_items_1" + "_" + "name" == "data_items_1_name"
    ensures "data_items_0_id" + "=" + "1" == "data_items_0_id=1" && "data_items_1_id" + "=" + "2" == "data_items_1_id=2"
    ensures "data_items_0_name" + "=" == "data_items_0_name=" && "data_items_1_name" + "=" == "data_items_1_name="
  {
  }

  /** The pairs the nested-array test's `data` entry flattens to. */
  function DataPairs(json: Json): seq<Pair>
  {
    [Pair("data_items_0_id", "data_items_0_id=1"), Pair("data_items_0_name", "data_items_0_name=" + json(Str("Item 1"))),
     Pair("data_items_1_id", "data_items_1_id=2"), Pair("data_items_1_name", "data_items_1_name=" + json(Str("Item 2")))]
  }

  lemma DataLeaves(json: Json)
    ensures Leaves(true, json, "data", Data()) == DataPairs(json)
  {
    DataNames();
    assert IntText(1) == "1" && IntText(2) == "2" by {
      assert DigitChar(1) == '1' && DigitChar(2) == '2';
    }
    Quoted(json, "Item 1", 4);
    Quoted(json, "Item 2", 4);
    var item1 := Arr([("id", Int(1)), ("name", Str("Item 1"))]);
    var item2 := Arr([("id", Int(2)), ("name", Str("Item 2"))]);
    OneMember(json, "data", ("items", Arr([("0", item1), ("1", item2)])));
    TwoMembers(json, "data_items", ("0", item1), ("1", item2));
    TwoMembers(json, "data_items_0", ("id", Int(1)), ("name", Str("Item 1")));
    TwoMembers(json, "data_items_1", ("id", Int(2)), ("name", Str("Item 2")));
    ScalarLeaf(json, "data_items_0_id", Int(1));
    ScalarLeaf(json, "data_items_0_name", Str("Item 1"));
    ScalarLeaf(json, "data_items_1_id", Int(2));
    ScalarLeaf(json, "data_items_1_name", Str("Item 2"));
  }

  lemma DataKeys(json: Json)
    ensures IsValidIdent(Str("data")) && "data" !in ["ts", "lvl", "chan", "msg"]
    ensures DistinctKeys(DataPairs(json))
    ensures forall i :: 0 <= i < |DataPairs(json)| ==> DataPairs(json)[i].key !in ["ts", "lvl", "chan", "msg"]
    ensures Join(Texts(DataPairs(json)))
         == "data_items_0_id=1" + " " + ("data_items_0_name=" + json(Str("Item 1"))) + " " + "data_items_1_id=2" + " " + ("data_items_1_name=" + json(Str("Item 2")))
  {
    var ps := DataPairs(json);
    var j1, j2 := json(Str("Item 1")), json(Str("Item 2"));
    assert Keys(ps) == ["data_items_0_id", "data_items_0_name", "data_items_1_id", "data_items_1_name"];
    assert Texts(ps) == ["data_items_0_id=1", "data_items_0_name=" + j1, "data_items_1_id=2", "data_items_1_name=" + j2];
    Join4("data_items_0_id=1", "data_items_0_name=" + j1, "data_items_1_id=2", "data_items_1_name=" + j2);
  }

  // ---------------------------------------------------------------------
  // The test cases

  /** The default line of a record with no context and no extra. */
  lemma DefaultMessageLine(json: Json, t: string, message: Value)
    ensures Line(Defaults(false), json, MessageRecord(t, message, [], []))
         == "ts=" + t + " lvl=INFO chan=app msg=" + StringifyVal(json, message) + "\n"
  {
    var r := MessageRecord(t, message, [], []);
    NoEntries(["ts", "lvl", "chan", "msg"], r);
    DefaultLine(json, r, Some("\n"));
    assert Defaults(false).(terminator := Some("\n")) == Defaults(false);
  }

  /** Messages with nothing to quote are written bare, non-ASCII letters included. */
  lemma PlainMessages(json: Json, t: string)
    ensures Line(Defaults(false), json, MessageRecord(t, Str("Hi"), [], []))
         == "ts=" + t + " lvl=INFO chan=app msg=" + "Hi" + "\n"
    ensures Line(Defaults(false), json, MessageRecord(t, Str("åéü"), [], []))
         == "ts=" + t + " lvl=INFO chan=app msg=" + "åéü" + "\n"
  {
    assert IsValidIdent(Str("Hi")) && IsValidIdent(Str("åéü"));
    DefaultMessageLine(json, t, Str("Hi"));
    DefaultMessageLine(json, t, Str("åéü"));
  }

  /**
    Messages with a space, `=`, a double quote or a line break, and the empty
    message, go to the JSON encoder.
   */
  lemma QuotedMessages(json: Json, t: string)
    ensures Line(Defaults(false), json, MessageRecord(t, Str("Hi there"), [], []))
         == "ts=" + t + " lvl=INFO chan=app msg=" + json(Str("Hi there")) + "\n"
    ensures Line(Defaults(false), json, MessageRecord(t, Str("1=2"), [], []))
         == "ts=" + t + " lvl=INFO chan=app msg=" + json(Str("1=2")) + "\n"
    ensures Line(Defaults(false), json, MessageRecord(t, Str("\"speech_marks\""), [], []))
         == "ts=" + t + " lvl=INFO chan=app msg=" + json(Str("\"speech_marks\"")) + "\n"
    ensures Line(Defaults(false), json, MessageRecord(t, Str(""), [], []))
         == "ts=" + t + " lvl=INFO chan=app msg=" + json(Str("")) + "\n"
    ensures Line(Defaults(false), json, MessageRecord(t, Str("\nHi\n"), [], []))
         == "ts=" + t + " lvl=INFO chan=app msg=" + json(Str("\nHi\n")) + "\n"
  {
    assert InForbiddenClass("Hi there"[2]) && InForbiddenClass("1=2"[1]);
    assert InForbiddenClass("\"speech_marks\""[0]) && InForbiddenClass("\nHi\n"[0]);
    DefaultMessageLine(json, t, Str("Hi there"));
    DefaultMessageLine(json, t, Str("1=2"));
    DefaultMessageLine(json, t, Str("\"speech_marks\""));
    DefaultMessageLine(json, t, Str(""));
    DefaultMessageLine(json, t, Str("\nHi\n"));
  }

  /** Integers and floats are written as their text, booleans as `true`/`false`, null as `NULL`. */
  lemma ScalarMessages(json: Json, t: string)
    ensures Line(Defaults(false), json, MessageRecord(t, Int(1), [], []))
         == "ts=" + t + " lvl=INFO chan=app msg=" + "1" + "\n"
    ensures Line(Defaults(false), json, MessageRecord(t, Float("1.1"), [], []))
         == "ts=" + t + " lvl=INFO chan=app msg=" + "1.1" + "\n"
    ensures Line(Defaults(false), json, MessageRecord(t, Bool(true), [], []))
         == "ts=" + t + " lvl=INFO chan=app msg=" + "true" + "\n"
    ensures Line(Defaults(false), json, MessageRecord(t, Bool(false), [], []))
         == "ts=" + t + " lvl=INFO chan=app msg=" + "false" + "\n"
    ensures Line(Defaults(false), json, MessageRecord(t, Null, [], []))
         == "ts=" + t + " lvl=INFO chan=app msg=" + "NULL" + "\n"
  {
    assert IntText(1) == "1" by {
      assert DigitChar(1) == '1';
    }
    DefaultMessageLine(json, t, Int(1));
    DefaultMessageLine(json, t, Float("1.1"));
    DefaultMessageLine(json, t, Bool(true));
    DefaultMessageLine(json, t, Bool(false));
    DefaultMessageLine(json, t, Null);
  }

  /** A null terminator appends nothing. */
  lemma NullTerminator(json: Json, t: string)
    ensures Line(Defaults(false).(terminator := None), json, MessageRecord(t, Str("Message"), [], []))
         == "ts=" + t + " lvl=INFO chan=app msg=" + "Message"
  {
    var r := MessageRecord(t, Str("Message"), [], []);
    MessageBare(json);
    NoEntries(["ts", "lvl", "chan", "msg"], r);
    DefaultLine(json, r, None);
  }

  /** Context entries follow the standard fields; a value with a space goes to the JSON encoder. */
  lemma ContextIncluded(json: Json, t: string)
    ensures Line(Defaults(false), json, MessageRecord(t, Str("Message"), [("foo", Str("bar"))], []))
         == "ts=" + t + " lvl=INFO chan=app msg=" + "Message" + " " + "foo=bar" + "\n"
    ensures Line(Defaults(false), json, MessageRecord(t, Str("Message"), [("baz", Str("something with spaces"))], []))
         == "ts=" + t + " lvl=INFO chan=app msg=" + "Message" + " " + ("baz=" + json(Str("something with spaces"))) + "\n"
  {
    var seen := ["ts", "lvl", "chan", "msg"];
    var foo := ("foo", Str("bar"));
    var baz := ("baz", Str("something with spaces"));
    var r1 := MessageRecord(t, Str("Message"), [foo], []);
    var r2 := MessageRecord(t, Str("Message"), [baz], []);
    MessageBare(json);
    FooBarEntry(json);
    SpacedValueEntry(json);
    LoneSurvivor(seen, foo);
    LoneSurvivor(seen, baz);
    assert r1.context + r1.extra == [foo] && r2.context + r2.extra == [baz];
    DefaultEntriesLine(json, r1, [foo], "Message", "foo=bar");
    DefaultEntriesLine(json, r2, [baz], "Message", "baz=" + json(Str("something with spaces")));
  }

  /** Extra entries are written like context entries. */
  lemma ExtraIncluded(json: Json, t: string)
    ensures Line(Defaults(false), json, MessageRecord(t, Str("Message"), [], [("foo", Str("bar"))]))
         == "ts=" + t + " lvl=INFO chan=app msg=" + "Message" + " " + "foo=bar" + "\n"
    ensures Line(Defaults(false), json, MessageRecord(t, Str("Message"), [], [("baz", Str("something with spaces"))]))
         == "ts=" + t + " lvl=INFO chan=app msg=" + "Message" + " " + ("baz=" + json(Str("something with spaces"))) + "\n"
  {
    var seen := ["ts", "lvl", "chan", "msg"];
    var foo := ("foo", Str("bar"));
    var baz := ("baz", Str("something with spaces"));
    var r1 := MessageRecord(t, Str("Message"), [], [foo]);
    var r2 := MessageRecord(t, Str("Message"), [], [baz]);
    MessageBare(json);
    FooBarEntry(json);
    SpacedValueEntry(json);
    LoneSurvivor(seen, foo);
    LoneSurvivor(seen, baz);
    assert r1.context + r1.extra == [foo] && r2.context + r2.extra == [baz];
    DefaultEntriesLine(json, r1, [foo], "Message", "foo=bar");
    DefaultEntriesLine(json, r2, [baz], "Message", "baz=" + json(Str("something with spaces")));
  }

  /** A context entry wins over an extra entry of the same name. */
  lemma ContextOverridesExtra(json: Json, t: string)
    ensures Line(Defaults(false), json, MessageRecord(t, Str("Message"), [("foo", Str("context val"))], [("foo", Str("extra val"))]))
         == "ts=" + t + " lvl=INFO chan=app msg=" + "Message" + " " + ("foo=" + json(Str("context val"))) + "\n"
  {
    var a := ("foo", Str("context val"));
    var b := ("foo", Str("extra val"));
    var r := MessageRecord(t, Str("Message"), [a], [b]);
    MessageBare(json);
    ContextValEntry(json);
    ShadowedSurvivor(["ts", "lvl", "chan", "msg"], a, b);
    assert r.context + r.extra == [a, b];
    DefaultEntriesLine(json, r, [a], "Message", "foo=" + json(Str("context val")));
  }

  /**
    Entries whose names hold a space, `=`, a tab or a line break, or are
    empty, are dropped; the others are kept in order.
   */
  lemma InvalidKeysIgnored(json: Json, t: string)
    ensures Line(Defaults(false), json, MessageRecord(t, Str("Message"),
                   [("you ain't seen me", Str("right")), ("cool%story", Str("bro"))],
                   [("this=wrong", Int(1)), ("no\ttabs\tpls", Int(2)), ("%^asdf", Bool(true)),
                    ("\nwhat?", Bool(false)), ("", Str("ignore this"))]))
         == "ts=" + t + " lvl=INFO chan=app msg=" + "Message" + " " + ("cool%story=bro" + " " + "%^asdf=true") + "\n"
  {
    var e1 := ("you ain't seen me", Str("right"));
    var e2 := ("cool%story", Str("bro"));
    var e3 := ("this=wrong", Int(1));
    var e4 := ("no\ttabs\tpls", Int(2));
    var e5 := ("%^asdf", Bool(true));
    var e6 := ("\nwhat?", Bool(false));
    var e7 := ("", Str("ignore this"));
    var r := MessageRecord(t, Str("Message"), [e1, e2], [e3, e4, e5, e6, e7]);
    MessageBare(json);
    InvalidKeyNames();
    ValidKeyNames();
    KeptEntriesText(json);
    InvalidKeysSurvivors(["ts", "lvl", "chan", "msg"], e1, e2, e3, e4, e5, e6, e7);
    assert r.context + r.extra == [e1, e2, e3, e4, e5, e6, e7];
    DefaultEntriesLine(json, r, [e2, e5], "Message", ("cool%story=bro" + " " + "%^asdf=true"));
  }

  /** Without flattening, a nested array in context or extra is written as one JSON-encoded value. */
  lemma NestedValuesEncoded(json: Json, t: string)
    ensures Line(Defaults(false), json, MessageRecord(t, Str("Message"), [("outer", Outer())], []))
         == "ts=" + t + " lvl=INFO chan=app msg=" + "Message" + " " + ("outer=" + json(Outer())) + "\n"
    ensures Line(Defaults(false), json, MessageRecord(t, Str("Message"), [], [("outer", OuterMixed())]))
         == "ts=" + t + " lvl=INFO chan=app msg=" + "Message" + " " + ("outer=" + json(OuterMixed())) + "\n"
  {
    var seen := ["ts", "lvl", "chan", "msg"];
    var a := ("outer", Outer());
    var b := ("outer", OuterMixed());
    var r1 := MessageRecord(t, Str("Message"), [a], []);
    var r2 := MessageRecord(t, Str("Message"), [], [b]);
    MessageBare(json);
    OuterEntry(json, Outer());
    OuterEntry(json, OuterMixed());
    LoneSurvivor(seen, a);
    LoneSurvivor(seen, b);
    assert r1.context + r1.extra == [a] && r2.context + r2.extra == [b];
    DefaultEntriesLine(json, r1, [a], "Message", "outer=" + json(Outer()));
    DefaultEntriesLine(json, r2, [b], "Message", "outer=" + json(OuterMixed()));
  }

  /** With flattening on, a list in the context is written one member per pair, named `items_<index>`. */
  lemma FlattensList(json: Json, t: string)
    ensures Line(Defaults(true), json, MessageRecord(t, Str("Message"), [("items", Items())], []))
         == "ts=" + t + " lvl=INFO chan=app msg=" + "Message" + " " + "items_0=apple items_1=banana items_2=cherry" + "\n"
  {
    var r := MessageRecord(t, Str("Message"), [("items", Items())], []);
    MessageBare(json);
    ItemsLeaves(json);
    ItemsText();
    ItemsKeys();
    FlatEntryLine(json, r, [Pair("items_0", "items_0=apple"), Pair("items_1", "items_1=banana"), Pair("items_2", "items_2=cherry")],
                  "Message", "items_0=apple items_1=banana items_2=cherry");
  }

  /** With flattening on, an associative array is written one pair per leaf, nested lists included. */
  lemma FlattensAssociativeArray(json: Json, t: string)
    ensures Line(Defaults(true), json, MessageRecord(t, Str("Message"), [("user", User())], []))
         == "ts=" + t + " lvl=INFO chan=app msg=" + "Message" + " "
          + ("user_id=123" + " " + ("user_name=" + json(Str("John Doe"))) + " " + "user_roles_0=admin" + " " + "user_roles_1=editor") + "\n"
  {
    var r := MessageRecord(t, Str("Message"), [("user", User())], []);
    MessageBare(json);
    UserArrayLeaves(json);
    UserKeys(json);
    FlatEntryLine(json, r, UserPairs(json), "Message",
                  "user_id=123" + " " + ("user_name=" + json(Str("John Doe"))) + " " + "user_roles_0=admin" + " " + "user_roles_1=editor");
  }

  /** With flattening on, arrays nested in lists are written with every level's key in the name. */
  lemma FlattensNestedArrays(json: Json, t: string)
    ensures Line(Defaults(true), json, MessageRecord(t, Str("Message"), [("data", Data())], []))
         == "ts=" + t + " lvl=INFO chan=app msg=" + "Message" + " "
          + ("data_items_0_id=1" + " " + ("data_items_0_name=" + json(Str("Item 1"))) + " " + "data_items_1_id=2" + " " + ("data_items_1_name=" + json(Str("Item 2"))))
          + "\n"
  {
    var r := MessageRecord(t, Str("Message"), [("data", Data())], []);
    MessageBare(json);
    DataLeaves(json);
    DataKeys(json);
    FlatEntryLine(json, r, DataPairs(json), "Message",
                  "data_items_0_id=1" + " " + ("data_items_0_name=" + json(Str("Item 1"))) + " " + "data_items_1_id=2" + " " + ("data_items_1_name=" + json(Str("Item 2"))));
  }

  /** Customised keys replace the default ones. */
  lemma CustomKeys(json: Json, t: string)
    ensures Line(Settings(ConfiguredKey(Some("date")), ConfiguredKey(Some("level")), ConfiguredKey(Some("channel")),
                          ConfiguredKey(Some("message")), Some("\n"), false),
                 json, MessageRecord(t, Str("Message"), [], []))
         == "date=" + t + " level=INFO channel=app message=" + "Message" + "\n"
  {
    var r := MessageRecord(t, Str("Message"), [], []);
    CleanKeysKept("date", "level", "channel", "message");
    MessageBare(json);
    NoEntries(["date", "level", "channel", "message"], r);
    CustomLine(Settings(Some("date"), Some("level"), Some("channel"), Some("message"), Some("\n"), false), json, r);
  }

  /** Key arguments holding a space, a double quote or `=` that trimming does not remove disable their fields. */
  lemma ForbiddenKeyArgumentsDisabled()
    ensures !KeyValid(ConfiguredKey(Some("time stamp")))
    ensures !KeyValid(ConfiguredKey(Some("le\"v\"el")))
    ensures !KeyValid(ConfiguredKey(Some("mess=age")))
  {
    var spaced, quoted, equals := "time stamp", "le\"v\"el", "mess=age";
    assert IsCleanKey(spaced) && InForbiddenClass(spaced[4]);
    assert IsCleanKey(quoted) && InForbiddenClass(quoted[2]);
    assert IsCleanKey(equals) && InForbiddenClass(equals[4]);
    ForbiddenKeyDisables(spaced, 4);
    ForbiddenKeyDisables(quoted, 2);
    ForbiddenKeyDisables(equals, 4);
  }

  /** A key argument made only of whitespace trims to the empty key, which is never valid. */
  lemma BlankKeyExcluded()
    ensures !KeyValid(ConfiguredKey(Some(" ")))
  {
    assert Trim(" ") == "";
  }

  /** An empty or null key argument leaves its field out; here only the message is written. */
  lemma OnlyMessageKept(json: Json, t: string)
    ensures Line(Settings(ConfiguredKey(Some("")), ConfiguredKey(None), ConfiguredKey(None), ConfiguredKey(Some("msg")), Some("\n"), false),
                 json, MessageRecord(t, Str("Message"), [], []))
         == "msg=Message" + "\n"
  {
    assert "msg" + "=" + "Message" == "msg=Message";
    MessageBare(json);
    DefaultKeysValid();
    CleanKeyKept("msg");
    var s := Settings(ConfiguredKey(Some("")), ConfiguredKey(None), ConfiguredKey(None), ConfiguredKey(Some("msg")), Some("\n"), false);
    var r := MessageRecord(t, Str("Message"), [], []);
    assert s.timeKey == None && s.levelKey == None && s.channelKey == None && s.messageKey == Some("msg");
    OnlyMessagePairs(s, json, r, "msg", "Message");
    NoEntries(["msg"], r);
    OneFieldLine(s, json, r, "msg" + "=" + "Message");
  }

  /** Level and channel only, under their default keys: `lvl=INFO chan=app`. */
  lemma LevelChannelLine(s: Settings, json: Json, r: Record)
    requires s.timeKey == None && s.messageKey == None && s.levelKey == Some("lvl") && s.channelKey == Some("chan")
    requires !s.flatten && s.terminator == Some("\n")
    requires r.levelName == "INFO" && r.channel == Str("app") && r.context == [] && r.extra == []
    ensures Line(s, json, r) == "lvl=INFO chan=app" + "\n"
  {
    PrintableValid("app");
    DefaultKeysValid();
    LevelChannelText();
    LevelChannelPairs(s, json, r);
    NoEntries(["lvl", "chan"], r);
    TwoFieldsLine(s, json, r, "lvl" + "=" + "INFO", "chan" + "=" + "app");
  }

  /** Here the time and message fields are left out, and the level and channel are written. */
  lemma LevelAndChannelKept(json: Json, t: string)
    ensures Line(Settings(ConfiguredKey(None), ConfiguredKey(Some("lvl")), ConfiguredKey(Some("chan")), ConfiguredKey(Some("")), Some("\n"), false),
                 json, MessageRecord(t, Str("Message"), [], []))
         == "lvl=INFO chan=app" + "\n"
  {
    DefaultConstructorKeys();
    var s := Settings(ConfiguredKey(None), ConfiguredKey(Some("lvl")), ConfiguredKey(Some("chan")), ConfiguredKey(Some("")), Some("\n"), false);
    assert s.timeKey == None && s.messageKey == None;
    LevelChannelLine(s, json, MessageRecord(t, Str("Message"), [], []));
  }

  /** With every key argument invalid, only the context entry is written. */
  lemma InvalidKeyArgumentsExcluded(json: Json, t: string)
    ensures Line(Settings(ConfiguredKey(Some("time stamp")), ConfiguredKey(Some("le\"v\"el")), ConfiguredKey(Some(" ")),
                          ConfiguredKey(Some("mess=age")), Some("\n"), false),
                 json, MessageRecord(t, Str("Message"), [("foo", Str("bar"))], []))
         == "foo=bar" + "\n"
  {
    var s := Settings(ConfiguredKey(Some("time stamp")), ConfiguredKey(Some("le\"v\"el")), ConfiguredKey(Some(" ")),
                      ConfiguredKey(Some("mess=age")), Some("\n"), false);
    var foo := ("foo", Str("bar"));
    var r := MessageRecord(t, Str("Message"), [foo], []);
    ForbiddenKeyArgumentsDisabled();
    BlankKeyExcluded();
    NoStandardPairs(s, json, r);
    FooBarEntry(json);
    LoneSurvivor([], foo);
    assert r.context + r.extra == [foo];
    NonFlattenPairs(s, json, r);
    assert FinalPairs(s, json, r) == Rendered(json, [foo]);
  }

  /** Context and extra entries named like the default fields are dropped. */
  lemma DefaultKeysNotOverwritten(json: Json, t: string)
    ensures Line(Defaults(false), json, MessageRecord(t, Str("Message"),
                   [("ts", Str("This should not be output")), ("lvl", Str("And neither should this"))],
                   [("chan", Str("Or this...")), ("msg", Str("...or this"))]))
         == "ts=" + t + " lvl=INFO chan=app msg=" + "Message" + "\n"
  {
    MessageBare(json);
    var a, b := ("ts", Str("This should not be output")), ("lvl", Str("And neither should this"));
    var c, d := ("chan", Str("Or this...")), ("msg", Str("...or this"));
    var r := MessageRecord(t, Str("Message"), [a, b], [c, d]);
    assert r.context + r.extra == [a, b, c, d];
    TakenDropped(["ts", "lvl", "chan", "msg"], [a, b, c, d]);
    DefaultLine(json, r, Some("\n"));
    assert Defaults(false).(terminator := Some("\n")) == Defaults(false);
  }

  /** Context and extra entries named like customised fields are dropped. */
  lemma CustomKeysNotOverwritten(json: Json, t: string)
    ensures Line(Settings(Some("date"), Some("level"), Some("channel"), Some("message"), Some("\n"), false),
                 json, MessageRecord(t, Str("Message"),
                   [("date", Str("This should not be output")), ("level", Str("And neither should this"))],
                   [("channel", Str("Or this...")), ("message", Str("...or this"))]))
         == "date=" + t + " level=INFO channel=app message=" + "Message" + "\n"
  {
    MessageBare(json);
    var a, b := ("date", Str("This should not be output")), ("level", Str("And neither should this"));
    var c, d := ("channel", Str("Or this...")), ("message", Str("...or this"));
    var r := MessageRecord(t, Str("Message"), [a, b], [c, d]);
    assert r.context + r.extra == [a, b, c, d];
    TakenDropped(["date", "level", "channel", "message"], [a, b, c, d]);
    CustomLine(Settings(Some("date"), Some("level"), Some("channel"), Some("message"), Some("\n"), false), json, r);
  }

  /** A batch of two default records is their two lines, one after the other. */
  lemma TwoLineBatch(json: Json, t: string, m1: Value, m2: Value)
    ensures Batch(Defaults(false), json, [MessageRecord(t, m1, [], []), MessageRecord(t, m2, [], [])])
         == ("ts=" + t + " lvl=INFO chan=app msg=" + StringifyVal(json, m1) + "\n")
          + ("ts=" + t + " lvl=INFO chan=app msg=" + StringifyVal(json, m2) + "\n")
  {
    var r1 := MessageRecord(t, m1, [], []);
    var r2 := MessageRecord(t, m2, [], []);
    assert [r1, r2] == [r1] + [r2];
    BatchIsConcatenation(Defaults(false), json, [r1], [r2], r1);
    BatchIsConcatenation(Defaults(false), json, [r1], [r2], r2);
    DefaultMessageLine(json, t, m1);
    DefaultMessageLine(json, t, m2);
  }

  lemma FirstBatchMessage(json: Json)
    ensures StringifyVal(json, Str("Message 1")) == json(Str("Message 1"))
  {
    Quoted(json, "Message 1", 7);
  }

  lemma SecondBatchMessage(json: Json)
    ensures StringifyVal(json, Str("Message 2")) == json(Str("Message 2"))
  {
    Quoted(json, "Message 2", 7);
  }

  /** A batch is the records' lines one after the other; messages with a space are JSON-encoded. */
  lemma BatchOfTwo(json: Json, t: string)
    ensures Batch(Defaults(false), json, [MessageRecord(t, Str("Message 1"), [], []), MessageRecord(t, Str("Message 2"), [], [])])
         == ("ts=" + t + " lvl=INFO chan=app msg=" + json(Str("Message 1")) + "\n")
          + ("ts=" + t + " lvl=INFO chan=app msg=" + json(Str("Message 2")) + "\n")
  {
    FirstBatchMessage(json);
    SecondBatchMessage(json);
    TwoLineBatch(json, t, Str("Message 1"), Str("Message 2"));
  }

  /** The default formatter, built through its constructor, writes the default line. */
  method FormatPlainMessage(json: Json, t: string) returns (line: string)
    ensures line == "ts=" + t + " lvl=INFO chan=app msg=" + "Hi" + "\n"
  {
    var formatter := new LogfmtFormatter(json);
    DefaultConstructorKeys();
    assert formatter.Config() == Defaults(false);
    line := formatter.Format(MessageRecord(t, Str("Hi"), [], []));
    PlainMessages(json, t);
  }
}
