/**
  The logfmt formatter: renders a normalised log record as one line of
  `key=value` pairs, standard fields first, then context, then extra.
 */
module Logfmt {
  import opened Values
  import opened Text
  import opened Pairs

  /** The part of a normalised record (`$vars`) that `format` reads. */
  datatype Record = Record(
    datetime: string,
    levelName: string,
    channel: Value,
    message: Value,
    context: seq<(string, Value)>,
    extra: seq<(string, Value)>)

  /** The formatter's configuration after construction, as one value. */
  datatype Settings = Settings(
    timeKey: Option<string>,
    levelKey: Option<string>,
    channelKey: Option<string>,
    messageKey: Option<string>,
    terminator: Option<string>,
    flatten: bool)

  /** PHP's truthiness for strings: the empty string and "0" are false. */
  predicate IsFalsy(s: string)
  {
    s == "" || s == "0"
  }

  /** A constructor key argument as stored: `$key ? trim($key) : null`. */
  function ConfiguredKey(k: Option<string>): Option<string>
  {
    if k.None? || IsFalsy(k.value) then None else Some(Trim(k.value))
  }

  /** `isValidIdent` on a stored key; null is not a scalar, so it is never valid. */
  predicate KeyValid(k: Option<string>)
  {
    k.Some? && IsValidIdent(Str(k.value))
  }

  /** The text written for an object whose normalisation throws. */
  const ConversionErrorText := "\"[object conversion error]\""

  /** `$key.'='.$this->stringifyVal($value)` */
  function PairText(json: Json, key: string, v: Value): string
  {
    key + "=" + StringifyVal(json, v)
  }

  /**
    The assignments that `addValue($pairs, key, v)` makes to `$pairs`, in
    the order it makes them.
   */
  function Leaves(flatten: bool, json: Json, key: string, v: Value): seq<Pair>
    decreases v, 1, 0
  {
    if !flatten then [Pair(key, PairText(json, key, v))]
    else
      match v
      case Arr(_) => MemberLeaves(json, key, v, 0)
      case Obj(None) => [Pair(key, key + "=" + ConversionErrorText)]
      case Obj(Some(n)) =>
        if n.Arr? then MemberLeaves(json, key, n, 0) else [Pair(key, PairText(json, key, n))]
      case _ => [Pair(key, PairText(json, key, v))]
  }

  /** The assignments made for the members of `arr` from the `i`-th on, each under `prefix_member`. */
  function MemberLeaves(json: Json, prefix: string, arr: Value, i: nat): seq<Pair>
    requires arr.Arr? && i <= |arr.entries|
    decreases arr, 0, |arr.entries| - i
  {
    if i == |arr.entries| then []
    else
      var (k, v) := arr.entries[i];
      Leaves(true, json, prefix + "_" + k, v) + MemberLeaves(json, prefix, arr, i + 1)
  }

  /** One iteration of the context or extra loop of `format`. */
  function Step(flatten: bool, json: Json, ps: seq<Pair>, e: (string, Value)): seq<Pair>
  {
    if e.0 in Keys(ps) || !IsValidIdent(Str(e.0)) then ps
    else PutAll(ps, Leaves(flatten, json, e.0, e.1))
  }

  /** The whole context (or extra) loop of `format`. */
  function AddEntries(flatten: bool, json: Json, ps: seq<Pair>, es: seq<(string, Value)>): seq<Pair>
    decreases |es|
  {
    if es == [] then ps else AddEntries(flatten, json, Step(flatten, json, ps, es[0]), es[1..])
  }

  /** One standard field: written only when its key is valid. */
  function PutField(ps: seq<Pair>, key: Option<string>, text: string): seq<Pair>
  {
    if KeyValid(key) then Put(ps, key.value, key.value + "=" + text) else ps
  }

  /** The pairs of the standard fields: time and level verbatim, channel and message stringified. */
  function StandardPairs(s: Settings, json: Json, r: Record): seq<Pair>
  {
    var p1 := PutField([], s.timeKey, r.datetime);
    var p2 := PutField(p1, s.levelKey, r.levelName);
    var p3 := PutField(p2, s.channelKey, StringifyVal(json, r.channel));
    PutField(p3, s.messageKey, StringifyVal(json, r.message))
  }

  /** All pairs of a record, in line order. */
  function FinalPairs(s: Settings, json: Json, r: Record): seq<Pair>
  {
    var afterContext := AddEntries(s.flatten, json, StandardPairs(s, json, r), r.context);
    AddEntries(s.flatten, json, afterContext, r.extra)
  }

  /** Concatenating PHP's null appends nothing. */
  function TerminatorText(t: Option<string>): string
  {
    if t.Some? then t.value else ""
  }

  /** The line `format` returns for a record. */
  function Line(s: Settings, json: Json, r: Record): string
  {
    Join(Texts(FinalPairs(s, json, r))) + TerminatorText(s.terminator)
  }

  /** The texts `f` gives for `xs`, appended in order. */
  function ConcatMap<T>(f: T -> string, xs: seq<T>): string
    decreases |xs|
  {
    if xs == [] then "" else ConcatMap(f, xs[..|xs| - 1]) + f(xs[|xs| - 1])
  }

  lemma {:induction false} ConcatMapAppend<T>(f: T -> string, a: seq<T>, b: seq<T>)
    ensures ConcatMap(f, a + b) == ConcatMap(f, a) + ConcatMap(f, b)
    decreases |b|
  {
    if b == [] {
      assert a + b == a;
    } else {
      ConcatMapAppend(f, a, b[..|b| - 1]);
      assert (a + b)[..|a + b| - 1] == a + b[..|b| - 1];
      assert (a + b)[|a + b| - 1] == b[|b| - 1];
    }
  }

  /** The text `formatBatch` returns for a list of records: their lines appended in turn. */
  function Batch(s: Settings, json: Json, rs: seq<Record>): string
  {
    ConcatMap((r: Record) => Line(s, json, r), rs)
  }

  /** A batch of two parts is the batch of the first followed by the batch of the second. */
  lemma BatchAppend(s: Settings, json: Json, a: seq<Record>, b: seq<Record>)
    ensures Batch(s, json, a + b) == Batch(s, json, a) + Batch(s, json, b)
  {
    ConcatMapAppend((r: Record) => Line(s, json, r), a, b);
  }

  class LogfmtFormatter {
    const timeKey: Option<string>
    const lvlKey: Option<string>
    const chanKey: Option<string>
    const msgKey: Option<string>
    const formattedRecordTerminator: Option<string>
    const flattenStructures: bool

    const timeKeyValid: bool
    const lvlKeyValid: bool
    const chanKeyValid: bool
    const msgKeyValid: bool

    /** The normaliser's JSON encoder. */
    const toJson: Json

    /** Each cached validity flag is the validity of its stored key. */
    ghost predicate Valid()
    {
      && timeKeyValid == KeyValid(timeKey)
      && lvlKeyValid == KeyValid(lvlKey)
      && chanKeyValid == KeyValid(chanKey)
      && msgKeyValid == KeyValid(msgKey)
    }

    function Config(): Settings
    {
      Settings(timeKey, lvlKey, chanKey, msgKey, formattedRecordTerminator, flattenStructures)
    }

    /**
      The PHP constructor's arguments with their defaults; `toJson` is the
      normaliser's JSON encoder, which the formatter inherits rather than takes.
     */
    constructor (
      toJson: Json,
      dateTimeKey: Option<string> := Some("ts"),
      levelKey: Option<string> := Some("lvl"),
      channelKey: Option<string> := Some("chan"),
      messageKey: Option<string> := Some("msg"),
      formattedRecordTerminator: Option<string> := Some("\n"),
      flattenStructures: Option<bool> := Some(false))
      ensures Valid()
      ensures timeKey == ConfiguredKey(dateTimeKey) && lvlKey == ConfiguredKey(levelKey)
      ensures chanKey == ConfiguredKey(channelKey) && msgKey == ConfiguredKey(messageKey)
      ensures this.formattedRecordTerminator == formattedRecordTerminator
      ensures this.flattenStructures == (flattenStructures == Some(true))
      ensures this.toJson == toJson
    {
      timeKey := ConfiguredKey(dateTimeKey);
      lvlKey := ConfiguredKey(levelKey);
      chanKey := ConfiguredKey(channelKey);
      msgKey := ConfiguredKey(messageKey);
      timeKeyValid := KeyValid(ConfiguredKey(dateTimeKey));
      lvlKeyValid := KeyValid(ConfiguredKey(levelKey));
      chanKeyValid := KeyValid(ConfiguredKey(channelKey));
      msgKeyValid := KeyValid(ConfiguredKey(messageKey));
      this.formattedRecordTerminator := formattedRecordTerminator;
      this.flattenStructures := flattenStructures == Some(true);
      this.toJson := toJson;
    }

    /** Renders one record as a logfmt line. */
    method Format(r: Record) returns (line: string)
      requires Valid()
      ensures line == Line(Config(), toJson, r)
    {
      var pairs: seq<Pair> := [];
      if timeKeyValid {
        pairs := Put(pairs, timeKey.value, timeKey.value + "=" + r.datetime);
      }
      if lvlKeyValid {
        pairs := Put(pairs, lvlKey.value, lvlKey.value + "=" + r.levelName);
      }
      if chanKeyValid {
        pairs := Put(pairs, chanKey.value, chanKey.value + "=" + StringifyVal(toJson, r.channel));
      }
      if msgKeyValid {
        pairs := Put(pairs, msgKey.value, msgKey.value + "=" + StringifyVal(toJson, r.message));
      }
      ghost var standard := pairs;
      assert standard == StandardPairs(Config(), toJson, r);

      var i := 0;
      while i < |r.context|
        invariant 0 <= i <= |r.context|
        invariant AddEntries(flattenStructures, toJson, pairs, r.context[i..])
               == AddEntries(flattenStructures, toJson, standard, r.context)
      {
        var (ctxKey, ctxVal) := r.context[i];
        assert r.context[i..][1..] == r.context[i + 1..];
        ghost var next := Step(flattenStructures, toJson, pairs, r.context[i]);
        assert AddEntries(flattenStructures, toJson, pairs, r.context[i..])
            == AddEntries(flattenStructures, toJson, next, r.context[i + 1..]);
        if ctxKey !in Keys(pairs) && IsValidIdent(Str(ctxKey)) {
          pairs := AddValue(pairs, ctxKey, ctxVal);
        }
        i := i + 1;
      }
      ghost var afterContext := pairs;

      var j := 0;
      while j < |r.extra|
        invariant 0 <= j <= |r.extra|
        invariant AddEntries(flattenStructures, toJson, pairs, r.extra[j..])
               == AddEntries(flattenStructures, toJson, afterContext, r.extra)
      {
        var (extraKey, extraVal) := r.extra[j];
        assert r.extra[j..][1..] == r.extra[j + 1..];
        ghost var next := Step(flattenStructures, toJson, pairs, r.extra[j]);
        assert AddEntries(flattenStructures, toJson, pairs, r.extra[j..])
            == AddEntries(flattenStructures, toJson, next, r.extra[j + 1..]);
        if extraKey !in Keys(pairs) && IsValidIdent(Str(extraKey)) {
          pairs := AddValue(pairs, extraKey, extraVal);
        }
        j := j + 1;
      }

      line := Join(Texts(pairs)) + TerminatorText(formattedRecordTerminator);
    }

    /** Renders a list of records: their lines, concatenated in order. */
    method FormatBatch(records: seq<Record>) returns (message: string)
      requires Valid()
      ensures message == Batch(Config(), toJson, records)
    {
      message := "";
      var i := 0;
      while i < |records|
        invariant 0 <= i <= |records|
        invariant message == Batch(Config(), toJson, records[..i])
      {
        var line := Format(records[i]);
        assert records[..i + 1][..i] == records[..i];
        message := message + line;
        i := i + 1;
      }
      assert records[..i] == records;
    }

    /**
      Adds the pair(s) for one value to `pairs`: one pair, or with
      flattening one pair per leaf of a nested array or normalised object.
     */
    method AddValue(pairs: seq<Pair>, keyPrefix: string, value: Value) returns (result: seq<Pair>)
      ensures result == PutAll(pairs, Leaves(flattenStructures, toJson, keyPrefix, value))
      decreases value
    {
      if !flattenStructures {
        result := Put(pairs, keyPrefix, keyPrefix + "=" + StringifyVal(toJson, value));
        return;
      }

      if value.Arr? {
        result := AddMembers(pairs, keyPrefix, value);
        return;
      }

      if value.Obj? {
        if value.normalized.None? {
          result := Put(pairs, keyPrefix, keyPrefix + "=" + ConversionErrorText);
        } else if value.normalized.value.Arr? {
          result := AddMembers(pairs, keyPrefix, value.normalized.value);
        } else {
          var normalized := value.normalized.value;
          result := Put(pairs, keyPrefix, keyPrefix + "=" + StringifyVal(toJson, normalized));
        }
        return;
      }

      result := Put(pairs, keyPrefix, keyPrefix + "=" + StringifyVal(toJson, value));
    }

    /** The `foreach` over an array's members, each added under `keyPrefix_member`. */
    method AddMembers(pairs: seq<Pair>, keyPrefix: string, arr: Value) returns (result: seq<Pair>)
      requires arr.Arr? && flattenStructures
      ensures result == PutAll(pairs, MemberLeaves(toJson, keyPrefix, arr, 0))
      decreases arr, 0
    {
      result := pairs;
      var i := 0;
      while i < |arr.entries|
        invariant 0 <= i <= |arr.entries|
        invariant PutAll(result, MemberLeaves(toJson, keyPrefix, arr, i))
               == PutAll(pairs, MemberLeaves(toJson, keyPrefix, arr, 0))
      {
        var (k, v) := arr.entries[i];
        var before := result;
        result := AddValue(result, keyPrefix + "_" + k, v);
        PutAllAppend(before, Leaves(true, toJson, keyPrefix + "_" + k, v), MemberLeaves(toJson, keyPrefix, arr, i + 1));
        i := i + 1;
      }
    }
  }
}
