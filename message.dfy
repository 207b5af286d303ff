/** The message package a chain link receives: a frozen `payload` with a level,
    a text and a metadata object, built from the constructor's arguments. */
module Messages {
  import opened JsValues

  type Meta = map<string, Value>

  /** An `Error` instance as far as the payload reads it. */
  datatype ErrorObject = ErrorObject(message: string, stack: Value)

  /** The second constructor argument: a primitive or an `Error`. */
  datatype Text = Plain(v: Value) | Thrown(e: ErrorObject)

  datatype Payload = Payload(level: Value, text: Value, meta: Meta, error: Option<ErrorObject>)

  const DefaultLevelName: string := "info"
  const InstanceIdKey: string := "instanceId"
  const NotifyKey: string := "notify"
  const StackKey: string := "stack"
  /** Text of an `Error` whose own message is empty. */
  const EmptyErrorText: string := "Error: "

  /** The metadata every message starts with. */
  function BaseMeta(env: Env): (m: Meta)
    ensures m.Keys == {InstanceIdKey, NotifyKey}
    ensures m[InstanceIdKey] == EnvGet(env, "HOSTNAME") && m[NotifyKey] == Bool(true)
  {
    map[InstanceIdKey := EnvGet(env, "HOSTNAME"), NotifyKey := Bool(true)]
  }

  /** Meta `i` is the last of `metas` that holds key `k`. */
  predicate LastHolder(metas: seq<Meta>, i: int, k: string)
  {
    0 <= i < |metas| && k in metas[i] && forall j :: i < j < |metas| ==> k !in metas[j]
  }

  /** Some meta of `metas` holds key `k`. */
  predicate Mentioned(metas: seq<Meta>, k: string)
  {
    exists i :: 0 <= i < |metas| && k in metas[i]
  }

  /** `metas.reduce((sum, next) => Object.assign({}, sum, next))`: a left fold of
      object unions seeded with the first meta. */
  function MergeMetas(metas: seq<Meta>): (r: Meta)
    requires |metas| > 0
    // the last meta wins entirely, and nothing of the first meta is lost
    ensures forall k :: k in metas[|metas| - 1] ==> k in r && r[k] == metas[|metas| - 1][k]
    ensures metas[0].Keys <= r.Keys
  {
    if |metas| == 1 then metas[0] else MergeMetas(metas[..|metas| - 1]) + metas[|metas| - 1]
  }

  /** The merged meta holds exactly the keys some meta holds. */
  lemma {:induction false} MergeMetasKeys(metas: seq<Meta>, k: string)
    requires |metas| > 0
    ensures k in MergeMetas(metas) <==> Mentioned(metas, k)
  {
    var n := |metas| - 1;
    if n == 0 {
      if k in metas[0] { assert Mentioned(metas, k); }
    } else {
      var front := metas[..n];
      MergeMetasKeys(front, k);
      if Mentioned(front, k) {
        var i :| 0 <= i < n && k in front[i];
        assert k in metas[i];
      }
      if Mentioned(metas, k) && k !in metas[n] {
        var i :| 0 <= i < |metas| && k in metas[i];
        assert i < n && k in front[i];
      }
      if k in metas[n] { assert Mentioned(metas, k); }
    }
  }

  /** Each key of the merged meta has the value of the last meta holding it:
      later metas win. */
  lemma {:induction false} MergeMetasLastWins(metas: seq<Meta>, i: nat, k: string)
    requires LastHolder(metas, i, k)
    ensures k in MergeMetas(metas) && MergeMetas(metas)[k] == metas[i][k]
  {
    var n := |metas| - 1;
    if i < n {
      var front := metas[..n];
      assert LastHolder(front, i, k) by {
        forall j | i < j < |front| ensures k !in front[j] {
          assert front[j] == metas[j];
        }
      }
      MergeMetasLastWins(front, i, k);
    }
  }

  /** The payload the `Message` constructor builds, step by step: defaults for
      level and text, the base meta, the `Error` overrides, then the merged
      extra metas on top. */
  function MakePayload(env: Env, logLevel: Value, message: Text, metas: seq<Meta>): (p: Payload)
    ensures p.level == (if Truthy(logLevel) then logLevel else Str(DefaultLevelName))
    ensures Truthy(p.level)
    ensures message.Plain? ==> p.text == (if Truthy(message.v) then message.v else Str("")) && p.error == None
    ensures message.Thrown? ==> p.error == Some(message.e)
    ensures message.Thrown? ==> p.text == Str(if message.e.message == "" then EmptyErrorText else message.e.message)
  {
    var level := if Truthy(logLevel) then logLevel else Str(DefaultLevelName);
    var base := Payload(level, TextOf(message), BaseMeta(env), None);
    var withError :=
      match message
      case Plain(_) => base
      case Thrown(e) =>
        base.(text := Str(if e.message == "" then EmptyErrorText else e.message),
              meta := base.meta[StackKey := e.stack],
              error := Some(e));
    if |metas| > 0 then withError.(meta := withError.meta + MergeMetas(metas)) else withError
  }

  /** What the payload's meta holds: the base meta (plus the stack of an
      `Error`) overridden key by key by the extra metas, the later one winning;
      with no extra metas, exactly the base keys (plus `stack`). */
  lemma PayloadMeta(env: Env, logLevel: Value, message: Text, metas: seq<Meta>)
    ensures var m := MakePayload(env, logLevel, message, metas).meta;
      && (|metas| == 0 && message.Plain? ==> m == BaseMeta(env))
      && (|metas| == 0 && message.Thrown? ==> m == BaseMeta(env)[StackKey := message.e.stack])
      && (forall i, k :: LastHolder(metas, i, k) ==> k in m && m[k] == metas[i][k])
      && (forall k :: k in m <==> k in BaseMeta(env) || (message.Thrown? && k == StackKey) || Mentioned(metas, k))
      && (!Mentioned(metas, InstanceIdKey) ==> m[InstanceIdKey] == EnvGet(env, "HOSTNAME"))
      && (!Mentioned(metas, NotifyKey) ==> m[NotifyKey] == Bool(true))
      && (message.Thrown? && !Mentioned(metas, StackKey) ==> m[StackKey] == message.e.stack)
  {
    if |metas| > 0 {
      forall k ensures k in MergeMetas(metas) <==> Mentioned(metas, k) {
        MergeMetasKeys(metas, k);
      }
      forall i, k | LastHolder(metas, i, k) ensures k in MergeMetas(metas) && MergeMetas(metas)[k] == metas[i][k] {
        MergeMetasLastWins(metas, i, k);
      }
    }
  }

  /** `message || ''` for the text argument. An `Error` is truthy; its text is
      replaced by the `Error` branch, so only the plain case matters here. */
  function TextOf(message: Text): Value
  {
    match message
    case Plain(v) => if Truthy(v) then v else Str("")
    case Thrown(_) => Str("")
  }

  /** A message package. Its payload is frozen once built. */
  class Message {
    const payload: Payload

    /** `new Message(logLevel, message, ...metas)`, with `process.env` passed in. */
    constructor (env: Env, logLevel: Value, message: Text, metas: seq<Meta>)
      ensures payload == MakePayload(env, logLevel, message, metas)
    {
      var p := Payload(if Truthy(logLevel) then logLevel else Str(DefaultLevelName),
                       TextOf(message), BaseMeta(env), None);
      if message.Thrown? {
        var e := message.e;
        p := p.(text := Str(if e.message == "" then EmptyErrorText else e.message));
        p := p.(meta := p.meta[StackKey := e.stack]);
        p := p.(error := Some(e));
      }
      if |metas| > 0 {
        var metaData := MergeMetas(metas);
        p := p.(meta := p.meta + metaData);
      }
      payload := p;
    }

    /** The rendering prefix this message supplies; the package renders none. */
    function GetPrefix(settings: Settings): (r: string)
      ensures |r| == 0
    {
      ""
    }
  }
}
