# Logstash chain link for logtify, modelled in Dafny

This project models the Logstash adapter of the `logtify` logger. The adapter is one
link in a chain of responsibility. Each link may log a message and then always hands it
to the next link. The adapter:

- is **ready** only when its settings hold both `LOGSTASH_HOST` and `LOGSTASH_PORT`;
  only then is a transport (a winston logger with a Logstash transport) created;
- is **enabled** by the `LOGSTASH_LOGGING` switch: an environment value of exactly
  `"true"` or `"false"` decides; otherwise the settings value is returned as it is, and
  `true` stands in for a null or missing one;
- **logs** a message only when it is ready, enabled and given a message, and when the
  message level ranks at or above the minimum level. An unknown level is replaced by
  the level stored under `default` (`info`). It logs `prefix + text` and the payload's
  meta unchanged;
- **always** calls `next(message)` once with the original message.

The model also covers three other pieces:

- the inherited severity table (`silly` 0 … `error` 5, with `default` mapped to the name
  `info`);
- the five-step resolution of the minimum level (`getMinLogLevel`);
- the message package whose payload `handle` reads. Its level and text have defaults,
  it carries base metadata, extra metas are merged left to right, and an `Error` gets
  special handling.

Modules, one per source file, plus one for JavaScript value semantics:

- `JsValues` (`js_values.dfy`) models JavaScript primitives (`Value`), truthiness, `||`,
  property lookup, `process.env` as an explicit `Env` map, and `${v}` display.
- `LogLevels` (`log_levels.dfy`) models `test/mocks/utility.js`: the table, `has`/`get`
  and JavaScript `>=` on what `get` returns, plus `getMinLogLevel`. `FirstTruthy` is an
  independent reference definition of the precedence chain.
- `Messages` (`message.dfy`) models `test/mocks/message.js`. The `Message` class has a
  constructor that builds the payload step by step. `MakePayload` is its specification.
- `Logstash` (`logstash.dfy`) models `src/index.js`. `LogstashLink` is a class:
  - its settings and transport are `const`, so readiness never changes after
    construction;
  - `Handle` appends to the transport's recorded `writes` and to the recorded `passed`
    calls of `next`;
  - `Outcome` is the specification of what `Handle` logs.

  The module factory is `Export`, and `ExportedConfig` and `InstanceConfig` give its two
  configurations.

Behaviour that follows from the code and is stated as lemmas:

- A link built with `{}` settings is not ready (`EmptySettingsNotReady`), and a link with
  null settings and no environment switch is enabled (`SettingsDecideWithoutSwitch`).
  Some assertions in the repository's tests expect the opposite
  (test/logstash-spec.js:44-47, 64-67, 74-75, 79-80); the model follows src/index.js:32
  and src/index.js:64.
- The factory's returned `config` always holds `LOGSTASH_HOST` and `LOGSTASH_PORT`
  keys, `undefined` when the environment lacks them (`ExportedConfigHasHostAndPort`).
  The tests at test/logstash-spec.js:33 and 40 expect `{}` and `{ SOME_THING: '123' }`;
  the model follows src/index.js:97-100.
- `isEnabled` returns the raw settings value. The string `"false"` in the settings is
  therefore truthy and enables the link.
- `logLevels.get('default')` is the string `info`, not a rank. A message whose level is
  literally `default` is logged only when the minimum level is also `default`, because
  the strings `'info' >= 'info'` compare as true. Any comparison of that string with a
  number is false.
- A minimum level the table does not know blocks every message (`UnrankedMinimumBlocks`).
- An unknown message level is replaced by `info` both for the comparison and for the
  level that is logged (src/index.js:81, 85).

## Model

| member | source | states |
|---|---|---|
| `LogLevels.RanksFollowOrder` | test/mocks/utility.js:2-10 | the table ranks silly..error as 0..5 in that order, strictly increasing, and holds exactly those names plus `default` |
| `LogLevels.DefaultLevel` | test/mocks/utility.js:9 | `get('default')` yields a level name (`info`) that is itself a ranked severity |
| `LogLevels.Has` | src/index.js:81 | `has` holds exactly for the strings `silly`..`error` and `default`; no number or boolean is ever found |
| `LogLevels.Lookup` | test/mocks/utility.js:2-11 | `get` finds an entry exactly when `has` holds. A non-string is never found, so a numeric `MIN_LOG_LEVEL` such as `3` finds nothing. The i-th severity yields rank i, and `default` yields the name `info` |
| `LogLevels.JsGe` | src/index.js:83 | `>=` is false when either side is `undefined` or when a rank meets a name. On two ranks it is numeric `>=`, and any entry found in the table is `>=` itself |
| `LogLevels.GeOnNamesIsOrder` | src/index.js:83 | `>=` on the looked-up ranks of two severities holds iff the first is at or after the second in the order |
| `LogLevels.DefaultEntryIsNotARank` | test/mocks/utility.js:9 | the `default` entry is a name: comparing it with a rank is false on both sides, and comparing it with itself is true |
| `LogLevels.ScopedKey` | test/mocks/utility.js:14-16 | the scoped key is `MIN_LOG_LEVEL_<chain>`, and `MIN_LOG_LEVEL_` when no chain is given |
| `LogLevels.MinLogLevel` | test/mocks/utility.js:14-19 | the minimum level is always truthy and is either `info` or one of the four configured sources |
| `LogLevels.MinLogLevelIsFirstTruthy` | test/mocks/utility.js:16-18 | the `\|\|` chain equals the first truthy source in the order scoped env, scoped settings, global env, global settings, else `info` |
| `LogLevels.MinLogLevelPrecedence` | test/mocks/utility.js:16-17 | the first truthy source wins over every later one |
| `LogLevels.MinLogLevelDefaultsToInfo` | test/mocks/utility.js:18 | when every source is absent or falsy the result is `info` |
| `LogLevels.EmptyEnvEntryIsSkipped` | test/mocks/utility.js:16-17 | an environment variable set to `""` gives the same result as an unset one |
| `LogLevels.EmptySettingIsSkipped` | test/mocks/utility.js:16-17 | a settings entry `""` gives the same result as a missing one |
| `LogLevels.NullConfigIsEmptySettings` | test/mocks/utility.js:15 | a null/undefined config behaves as `{}` and contributes no settings source |
| `Messages.BaseMeta` | test/mocks/message.js:8-11 | base meta holds exactly `instanceId` = env `HOSTNAME` (or undefined) and `notify` = true |
| `Messages.MergeMetas` | test/mocks/message.js:22 | the last meta's keys all appear with its values, and none of the first meta's keys is lost |
| `Messages.MergeMetasKeys` | test/mocks/message.js:22 | the merged meta holds exactly the keys that some extra meta holds |
| `Messages.MergeMetasLastWins` | test/mocks/message.js:22 | each merged key has the value of the last meta holding it |
| `Messages.MakePayload` | test/mocks/message.js:3-19 | a falsy level becomes `info` and a falsy text `''`. For an `Error`, the text is its message or `'Error: '` when that is empty, and `error` is set |
| `Messages.PayloadMeta` | test/mocks/message.js:8-24 | the meta is the base meta plus `stack` for an `Error`, overridden key by key by the extra metas. Later metas win, even over `instanceId`, `notify` and `stack`. With no extra metas, the meta holds exactly those keys |
| `Messages.Message.constructor` | test/mocks/message.js:3-27 | the step-by-step construction yields the payload `MakePayload` specifies |
| `Messages.Message.GetPrefix` | test/mocks/message.js:29 | the package renders an empty prefix |
| `Logstash.EffectiveLevel` | src/index.js:81 | a known level is kept; an unknown one becomes `info`, the level stored under `default` |
| `Logstash.LogstashLink.constructor` | src/index.js:29-42 | the settings are `configs` or `{}`, and a transport is created with their host and port iff both are truthy. `isReady` therefore holds iff both are set |
| `Logstash.LogstashLink.IsReady` | src/index.js:50-52 | for a constructed link, `isReady` holds iff the settings' host and port are both truthy |
| `Logstash.LogstashLink.IsEnabled` | src/index.js:61-65 | the result is never null/undefined, and it is a boolean or the settings value verbatim |
| `Logstash.EnvSwitchWins` | src/index.js:62-63 | an env switch `"true"`/`"false"` decides enablement whatever the settings hold |
| `Logstash.OtherEnvValueFallsBack` | src/index.js:62-63 | any other env value acts as an unset variable |
| `Logstash.SettingsDecideWithoutSwitch` | src/index.js:63-64 | without a switch, a null/missing setting gives `true`, and any other setting is returned verbatim |
| `Logstash.LogstashLink.Outcome` | src/index.js:78-87 | a write happens only when the link is ready, enabled and given a message. It carries the effective level, the payload text behind the empty prefix, and the payload meta unchanged |
| `Logstash.LogstashLink.Handle` | src/index.js:78-89 | the transport receives at most one write per call, exactly the one `Outcome` gives, and `next` is called once with the original message on every path |
| `Logstash.ForwardsByRank` | src/index.js:83 | with known levels, a message is logged iff its position is at or above the minimum's; equality logs |
| `Logstash.ScopedMinimumBeatsGlobal` | test/logstash-spec.js:142-151 | scoped env `warn` beats global env `error`, so a `warn` message is logged |
| `Logstash.NothingLoggedWhenOff` | src/index.js:79 | an unready or disabled link, or a null message, logs nothing |
| `Logstash.UnknownLevelActsAsDefault` | src/index.js:81-85 | a message with an unknown level is handled exactly as the same message at `info`, and is logged at `info` |
| `Logstash.UnrankedMinimumBlocks` | src/index.js:81-83 | an unknown minimum level blocks every message; a minimum of `default` lets through only messages whose level is `default` |
| `Logstash.DefaultLevelMessageBlockedByRankedMinimum` | src/index.js:81-83 | a message whose level is literally `default` is never logged when the minimum level is one of the six ranked severities |
| `Logstash.LoggedTextIsPayloadText` | src/index.js:84-85 | the logged text is prefix + payload text, which is the payload text itself for a string text |
| `Logstash.ExportedConfig` | src/index.js:97-100 | the returned config holds host and port from the env, overridden by every key of the caller's config, and nothing from the chain settings |
| `Logstash.InstanceConfig` | src/index.js:107 | the link's settings take every chain-wide setting over the factory's config |
| `Logstash.ExportedConfigHasHostAndPort` | src/index.js:97-100 | the returned config always has the host and port keys, `undefined` when the env lacks them, so it is never `{}` |
| `Logstash.EmptySettingsNotReady` | src/index.js:32 | a constructed link whose settings are `{}` is not ready |
| `Logstash.FactoryReadiness` | src/index.js:97-108 | the pushed link is ready iff host and port are both truthy. Each is taken from the chain settings, else from the caller's config, else from the env |
| `Logstash.Export` | src/index.js:96-111 | the factory returns the exported config and creates a fresh, valid link built from the instance config. The link has a fresh transport with an empty write log when configured, and no `next` calls yet |

## Left out

- The winston logger and the winston-logstash transport are not modelled. The transport
  is a recorded list of `log` calls. `parseInt` of the port is not modelled: the raw
  port value is kept.
- The logtify chain and its buffer are not modelled: `chainBuffer.addChainLink`,
  `chain.push` and the base link's `next`/`link`. `next` is a recorded list of the
  messages passed on, and `Export` returns the link that would be pushed.
- `console.warn` for a missing host or port is an output side effect only.
- `Object.freeze` is not modelled separately. Payloads are immutable Dafny values held
  in a `const` field.
- JavaScript numbers are modelled as integers (no NaN, no fractions). Objects,
  functions and symbols as settings values are left out.
- `LogLevels.JsGe`: the conversion of the alias text to a number is fixed to NaN. This
  holds because the only alias, `info`, is not a numeric string.
- Meta values, like settings values, are primitives only. Object- or array-valued
  meta entries (nested metadata) cannot be expressed.
- `JsValues.Display`: a number is printed with all its digits. JavaScript prints large
  numbers in exponent form (`${1e21}` is `1e+21`) and rounds integers beyond 2^53;
  neither is modelled.
- `Messages.Text`: the text argument is a primitive or an `Error`. A plain object as
  text, which `message || ''` keeps and `${content.text}` logs as `[object Object]`, is
  not modelled.
- Extra metas are modelled as plain objects. Null or primitive metas, which
  `Object.assign` skips or spreads, are left out. Metadata key order is not modelled.
- `Messages.Message.GetPrefix` returns the package's empty prefix. Prefixes built from
  timestamps, environment, request ids or caller context are not modelled.
- The following are not modelled: shutdown signal hooks, lazy connection, JSON
  serialisation of metadata, and the publish/subscribe variant.
