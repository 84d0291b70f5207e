/**
 * The settings store: the JSON config file as a map from keys to strings,
 * the settings the page is shown (each from the config, then the
 * environment, then a default), and the merge a save performs.
 *
 * A missing key and an empty string are both JavaScript-falsy; `Get`
 * reads either as "".
 */
module Settings {
  import opened Js

  type Config = map<string, string>

  /** `config.KEY` read as a string, "" when absent. */
  function Get(m: Config, key: string): (r: string)
    ensures key in m ==> r == m[key]
    ensures key !in m ==> r == ""
  {
    if key in m then m[key] else ""
  }

  /** `config.KEY || process.env.KEY || default`. */
  function Setting(config: Config, env: Config, key: string, default: string): string
  {
    Or(Get(config, key), Or(Get(env, key), default))
  }

  /** `maskSecret(value, showLength)`: "" for no value, "****" for a value
      no longer than `showLength`, else its first `showLength` characters
      and "****". */
  function MaskSecret(value: string, showLength: nat): (r: string)
    ensures r == "" <==> value == ""
    ensures r != "" ==> |r| >= 4 && r[|r| - 4..] == "****"
    ensures r != "" ==> |r| - 4 <= showLength && |r| - 4 <= |value| && r[..|r| - 4] == value[..|r| - 4]
    ensures value != "" && |value| <= showLength ==> r == "****"
    ensures |value| > showLength ==> |r| - 4 == showLength
  {
    if value == "" then ""
    else if |value| <= showLength then "****"
    else value[..showLength] + "****"
  }

  /** The answer of the settings GET: the plain settings with their
      defaults, and for the secrets only whether they are set and a mask. */
  datatype SettingsView = SettingsView(
    syncInterval: string,
    syncProviders: string,
    maxHr: string,
    restingHr: string,
    hasGarminToken: bool,
    garminTokenPreview: string,
    hasCorosCredentials: bool,
    corosAccount: string,
    firstSyncDone: bool)

  function View(config: Config, env: Config): SettingsView
  {
    var token := Or(Get(config, "GARMIN_SECRET_STRING"), Get(env, "GARMIN_SECRET_STRING"));
    SettingsView(
      Setting(config, env, "SYNC_INTERVAL", "86400"),
      Setting(config, env, "SYNC_PROVIDERS", ""),
      Setting(config, env, "MAX_HR", "190"),
      Setting(config, env, "RESTING_HR", "55"),
      token != "",
      MaskSecret(token, 4),
      (Get(config, "COROS_ACCOUNT") != "" && Get(config, "COROS_PASSWORD") != "") ||
      (Get(env, "COROS_ACCOUNT") != "" && Get(env, "COROS_PASSWORD") != ""),
      Setting(config, env, "COROS_ACCOUNT", ""),
      Get(config, "FIRST_SYNC_DONE") == "true")
  }

  /** A setting comes from the config when it is non-empty there, else
      from the environment when non-empty there, else from the default. */
  lemma SettingSources(config: Config, env: Config, key: string, default: string)
    ensures var r := Setting(config, env, key, default);
      (r == Get(config, key) && r != "") ||
      (Get(config, key) == "" && r == Get(env, key) && r != "") ||
      (Get(config, key) == "" && Get(env, key) == "" && r == default)
  {
  }

  /** The token is reported as set exactly when a preview is shown, and the
      preview shows at most four characters of it. */
  lemma GarminPreviewIffToken(config: Config, env: Config)
    ensures var v := View(config, env);
      v.hasGarminToken <==> v.garminTokenPreview != ""
    ensures var v := View(config, env);
      v.garminTokenPreview != "" ==> |v.garminTokenPreview| <= 8
  {
  }

  /** An account only in the config and a password only in the environment
      do not count as COROS credentials. */
  lemma CorosMixedSourcesRejected(account: string, password: string)
    requires account != "" && password != ""
    ensures !View(map["COROS_ACCOUNT" := account], map["COROS_PASSWORD" := password]).hasCorosCredentials
  {
  }

  // ---------------------------------------------------------------------
  // POST: the merge into the config

  /** Keys a save writes whenever the body has them. */
  const PlainKeys: set<string> := {"SYNC_INTERVAL", "SYNC_PROVIDERS", "MAX_HR", "RESTING_HR", "COROS_ACCOUNT"}
  /** Keys a save writes only when the body has them non-empty. */
  const SecretKeys: set<string> := {"GARMIN_SECRET_STRING", "COROS_PASSWORD"}

  predicate Updates(body: Config, key: string)
  {
    key in body && (key in PlainKeys || (key in SecretKeys && body[key] != ""))
  }

  /** `config.KEY = String(body.KEY)` when the body gives the key (non-empty, for a secret). */
  function Write(config: Config, body: Config, key: string): (r: Config)
    ensures Updates(body, key) ==> r == config[key := body[key]]
    ensures !Updates(body, key) ==> r == config
  {
    if Updates(body, key) then config[key := body[key]] else config
  }

  /** The config after a save with the (already stringified) fields of
      `body`, written in the handler's order. */
  function Merged(config: Config, body: Config): Config
  {
    var c1 := Write(config, body, "SYNC_INTERVAL");
    var c2 := Write(c1, body, "SYNC_PROVIDERS");
    var c3 := Write(c2, body, "MAX_HR");
    var c4 := Write(c3, body, "RESTING_HR");
    var c5 := Write(c4, body, "GARMIN_SECRET_STRING");
    var c6 := Write(c5, body, "COROS_ACCOUNT");
    Write(c6, body, "COROS_PASSWORD")
  }

  /** The POST handler's updates, field by field. */
  method Post(config: Config, body: Config) returns (updated: Config)
    ensures updated == Merged(config, body)
  {
    updated := config;
    if "SYNC_INTERVAL" in body {
      updated := updated["SYNC_INTERVAL" := body["SYNC_INTERVAL"]];
    }
    assert updated == Write(config, body, "SYNC_INTERVAL");
    ghost var c := updated;
    if "SYNC_PROVIDERS" in body {
      updated := updated["SYNC_PROVIDERS" := body["SYNC_PROVIDERS"]];
    }
    assert updated == Write(c, body, "SYNC_PROVIDERS");
    c := updated;
    if "MAX_HR" in body {
      updated := updated["MAX_HR" := body["MAX_HR"]];
    }
    assert updated == Write(c, body, "MAX_HR");
    c := updated;
    if "RESTING_HR" in body {
      updated := updated["RESTING_HR" := body["RESTING_HR"]];
    }
    assert updated == Write(c, body, "RESTING_HR");
    c := updated;
    if "GARMIN_SECRET_STRING" in body && body["GARMIN_SECRET_STRING"] != "" {
      updated := updated["GARMIN_SECRET_STRING" := body["GARMIN_SECRET_STRING"]];
    }
    assert updated == Write(c, body, "GARMIN_SECRET_STRING");
    c := updated;
    if "COROS_ACCOUNT" in body {
      updated := updated["COROS_ACCOUNT" := body["COROS_ACCOUNT"]];
    }
    assert updated == Write(c, body, "COROS_ACCOUNT");
    c := updated;
    if "COROS_PASSWORD" in body && body["COROS_PASSWORD"] != "" {
      updated := updated["COROS_PASSWORD" := body["COROS_PASSWORD"]];
    }
    assert updated == Write(c, body, "COROS_PASSWORD");
  }

  /** `a` and `b` hold the same entry (or none) for `key`. */
  predicate Agree(a: Config, b: Config, key: string)
  {
    (key in a <==> key in b) && (key in a ==> a[key] == b[key])
  }

  /** A save writes a plain key whenever the body has it, a secret only
      when it is non-empty, and leaves every other key (such as
      FIRST_SYNC_DONE) as it was. */
  lemma MergedKeys(config: Config, body: Config, key: string)
    ensures Updates(body, key) ==> key in Merged(config, body) && Merged(config, body)[key] == body[key]
    ensures !Updates(body, key) ==> Agree(Merged(config, body), config, key)
  {
    var d0: set<string> := {};
    WriteStep(config, config, body, key, d0, "SYNC_INTERVAL");
    var c1, d1 := Write(config, body, "SYNC_INTERVAL"), d0 + {"SYNC_INTERVAL"};
    WriteStep(c1, config, body, key, d1, "SYNC_PROVIDERS");
    var c2, d2 := Write(c1, body, "SYNC_PROVIDERS"), d1 + {"SYNC_PROVIDERS"};
    WriteStep(c2, config, body, key, d2, "MAX_HR");
    var c3, d3 := Write(c2, body, "MAX_HR"), d2 + {"MAX_HR"};
    WriteStep(c3, config, body, key, d3, "RESTING_HR");
    var c4, d4 := Write(c3, body, "RESTING_HR"), d3 + {"RESTING_HR"};
    WriteStep(c4, config, body, key, d4, "GARMIN_SECRET_STRING");
    var c5, d5 := Write(c4, body, "GARMIN_SECRET_STRING"), d4 + {"GARMIN_SECRET_STRING"};
    WriteStep(c5, config, body, key, d5, "COROS_ACCOUNT");
    var c6, d6 := Write(c5, body, "COROS_ACCOUNT"), d5 + {"COROS_ACCOUNT"};
    WriteStep(c6, config, body, key, d6, "COROS_PASSWORD");
    var c7, d7 := Write(c6, body, "COROS_PASSWORD"), d6 + {"COROS_PASSWORD"};
    assert c7 == Merged(config, body);
    assert Updates(body, key) ==> key in d7;
  }

  /** After writing the keys in `done` into `config`, `key` holds the
      body's value if one of them updated it, and its old entry otherwise. */
  predicate WrittenSoFar(current: Config, config: Config, body: Config, key: string, done: set<string>)
  {
    if key in done && Updates(body, key) then key in current && current[key] == body[key]
    else Agree(current, config, key)
  }

  /** One more write keeps `WrittenSoFar`, with the written key now done. */
  lemma WriteStep(current: Config, config: Config, body: Config, key: string, done: set<string>, w: string)
    requires WrittenSoFar(current, config, body, key, done)
    ensures WrittenSoFar(Write(current, body, w), config, body, key, done + {w})
  {
  }

  /** Saving the same fields twice is saving them once. */
  lemma MergedIdempotent(config: Config, body: Config)
    ensures Merged(Merged(config, body), body) == Merged(config, body)
  {
    var once := Merged(config, body);
    var twice := Merged(once, body);
    assert forall k :: k in twice <==> k in once;
  }

  /** A save never changes whether the first sync is recorded as done. */
  lemma SaveKeepsFirstSync(config: Config, body: Config, env: Config)
    ensures View(Merged(config, body), env).firstSyncDone == View(config, env).firstSyncDone
  {
    var key := "FIRST_SYNC_DONE";
    assert key !in PlainKeys && key !in SecretKeys;
    MergedKeys(config, body, key);
    var m := Merged(config, body);
    assert Get(m, key) == Get(config, key);
  }

  /** A non-empty maximum heart rate that was saved is the one shown; an
      empty one falls through to the environment and the default. */
  lemma SavedMaxHrShown(config: Config, body: Config, env: Config)
    requires "MAX_HR" in body
    ensures body["MAX_HR"] != "" ==> View(Merged(config, body), env).maxHr == body["MAX_HR"]
    ensures body["MAX_HR"] == "" ==> View(Merged(config, body), env).maxHr == Or(Get(env, "MAX_HR"), "190")
  {
    MergedKeys(config, body, "MAX_HR");
  }

  /** An empty password in a save does not erase the stored one. */
  lemma EmptySecretKept(config: Config, body: Config)
    requires "COROS_PASSWORD" in body && body["COROS_PASSWORD"] == ""
    ensures Get(Merged(config, body), "COROS_PASSWORD") == Get(config, "COROS_PASSWORD")
  {
    MergedKeys(config, body, "COROS_PASSWORD");
  }
}
