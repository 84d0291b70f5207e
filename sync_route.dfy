/**
 * The manual sync handler: on a first (or forced) sync it first removes
 * activities without a source; it then runs the Garmin and/or COROS sync
 * scripts the request asks for, each only when its credentials are
 * configured; it runs the statistics preprocessing when anything
 * succeeded; and it records the first sync as done when a provider
 * succeeded.
 *
 * The child processes are not modelled: how each script ended is a
 * parameter (`ScriptRun`), and the rows the scripts write are not part of
 * the model.
 */
module SyncRoute {
  import opened Js
  import opened Text
  import opened Settings
  import opened Store
  import CleanOldData
  import Grouping

  /** How a child process ended: with an exit code, killed by a signal
      (exit code `null`), or not started (the `error` event). */
  datatype ScriptExit = Exited(code: int) | Signalled | Failed(error: string)

  datatype ScriptRun = ScriptRun(exit: ScriptExit, stdout: string, stderr: string)

  datatype SyncResult = SyncResult(provider: string, success: bool, message: string)

  /** `runSyncScript`'s answer for a finished process. */
  function ScriptResult(run: ScriptRun): (r: SyncResult)
    ensures r.provider == ""
    ensures r.success <==> run.exit == Exited(0)
    ensures r.success ==> r.message == "同步完成"
    ensures run.exit.Failed? ==> r.message == run.exit.error
    ensures !r.success && !run.exit.Failed? && run.stderr != "" ==> r.message == run.stderr
    ensures !r.success && !run.exit.Failed? && run.stderr == "" && run.stdout != "" ==> r.message == run.stdout
  {
    match run.exit
    case Exited(code) =>
      if code == 0 then SyncResult("", true, "同步完成")
      else SyncResult("", false, Or(run.stderr, Or(run.stdout, "退出码: " + IntToString(code))))
    case Signalled => SyncResult("", false, Or(run.stderr, Or(run.stdout, "退出码: null")))
    case Failed(error) => SyncResult("", false, error)
  }

  /** The request body: `provider` is "" when absent, which the handler reads as "all". */
  datatype SyncRequest = SyncRequest(provider: string, force: bool)

  datatype SyncResponse = SyncResponse(success: bool, results: seq<SyncResult>)

  predicate AnySuccess(results: seq<SyncResult>)
  {
    exists i :: 0 <= i < |results| && results[i].success
  }

  predicate IsFirstSync(config: Config, force: bool)
  {
    Get(config, "FIRST_SYNC_DONE") != "true" || force
  }

  /** The `'系统'` entry: present exactly when the clean-up removed activities. */
  function CleanupEntries(removed: nat): (r: seq<SyncResult>)
    ensures |r| <= 1
    ensures r != [] <==> removed > 0
    ensures r != [] ==> r[0].provider == "系统" && r[0].success
  {
    if removed == 0 then [] else [SyncResult("系统", true, "已清理 " + NatToString(removed) + " 条无来源活动")]
  }

  /** The environment the scripts are started with: the heart-rate settings,
      each from the config, else the process environment, else a default. */
  function ScriptEnv(config: Config, env: Config): (r: Config)
    ensures r.Keys == {"MAX_HR", "RESTING_HR"}
    ensures r["MAX_HR"] == Setting(config, env, "MAX_HR", "190")
    ensures r["RESTING_HR"] == Setting(config, env, "RESTING_HR", "55")
  {
    map["MAX_HR" := Setting(config, env, "MAX_HR", "190"), "RESTING_HR" := Setting(config, env, "RESTING_HR", "55")]
  }

  /** The Garmin step: the script runs only with a token, from the config
      or else the environment. */
  function GarminResult(config: Config, env: Config, run: ScriptRun): (r: SyncResult)
    ensures r.provider == "Garmin"
    ensures r.success <==> Or(Get(config, "GARMIN_SECRET_STRING"), Get(env, "GARMIN_SECRET_STRING")) != "" &&
                           run.exit == Exited(0)
    ensures Or(Get(config, "GARMIN_SECRET_STRING"), Get(env, "GARMIN_SECRET_STRING")) == "" ==>
      r.message == "未配置 Garmin Token"
  {
    var token := Or(Get(config, "GARMIN_SECRET_STRING"), Get(env, "GARMIN_SECRET_STRING"));
    if token != "" then ScriptResult(run).(provider := "Garmin")
    else SyncResult("Garmin", false, "未配置 Garmin Token")
  }

  /** The COROS step: account and password are each taken from the config,
      or else the environment, and the script runs only with both. */
  function CorosResult(config: Config, env: Config, run: ScriptRun): (r: SyncResult)
    ensures r.provider == "COROS"
    ensures r.success <==> Or(Get(config, "COROS_ACCOUNT"), Get(env, "COROS_ACCOUNT")) != "" &&
                           Or(Get(config, "COROS_PASSWORD"), Get(env, "COROS_PASSWORD")) != "" &&
                           run.exit == Exited(0)
  {
    var account := Or(Get(config, "COROS_ACCOUNT"), Get(env, "COROS_ACCOUNT"));
    var password := Or(Get(config, "COROS_PASSWORD"), Get(env, "COROS_PASSWORD"));
    if account != "" && password != "" then ScriptResult(run).(provider := "COROS")
    else SyncResult("COROS", false, "未配置 COROS 账号密码")
  }

  /** Whether the (defaulted) provider selects Garmin, and COROS. */
  predicate RunsGarmin(provider: string)
  {
    provider == "garmin" || provider == "all"
  }

  predicate RunsCoros(provider: string)
  {
    provider == "coros" || provider == "all"
  }

  /** The providers' entries, Garmin first. */
  function ProviderResults(config: Config, env: Config, provider: string, garmin: ScriptRun, coros: ScriptRun)
    : (r: seq<SyncResult>)
    ensures |r| == (if RunsGarmin(provider) then 1 else 0) + (if RunsCoros(provider) then 1 else 0)
    ensures forall i :: 0 <= i < |r| ==> r[i].provider in {"Garmin", "COROS"}
    ensures RunsGarmin(provider) ==> r[0] == GarminResult(config, env, garmin)
    ensures RunsCoros(provider) ==> r[|r| - 1] == CorosResult(config, env, coros)
  {
    (if RunsGarmin(provider) then [GarminResult(config, env, garmin)] else []) +
    (if RunsCoros(provider) then [CorosResult(config, env, coros)] else [])
  }

  /** The handler's answer, given how many activities the clean-up removed. */
  function Response(config: Config, env: Config, request: SyncRequest, removed: nat,
                    garmin: ScriptRun, coros: ScriptRun): (r: SyncResponse)
    ensures r.results == CleanupEntries(removed) + ProviderResults(config, env, Or(request.provider, "all"), garmin, coros)
    ensures r.success <==> AnySuccess(r.results)
  {
    var results := CleanupEntries(removed) + ProviderResults(config, env, Or(request.provider, "all"), garmin, coros);
    SyncResponse(AnySuccess(results), results)
  }

  /** The config after the handler: FIRST_SYNC_DONE reads "true" afterwards
      exactly when it did before or this first sync had a provider succeed,
      and no other key changes. */
  function ConfigAfter(config: Config, env: Config, request: SyncRequest, garmin: ScriptRun, coros: ScriptRun)
    : (r: Config)
    ensures Get(r, "FIRST_SYNC_DONE") == "true" <==>
      Get(config, "FIRST_SYNC_DONE") == "true" ||
      (IsFirstSync(config, request.force) && AnySuccess(ProviderResults(config, env, Or(request.provider, "all"), garmin, coros)))
    ensures forall k :: k != "FIRST_SYNC_DONE" ==> Agree(r, config, k)
    ensures !AnySuccess(ProviderResults(config, env, Or(request.provider, "all"), garmin, coros)) ==> r == config
  {
    if IsFirstSync(config, request.force) && AnySuccess(ProviderResults(config, env, Or(request.provider, "all"), garmin, coros))
    then config["FIRST_SYNC_DONE" := "true"]
    else config
  }

  /** `cleanOldData` as the sync handler runs it: the same clean-up, with
      its own messages. */
  method CleanForSync(db: Database) returns (success: bool, message: string)
    modifies db
    ensures success
    ensures message == "无需清理" <==> CleanOldData.CountSourceless(old(db.activities)) == 0
    ensures CleanOldData.CountSourceless(old(db.activities)) != 0 ==>
      message == "已清理 " + NatToString(CleanOldData.CountSourceless(old(db.activities))) + " 条无来源活动"
    ensures CleanOldData.CountSourceless(old(db.activities)) == 0 ==>
      db.activities == old(db.activities) && db.laps == old(db.laps) && db.records == old(db.records) &&
      db.hrZoneCache == old(db.hrZoneCache) && db.vdotTrendCache == old(db.vdotTrendCache)
    ensures CleanOldData.CountSourceless(old(db.activities)) != 0 ==>
      var ids := CleanOldData.SourcelessIds(old(db.activities));
      db.activities == Grouping.Filter(old(db.activities), CleanOldData.HasSource) &&
      db.laps == CleanOldData.LapsOutside(old(db.laps), ids) &&
      db.records == CleanOldData.RecordsOutside(old(db.records), ids) &&
      db.hrZoneCache == map[] && db.vdotTrendCache == map[]
  {
    var count := CleanOldData.CountSourceless(db.activities);
    CleanOldData.ActivitiesRemovedCounted(db.activities);
    var response := CleanOldData.Clean(db);
    success := true;
    if count == 0 {
      message := "无需清理";
    } else {
      message := "已清理 " + NatToString(count) + " 条无来源活动";
      assert message[0] != "无需清理"[0];
    }
  }

  /** The POST handler. It returns its answer, the config it leaves behind,
      and the environment of the statistics preprocessing when that runs. */
  method Post(db: Database, config: Config, env: Config, request: SyncRequest, garmin: ScriptRun, coros: ScriptRun)
    returns (response: SyncResponse, newConfig: Config, preprocess: Option<Config>)
    modifies db
    ensures var removed := if IsFirstSync(config, request.force)
                           then CleanOldData.CountSourceless(old(db.activities)) else 0;
      response == Response(config, env, request, removed, garmin, coros)
    ensures newConfig == ConfigAfter(config, env, request, garmin, coros)
    ensures preprocess == if response.success then Some(ScriptEnv(config, env)) else None
    ensures !IsFirstSync(config, request.force) || CleanOldData.CountSourceless(old(db.activities)) == 0 ==>
      db.activities == old(db.activities) && db.laps == old(db.laps) && db.records == old(db.records) &&
      db.hrZoneCache == old(db.hrZoneCache) && db.vdotTrendCache == old(db.vdotTrendCache)
    ensures IsFirstSync(config, request.force) && CleanOldData.CountSourceless(old(db.activities)) != 0 ==>
      var ids := CleanOldData.SourcelessIds(old(db.activities));
      db.activities == Grouping.Filter(old(db.activities), CleanOldData.HasSource) &&
      db.laps == CleanOldData.LapsOutside(old(db.laps), ids) &&
      db.records == CleanOldData.RecordsOutside(old(db.records), ids) &&
      db.hrZoneCache == map[] && db.vdotTrendCache == map[]
  {
    var provider := Or(request.provider, "all");
    var isFirstSync := Get(config, "FIRST_SYNC_DONE") != "true" || request.force;
    var results := FirstSyncCleanup(db, isFirstSync);
    var scriptEnv := map["MAX_HR" := Setting(config, env, "MAX_HR", "190"),
                         "RESTING_HR" := Setting(config, env, "RESTING_HR", "55")];
    var providerResults, syncSuccess := RunProviders(config, env, provider, garmin, coros);
    results := results + providerResults;

    var anySuccess := AnySuccessOf(results);
    if anySuccess {
      preprocess := Some(scriptEnv);
    } else {
      preprocess := None;
    }

    if isFirstSync && syncSuccess {
      newConfig := config["FIRST_SYNC_DONE" := "true"];
    } else {
      newConfig := config;
    }
    response := SyncResponse(anySuccess, results);
  }

  /** The clean-up step of the handler: on a first sync, the sourceless
      activities are removed and a "系统" entry reports how many. */
  method FirstSyncCleanup(db: Database, isFirstSync: bool) returns (results: seq<SyncResult>)
    modifies db
    ensures results == CleanupEntries(if isFirstSync then CleanOldData.CountSourceless(old(db.activities)) else 0)
    ensures !isFirstSync || CleanOldData.CountSourceless(old(db.activities)) == 0 ==>
      db.activities == old(db.activities) && db.laps == old(db.laps) && db.records == old(db.records) &&
      db.hrZoneCache == old(db.hrZoneCache) && db.vdotTrendCache == old(db.vdotTrendCache)
    ensures isFirstSync && CleanOldData.CountSourceless(old(db.activities)) != 0 ==>
      var ids := CleanOldData.SourcelessIds(old(db.activities));
      db.activities == Grouping.Filter(old(db.activities), CleanOldData.HasSource) &&
      db.laps == CleanOldData.LapsOutside(old(db.laps), ids) &&
      db.records == CleanOldData.RecordsOutside(old(db.records), ids) &&
      db.hrZoneCache == map[] && db.vdotTrendCache == map[]
  {
    results := [];
    if isFirstSync {
      var cleanSuccess, cleanMessage := CleanForSync(db);
      if cleanSuccess && cleanMessage != "无需清理" {
        results := results + [SyncResult("系统", true, cleanMessage)];
      }
    }
  }

  /** The Garmin and COROS steps of the handler, and whether either
      script succeeded. */
  method RunProviders(config: Config, env: Config, provider: string, garmin: ScriptRun, coros: ScriptRun)
    returns (results: seq<SyncResult>, syncSuccess: bool)
    ensures results == ProviderResults(config, env, provider, garmin, coros)
    ensures syncSuccess <==> AnySuccess(results)
  {
    results := [];
    syncSuccess := false;
    if provider == "garmin" || provider == "all" {
      var result := GarminStep(config, env, garmin);
      results := results + [result];
      if result.success {
        syncSuccess := true;
      }
      assert results[0] == result;
    }
    ghost var garminPart := results;
    assert syncSuccess <==> AnySuccess(garminPart);

    if provider == "coros" || provider == "all" {
      var result := CorosStep(config, env, coros);
      results := results + [result];
      if result.success {
        syncSuccess := true;
      }
      AnySuccessConcat(garminPart, [result]);
      assert [result][0] == result;
    }
  }

  /** The Garmin step: the script's entry when a token is configured, and
      an unconfigured entry otherwise. */
  method GarminStep(config: Config, env: Config, garmin: ScriptRun) returns (result: SyncResult)
    ensures result == GarminResult(config, env, garmin)
  {
    var garminToken := Or(Get(config, "GARMIN_SECRET_STRING"), Get(env, "GARMIN_SECRET_STRING"));
    if garminToken != "" {
      result := ScriptResult(garmin);
      result := result.(provider := "Garmin");
    } else {
      result := SyncResult("Garmin", false, "未配置 Garmin Token");
    }
  }

  /** The COROS step: the script's entry when both the account and the
      password are configured, and an unconfigured entry otherwise. */
  method CorosStep(config: Config, env: Config, coros: ScriptRun) returns (result: SyncResult)
    ensures result == CorosResult(config, env, coros)
  {
    var corosAccount := Or(Get(config, "COROS_ACCOUNT"), Get(env, "COROS_ACCOUNT"));
    var corosPassword := Or(Get(config, "COROS_PASSWORD"), Get(env, "COROS_PASSWORD"));
    if corosAccount != "" && corosPassword != "" {
      result := ScriptResult(coros);
      result := result.(provider := "COROS");
    } else {
      result := SyncResult("COROS", false, "未配置 COROS 账号密码");
    }
  }

  /** Some entry of `a + b` succeeded exactly when one of `a` or of `b` did. */
  lemma AnySuccessConcat(a: seq<SyncResult>, b: seq<SyncResult>)
    ensures AnySuccess(a + b) <==> AnySuccess(a) || AnySuccess(b)
  {
    var all := a + b;
    if AnySuccess(all) {
      var i :| 0 <= i < |all| && all[i].success;
      if i < |a| {
        assert a[i] == all[i];
      } else {
        assert b[i - |a|] == all[i];
      }
    }
    if AnySuccess(a) {
      var i :| 0 <= i < |a| && a[i].success;
      assert all[i] == a[i];
    }
    if AnySuccess(b) {
      var i :| 0 <= i < |b| && b[i].success;
      assert all[|a| + i] == b[i];
    }
  }

  /** The answer reports success exactly when the clean-up removed
      activities or a selected provider's script succeeded. */
  lemma ResponseSuccess(config: Config, env: Config, request: SyncRequest, removed: nat,
                        garmin: ScriptRun, coros: ScriptRun)
    ensures var p := Or(request.provider, "all");
      Response(config, env, request, removed, garmin, coros).success <==>
        removed > 0 ||
        (RunsGarmin(p) && GarminResult(config, env, garmin).success) ||
        (RunsCoros(p) && CorosResult(config, env, coros).success)
  {
    var p := Or(request.provider, "all");
    var g := if RunsGarmin(p) then [GarminResult(config, env, garmin)] else [];
    var c := if RunsCoros(p) then [CorosResult(config, env, coros)] else [];
    assert ProviderResults(config, env, p, garmin, coros) == g + c;
    AnySuccessConcat(CleanupEntries(removed), g + c);
    AnySuccessConcat(g, c);
    if removed > 0 {
      assert CleanupEntries(removed)[0].success;
    }
    if g != [] {
      assert g[0] == GarminResult(config, env, garmin);
    }
    if c != [] {
      assert c[0] == CorosResult(config, env, coros);
    }
  }

  /** A clean-up that removed activities makes the answer a success even
      when every sync script failed, and the statistics preprocessing then
      runs; the first sync is still not recorded as done. */
  lemma CleanupAloneReportsSuccess(config: Config, env: Config, request: SyncRequest, removed: nat,
                                   garmin: ScriptRun, coros: ScriptRun)
    requires removed > 0
    requires garmin.exit != Exited(0) && coros.exit != Exited(0)
    ensures Response(config, env, request, removed, garmin, coros).success
    ensures ConfigAfter(config, env, request, garmin, coros) == config
  {
    ResponseSuccess(config, env, request, removed, garmin, coros);
    var p := Or(request.provider, "all");
    var g := if RunsGarmin(p) then [GarminResult(config, env, garmin)] else [];
    var c := if RunsCoros(p) then [CorosResult(config, env, coros)] else [];
    assert ProviderResults(config, env, p, garmin, coros) == g + c;
    AnySuccessConcat(g, c);
    if g != [] {
      assert !g[0].success;
    }
    if c != [] {
      assert !c[0].success;
    }
  }

  /** A provider name other than "garmin", "coros" or "all" runs no script. */
  lemma UnknownProviderRunsNothing(config: Config, env: Config, provider: string, garmin: ScriptRun, coros: ScriptRun)
    requires provider != "garmin" && provider != "coros" && provider != "all"
    ensures ProviderResults(config, env, provider, garmin, coros) == []
  {
  }

  /** An account saved in the config with a password only in the
      environment is enough to sync COROS, though the settings page reports
      no COROS credentials for that state. */
  lemma CorosMixedSourcesSynced(account: string, password: string, run: ScriptRun)
    requires account != "" && password != "" && run.exit == Exited(0)
    ensures CorosResult(map["COROS_ACCOUNT" := account], map["COROS_PASSWORD" := password], run).success
    ensures !View(map["COROS_ACCOUNT" := account], map["COROS_PASSWORD" := password]).hasCorosCredentials
  {
    CorosMixedSourcesRejected(account, password);
  }

  /** `results.some(r => r.success)`. */
  method AnySuccessOf(results: seq<SyncResult>) returns (any: bool)
    ensures any <==> AnySuccess(results)
  {
    any := false;
    var i := 0;
    while i < |results|
      invariant 0 <= i <= |results|
      invariant any <==> exists j :: 0 <= j < i && results[j].success
    {
      if results[i].success {
        any := true;
      }
      i := i + 1;
    }
  }
}
