/**
 * The settings page's state: the string settings it shows, the sync log
 * with its de-duplication and id counter, the syncing flag and the status
 * message, and the input guards in front of its requests.
 *
 * Network answers (the response of a save, the events of the sync stream)
 * are method parameters.
 */
module SettingsPage {
  import opened Js
  import opened Settings

  datatype EventType = Start | Progress | Complete | Error | Skip

  /** One event of the sync stream; `provider` is "" when the event has none. */
  datatype SyncProgress = SyncProgress(kind: EventType, provider: string, message: string)

  /** A log line: the counter value that numbered it, and its event. */
  datatype LogEntry = LogEntry(id: nat, progress: SyncProgress)

  datatype Message = Message(success: bool, text: string)

  /** Two events that `addLog` treats as the same line. */
  predicate SameLine(a: SyncProgress, b: SyncProgress)
  {
    a.message == b.message && a.provider == b.provider
  }

  /** No two neighbouring lines repeat one another. */
  predicate NoRepeats(logs: seq<LogEntry>)
  {
    forall i :: 0 < i < |logs| ==> !SameLine(logs[i - 1].progress, logs[i].progress)
  }

  class SettingsState {
    /** The string fields of the page's settings. */
    var settings: Config
    var syncLogs: seq<LogEntry>
    var logIdCounter: nat
    var syncing: bool
    var message: Option<Message>

    /** The log has no repeated neighbours and its ids increase, none above the counter. */
    ghost predicate Valid()
      reads this
    {
      NoRepeats(syncLogs) &&
      (forall i :: 0 <= i < |syncLogs| ==> syncLogs[i].id <= logIdCounter) &&
      (forall i :: 0 < i < |syncLogs| ==> syncLogs[i - 1].id < syncLogs[i].id)
    }

    constructor()
      ensures Valid()
      ensures settings == map["SYNC_INTERVAL" := "86400", "SYNC_PROVIDERS" := "", "MAX_HR" := "190",
                              "RESTING_HR" := "55", "garminTokenPreview" := "", "corosAccount" := ""]
      ensures syncLogs == [] && logIdCounter == 0 && !syncing && message == None
    {
      settings := map["SYNC_INTERVAL" := "86400", "SYNC_PROVIDERS" := "", "MAX_HR" := "190",
                      "RESTING_HR" := "55", "garminTokenPreview" := "", "corosAccount" := ""];
      syncLogs := [];
      logIdCounter := 0;
      syncing := false;
      message := None;
    }

    /** `addLog`: an event repeating the last line is dropped; any other is
        appended under the next counter value. */
    method AddLog(progress: SyncProgress)
      requires Valid()
      modifies this
      ensures Valid()
      ensures old(syncLogs) != [] && SameLine(old(syncLogs)[|old(syncLogs)| - 1].progress, progress) ==>
        syncLogs == old(syncLogs) && logIdCounter == old(logIdCounter)
      ensures !(old(syncLogs) != [] && SameLine(old(syncLogs)[|old(syncLogs)| - 1].progress, progress)) ==>
        logIdCounter == old(logIdCounter) + 1 &&
        syncLogs == old(syncLogs) + [LogEntry(logIdCounter, progress)]
      ensures settings == old(settings) && syncing == old(syncing) && message == old(message)
    {
      if |syncLogs| > 0 {
        var lastLog := syncLogs[|syncLogs| - 1];
        if SameLine(lastLog.progress, progress) {
          return;
        }
      }
      logIdCounter := logIdCounter + 1;
      syncLogs := syncLogs + [LogEntry(logIdCounter, progress)];
    }

    /** The start of `runSync`: syncing, no event yet, an empty log. */
    method RunSync()
      requires Valid()
      modifies this
      ensures Valid()
      ensures syncing && syncLogs == [] && message == None
      ensures settings == old(settings) && logIdCounter == old(logIdCounter)
    {
      syncing := true;
      syncLogs := [];
      message := None;
    }

    /** An event of the stream: it is logged, and the final event (complete
        without a provider) ends the sync with a success message. */
    method OnEvent(progress: SyncProgress)
      requires Valid()
      modifies this
      ensures Valid()
      ensures progress.kind == Complete && progress.provider == "" ==>
        !syncing && message == Some(Message(true, "同步完成"))
      ensures !(progress.kind == Complete && progress.provider == "") ==>
        syncing == old(syncing) && message == old(message)
      ensures settings == old(settings)
      ensures old(syncLogs) != [] && SameLine(old(syncLogs)[|old(syncLogs)| - 1].progress, progress) ==>
        syncLogs == old(syncLogs) && logIdCounter == old(logIdCounter)
      ensures !(old(syncLogs) != [] && SameLine(old(syncLogs)[|old(syncLogs)| - 1].progress, progress)) ==>
        logIdCounter == old(logIdCounter) + 1 &&
        syncLogs == old(syncLogs) + [LogEntry(logIdCounter, progress)]
    {
      AddLog(progress);
      if progress.kind == Complete && progress.provider == "" {
        syncing := false;
        message := Some(Message(true, "同步完成"));
      }
    }

    /** A broken stream ends the sync with an error message. */
    method OnStreamError()
      requires Valid()
      modifies this
      ensures Valid()
      ensures !syncing && message == Some(Message(false, "同步连接中断"))
      ensures settings == old(settings) && syncLogs == old(syncLogs) && logIdCounter == old(logIdCounter)
    {
      syncing := false;
      message := Some(Message(false, "同步连接中断"));
    }

    /** `saveSettings` with the server's answer: the updates are merged into
        the page's settings only on an ok answer. */
    method SaveSettings(updates: Config, ok: bool, errorText: string)
      requires Valid()
      modifies this
      ensures Valid()
      ensures ok ==> settings == old(settings) + updates && message == Some(Message(true, "设置已保存"))
      ensures !ok ==> settings == old(settings) && message == Some(Message(false, Or(errorText, "保存失败")))
      ensures syncLogs == old(syncLogs) && logIdCounter == old(logIdCounter) && syncing == old(syncing)
    {
      message := None;
      if ok {
        message := Some(Message(true, "设置已保存"));
        settings := settings + updates;
      } else {
        message := Some(Message(false, Or(errorText, "保存失败")));
      }
    }
  }

  // ---------------------------------------------------------------------
  // Input guards

  /** What a button does with its inputs: show an error and send nothing,
      or send a request with this body. */
  datatype Outcome = Rejected(text: string) | Request(body: Config)

  /** `getGarminToken`'s guard. */
  function GarminLogin(email: string, password: string): (r: Outcome)
    ensures r.Rejected? <==> email == "" || password == ""
    ensures r.Request? ==> r.body == map["email" := email, "password" := password]
  {
    if email == "" || password == "" then Rejected("请输入 Garmin 邮箱和密码")
    else Request(map["email" := email, "password" := password])
  }

  /** `saveGarminToken`'s guard. */
  function GarminTokenSave(token: string): (r: Outcome)
    ensures r.Rejected? <==> token == ""
    ensures r.Request? ==> r.body == map["GARMIN_SECRET_STRING" := token]
  {
    if token == "" then Rejected("请输入 Garmin Token")
    else Request(map["GARMIN_SECRET_STRING" := token])
  }

  /** `saveCorosCredentials`'s guard. */
  function CorosSave(account: string, password: string): (r: Outcome)
    ensures r.Rejected? <==> account == "" || password == ""
    ensures r.Request? ==> r.body == map["COROS_ACCOUNT" := account, "COROS_PASSWORD" := password]
  {
    if account == "" || password == "" then Rejected("请输入 COROS 账号和密码")
    else Request(map["COROS_ACCOUNT" := account, "COROS_PASSWORD" := password])
  }

  /** Credentials the page lets through are stored, and the settings then
      report them as set, with the account shown. */
  lemma CorosSaveStored(config: Config, env: Config, account: string, password: string)
    requires CorosSave(account, password).Request?
    ensures var v := View(Merged(config, CorosSave(account, password).body), env);
      v.hasCorosCredentials && v.corosAccount == account
  {
    var body := CorosSave(account, password).body;
    MergedKeys(config, body, "COROS_ACCOUNT");
    MergedKeys(config, body, "COROS_PASSWORD");
  }

  /** A token the page lets through is stored, and the settings then
      report a token with a preview of it. */
  lemma GarminTokenStored(config: Config, env: Config, token: string)
    requires GarminTokenSave(token).Request?
    ensures var v := View(Merged(config, GarminTokenSave(token).body), env);
      v.hasGarminToken && v.garminTokenPreview == MaskSecret(token, 4)
  {
    MergedKeys(config, GarminTokenSave(token).body, "GARMIN_SECRET_STRING");
  }
}
