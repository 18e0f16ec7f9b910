/** Sequences of page events, each proved from the operations' contracts alone: what a
    user of the console observes across several calls. */
module Scenarios {
  import opened Wrappers
  import opened Text
  import opened Backups
  import opened Auth
  import opened Console

  /** Clicking a dropdown entry and then restoring sends that entry's backup name. */
  method SelectThenRestore(p: Page, i: nat, salt: string, response: string)
    requires p.Valid() && i < |p.options|
    modifies p, p.disabled
    ensures p.Valid() && p.AllEnabled()
    ensures p.selectedName == old(p.options[i].backup.name)
    ensures p.requests == old(p.requests) + [SaltRequest,
      Request(RestoreBackupEndpoint, Some(Token(p.sha256Hex, old(p.cachedHash), salt)), RestoreJson(old(p.options[i].backup.name)))]
  {
    p.SelectOption(i);
    p.TriggerRestoreBackup(Loaded(salt, response));
  }

  /** A completed stop clears the selection, yet leaves the restore button enabled. */
  method StopAfterSelection(p: Page, i: nat, salt: string, response: string)
    requires p.Valid() && i < |p.options|
    modifies p, p.disabled
    ensures p.Valid()
    ensures p.selectedName == "" && p.selectedDescription == ""
    ensures !p.disabled[TriggerRestoreButton]
  {
    p.SelectOption(i);
    p.StopServer(Loaded(salt, response));
  }

  /** A privileged action whose salt fetch fails keeps every button disabled; the poller,
      which is not behind the lock, goes on refreshing. */
  method LockHeldAfterSaltFailure(p: Page)
    requires p.Valid() && p.refreshInterval.Some?
    modifies p, p.disabled
    ensures p.Valid() && p.AllDisabled()
    ensures p.requests == old(p.requests) + [SaltRequest] + RefreshCycle
  {
    p.TriggerManualBackup(SaltFailed);
    p.IntervalFired(p.refreshInterval.value);
  }

  /** A transport failure after the salt: the request went out, but the lock is kept. */
  method LockHeldAfterTransportFailure(p: Page, salt: string)
    requires p.Valid()
    modifies p, p.disabled
    ensures p.Valid() && p.AllDisabled()
    ensures |p.requests| == |old(p.requests)| + 2 && p.requests[|p.requests| - 1].target == PrintPlayerListEndpoint
  {
    p.TriggerPrintPlayerList(XhrFailed(salt));
  }

  /** Changing the refresh rate twice leaves one interval, at the latest rate, after two
      immediate refresh cycles. */
  method ChangeRefreshRateTwice(p: Page, first: int, second: int)
    requires p.Valid()
    modifies p
    ensures p.Valid()
    ensures |p.timers| == 1 && p.timers.Values == {second}
    ensures p.refreshInterval.Some? && p.refreshInterval.value in p.timers
    ensures p.requests == old(p.requests) + RefreshCycle + RefreshCycle
  {
    p.SetRefreshRate(first);
    p.SetRefreshRate(second);
    assert p.timers == map[p.refreshInterval.value := second];
  }

  /** Only login refreshes the cached hash: editing the admin code afterwards does not change
      the token a later stop sends. */
  method StopUsesHashCachedAtLogin(p: Page, atLogin: string, later: string,
                                   loginSalt: string, loginResponse: string, stopSalt: string, stopResponse: string)
    requires p.Valid()
    modifies p, p.disabled
    ensures p.Valid() && p.adminCode == later
    ensures p.cachedHash == Some(AdminHash(p.sha256Hex, atLogin))
    ensures |p.requests| > 0 && p.requests[|p.requests| - 1]
         == Request(StopEndpoint, Some(Token(p.sha256Hex, Some(AdminHash(p.sha256Hex, atLogin)), stopSalt)), EmptyJson)
  {
    p.EnterAdminCode(atLogin);
    p.AttemptLogin(Loaded(loginSalt, loginResponse));
    p.EnterAdminCode(later);
    p.StopServer(Loaded(stopSalt, stopResponse));
  }

  /** Before any login the cached hash is undefined, and the token is built from that text. */
  method ActionBeforeLogin(sha256Hex: string -> string, localeString: int -> string, salt: string, response: string)
    returns (p: Page)
    ensures p.Valid() && p.AllEnabled()
    ensures p.requests == RefreshCycle + [SaltRequest,
      Request(ManualBackupEndpoint, Some(sha256Hex("undefined" + Upper(salt))), EmptyJson)]
  {
    p := new Page(sha256Hex, localeString, [false, false, false, false, false, false, true]);
    p.TriggerManualBackup(Loaded(salt, response));
  }

  /** Refreshing the list discards the previous selection; an entry of the new list can then
      be selected. */
  method RefreshThenSelect(p: Page, backups: seq<Backup>)
    requires p.Valid() && |backups| > 0
    modifies p, p.disabled
    ensures p.Valid()
    ensures p.selectedName == backups[0].name
    ensures p.selectedDescription == DescriptionString(Some(backups[0]), p.localeString)
    ensures !p.disabled[TriggerRestoreButton]
  {
    p.RefreshBackupList(ListLoaded(backups));
    OptionsForAt(backups, p.localeString, 0);
    p.SelectOption(0);
  }

  /** A login rejected by the backend shows the notice, keeps the login view, and still
      enables the buttons. */
  method RejectedLogin(p: Page, salt: string)
    requires p.Valid() && !p.postLogin
    modifies p, p.disabled
    ensures p.Valid() && !p.postLogin && p.AllEnabled()
    ensures p.notices == old(p.notices) + [IncorrectAdminCode]
  {
    p.AttemptLogin(Loaded(salt, "false"));
  }
}
