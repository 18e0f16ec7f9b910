/** The state the console page's script keeps and the operations that change it: the
    interaction lock over seven buttons, the backup selection, the restore dropdown, the
    status poller, the cached admin hash and the privileged actions.

    Network round trips are not executed: each operation that waits on one takes its
    outcome as a parameter, and every request the page would send is appended to `requests`. */
module Console {
  import opened Wrappers
  import opened Text
  import opened Backups
  import opened Auth

  /** The backend endpoints the page calls. */
  datatype Endpoint =
    | SaltEndpoint                // GET /salt
    | IsAuthValid                 // GET /is-auth-valid
    | TerminalOut                 // GET /terminal-out
    | ResourceUsage               // GET /resource-usage
    | StopEndpoint                // POST /stop
    | ManualBackupEndpoint        // POST /trigger-manual-backup
    | PrintResourceUsageEndpoint  // POST /trigger-print-resource-usage
    | PrintPlayerListEndpoint     // POST /trigger-print-player-list
    | BackupSizeList              // GET /backup-size-list
    | RestoreBackupEndpoint       // POST /trigger-restore-backup

  /** A JSON request body: none, `{}`, or `{backup: name}`. */
  datatype Body = NoBody | EmptyJson | RestoreJson(backup: string)

  datatype Request = Request(target: Endpoint, authorization: Option<string>, body: Body)

  /** How a privileged round trip ends. `SaltFailed`: the salt fetch was rejected, nothing
      else runs (there is no `.catch`). `XhrFailed`: the salt arrived and the request was sent,
      but `onload` never fires (transport error). `Loaded`: `onload` fires with the response text. */
  datatype RoundTrip = SaltFailed | XhrFailed(salt: string) | Loaded(salt: string, response: string)

  /** How the inventory fetch of `refreshBackupList` ends; a rejection is not handled. */
  datatype ListFetch = ListFailed | ListLoaded(backups: seq<Backup>)

  /** One `<a>` of `restore-backup-options`; clicking it selects `backup`. */
  datatype DropdownOption = DropdownOption(className: string, text: string, value: string, backup: Backup)

  /** The buttons of `interactionButtons`, in order: toggle-restore-backup-controls,
      stop-server, trigger-manual-backup, print-resource-usage, print-player-list,
      restore-backup-dropdown, trigger-restore-backup. */
  const InteractionButtonCount := 7
  /** trigger-restore-backup-button: the last of the seven, also driven by the selection. */
  const TriggerRestoreButton := 6

  const InitialRefreshRate := 5000
  const IncorrectAdminCode := "Incorrect admin code"

  const SaltRequest := Request(SaltEndpoint, None, NoBody)
  /** One cycle of `refreshServerInfo`: the two unauthenticated status fetches. */
  const RefreshCycle := [Request(TerminalOut, None, NoBody), Request(ResourceUsage, None, NoBody)]
  const ListRequest := Request(BackupSizeList, None, NoBody)

  /** The dropdown entry `refreshBackupList` builds for one backup. */
  function OptionFor(b: Backup, localeString: int -> string): DropdownOption {
    DropdownOption("dropdown-item " + ClassForBackup(b.name), b.name + DescriptionString(Some(b), localeString), b.name, b)
  }

  /** Applying `f` to each element, in order. */
  function MapSeq<A, B>(s: seq<A>, f: A -> B): (r: seq<B>)
    ensures |r| == |s|
  {
    if s == [] then [] else MapSeq(s[..|s| - 1], f) + [f(s[|s| - 1])]
  }

  lemma {:induction false} MapSeqAt<A, B>(s: seq<A>, f: A -> B, k: nat)
    requires k < |s|
    ensures MapSeq(s, f)[k] == f(s[k])
  {
    var n := |s| - 1;
    if k < n {
      MapSeqAt(s[..n], f, k);
      assert s[..n][k] == s[k];
    }
  }

  /** The body of the `forEach` in `refreshBackupList`, as a function of the backup. */
  function EntryBuilder(localeString: int -> string): Backup -> DropdownOption {
    b => OptionFor(b, localeString)
  }

  /** The entries built for a list of backups, one per backup, in order. */
  function OptionsFor(backups: seq<Backup>, localeString: int -> string): seq<DropdownOption> {
    MapSeq(backups, EntryBuilder(localeString))
  }

  /** Entry k of the rebuilt dropdown is the one built for backup k, so its class, its text
      and its value are derived from that backup alone. */
  lemma OptionsForAt(backups: seq<Backup>, localeString: int -> string, k: nat)
    requires k < |backups|
    ensures |OptionsFor(backups, localeString)| == |backups|
    ensures OptionsFor(backups, localeString)[k] == OptionFor(backups[k], localeString)
  {
    MapSeqAt(backups, EntryBuilder(localeString), k);
  }

  class Page {
    /** sjcl's SHA-256 with hexadecimal output. */
    const sha256Hex: string -> string
    /** `new Date(ms).toLocaleString()`. */
    const localeString: int -> string
    /** The `disabled` flags of the seven interaction buttons. */
    const disabled: array<bool>

    var adminCode: string               // the admin-code input field
    var cachedHash: Option<string>      // inputAdminCodeHash; None while undefined
    var postLogin: bool                 // login-content hidden, post-login-content shown
    var notices: seq<string>            // alerts shown
    var selectedName: string            // selected-backup
    var selectedDescription: string     // selected-backup-timestamp
    var options: seq<DropdownOption>    // restore-backup-options
    var refreshInterval: Option<nat>    // the handle kept by setRefreshRate
    var timers: map<nat, int>           // the page's active intervals: handle to period
    var nextTimer: nat                  // the handle setInterval returns next
    var requests: seq<Request>          // every request sent so far, in order

    ghost predicate Valid()
      reads this
    {
      disabled.Length == InteractionButtonCount &&
      1 <= nextTimer &&
      (refreshInterval.None? ==> timers == map[]) &&
      (refreshInterval.Some? ==> timers.Keys == {refreshInterval.value} && refreshInterval.value < nextTimer)
    }

    ghost predicate AllDisabled()
      reads this, disabled
    {
      forall i :: 0 <= i < disabled.Length ==> disabled[i]
    }

    ghost predicate AllEnabled()
      reads this, disabled
    {
      forall i :: 0 <= i < disabled.Length ==> !disabled[i]
    }

    twostate predicate SessionUnchanged()
      reads this
    {
      adminCode == old(adminCode) && cachedHash == old(cachedHash) &&
      postLogin == old(postLogin) && notices == old(notices)
    }

    twostate predicate SelectionUnchanged()
      reads this
    {
      selectedName == old(selectedName) && selectedDescription == old(selectedDescription)
    }

    twostate predicate PollerUnchanged()
      reads this
    {
      refreshInterval == old(refreshInterval) && timers == old(timers) && nextTimer == old(nextTimer)
    }

    /** The request a privileged action sends once its salt has arrived. */
    function Authorized(target: Endpoint, body: Body, cached: Option<string>, salt: string): Request {
      Request(target, Some(Token(sha256Hex, cached, salt)), body)
    }

    /** The requests of one privileged round trip: the salt fetch, then the authorized
        request unless the salt fetch failed. */
    function PrivilegedRequests(target: Endpoint, body: Body, cached: Option<string>, trip: RoundTrip): seq<Request> {
      if trip.SaltFailed? then [SaltRequest] else [SaltRequest, Authorized(target, body, cached, trip.salt)]
    }

    /** Page load: the buttons start as the markup sets them, the refresh rate field is set to
        5000 and `setRefreshRate` runs once. */
    constructor (sha256Hex: string -> string, localeString: int -> string, initiallyDisabled: seq<bool>)
      requires |initiallyDisabled| == InteractionButtonCount
      ensures Valid() && fresh(disabled)
      ensures this.sha256Hex == sha256Hex && this.localeString == localeString
      ensures disabled[..] == initiallyDisabled
      ensures adminCode == "" && cachedHash == None && !postLogin && notices == []
      ensures selectedName == "" && selectedDescription == "" && options == []
      ensures refreshInterval == Some(1) && timers == map[1 := InitialRefreshRate] && nextTimer == 2
      ensures requests == RefreshCycle
    {
      this.sha256Hex := sha256Hex;
      this.localeString := localeString;
      disabled := new bool[InteractionButtonCount](i requires 0 <= i < InteractionButtonCount => initiallyDisabled[i]);
      adminCode, cachedHash, postLogin, notices := "", None, false, [];
      selectedName, selectedDescription, options := "", "", [];
      refreshInterval, timers, nextTimer := None, map[], 1;
      requests := [];
      new;
      SetRefreshRate(InitialRefreshRate);
    }

    /** The operator edits the admin-code field. Nothing is hashed until the next login. */
    method EnterAdminCode(code: string)
      modifies this
      ensures adminCode == code
      ensures cachedHash == old(cachedHash) && postLogin == old(postLogin) && notices == old(notices)
      ensures SelectionUnchanged() && PollerUnchanged() && options == old(options) && requests == old(requests)
    {
      adminCode := code;
    }

    /** `disableInteraction`: every interaction button becomes disabled; nothing else changes. */
    method DisableInteraction()
      requires Valid()
      modifies disabled
      ensures AllDisabled()
    {
      var i := 0;
      while i < disabled.Length
        invariant 0 <= i <= disabled.Length
        invariant forall k :: 0 <= k < i ==> disabled[k]
      {
        disabled[i] := true;
        i := i + 1;
      }
    }

    /** `enableInteraction`: every interaction button becomes enabled; nothing else changes. */
    method EnableInteraction()
      requires Valid()
      modifies disabled
      ensures AllEnabled()
    {
      var i := 0;
      while i < disabled.Length
        invariant 0 <= i <= disabled.Length
        invariant forall k :: 0 <= k < i ==> !disabled[k]
      {
        disabled[i] := false;
        i := i + 1;
      }
    }

    /** `setSelectedBackup`: shows the backup's name and description and enables the restore
        button exactly when a backup is given. */
    method SetSelectedBackup(backup: Option<Backup>)
      requires Valid()
      modifies this, disabled
      ensures Valid()
      ensures selectedName == (if backup.Some? then backup.value.name else "")
      ensures selectedDescription == DescriptionString(backup, localeString)
      ensures disabled[TriggerRestoreButton] == backup.None?
      ensures disabled[..] == old(disabled[..])[TriggerRestoreButton := backup.None?]
      ensures SessionUnchanged() && PollerUnchanged() && options == old(options) && requests == old(requests)
    {
      selectedName := if backup.Some? then backup.value.name else "";
      selectedDescription := DescriptionString(backup, localeString);
      disabled[TriggerRestoreButton] := backup.None?;
    }

    /** A click on the i-th dropdown entry runs its listener, `setSelectedBackup(backup)`. */
    method SelectOption(i: nat)
      requires Valid() && i < |options|
      modifies this, disabled
      ensures Valid()
      ensures selectedName == old(options[i].backup.name)
      ensures selectedDescription == DescriptionString(Some(old(options[i].backup)), localeString)
      ensures !disabled[TriggerRestoreButton]
      ensures disabled[..] == old(disabled[..])[TriggerRestoreButton := false]
      ensures SessionUnchanged() && PollerUnchanged() && options == old(options) && requests == old(requests)
    {
      SetSelectedBackup(Some(options[i].backup));
    }

    /** `refreshBackupList`: clears the selection, fetches the inventory and, when it arrives,
        rebuilds the dropdown with one entry per backup, in order. */
    method RefreshBackupList(fetch: ListFetch)
      requires Valid()
      modifies this, disabled
      ensures Valid()
      ensures selectedName == "" && selectedDescription == "" && disabled[TriggerRestoreButton]
      ensures disabled[..] == old(disabled[..])[TriggerRestoreButton := true]
      ensures requests == old(requests) + [ListRequest]
      ensures fetch.ListFailed? ==> options == old(options)
      ensures fetch.ListLoaded? ==> options == OptionsFor(fetch.backups, localeString)
      ensures SessionUnchanged() && PollerUnchanged()
    {
      SetSelectedBackup(None);
      requests := requests + [ListRequest];
      if fetch.ListLoaded? {
        RebuildOptions(fetch.backups, EntryBuilder(localeString));
      }
    }

    /** The response handler of `refreshBackupList`: the dropdown is emptied, then the entry
        `build` makes from each backup (the body of the `forEach`) is appended, in order. */
    method RebuildOptions(backups: seq<Backup>, build: Backup -> DropdownOption)
      modifies this`options
      ensures options == MapSeq(backups, build)
    {
      options := [];
      var i := 0;
      while i < |backups|
        invariant 0 <= i <= |backups|
        invariant options == MapSeq(backups[..i], build)
      {
        assert backups[..i + 1][..i] == backups[..i];
        options := options + [build(backups[i])];
        i := i + 1;
      }
      assert backups[..i] == backups;
    }

    /** `setRefreshRate`: one refresh cycle right away, the previous interval cleared, and a
        new interval installed at the given period. */
    method SetRefreshRate(rate: int)
      requires Valid()
      modifies this
      ensures Valid()
      ensures requests == old(requests) + RefreshCycle
      ensures refreshInterval == Some(old(nextTimer)) && nextTimer == old(nextTimer) + 1
      ensures timers == map[old(nextTimer) := rate]
      ensures old(refreshInterval).Some? ==> old(refreshInterval).value !in timers
      ensures SessionUnchanged() && SelectionUnchanged() && options == old(options)
    {
      requests := requests + RefreshCycle;
      if refreshInterval.Some? {
        timers := timers - {refreshInterval.value};
      }
      var handle := nextTimer;
      nextTimer := nextTimer + 1;
      timers := timers[handle := rate];
      refreshInterval := Some(handle);
    }

    /** An active interval fires: one more refresh cycle, nothing else. */
    method IntervalFired(handle: nat)
      requires Valid() && handle in timers
      modifies this
      ensures Valid()
      ensures requests == old(requests) + RefreshCycle
      ensures SessionUnchanged() && SelectionUnchanged() && PollerUnchanged() && options == old(options)
    {
      requests := requests + RefreshCycle;
    }

    /** `attemptLogin`: the lock is not taken; once the salt arrives the admin hash is
        recomputed from the field and the validity check is sent with the fresh token; on load
        the view switches only for the response `true`, otherwise a notice is shown, and the
        buttons are enabled either way. */
    method AttemptLogin(trip: RoundTrip)
      requires Valid()
      modifies this, disabled
      ensures Valid()
      ensures trip.SaltFailed? ==> cachedHash == old(cachedHash)
      ensures !trip.SaltFailed? ==> cachedHash == Some(AdminHash(sha256Hex, adminCode))
      ensures requests == old(requests) + PrivilegedRequests(IsAuthValid, EmptyJson, cachedHash, trip)
      ensures postLogin == (old(postLogin) || (trip.Loaded? && trip.response == "true"))
      ensures notices == old(notices) + (if trip.Loaded? && trip.response != "true" then [IncorrectAdminCode] else [])
      ensures trip.Loaded? ==> AllEnabled()
      ensures !trip.Loaded? ==> disabled[..] == old(disabled[..])
      ensures adminCode == old(adminCode) && SelectionUnchanged() && PollerUnchanged() && options == old(options)
    {
      requests := requests + [SaltRequest];
      if !trip.SaltFailed? {
        cachedHash := Some(AdminHash(sha256Hex, adminCode));
        requests := requests + [Authorized(IsAuthValid, EmptyJson, cachedHash, trip.salt)];
        if trip.Loaded? {
          if trip.response == "true" {
            postLogin := true;
          } else {
            notices := notices + [IncorrectAdminCode];
          }
          EnableInteraction();
        }
      }
    }

    /** The common shape of the trigger actions: take the lock, fetch a salt, send the request
        with a token built from the cached hash, and release the lock only on load. */
    method RunPrivileged(target: Endpoint, body: Body, trip: RoundTrip)
      requires Valid()
      modifies this, disabled
      ensures Valid()
      ensures requests == old(requests) + PrivilegedRequests(target, body, old(cachedHash), trip)
      ensures trip.Loaded? ==> AllEnabled()
      ensures !trip.Loaded? ==> AllDisabled()
      ensures SessionUnchanged() && SelectionUnchanged() && PollerUnchanged() && options == old(options)
    {
      DisableInteraction();
      requests := requests + [SaltRequest];
      if !trip.SaltFailed? {
        requests := requests + [Authorized(target, body, cachedHash, trip.salt)];
        if trip.Loaded? {
          EnableInteraction();
        }
      }
    }

    /** `stopServer`: as the other actions, but on load the selection is cleared first and the
        buttons enabled after, so the restore button ends enabled with nothing selected. */
    method StopServer(trip: RoundTrip)
      requires Valid()
      modifies this, disabled
      ensures Valid()
      ensures requests == old(requests) + PrivilegedRequests(StopEndpoint, EmptyJson, old(cachedHash), trip)
      ensures trip.Loaded? ==> selectedName == "" && selectedDescription == "" && AllEnabled()
      ensures !trip.Loaded? ==> SelectionUnchanged() && AllDisabled()
      ensures SessionUnchanged() && PollerUnchanged() && options == old(options)
    {
      DisableInteraction();
      requests := requests + [SaltRequest];
      if !trip.SaltFailed? {
        requests := requests + [Authorized(StopEndpoint, EmptyJson, cachedHash, trip.salt)];
        if trip.Loaded? {
          SetSelectedBackup(None);
          EnableInteraction();
        }
      }
    }

    /** `triggerManualBackup`. */
    method TriggerManualBackup(trip: RoundTrip)
      requires Valid()
      modifies this, disabled
      ensures Valid()
      ensures requests == old(requests) + PrivilegedRequests(ManualBackupEndpoint, EmptyJson, old(cachedHash), trip)
      ensures trip.Loaded? ==> AllEnabled()
      ensures !trip.Loaded? ==> AllDisabled()
      ensures SessionUnchanged() && SelectionUnchanged() && PollerUnchanged() && options == old(options)
    {
      RunPrivileged(ManualBackupEndpoint, EmptyJson, trip);
    }

    /** `triggerPrintResourceUsage`. */
    method TriggerPrintResourceUsage(trip: RoundTrip)
      requires Valid()
      modifies this, disabled
      ensures Valid()
      ensures requests == old(requests) + PrivilegedRequests(PrintResourceUsageEndpoint, EmptyJson, old(cachedHash), trip)
      ensures trip.Loaded? ==> AllEnabled()
      ensures !trip.Loaded? ==> AllDisabled()
      ensures SessionUnchanged() && SelectionUnchanged() && PollerUnchanged() && options == old(options)
    {
      RunPrivileged(PrintResourceUsageEndpoint, EmptyJson, trip);
    }

    /** `triggerPrintPlayerList`. */
    method TriggerPrintPlayerList(trip: RoundTrip)
      requires Valid()
      modifies this, disabled
      ensures Valid()
      ensures requests == old(requests) + PrivilegedRequests(PrintPlayerListEndpoint, EmptyJson, old(cachedHash), trip)
      ensures trip.Loaded? ==> AllEnabled()
      ensures !trip.Loaded? ==> AllDisabled()
      ensures SessionUnchanged() && SelectionUnchanged() && PollerUnchanged() && options == old(options)
    {
      RunPrivileged(PrintPlayerListEndpoint, EmptyJson, trip);
    }

    /** `triggerRestoreBackup`: the body names the backup shown as selected. */
    method TriggerRestoreBackup(trip: RoundTrip)
      requires Valid()
      modifies this, disabled
      ensures Valid()
      ensures requests == old(requests) + PrivilegedRequests(RestoreBackupEndpoint, RestoreJson(old(selectedName)), old(cachedHash), trip)
      ensures trip.Loaded? ==> AllEnabled()
      ensures !trip.Loaded? ==> AllDisabled()
      ensures SessionUnchanged() && SelectionUnchanged() && PollerUnchanged() && options == old(options)
    {
      RunPrivileged(RestoreBackupEndpoint, RestoreJson(selectedName), trip);
    }
  }
}
