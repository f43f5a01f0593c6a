/**
  The syncer that copies trial results between the Ray worker and the driver
  machine (src/ray_quickstart/rsync_syncer.py).

  The rsync and `rmtree` side effects are recorded in a ghost log of issued
  commands; whether an rsync run succeeds is an oracle parameter, and so is
  the clock reading taken after a successful run. Paths are translated with
  `Normalize` from the platform module.
 */
module RsyncSync {

  import opened Wrappers
  import opened Text
  import opened PlatformPaths

  /** A command the syncer hands to the operating system. */
  datatype Command =
      /**
        `rsync -avz -e "ssh ..." -p port source user@host:destination`, with
        `--delete --ignore-errors` when `mirror`. rsync reads `-p` as
        `--perms`, so `port` reaches it as one more source operand, not as the
        ssh port; the field records the value the command line carries.
       */
    | Rsync(source: string, user: string, host: string, destination: string, port: int, mirror: bool)
      /** `shutil.rmtree(dir)` on the worker. */
    | RemoveTree(dir: string)

  /** `d[7:]` when `d` starts with `file://`, else `d`. */
  function StripFileScheme(d: string): (r: string)
    ensures StartsWith(d, "file://") ==> d == "file://" + r
    ensures !StartsWith(d, "file://") ==> r == d
  {
    if StartsWith(d, "file://") then d[7..] else d
  }

  /** Stripping removes exactly one leading `file://`. */
  lemma StripFileSchemeOnce(rest: string)
    ensures StripFileScheme("file://" + rest) == rest
  {
    assert ("file://" + rest)[..7] == "file://";
  }

  /** The driver-side directory a `remote_dir` argument names. */
  function DriverDir(remoteDir: string, driverUser: string, driverPlatform: string): (d: string)
    ensures !Recognised(driverPlatform) ==> d == StripFileScheme(remoteDir)
  {
    Normalize(StripFileScheme(remoteDir), driverUser, driverPlatform)
  }

  /** A `file://~/...` URI names the directory below the driver user's home. */
  lemma DriverDirOfHomeUri(rest: string, driverUser: string, driverPlatform: string)
    requires Recognised(driverPlatform)
    requires !Contains(rest, "~/")
    ensures DriverDir("file://~/" + rest, driverUser, driverPlatform) == HomePrefix(driverPlatform, driverUser) + rest
  {
    var path := "~/" + rest;
    assert "file://~/" + rest == "file://" + path;
    calc {
      DriverDir("file://" + path, driverUser, driverPlatform);
      { StripFileSchemeOnce(path); }
      Normalize(path, driverUser, driverPlatform);
      { HomeExpansion(rest, driverUser, driverPlatform); }
      HomePrefix(driverPlatform, driverUser) + rest;
    }
  }

  /** With or without the `file://` scheme, a path names the same driver directory. */
  lemma DriverDirIgnoresScheme(path: string, driverUser: string, driverPlatform: string)
    requires !StartsWith(path, "file://")
    ensures DriverDir("file://" + path, driverUser, driverPlatform) == DriverDir(path, driverUser, driverPlatform)
  {
    StripFileSchemeOnce(path);
  }

  class RsyncSyncer {
    const driverUser: string
    const driverHostname: string
    const driverSshPort: int
    /** `sys.platform` of the process that built the syncer. */
    const driverPlatform: string
    const workerUser: string
    const workerHostname: string
    const workerSshPort: int
    const workerPlatform: string
    const useSyncPeriod: bool
    const syncAtTrainEndOnly: bool
    /** Passed to the base syncer's constructor; the class itself never reads it. */
    const syncPeriod: int

    /** Never set by the class; only its owner may set it. */
    var trainingHasEnded: bool
    var isSyncing: bool
    /**
      The time of the last successful upload; `None` before the first one.
      What Ray's base `Syncer.__init__` stores there first is assumed not to
      matter here: the base class is not part of this model.
     */
    var lastSyncUpTime: Option<real>
    /** The time of the last successful download; `None` before the first one (same assumption as above). */
    var lastSyncDownTime: Option<real>
    /** Every command issued so far, oldest first. */
    ghost var issued: seq<Command>

    constructor(driverUser: string, driverHostname: string, driverSshPort: int,
                workerUser: string, workerHostname: string, workerSshPort: int, workerPlatform: string,
                useSyncPeriod: bool, syncAtTrainEndOnly: bool, syncPeriod: int, sysPlatform: string)
      ensures this.driverUser == driverUser && this.driverHostname == driverHostname
      ensures this.driverSshPort == driverSshPort && this.driverPlatform == sysPlatform
      ensures this.workerUser == workerUser && this.workerHostname == workerHostname
      ensures this.workerSshPort == workerSshPort && this.workerPlatform == workerPlatform
      ensures this.useSyncPeriod == useSyncPeriod && this.syncAtTrainEndOnly == syncAtTrainEndOnly
      ensures this.syncPeriod == syncPeriod
      ensures !trainingHasEnded && !isSyncing
      ensures lastSyncUpTime == None && lastSyncDownTime == None
      ensures issued == []
    {
      this.driverUser := driverUser;
      this.driverHostname := driverHostname;
      this.driverSshPort := driverSshPort;
      this.driverPlatform := sysPlatform;
      this.workerUser := workerUser;
      this.workerHostname := workerHostname;
      this.workerSshPort := workerSshPort;
      this.workerPlatform := workerPlatform;
      this.useSyncPeriod := useSyncPeriod;
      this.syncAtTrainEndOnly := syncAtTrainEndOnly;
      this.syncPeriod := syncPeriod;
      trainingHasEnded := false;
      isSyncing := false;
      lastSyncUpTime := None;
      lastSyncDownTime := None;
      issued := [];
    }

    /** The upload `sync_up` runs: the worker's directory into the driver's. */
    function UpCommand(localDir: string, remoteDir: string): (c: Command)
      reads this
      ensures c.Rsync? && !c.mirror
      ensures c.user == driverUser && c.host == driverHostname && c.port == driverSshPort
      ensures c.source == localDir + "/" && c.destination == DriverDir(remoteDir, driverUser, driverPlatform) + "/"
    {
      Rsync(localDir + "/", driverUser, driverHostname, DriverDir(remoteDir, driverUser, driverPlatform) + "/",
            driverSshPort, false)
    }

    /** The mirroring download `sync_down` runs: the driver's directory onto the worker's. */
    function DownCommand(remoteDir: string, localDir: string): (c: Command)
      reads this
      ensures c.Rsync? && c.mirror
      ensures c.user == workerUser && c.host == workerHostname && c.port == workerSshPort
      ensures c.source == DriverDir(remoteDir, driverUser, driverPlatform) + "/" && c.destination == localDir + "/"
    {
      Rsync(DriverDir(remoteDir, driverUser, driverPlatform) + "/", workerUser, workerHostname, localDir + "/",
            workerSshPort, true)
    }

    /**
      `sync_up`: refused while waiting for the end of training or while a sync
      is in progress; otherwise one upload is issued, and only a successful
      one records `now` and reports `true`. The busy flag is clear on every
      return, the refusal included.
     */
    method SyncUp(localDir: string, remoteDir: string, transferOk: bool, now: real) returns (ok: bool)
      modifies this
      ensures !isSyncing
      ensures trainingHasEnded == old(trainingHasEnded) && lastSyncDownTime == old(lastSyncDownTime)
      ensures (syncAtTrainEndOnly && !old(trainingHasEnded)) || old(isSyncing) ==>
                !ok && issued == old(issued) && lastSyncUpTime == old(lastSyncUpTime)
      ensures !(syncAtTrainEndOnly && !old(trainingHasEnded)) && !old(isSyncing) ==>
                issued == old(issued) + [UpCommand(localDir, remoteDir)] &&
                ok == transferOk &&
                lastSyncUpTime == (if transferOk then Some(now) else old(lastSyncUpTime))
    {
      if syncAtTrainEndOnly && !trainingHasEnded {
        ok := false;
      } else if isSyncing {
        ok := false;
      } else {
        isSyncing := true;
        var dir := StripFileScheme(remoteDir);
        dir := Normalize(dir, driverUser, driverPlatform);
        issued := issued + [Rsync(localDir + "/", driverUser, driverHostname, dir + "/", driverSshPort, false)];
        if transferOk {
          lastSyncUpTime := Some(now);
          ok := true;
        } else {
          ok := false;
        }
      }
      isSyncing := false;
    }

    /**
      `sync_down`: refused while a sync is in progress; otherwise one
      mirroring download is issued, and only a successful one records `now`
      and reports `true`. The busy flag is clear on every return.
     */
    method SyncDown(remoteDir: string, localDir: string, transferOk: bool, now: real) returns (ok: bool)
      modifies this
      ensures !isSyncing
      ensures trainingHasEnded == old(trainingHasEnded) && lastSyncUpTime == old(lastSyncUpTime)
      ensures old(isSyncing) ==> !ok && issued == old(issued) && lastSyncDownTime == old(lastSyncDownTime)
      ensures !old(isSyncing) ==>
                issued == old(issued) + [DownCommand(remoteDir, localDir)] &&
                ok == transferOk &&
                lastSyncDownTime == (if transferOk then Some(now) else old(lastSyncDownTime))
    {
      if isSyncing {
        ok := false;
      } else {
        isSyncing := true;
        var dir := StripFileScheme(remoteDir);
        dir := Normalize(dir, driverUser, driverPlatform);
        issued := issued + [Rsync(dir + "/", workerUser, workerHostname, localDir + "/", workerSshPort, true)];
        if transferOk {
          lastSyncDownTime := Some(now);
          ok := true;
        } else {
          ok := false;
        }
      }
      isSyncing := false;
    }

    /**
      `sync_up_if_needed`: with a sync period the answer is that of the base
      class's `sync_up_if_needed`; without one, once training has ended, it is
      that of the base class's `sync_up` (called through `super()`, so not
      the upload above). Before that the answer is `false` and nothing
      changes. `baseResult` is what the base class returns; what the base
      class does to the syncer's state is not part of this model, so after a
      delegated call the contract leaves the state open.
     */
    method SyncUpIfNeeded(localDir: string, remoteDir: string, baseResult: bool) returns (ok: bool)
      modifies this
      ensures ok == ((useSyncPeriod || old(trainingHasEnded)) && baseResult)
      ensures !useSyncPeriod && !old(trainingHasEnded) ==> !ok && unchanged(this)
    {
      if useSyncPeriod {
        ok := baseResult;
      } else if trainingHasEnded {
        ok := baseResult;
      } else {
        ok := false;
      }
    }

    /**
      `sync_down_if_needed`: with a sync period the answer is that of the base
      class's `sync_down_if_needed`, whose effect on the state is left open as
      above; without one the answer is always `false` and nothing changes.
     */
    method SyncDownIfNeeded(remoteDir: string, localDir: string, baseResult: bool) returns (ok: bool)
      modifies this
      ensures ok == (useSyncPeriod && baseResult)
      ensures !useSyncPeriod ==> !ok && unchanged(this)
    {
      if useSyncPeriod {
        ok := baseResult;
      } else {
        ok := false;
      }
    }

    /**
      `delete`: refused once training has ended or while a sync is in
      progress; otherwise the worker directory the argument names is removed.
     */
    method Delete(localDir: string) returns (ok: bool)
      modifies this
      ensures trainingHasEnded == old(trainingHasEnded) && isSyncing == old(isSyncing)
      ensures lastSyncUpTime == old(lastSyncUpTime) && lastSyncDownTime == old(lastSyncDownTime)
      ensures ok <==> !trainingHasEnded && !isSyncing
      ensures !ok ==> issued == old(issued)
      ensures ok ==> issued == old(issued) + [RemoveTree(Normalize(StripFileScheme(localDir), workerUser, workerPlatform))]
    {
      if trainingHasEnded {
        return false;
      }
      if isSyncing {
        return false;
      }
      var dir := StripFileScheme(localDir);
      var workerDir := Normalize(dir, workerUser, workerPlatform);
      issued := issued + [RemoveTree(workerDir)];
      return true;
    }
  }

  /** The upload writes into the very driver directory the download mirrors from. */
  lemma UpAndDownMeet(s: RsyncSyncer, localDir: string, remoteDir: string)
    ensures s.UpCommand(localDir, remoteDir).destination == s.DownCommand(remoteDir, localDir).source
    ensures s.UpCommand(localDir, remoteDir).source == s.DownCommand(remoteDir, localDir).destination
  {
  }

  /**
    Between calls the busy flag is always clear, so in a single thread of
    calls neither sync is ever refused for being busy: a second `sync_down`
    issues its own download.
   */
  method BackToBackDownloads(s: RsyncSyncer, remoteDir: string, localDir: string, now: real)
    returns (first: bool, second: bool)
    requires !s.isSyncing
    modifies s
    ensures first && second
    ensures s.issued == old(s.issued) + [s.DownCommand(remoteDir, localDir), s.DownCommand(remoteDir, localDir)]
  {
    first := s.SyncDown(remoteDir, localDir, true, now);
    second := s.SyncDown(remoteDir, localDir, true, now);
  }
}
