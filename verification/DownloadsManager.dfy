/** The downloads manager with its maps and its directory changed in place. */
module DownloadsManager {
  import opened Wrappers
  import opened DownloadNames
  import opened Downloads
  import opened DownloadAgreement

  class Manager {
    const defaults: Limits
    var downloads: map<Id, Record>
    var byProfileName: map<Slot, Id>
    var profileLimits: map<string, Limits>
    var files: map<Path, seq<Byte>>
    var disposed: bool
    ghost var torn: set<Id>  // live records whose file a failed write left longer

    function Model(): Quarantine
      reads this
    {
      Quarantine(defaults, downloads, byProfileName, profileLimits, files, disposed)
    }

    ghost predicate Valid(others: map<Path, seq<Byte>>)
      reads this
    {
      Agrees(Model(), others, torn)
    }

    constructor (defaults: Limits, disk: map<Path, seq<Byte>>)
      ensures Valid(disk) && torn == {} && Model() == Quarantine(defaults, map[], map[], map[], disk, false)
    {
      this.defaults := defaults;
      downloads, byProfileName, profileLimits, files, disposed := map[], map[], map[], disk, false;
      torn := {};
    }

    method ProfileTotal(profile: string) returns (total: nat)
      ensures total == ProfileBytes(Model(), profile)
    {
      total := 0;
      var rest := downloads.Keys;
      while rest != {}
        invariant rest <= downloads.Keys
        invariant total + Sum(downloads, profile, rest) == ProfileBytes(Model(), profile)
      {
        var id :| id in rest;
        SumAdds(downloads, profile, rest, id);
        total := total + Share(downloads[id], profile);
        rest := rest - {id};
      }
    }

    /** The name loop: the suggested name, then numbered ones. */
    method ChooseName(profile: string, name: string) returns (free: Option<string>)
      ensures free == FreeName(Model(), profile, name, 0)
    {
      var candidate, suffix := name, 0;
      while Taken(Model(), Slot(profile, candidate))
        invariant suffix <= LAST_SUFFIX && candidate == Candidate(name, suffix)
        invariant FreeName(Model(), profile, name, 0) == FreeName(Model(), profile, name, suffix)
        decreases LAST_SUFFIX - suffix
      {
        if suffix == LAST_SUFFIX { return None; }
        suffix := suffix + 1;
        candidate := AddSuffix(name, suffix);
      }
      return Some(candidate);
    }

    method Start(id: Id, profile: string, suggested: string, total: Option<nat>, disk: Disk, now: int,
                 ghost others: map<Path, seq<Byte>>) returns (outcome: Outcome)
      requires Valid(others)
      modifies this
      ensures id !in old(downloads) ==> Valid(others)
      ensures torn == old(torn)
      ensures (Model(), outcome) == Downloads.Start(old(Model()), id, profile, suggested, total, disk, now)
    {
      if id !in downloads { StartKeeps(Model(), id, profile, suggested, total, disk, now, others, torn); }
      outcome := StartNamed(id, profile, Normalize(suggested), total, disk, now);
    }

    method StartNamed(id: Id, profile: string, wanted: string, total: Option<nat>, disk: Disk, now: int)
      returns (outcome: Outcome)
      modifies this
      ensures torn == old(torn)
      ensures (Model(), outcome) == StartAs(old(Model()), id, profile, wanted, total, disk, now)
    {
      if disposed { return Threw; }
      var limits := LimitsFor(Model(), profile);
      if total.Some? && total.value > limits.maxFile { return Oversized; }
      var used := ProfileTotal(profile);
      if used >= limits.maxProfile { return QuotaExceeded; }
      if !disk.roomy || !disk.mkdir { return LowDisk; }
      var name := ChooseName(profile, wanted);
      if name.None? { return InvalidName; }
      if !disk.write { return LowDisk; }
      var slot := Slot(profile, name.value);
      var record := Record(id, slot, total, 0, now + limits.expiry, Downloading);
      files := files[record.File() := []];
      downloads := downloads[id := record];
      byProfileName := byProfileName[slot := id];
      return Started(name.value);
    }

    /** The record takes the phase, and goes away with its file unless that is stuck. */
    method EndDownload(id: Id, phase: Phase, stuck: set<Path>) returns (gone: bool)
      requires id in downloads
      modifies this
      ensures (Model(), gone) == End(old(Model()), id, phase, stuck) && torn == old(torn)
    {
      downloads := downloads[id := downloads[id].(phase := phase)];
      var record := downloads[id];
      if record.File() in stuck { return false; }
      files := files - {record.File()};
      downloads := downloads - {record.id};
      byProfileName := byProfileName - {record.slot};
      return true;
    }

    method Append(id: Id, data: seq<Byte>, declared: int, broken: Option<nat>, stuck: set<Path>,
                  ghost others: map<Path, seq<Byte>>) returns (outcome: Outcome)
      requires Valid(others)
      modifies this
      ensures Valid(others)
      ensures (Model(), outcome) == Downloads.Append(old(Model()), id, data, declared, broken, stuck)
      ensures torn == TornBy(old(Model()), id, data, declared, broken, stuck, old(torn))
    {
      AppendKeeps(Model(), id, data, declared, broken, stuck, others, torn);
      outcome := AppendChunk(id, data, declared, broken, stuck);
      torn := TornBy(old(Model()), id, data, declared, broken, stuck, torn);
    }

    method AppendChunk(id: Id, data: seq<Byte>, declared: int, broken: Option<nat>, stuck: set<Path>)
      returns (outcome: Outcome)
      modifies this
      ensures (Model(), outcome) == Downloads.Append(old(Model()), id, data, declared, broken, stuck)
      ensures torn == old(torn)
    {
      if disposed { return Threw; }
      if id !in downloads { return NotFound; }
      var record := downloads[id];
      if record.phase != Downloading { return AlreadyCompleted; }
      if |data| != declared { return Mismatched; }
      var limits := LimitsFor(Model(), record.slot.profile);
      var next := record.bytes + |data|;
      if next > limits.maxFile {
        var gone := EndDownload(id, Failed, stuck);
        return if gone then Oversized else Threw;
      }
      var used := ProfileTotal(record.slot.profile);
      if used + |data| > limits.maxProfile {
        var gone := EndDownload(id, Failed, stuck);
        return if gone then QuotaExceeded else Threw;
      }
      outcome := WriteChunk(id, data, broken, stuck);
    }

    method WriteChunk(id: Id, data: seq<Byte>, broken: Option<nat>, stuck: set<Path>) returns (outcome: Outcome)
      requires id in downloads
      modifies this
      ensures torn == old(torn)
      ensures (Model(), outcome)
              == if broken.Some?
                 then EndWith(Written(old(Model()), old(downloads)[id].File(), Prefix(data, broken.value)), id, stuck, WriteFailed)
                 else (Grow(old(Model()), id, data), Appended(old(downloads)[id].bytes + |data|))
    {
      var record := downloads[id];
      var bytes := if record.File() in files then files[record.File()] else [];
      if broken.Some? {
        files := files[record.File() := bytes + Prefix(data, broken.value)];
        var gone := EndDownload(id, Failed, stuck);
        return if gone then WriteFailed else Threw;
      }
      files := files[record.File() := bytes + data];
      downloads := downloads[id := record.(bytes := record.bytes + |data|)];
      return Appended(record.bytes + |data|);
    }

    method Complete(id: Id, ghost others: map<Path, seq<Byte>>) returns (outcome: Outcome)
      requires Valid(others)
      modifies this
      ensures Valid(others) && (Model(), outcome) == Downloads.Complete(old(Model()), id)
      ensures torn == old(torn)
    {
      CompleteKeeps(Model(), id, others, torn);
      if disposed { return Threw; }
      if id !in downloads { return NotFound; }
      if downloads[id].phase != Downloading { return AlreadyCompleted; }
      downloads := downloads[id := downloads[id].(phase := Quarantined)];
      return Done;
    }

    /** Failing or cancelling. */
    method Stop(id: Id, phase: Phase, stuck: set<Path>, ghost others: map<Path, seq<Byte>>)
      returns (outcome: Outcome)
      requires Valid(others) && phase in {Failed, Cancelled}
      modifies this
      ensures Valid(others) && (Model(), outcome) == Downloads.Stop(old(Model()), id, phase, stuck)
      ensures torn == Left(Model(), old(torn))
    {
      assert Left(Model(), torn) == torn;
      if id !in downloads { return NotFound; }
      EndKeeps(Model(), id, phase, stuck, others, torn);
      var gone := EndDownload(id, phase, stuck);
      torn := Left(Model(), torn);
      return if gone then Done else Threw;
    }

    method Expire(ids: seq<Id>, now: int, stuck: set<Path>, ghost others: map<Path, seq<Byte>>)
      returns (ok: bool)
      requires Valid(others) && Lists(Model(), ids)
      modifies this
      ensures Valid(others) && (Model(), ok) == ExpireEach(old(Model()), ids, now, stuck)
      ensures torn == Left(Model(), old(torn))
    {
      ExpireKeeps(Model(), ids, now, stuck, others, torn);
      ok := true;
      for i := 0 to |ids|
        invariant (Model(), ok) == ExpireEach(old(Model()), ids[..i], now, stuck) && torn == old(torn)
      {
        assert ids[..i + 1][..i] == ids[..i];
        if ok && ids[i] in downloads && downloads[ids[i]].phase !in {Cancelled, Failed}
           && downloads[ids[i]].expiresAt <= now
        {
          ok := EndDownload(ids[i], Expired, stuck);
        }
      }
      assert ids[..|ids|] == ids;
      torn := Left(Model(), torn);
    }

    method Purge(ids: seq<Id>, profile: Option<string>, stuck: set<Path>, ghost others: map<Path, seq<Byte>>)
      returns (ok: bool)
      requires Valid(others) && Lists(Model(), ids)
      modifies this
      ensures Valid(others) && (Model(), ok) == PurgeEach(old(Model()), ids, profile, stuck)
      ensures torn == Left(Model(), old(torn))
    {
      PurgeKeeps(Model(), ids, profile, stuck, others, torn);
      ok := true;
      for i := 0 to |ids|
        invariant (Model(), ok) == PurgeEach(old(Model()), ids[..i], profile, stuck) && torn == old(torn)
      {
        assert ids[..i + 1][..i] == ids[..i];
        if ok && ids[i] in downloads && (profile.None? || downloads[ids[i]].slot.profile == profile.value) {
          ok := EndDownload(ids[i], downloads[ids[i]].phase, stuck);
        }
      }
      assert ids[..|ids|] == ids;
      torn := Left(Model(), torn);
    }

    method Dispose(ids: seq<Id>, stuck: set<Path>, ghost others: map<Path, seq<Byte>>)
      requires Valid(others) && Lists(Model(), ids)
      modifies this
      ensures Model() == Downloads.Dispose(old(Model()), ids, stuck)
      ensures files == others + StuckFiles(old(Model()), stuck) && Valid(files)
    {
      DisposalLeavesWhatIsStuck(Model(), ids, stuck, others, torn);
      disposed := true;
      ghost var start := Model();
      for i := 0 to |ids|
        invariant Model() == DisposeEach(start, ids[..i], stuck)
      {
        assert ids[..i + 1][..i] == ids[..i];
        if ids[i] in downloads {
          var record := downloads[ids[i]];
          if record.File() !in stuck { files := files - {record.File()}; }
          downloads := downloads - {record.id};
          byProfileName := byProfileName - {record.slot};
        }
      }
      assert ids[..|ids|] == ids;
      downloads, byProfileName := map[], map[];
      torn := {};
    }
  }
}
