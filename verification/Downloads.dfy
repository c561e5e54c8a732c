/** The download quarantine (src/host/host-downloads.ts): records, the name index and the files on
    disk. Calls run one at a time. File operations that can fail are told whether they do. A slot
    stands for the index key of a profile's name and for the path of its file, which are different
    for different slots (DownloadNames.KeysAndPathsAreDistinct). */
module Downloads {
  import opened Wrappers
  import opened DownloadNames

  type Id = nat
  type Byte = nat

  const MIN_LIMIT := 1
  const MAX_FILE_CEILING := 16 * 1024 * 1024 * 1024
  const MAX_PROFILE_CEILING := 64 * 1024 * 1024 * 1024

  datatype Phase = Downloading | Quarantined | Exported | Failed | Cancelled | Expired

  /** A name in a profile's directory. */
  datatype Slot = Slot(profile: string, name: string)

  datatype Path = InQuarantine(slot: Slot) | Elsewhere(path: string)

  datatype Record = Record(id: Id, slot: Slot, total: Option<nat>, bytes: nat, expiresAt: int, phase: Phase)
  {
    predicate Counted() { phase in {Downloading, Quarantined, Exported} }
    function File(): Path { InQuarantine(slot) }
  }

  datatype Limits = Limits(maxFile: int, maxProfile: int, expiry: int)

  datatype Quarantine = Quarantine(defaults: Limits, downloads: map<Id, Record>,
                                   index: map<Slot, Id>, limits: map<string, Limits>,
                                   files: map<Path, seq<Byte>>, disposed: bool)

  datatype Outcome =
    | Started(name: string) | Appended(bytes: nat) | Done
    | Oversized | QuotaExceeded | LowDisk | InvalidName | NotFound | AlreadyCompleted | NotCompleted
    | Mismatched | WriteFailed
    | Threw  // the disposed manager, or a file that could not be removed

  function LimitsFor(q: Quarantine, profile: string): Limits {
    if profile in q.limits then q.limits[profile] else q.defaults
  }

  // ---- bytes of a profile ----

  ghost function Sum(downloads: map<Id, Record>, profile: string, ids: set<Id>): nat
    requires ids <= downloads.Keys
  {
    if ids == {} then 0
    else
      var id :| id in ids;
      Sum(downloads, profile, ids - {id}) + Share(downloads[id], profile)
  }

  function Share(r: Record, profile: string): nat {
    if r.slot.profile == profile && r.Counted() then r.bytes else 0
  }

  ghost function ProfileBytes(q: Quarantine, profile: string): nat {
    Sum(q.downloads, profile, q.downloads.Keys)
  }

  lemma {:induction false} SumAdds(downloads: map<Id, Record>, profile: string, ids: set<Id>, id: Id)
    requires ids <= downloads.Keys && id in ids
    ensures Sum(downloads, profile, ids) == Sum(downloads, profile, ids - {id}) + Share(downloads[id], profile)
  {
    var first :| first in ids && Sum(downloads, profile, ids)
                 == Sum(downloads, profile, ids - {first}) + Share(downloads[first], profile);
    if first != id {
      SumAdds(downloads, profile, ids - {first}, id);
      SumAdds(downloads, profile, ids - {id}, first);
      assert ids - {first} - {id} == ids - {id} - {first};
    }
  }

  lemma {:induction false} SumIgnores(a: map<Id, Record>, b: map<Id, Record>, profile: string, ids: set<Id>)
    requires ids <= a.Keys && ids <= b.Keys && forall id | id in ids :: a[id] == b[id]
    ensures Sum(a, profile, ids) == Sum(b, profile, ids)
  {
    if ids != {} {
      var id :| id in ids;
      SumAdds(a, profile, ids, id);
      SumAdds(b, profile, ids, id);
      SumIgnores(a, b, profile, ids - {id});
    }
  }

  // ---- starting ----

  predicate Taken(q: Quarantine, slot: Slot) {
    slot in q.index || InQuarantine(slot) in q.files
  }

  /** The first free name among the suggested one and its numbered variants. */
  function FreeName(q: Quarantine, profile: string, name: string, n: nat): Option<string>
    requires n <= LAST_SUFFIX
    decreases LAST_SUFFIX - n
  {
    if !Taken(q, Slot(profile, Candidate(name, n))) then Some(Candidate(name, n))
    else if n == LAST_SUFFIX then None
    else FreeName(q, profile, name, n + 1)
  }

  /** What the file system does during a start. */
  datatype Disk = Disk(roomy: bool, mkdir: bool, write: bool)

  ghost function StartAs(q: Quarantine, id: Id, profile: string, wanted: string, total: Option<nat>,
                         disk: Disk, now: int): (Quarantine, Outcome)
  {
    var limits := LimitsFor(q, profile);
    if q.disposed then (q, Threw)
    else if total.Some? && total.value > limits.maxFile then (q, Oversized)
    else if ProfileBytes(q, profile) >= limits.maxProfile then (q, QuotaExceeded)
    else if !disk.roomy || !disk.mkdir then (q, LowDisk)
    else
      var name := FreeName(q, profile, wanted, 0);
      if name.None? then (q, InvalidName)
      else if !disk.write then (q, LowDisk)
      else (Store(q, id, Slot(profile, name.value), total, now), Started(name.value))
  }

  ghost function Start(q: Quarantine, id: Id, profile: string, suggested: string, total: Option<nat>,
                       disk: Disk, now: int): (Quarantine, Outcome)
  {
    StartAs(q, id, profile, Normalize(suggested), total, disk, now)
  }

  function Store(q: Quarantine, id: Id, slot: Slot, total: Option<nat>, now: int): Quarantine {
    var record := Record(id, slot, total, 0, now + LimitsFor(q, slot.profile).expiry, Downloading);
    q.(files := q.files[record.File() := []], downloads := q.downloads[id := record], index := q.index[slot := id])
  }

  // ---- removing ----

  function Mark(q: Quarantine, id: Id, phase: Phase): Quarantine
    requires id in q.downloads
  {
    q.(downloads := q.downloads[id := q.downloads[id].(phase := phase)])
  }

  function Forget(q: Quarantine, r: Record): Quarantine {
    q.(downloads := q.downloads - {r.id}, index := q.index - {r.slot})
  }

  function RemoveFile(q: Quarantine, path: Path): Quarantine {
    q.(files := q.files - {path})
  }

  /** A record ends in a phase and goes away with its file, or stays in that phase when the file
      cannot be removed. */
  function End(q: Quarantine, id: Id, phase: Phase, stuck: set<Path>): (Quarantine, bool)
    requires id in q.downloads
  {
    var marked := Mark(q, id, phase);
    var r := marked.downloads[id];
    if r.File() in stuck then (marked, false) else (Forget(RemoveFile(marked, r.File()), r), true)
  }

  // ---- appending ----

  /** How far a failing write got; None when it succeeds. */
  ghost function Append(q: Quarantine, id: Id, data: seq<Byte>, declared: int, broken: Option<nat>,
                        stuck: set<Path>): (Quarantine, Outcome)
  {
    if q.disposed then (q, Threw)
    else if id !in q.downloads then (q, NotFound)
    else
      var r := q.downloads[id];
      var limits := LimitsFor(q, r.slot.profile);
      if r.phase != Downloading then (q, AlreadyCompleted)
      else if |data| != declared then (q, Mismatched)
      else if r.bytes + |data| > limits.maxFile then EndWith(q, id, stuck, Oversized)
      else if ProfileBytes(q, r.slot.profile) + |data| > limits.maxProfile then EndWith(q, id, stuck, QuotaExceeded)
      else if broken.Some? then EndWith(Written(q, r.File(), Prefix(data, broken.value)), id, stuck, WriteFailed)
      else
        (Grow(q, id, data), Appended(r.bytes + |data|))
  }

  function Grow(q: Quarantine, id: Id, data: seq<Byte>): Quarantine
    requires id in q.downloads
  {
    var r := q.downloads[id];
    Written(q, r.File(), data).(downloads := q.downloads[id := r.(bytes := r.bytes + |data|)])
  }

  function Prefix(data: seq<Byte>, n: nat): seq<Byte> {
    if n < |data| then data[..n] else data
  }

  function EndWith(q: Quarantine, id: Id, stuck: set<Path>, outcome: Outcome): (Quarantine, Outcome)
    requires id in q.downloads
  {
    var (after, gone) := End(q, id, Failed, stuck);
    (after, if gone then outcome else Threw)
  }

  function Written(q: Quarantine, path: Path, data: seq<Byte>): Quarantine {
    q.(files := q.files[path := (if path in q.files then q.files[path] else []) + data])
  }

  // ---- the other operations ----

  function Complete(q: Quarantine, id: Id): (Quarantine, Outcome) {
    if q.disposed then (q, Threw)
    else if id !in q.downloads then (q, NotFound)
    else if q.downloads[id].phase != Downloading then (q, AlreadyCompleted)
    else (Mark(q, id, Quarantined), Done)
  }

  /** Handing the bytes to the client; the file stays. */
  function Export(q: Quarantine, id: Id, authorized: bool, readable: bool): (Quarantine, Outcome) {
    if q.disposed || !authorized then (q, Threw)
    else if id !in q.downloads then (q, NotFound)
    else if q.downloads[id].phase !in {Quarantined, Exported} then (q, NotCompleted)
    else if !readable then (q, WriteFailed)
    else (Mark(q, id, Exported), Done)
  }

  function Stop(q: Quarantine, id: Id, phase: Phase, stuck: set<Path>): (Quarantine, Outcome) {
    if id !in q.downloads then (q, NotFound)
    else
      var (after, gone) := End(q, id, phase, stuck);
      (after, if gone then Done else Threw)
  }

  function Clamp(value: int, ceiling: int): int {
    if value <= 0 then MIN_LIMIT
    else
      var capped := if value < ceiling then value else ceiling;
      if capped < MIN_LIMIT then MIN_LIMIT else capped
  }

  function Or(value: Option<int>, otherwise: int): int {
    if value.Some? then value.value else otherwise
  }

  function Configure(q: Quarantine, profile: string, maxFile: Option<int>, maxProfile: Option<int>,
                     expiry: Option<int>): Quarantine
  {
    var current := LimitsFor(q, profile);
    if q.disposed then q
    else
      q.(limits := q.limits[profile := Limits(Clamp(Or(maxFile, current.maxFile), MAX_FILE_CEILING),
                                              Clamp(Or(maxProfile, current.maxProfile), MAX_PROFILE_CEILING),
                                              Or(expiry, current.expiry))])
  }

  /** Records in order, until one whose file cannot be removed. */
  function ExpireEach(q: Quarantine, ids: seq<Id>, now: int, stuck: set<Path>): (Quarantine, bool) {
    if ids == [] then (q, true)
    else
      var (before, ok) := ExpireEach(q, ids[..|ids| - 1], now, stuck);
      var id := ids[|ids| - 1];
      if !ok || id !in before.downloads || before.downloads[id].phase in {Cancelled, Failed}
         || before.downloads[id].expiresAt > now
      then (before, ok)
      else End(before, id, Expired, stuck)
  }

  function PurgeEach(q: Quarantine, ids: seq<Id>, profile: Option<string>, stuck: set<Path>): (Quarantine, bool) {
    if ids == [] then (q, true)
    else
      var (before, ok) := PurgeEach(q, ids[..|ids| - 1], profile, stuck);
      var id := ids[|ids| - 1];
      if !ok || id !in before.downloads || (profile.Some? && before.downloads[id].slot.profile != profile.value)
      then (before, ok)
      else End(before, id, before.downloads[id].phase, stuck)
  }

  function DisposeEach(q: Quarantine, ids: seq<Id>, stuck: set<Path>): Quarantine {
    if ids == [] then q
    else
      var before := DisposeEach(q, ids[..|ids| - 1], stuck);
      var id := ids[|ids| - 1];
      if id !in before.downloads then before
      else
        var r := before.downloads[id];
        Forget(if r.File() in stuck then before else RemoveFile(before, r.File()), r)
  }

  function Dispose(q: Quarantine, ids: seq<Id>, stuck: set<Path>): Quarantine {
    DisposeEach(q.(disposed := true), ids, stuck).(downloads := map[], index := map[])
  }

  // ---- steps ----

  datatype Op =
    | StartOp(id: Id, profile: string, suggested: string, total: Option<nat>, disk: Disk, now: int)
    | AppendOp(id: Id, data: seq<Byte>, declared: int, broken: Option<nat>, stuck: set<Path>)
    | CompleteOp(id: Id)
    | ExportOp(id: Id, authorized: bool, readable: bool)
    | StopOp(id: Id, failed: bool, stuck: set<Path>)  // failed, or cancelled by the owner
    | ConfigureOp(profile: string, maxFile: Option<int>, maxProfile: Option<int>, expiry: Option<int>)
    | ExpireOp(ids: seq<Id>, now: int, stuck: set<Path>)
    | PurgeOp(ids: seq<Id>, only: Option<string>, stuck: set<Path>)
    | DisposeOp(ids: seq<Id>, stuck: set<Path>)

  ghost predicate Lists(q: Quarantine, ids: seq<Id>) {
    && (forall id :: id in ids <==> id in q.downloads)
    && forall i, j | 0 <= i < j < |ids| :: ids[i] != ids[j]
  }

  /** A started download has an id no record uses; the loops visit every record once. */
  ghost predicate Enabled(q: Quarantine, op: Op) {
    match op
    case StartOp(id, _, _, _, _, _) => id !in q.downloads
    case ExpireOp(ids, _, _) => Lists(q, ids)
    case PurgeOp(ids, _, _) => Lists(q, ids)
    case DisposeOp(ids, _) => Lists(q, ids)
    case _ => true
  }

  ghost function Next(q: Quarantine, op: Op): Quarantine {
    match op
    case StartOp(id, profile, suggested, total, disk, now) => Start(q, id, profile, suggested, total, disk, now).0
    case AppendOp(id, data, declared, broken, stuck) => Append(q, id, data, declared, broken, stuck).0
    case CompleteOp(id) => Complete(q, id).0
    case ExportOp(id, authorized, readable) => Export(q, id, authorized, readable).0
    case StopOp(id, failed, stuck) => Stop(q, id, if failed then Failed else Cancelled, stuck).0
    case ConfigureOp(profile, maxFile, maxProfile, expiry) => Configure(q, profile, maxFile, maxProfile, expiry)
    case ExpireOp(ids, now, stuck) => ExpireEach(q, ids, now, stuck).0
    case PurgeOp(ids, only, stuck) => PurgeEach(q, ids, only, stuck).0
    case DisposeOp(ids, stuck) => Dispose(q, ids, stuck)
  }
}
