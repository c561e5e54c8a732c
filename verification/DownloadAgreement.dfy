/** The records, the index and the files always agree. */
module DownloadAgreement {
  import opened Wrappers
  import opened DownloadNames
  import opened Downloads

  /** Every live record has a file of its length, but for those that a write tore: their file is
      longer, and they can only have failed or been cancelled. */
  ghost predicate RecordsAgree(q: Quarantine, torn: set<Id>) {
    && torn <= q.downloads.Keys
    && forall id | id in q.downloads :: RecordAgrees(q, torn, id)
  }

  ghost predicate RecordAgrees(q: Quarantine, torn: set<Id>, id: Id)
    requires id in q.downloads
  {
    var r := q.downloads[id];
    && r.id == id && Plain(r.slot.name) && r.File() in q.files
    && if id in torn then |q.files[r.File()]| > r.bytes && r.phase in {Failed, Cancelled}
       else |q.files[r.File()]| == r.bytes
  }

  /** The index is the exact inverse of the records. */
  ghost predicate IndexAgrees(q: Quarantine) {
    && (forall id | id in q.downloads :: q.downloads[id].slot in q.index && q.index[q.downloads[id].slot] == id)
    && (forall slot | slot in q.index :: q.index[slot] in q.downloads && q.downloads[q.index[slot]].slot == slot)
  }

  predicate Live(q: Quarantine, path: Path) {
    path.InQuarantine? && path.slot in q.index
  }

  /** The files are the ones that were there before, unchanged, and the live records'. */
  ghost predicate FilesAgree(q: Quarantine, others: map<Path, seq<Byte>>) {
    && (forall path | path in q.files :: path in others || Live(q, path))
    && (forall path | path in others :: path in q.files && q.files[path] == others[path] && !Live(q, path))
  }

  ghost predicate Agrees(q: Quarantine, others: map<Path, seq<Byte>>, torn: set<Id>) {
    && RecordsAgree(q, torn) && IndexAgrees(q) && FilesAgree(q, others)
    && (q.disposed ==> q.downloads == map[])
  }

  /** Different live records have different files. */
  lemma PathsAreDistinct(q: Quarantine, a: Id, b: Id)
    requires IndexAgrees(q) && a in q.downloads && b in q.downloads
    ensures q.downloads[a].File() == q.downloads[b].File() <==> a == b
  {}

  // ---- names ----

  ghost predicate FirstAt(q: Quarantine, profile: string, name: string, n: nat, k: nat, free: string) {
    free == Candidate(name, k) && forall j: nat | n <= j < k :: Taken(q, Slot(profile, Candidate(name, j)))
  }

  lemma FirstFromEarlier(q: Quarantine, profile: string, name: string, n: nat, k: nat, free: string)
    requires FirstAt(q, profile, name, n + 1, k, free) && Taken(q, Slot(profile, Candidate(name, n)))
    ensures FirstAt(q, profile, name, n, k, free)
  {}

  /** A name is free when neither a record nor any file has it, and it is the earliest such one. */
  lemma {:induction false} FreeNameIsFirst(q: Quarantine, profile: string, name: string, n: nat)
    requires n <= LAST_SUFFIX && Plain(name)
    ensures var free := FreeName(q, profile, name, n);
            if free.None? then forall k: nat | n <= k <= LAST_SUFFIX :: Taken(q, Slot(profile, Candidate(name, k)))
            else Plain(free.value) && !Taken(q, Slot(profile, free.value))
                 && exists k: nat :: n <= k <= LAST_SUFFIX && FirstAt(q, profile, name, n, k, free.value)
    decreases LAST_SUFFIX - n
  {
    CandidatesArePlain(name, n);
    if Taken(q, Slot(profile, Candidate(name, n))) && n < LAST_SUFFIX {
      FreeNameIsFirst(q, profile, name, n + 1);
      var free := FreeName(q, profile, name, n + 1);
      if free.Some? {
        var k: nat :| n + 1 <= k <= LAST_SUFFIX && FirstAt(q, profile, name, n + 1, k, free.value);
        FirstFromEarlier(q, profile, name, n, k, free.value);
      }
    } else if !Taken(q, Slot(profile, Candidate(name, n))) {
      assert FirstAt(q, profile, name, n, n, Candidate(name, n));
    }
  }

  // ---- each operation ----

  lemma MarkKeeps(q: Quarantine, id: Id, phase: Phase, others: map<Path, seq<Byte>>, torn: set<Id>)
    requires Agrees(q, others, torn) && id in q.downloads
    requires id in torn ==> phase in {Failed, Cancelled}
    ensures Agrees(Mark(q, id, phase), others, torn)
  {
    var u := Mark(q, id, phase);
    forall k | k in u.downloads ensures RecordAgrees(u, torn, k) { assert RecordAgrees(q, torn, k); }
  }

  lemma DropKeeps(q: Quarantine, id: Id, others: map<Path, seq<Byte>>, torn: set<Id>)
    requires Agrees(q, others, torn) && id in q.downloads
    ensures var r := q.downloads[id]; Agrees(Forget(RemoveFile(q, r.File()), r), others, torn - {id})
  {
    var r := q.downloads[id];
    assert RecordAgrees(q, torn, id);
    DropKeepsRecords(q, id, torn);
    DropKeepsFiles(q, r, others);
  }

  lemma DropKeepsRecords(q: Quarantine, id: Id, torn: set<Id>)
    requires RecordsAgree(q, torn) && IndexAgrees(q) && id in q.downloads && q.downloads[id].id == id
    ensures var r := q.downloads[id]; var u := Forget(RemoveFile(q, r.File()), r);
            RecordsAgree(u, torn - {id}) && IndexAgrees(u)
  {
    var r := q.downloads[id];
    var u := Forget(RemoveFile(q, r.File()), r);
    forall k | k in u.downloads ensures RecordAgrees(u, torn - {id}, k) { assert RecordAgrees(q, torn, k); }
  }

  lemma DropKeepsFiles(q: Quarantine, r: Record, others: map<Path, seq<Byte>>)
    requires FilesAgree(q, others) && r.slot in q.index
    ensures FilesAgree(Forget(RemoveFile(q, r.File()), r), others)
  {}

  /** The torn records that are still live. */
  function Left(q: Quarantine, torn: set<Id>): set<Id> {
    torn * q.downloads.Keys
  }

  lemma EndKeeps(q: Quarantine, id: Id, phase: Phase, stuck: set<Path>, others: map<Path, seq<Byte>>,
                 torn: set<Id>)
    requires Agrees(q, others, torn) && id in q.downloads
    requires id in torn ==> phase in {Failed, Cancelled}
    ensures Agrees(End(q, id, phase, stuck).0, others, Left(End(q, id, phase, stuck).0, torn))
  {
    MarkKeeps(q, id, phase, others, torn);
    var marked := Mark(q, id, phase);
    DropKeeps(marked, id, others, torn);
    assert RecordAgrees(q, torn, id);
    assert torn * marked.downloads.Keys == torn;
    assert torn * (marked.downloads - {id}).Keys == torn - {id};
  }

  lemma StoreKeeps(q: Quarantine, id: Id, slot: Slot, total: Option<nat>, now: int,
                   others: map<Path, seq<Byte>>, torn: set<Id>)
    requires Agrees(q, others, torn) && id !in q.downloads && Plain(slot.name) && !Taken(q, slot) && !q.disposed
    ensures Agrees(Store(q, id, slot, total, now), others, torn)
  {
    var u := Store(q, id, slot, total, now);
    forall k | k in u.downloads ensures RecordAgrees(u, torn, k) {
      if k != id { assert RecordAgrees(q, torn, k); }
    }
    StoreKeepsIndex(q, id, slot, total, now);
    StoreKeepsFiles(q, id, slot, total, now, others);
  }

  lemma StoreKeepsIndex(q: Quarantine, id: Id, slot: Slot, total: Option<nat>, now: int)
    requires IndexAgrees(q) && id !in q.downloads && !Taken(q, slot)
    ensures IndexAgrees(Store(q, id, slot, total, now))
  {}

  lemma StoreKeepsFiles(q: Quarantine, id: Id, slot: Slot, total: Option<nat>, now: int,
                        others: map<Path, seq<Byte>>)
    requires FilesAgree(q, others) && !Taken(q, slot)
    ensures FilesAgree(Store(q, id, slot, total, now), others)
  {}

  lemma StartAsKeeps(q: Quarantine, id: Id, profile: string, wanted: string, total: Option<nat>, disk: Disk,
                     now: int, others: map<Path, seq<Byte>>, torn: set<Id>)
    requires Agrees(q, others, torn) && id !in q.downloads && Plain(wanted)
    ensures Agrees(StartAs(q, id, profile, wanted, total, disk, now).0, others, torn)
  {
    StartShape(q, id, profile, wanted, total, disk, now);
    var u := StartAs(q, id, profile, wanted, total, disk, now).0;
    if u != q {
      var name :| Plain(name) && !Taken(q, Slot(profile, name)) && u == Store(q, id, Slot(profile, name), total, now);
      StoreKeeps(q, id, Slot(profile, name), total, now, others, torn);
    }
  }

  /** A start that changes anything stores an empty record under a free plain name. */
  lemma StartShape(q: Quarantine, id: Id, profile: string, wanted: string, total: Option<nat>, disk: Disk,
                   now: int)
    requires Plain(wanted)
    ensures var u := StartAs(q, id, profile, wanted, total, disk, now).0;
            u == q || (!q.disposed && exists name :: Plain(name) && !Taken(q, Slot(profile, name))
                                                     && u == Store(q, id, Slot(profile, name), total, now))
  {
    FreeNameIsFirst(q, profile, wanted, 0);
  }

  lemma StartKeeps(q: Quarantine, id: Id, profile: string, suggested: string, total: Option<nat>, disk: Disk,
                   now: int, others: map<Path, seq<Byte>>, torn: set<Id>)
    requires Agrees(q, others, torn) && id !in q.downloads
    ensures Agrees(Start(q, id, profile, suggested, total, disk, now).0, others, torn)
  {
    NormalizeIsSafe(suggested);
    StartAsKeeps(q, id, profile, Normalize(suggested), total, disk, now, others, torn);
  }

  /** A download that starts keeps the index exact if and only if no live record uses its id: the
      record it would replace leaves its name behind in the index, and its file on disk. */
  lemma StartAgreesExactlyForANewId(q: Quarantine, id: Id, profile: string, suggested: string,
      total: Option<nat>, disk: Disk, now: int, others: map<Path, seq<Byte>>, torn: set<Id>)
    requires Agrees(q, others, torn) && Start(q, id, profile, suggested, total, disk, now).1.Started?
    ensures IndexAgrees(Start(q, id, profile, suggested, total, disk, now).0) <==> id !in q.downloads
  {
    NormalizeIsSafe(suggested);
    if id in q.downloads {
      StartReusesId(q, id, profile, Normalize(suggested), total, disk, now);
    } else {
      StartKeeps(q, id, profile, suggested, total, disk, now, others, torn);
    }
  }

  lemma StartReusesId(q: Quarantine, id: Id, profile: string, wanted: string, total: Option<nat>, disk: Disk,
                      now: int)
    requires IndexAgrees(q) && id in q.downloads && Plain(wanted)
    requires StartAs(q, id, profile, wanted, total, disk, now).1.Started?
    ensures !IndexAgrees(StartAs(q, id, profile, wanted, total, disk, now).0)
  {
    var name := FreeName(q, profile, wanted, 0);
    FreeNameIsFirst(q, profile, wanted, 0);
    var slot := Slot(profile, name.value);
    assert StartAs(q, id, profile, wanted, total, disk, now).0 == Store(q, id, slot, total, now);
    ReusedId(q, id, slot, total, now);
  }

  lemma ReusedId(q: Quarantine, id: Id, slot: Slot, total: Option<nat>, now: int)
    requires IndexAgrees(q) && id in q.downloads && !Taken(q, slot)
    ensures !IndexAgrees(Store(q, id, slot, total, now))
  {
    var was, u := q.downloads[id].slot, Store(q, id, slot, total, now);
    assert was in u.index && u.index[was] == id && u.downloads[id].slot != was;
  }

  // ---- appends ----

  /** The append reaches a write that fails after some bytes, and the file cannot be removed. */
  ghost predicate Tears(q: Quarantine, id: Id, data: seq<Byte>, declared: int, broken: Option<nat>,
                        stuck: set<Path>)
  {
    && !q.disposed && id in q.downloads && q.downloads[id].phase == Downloading && |data| == declared
    && var r, limits := q.downloads[id], LimitsFor(q, q.downloads[id].slot.profile);
    && r.bytes + |data| <= limits.maxFile
    && ProfileBytes(q, r.slot.profile) + |data| <= limits.maxProfile
    && broken.Some? && Prefix(data, broken.value) != [] && r.File() in stuck
  }

  /** Bytes that reach the file without the record counting them. */
  lemma TornAgrees(q: Quarantine, id: Id, data: seq<Byte>, others: map<Path, seq<Byte>>, torn: set<Id>)
    requires Agrees(q, others, torn) && id in q.downloads && q.downloads[id].phase in {Failed, Cancelled}
    ensures Agrees(Written(q, q.downloads[id].File(), data), others, if data == [] then torn else torn + {id})
  {
    var path := q.downloads[id].File();
    var u, more := Written(q, path, data), if data == [] then torn else torn + {id};
    assert RecordAgrees(q, torn, id);
    assert Live(q, path) && path !in others;
    assert u.files == q.files[path := q.files[path] + data];
    forall k | k in q.downloads ensures RecordAgrees(u, more, k) {
      assert RecordAgrees(q, torn, k);
      PathsAreDistinct(q, k, id);
    }
  }

  lemma SameEnd(q: Quarantine, id: Id, data: seq<Byte>, stuck: set<Path>)
    requires id in q.downloads
    ensures var path, marked := q.downloads[id].File(), Mark(q, id, Failed);
            End(Written(q, path, data), id, Failed, stuck) == End(Written(marked, path, data), id, Failed, stuck)
  {
    var path, marked, r := q.downloads[id].File(), Mark(q, id, Failed), q.downloads[id].(phase := Failed);
    assert marked.downloads[id := r] == marked.downloads;
    assert Mark(Written(q, path, data), id, Failed) == Mark(Written(marked, path, data), id, Failed);
  }

  lemma TornKeeps(q: Quarantine, id: Id, data: seq<Byte>, stuck: set<Path>, others: map<Path, seq<Byte>>,
                  torn: set<Id>)
    requires Agrees(q, others, torn) && id in q.downloads
    ensures var u := End(Written(q, q.downloads[id].File(), data), id, Failed, stuck).0;
            Agrees(u, others, Left(u, if data == [] then torn else torn + {id}))
  {
    var path, marked := q.downloads[id].File(), Mark(q, id, Failed);
    MarkKeeps(q, id, Failed, others, torn);
    TornAgrees(marked, id, data, others, torn);
    EndKeeps(Written(marked, path, data), id, Failed, stuck, others, if data == [] then torn else torn + {id});
    SameEnd(q, id, data, stuck);
  }

  lemma GrowKeepsFiles(q: Quarantine, id: Id, data: seq<Byte>, others: map<Path, seq<Byte>>, torn: set<Id>)
    requires Agrees(q, others, torn) && id in q.downloads
    ensures FilesAgree(Grow(q, id, data), others) && Grow(q, id, data).files.Keys == q.files.Keys
  {
    var path := q.downloads[id].File();
    assert RecordAgrees(q, torn, id);
    assert Live(q, path) && path !in others;
    assert Grow(q, id, data).files == q.files[path := q.files[path] + data];
  }

  lemma GrowKeeps(q: Quarantine, id: Id, data: seq<Byte>, others: map<Path, seq<Byte>>, torn: set<Id>)
    requires Agrees(q, others, torn) && id in q.downloads
    ensures Agrees(Grow(q, id, data), others, torn)
  {
    GrowKeepsFiles(q, id, data, others, torn);
    var u, r := Grow(q, id, data), q.downloads[id];
    assert RecordAgrees(q, torn, id);
    assert u.files == q.files[r.File() := q.files[r.File()] + data];
    forall k | k in u.downloads
      ensures u.downloads[k].slot == q.downloads[k].slot && RecordAgrees(u, torn, k)
    {
      assert RecordAgrees(q, torn, k);
      PathsAreDistinct(q, k, id);
    }
    assert u.index == q.index && u.downloads.Keys == q.downloads.Keys;
  }

  lemma AppendShape(q: Quarantine, id: Id, data: seq<Byte>, declared: int, broken: Option<nat>, stuck: set<Path>)
    requires id in q.downloads
    ensures var u := Append(q, id, data, declared, broken, stuck).0;
            || (u == q && !Tears(q, id, data, declared, broken, stuck))
            || (u == End(q, id, Failed, stuck).0 && !Tears(q, id, data, declared, broken, stuck))
            || (u == Grow(q, id, data) && !Tears(q, id, data, declared, broken, stuck))
            || (broken.Some?
                && u == End(Written(q, q.downloads[id].File(), Prefix(data, broken.value)), id, Failed, stuck).0
                && (Tears(q, id, data, declared, broken, stuck)
                    <==> Prefix(data, broken.value) != [] && q.downloads[id].File() in stuck))
  {}

  /** The torn records after an append. */
  ghost function TornBy(q: Quarantine, id: Id, data: seq<Byte>, declared: int, broken: Option<nat>,
                        stuck: set<Path>, torn: set<Id>): set<Id>
  {
    Left(Append(q, id, data, declared, broken, stuck).0,
         if Tears(q, id, data, declared, broken, stuck) then torn + {id} else torn)
  }

  lemma BrokenKeeps(q: Quarantine, id: Id, data: seq<Byte>, stuck: set<Path>, others: map<Path, seq<Byte>>,
                    torn: set<Id>, tears: bool)
    requires Agrees(q, others, torn) && id in q.downloads
    requires tears <==> data != [] && q.downloads[id].File() in stuck
    ensures var u := End(Written(q, q.downloads[id].File(), data), id, Failed, stuck).0;
            Agrees(u, others, Left(u, if tears then torn + {id} else torn))
  {
    TornKeeps(q, id, data, stuck, others, torn);
    var u := End(Written(q, q.downloads[id].File(), data), id, Failed, stuck).0;
    if data != [] && !tears {
      assert RecordAgrees(q, torn, id);
      assert id !in u.downloads;
      assert Left(u, torn + {id}) == Left(u, torn);
    }
  }

  /** The four things an append can do, whatever decides between them. */
  lemma AppendCases(q: Quarantine, id: Id, data: seq<Byte>, broken: Option<nat>, stuck: set<Path>,
                    others: map<Path, seq<Byte>>, torn: set<Id>, u: Quarantine, tears: bool)
    requires Agrees(q, others, torn) && id in q.downloads
    requires || (u == q && !tears) || (u == End(q, id, Failed, stuck).0 && !tears)
             || (u == Grow(q, id, data) && !tears)
             || (broken.Some?
                 && u == End(Written(q, q.downloads[id].File(), Prefix(data, broken.value)), id, Failed, stuck).0
                 && (tears <==> Prefix(data, broken.value) != [] && q.downloads[id].File() in stuck))
    ensures Agrees(u, others, Left(u, if tears then torn + {id} else torn))
  {
    if !tears && (u == q || u == Grow(q, id, data)) {
      WholeCase(q, id, data, others, torn, u);
    } else if u == End(q, id, Failed, stuck).0 && !tears {
      EndKeeps(q, id, Failed, stuck, others, torn);
    } else {
      BrokenKeeps(q, id, Prefix(data, broken.value), stuck, others, torn, tears);
    }
  }

  lemma WholeCase(q: Quarantine, id: Id, data: seq<Byte>, others: map<Path, seq<Byte>>, torn: set<Id>,
                  u: Quarantine)
    requires Agrees(q, others, torn) && id in q.downloads && (u == q || u == Grow(q, id, data))
    ensures Agrees(u, others, Left(u, torn))
  {
    GrowKeeps(q, id, data, others, torn);
    assert Left(u, torn) == torn by { assert u.downloads.Keys == q.downloads.Keys; }
  }

  lemma AppendKeeps(q: Quarantine, id: Id, data: seq<Byte>, declared: int, broken: Option<nat>,
                    stuck: set<Path>, others: map<Path, seq<Byte>>, torn: set<Id>)
    requires Agrees(q, others, torn)
    ensures Agrees(Append(q, id, data, declared, broken, stuck).0, others,
                   TornBy(q, id, data, declared, broken, stuck, torn))
  {
    if id in q.downloads {
      AppendShape(q, id, data, declared, broken, stuck);
      AppendCases(q, id, data, broken, stuck, others, torn, Append(q, id, data, declared, broken, stuck).0,
                  Tears(q, id, data, declared, broken, stuck));
    } else {
      assert Left(q, torn) == torn;
    }
  }

  predicate LengthDiffers(q: Quarantine, id: Id) {
    id in q.downloads && q.downloads[id].File() in q.files
    && |q.files[q.downloads[id].File()]| != q.downloads[id].bytes
  }

  /** An append makes the length of a live file differ from its record's exactly when it is torn: the
      write fails after some bytes and the file then cannot be removed. */
  lemma AppendBreaksLengthsExactlyWhenTorn(q: Quarantine, id: Id, data: seq<Byte>, declared: int,
      broken: Option<nat>, stuck: set<Path>, others: map<Path, seq<Byte>>, torn: set<Id>)
    requires Agrees(q, others, torn)
    ensures var u := Append(q, id, data, declared, broken, stuck).0;
            (exists k :: k !in torn && LengthDiffers(u, k)) <==> Tears(q, id, data, declared, broken, stuck)
  {
    var u := Append(q, id, data, declared, broken, stuck).0;
    AppendKeeps(q, id, data, declared, broken, stuck, others, torn);
    var after := TornBy(q, id, data, declared, broken, stuck, torn);
    if Tears(q, id, data, declared, broken, stuck) {
      assert RecordAgrees(q, torn, id);
      assert id in u.downloads && id in after && RecordAgrees(u, after, id);
      assert LengthDiffers(u, id);
    }
    forall k | LengthDiffers(u, k) ensures k in after { assert RecordAgrees(u, after, k); }
  }

  /** Such an append: one byte arrives, the write fails, and the file stays. */
  lemma TornAppend()
    ensures var limits := Limits(10, 10, 60);
            var slot := Slot("p", "a");
            var q := Quarantine(limits, map[1 := Record(1, slot, None, 0, 60, Downloading)], map[slot := 1],
                                map[], map[InQuarantine(slot) := []], false);
            var u := Append(q, 1, [7, 8], 2, Some(1), {InQuarantine(slot)}).0;
            && Agrees(q, map[], {}) && 1 in u.downloads
            && |u.files[InQuarantine(slot)]| == u.downloads[1].bytes + 1
  {
    var limits := Limits(10, 10, 60);
    var slot := Slot("p", "a");
    var q := Quarantine(limits, map[1 := Record(1, slot, None, 0, 60, Downloading)], map[slot := 1],
                        map[], map[InQuarantine(slot) := []], false);
    assert q.downloads.Keys == {1};
    SumAdds(q.downloads, "p", {1}, 1);
    assert RecordAgrees(q, {}, 1);
    assert Prefix([7, 8], 1) == [7];
  }

  lemma {:induction false} ExpireKeeps(q: Quarantine, ids: seq<Id>, now: int, stuck: set<Path>,
                                       others: map<Path, seq<Byte>>, torn: set<Id>)
    requires Agrees(q, others, torn)
    ensures var u := ExpireEach(q, ids, now, stuck).0;
            Agrees(u, others, Left(u, torn)) && u.downloads.Keys <= q.downloads.Keys
  {
    if ids == [] {
      assert Left(q, torn) == torn;
    } else {
      ExpireKeeps(q, ids[..|ids| - 1], now, stuck, others, torn);
      var before, id := ExpireEach(q, ids[..|ids| - 1], now, stuck).0, ids[|ids| - 1];
      if id in before.downloads {
        assert RecordAgrees(before, Left(before, torn), id);
        if before.downloads[id].phase !in {Cancelled, Failed} { EndAgain(before, id, Expired, stuck, others, torn); }
      }
    }
  }

  lemma LeftTwice(q: Quarantine, u: Quarantine, torn: set<Id>)
    requires u.downloads.Keys <= q.downloads.Keys
    ensures Left(u, Left(q, torn)) == Left(u, torn)
  {}

  /** One of a row of records ends; a torn one keeps its phase. */
  lemma EndAgain(q: Quarantine, id: Id, phase: Phase, stuck: set<Path>, others: map<Path, seq<Byte>>,
                 torn: set<Id>)
    requires Agrees(q, others, Left(q, torn)) && id in q.downloads
    requires phase == q.downloads[id].phase || q.downloads[id].phase !in {Failed, Cancelled}
    ensures var u := End(q, id, phase, stuck).0;
            Agrees(u, others, Left(u, torn)) && u.downloads.Keys <= q.downloads.Keys
  {
    assert RecordAgrees(q, Left(q, torn), id);
    EndKeeps(q, id, phase, stuck, others, Left(q, torn));
    LeftTwice(q, End(q, id, phase, stuck).0, torn);
  }

  lemma {:induction false} PurgeKeeps(q: Quarantine, ids: seq<Id>, profile: Option<string>, stuck: set<Path>,
                                      others: map<Path, seq<Byte>>, torn: set<Id>)
    requires Agrees(q, others, torn)
    ensures var u := PurgeEach(q, ids, profile, stuck).0;
            Agrees(u, others, Left(u, torn)) && u.downloads.Keys <= q.downloads.Keys
  {
    if ids == [] {
      assert Left(q, torn) == torn;
    } else {
      PurgeKeeps(q, ids[..|ids| - 1], profile, stuck, others, torn);
      var before, id := PurgeEach(q, ids[..|ids| - 1], profile, stuck).0, ids[|ids| - 1];
      if id in before.downloads { EndAgain(before, id, before.downloads[id].phase, stuck, others, torn); }
    }
  }

  // ---- disposal ----

  function Members(ids: seq<Id>): set<Id> {
    set id | id in ids
  }

  /** After some records are disposed of: theirs is gone unless it is stuck. */
  ghost predicate Disposed(q: Quarantine, u: Quarantine, ids: set<Id>, stuck: set<Path>) {
    && u.downloads == q.downloads - ids && u.disposed == q.disposed
    && (forall path | path in u.files :: path in q.files && u.files[path] == q.files[path])
    && forall path | path in q.files ::
         path in u.files <==>
           path in stuck || forall id | id in ids && id in q.downloads :: q.downloads[id].File() != path
  }

  lemma DisposeOne(q: Quarantine, before: Quarantine, id: Id, ids: set<Id>, stuck: set<Path>, torn: set<Id>)
    requires RecordsAgree(q, torn) && Disposed(q, before, ids, stuck)
    ensures var u := if id !in before.downloads then before
                     else var r := before.downloads[id];
                          Forget(if r.File() in stuck then before else RemoveFile(before, r.File()), r);
            Disposed(q, u, ids + {id}, stuck)
  {
    if id in before.downloads {
      assert RecordAgrees(q, torn, id);
      assert before.downloads - {id} == q.downloads - (ids + {id});
    } else {
      assert q.downloads - (ids + {id}) == q.downloads - ids;
    }
  }

  lemma {:induction false} DisposeEffect(q: Quarantine, ids: seq<Id>, stuck: set<Path>, torn: set<Id>)
    requires RecordsAgree(q, torn)
    ensures Disposed(q, DisposeEach(q, ids, stuck), Members(ids), stuck)
  {
    if ids == [] {
      assert q.downloads - Members(ids) == q.downloads;
    } else {
      var front, id := ids[..|ids| - 1], ids[|ids| - 1];
      DisposeEffect(q, front, stuck, torn);
      assert ids == front + [id];
      assert Members(ids) == Members(front) + {id};
      DisposeOne(q, DisposeEach(q, front, stuck), id, Members(front), stuck, torn);
    }
  }

  /** The live files that cannot be removed. */
  function StuckFiles(q: Quarantine, stuck: set<Path>): map<Path, seq<Byte>> {
    map path | path in q.files && Live(q, path) && path in stuck :: q.files[path]
  }

  /** Disposal forgets every record and removes every file it can: what stays on disk, unchanged, is
      exactly what was there before the manager and the live files that could not be removed. */
  lemma DisposalLeavesWhatIsStuck(q: Quarantine, ids: seq<Id>, stuck: set<Path>,
                                  others: map<Path, seq<Byte>>, torn: set<Id>)
    requires Agrees(q, others, torn) && Lists(q, ids)
    ensures var u := Dispose(q, ids, stuck);
            && u.downloads == map[] && u.index == map[] && u.disposed
            && u.files == others + StuckFiles(q, stuck) && Agrees(u, u.files, {})
  {
    var start, u := q.(disposed := true), Dispose(q, ids, stuck);
    forall k | k in start.downloads ensures RecordAgrees(start, torn, k) { assert RecordAgrees(q, torn, k); }
    DisposeEffect(start, ids, stuck, torn);
    forall path | path in q.files ensures path in u.files <==> path in stuck || !Live(q, path) {
      FileOfLive(q, ids, path);
    }
    DisposedFiles(q, u, stuck, others);
  }

  /** The listed records' files are the live ones. */
  lemma FileOfLive(q: Quarantine, ids: seq<Id>, path: Path)
    requires IndexAgrees(q) && Lists(q, ids)
    ensures Live(q, path) <==> exists id :: id in Members(ids) && id in q.downloads && q.downloads[id].File() == path
  {
    if Live(q, path) { assert q.index[path.slot] in Members(ids) && q.index[path.slot] in q.downloads; }
  }

  lemma DisposedFiles(q: Quarantine, u: Quarantine, stuck: set<Path>, others: map<Path, seq<Byte>>)
    requires FilesAgree(q, others)
    requires forall path | path in u.files :: path in q.files && u.files[path] == q.files[path]
    requires forall path | path in q.files :: path in u.files <==> path in stuck || !Live(q, path)
    ensures u.files == others + StuckFiles(q, stuck)
  {
    var all := others + StuckFiles(q, stuck);
    forall path ensures path in u.files <==> path in all {
      if path in others { assert path in q.files && !Live(q, path); }
    }
    forall path | path in u.files ensures u.files[path] == all[path] {}
  }

  /** What an operation leaves to be there besides the live records' files. */
  function OthersAfter(q: Quarantine, op: Op, others: map<Path, seq<Byte>>): map<Path, seq<Byte>> {
    if op.DisposeOp? then others + StuckFiles(q, op.stuck) else others
  }

  ghost function TornAfter(q: Quarantine, op: Op, torn: set<Id>): set<Id> {
    if op.AppendOp? then TornBy(q, op.id, op.data, op.declared, op.broken, op.stuck, torn)
    else Left(Next(q, op), torn)
  }

  /** Every operation keeps the agreement; files that a disposal cannot remove are nobody's after
      it. */
  lemma StepKeeps(q: Quarantine, op: Op, others: map<Path, seq<Byte>>, torn: set<Id>)
    requires Agrees(q, others, torn) && Enabled(q, op)
    ensures Agrees(Next(q, op), OthersAfter(q, op, others), TornAfter(q, op, torn))
  {
    assert Left(q, torn) == torn;
    match op
    case StartOp(id, profile, suggested, total, disk, now) =>
      StartKeeps(q, id, profile, suggested, total, disk, now, others, torn);
      StartLeaves(q, id, profile, Normalize(suggested), total, disk, now, torn);
    case AppendOp(id, data, declared, broken, stuck) =>
      AppendKeeps(q, id, data, declared, broken, stuck, others, torn);
    case CompleteOp(id) => CompleteKeeps(q, id, others, torn);
    case ExportOp(id, authorized, readable) => ExportKeeps(q, id, authorized, readable, others, torn);
    case StopOp(id, failed, stuck) =>
      if id in q.downloads { EndKeeps(q, id, if failed then Failed else Cancelled, stuck, others, torn); }
    case ConfigureOp(profile, maxFile, maxProfile, expiry) =>
      ConfigureKeeps(q, Configure(q, profile, maxFile, maxProfile, expiry), others, torn);
    case ExpireOp(ids, now, stuck) => ExpireKeeps(q, ids, now, stuck, others, torn);
    case PurgeOp(ids, only, stuck) => PurgeKeeps(q, ids, only, stuck, others, torn);
    case DisposeOp(ids, stuck) => DisposalLeavesWhatIsStuck(q, ids, stuck, others, torn);
  }

  lemma StartLeaves(q: Quarantine, id: Id, profile: string, wanted: string, total: Option<nat>, disk: Disk,
                    now: int, torn: set<Id>)
    requires torn <= q.downloads.Keys
    ensures Left(StartAs(q, id, profile, wanted, total, disk, now).0, torn) == torn
  {}

  lemma CompleteKeeps(q: Quarantine, id: Id, others: map<Path, seq<Byte>>, torn: set<Id>)
    requires Agrees(q, others, torn)
    ensures Agrees(Complete(q, id).0, others, torn) && Left(Complete(q, id).0, torn) == torn
  {
    assert Left(q, torn) == torn;
    if id in q.downloads && q.downloads[id].phase == Downloading {
      assert RecordAgrees(q, torn, id);
      MarkKeeps(q, id, Quarantined, others, torn);
      assert Mark(q, id, Quarantined).downloads.Keys == q.downloads.Keys;
    }
  }

  lemma ExportKeeps(q: Quarantine, id: Id, authorized: bool, readable: bool, others: map<Path, seq<Byte>>,
                    torn: set<Id>)
    requires Agrees(q, others, torn)
    ensures Agrees(Export(q, id, authorized, readable).0, others, torn)
    ensures Left(Export(q, id, authorized, readable).0, torn) == torn
  {
    assert Left(q, torn) == torn;
    if id in q.downloads && q.downloads[id].phase in {Quarantined, Exported} {
      assert RecordAgrees(q, torn, id);
      MarkKeeps(q, id, Exported, others, torn);
      assert Mark(q, id, Exported).downloads.Keys == q.downloads.Keys;
    }
  }

  lemma ConfigureKeeps(q: Quarantine, u: Quarantine, others: map<Path, seq<Byte>>, torn: set<Id>)
    requires Agrees(q, others, torn) && u.(limits := q.limits) == q
    ensures Agrees(u, others, torn) && Left(u, torn) == torn
  {
    forall k | k in u.downloads ensures RecordAgrees(u, torn, k) { assert RecordAgrees(q, torn, k); }
  }

  // ---- runs ----

  ghost function After(q: Quarantine, ops: seq<Op>): Quarantine {
    if ops == [] then q else Next(After(q, ops[..|ops| - 1]), ops[|ops| - 1])
  }

  /** The operations can happen in that order. */
  ghost predicate Path(q: Quarantine, ops: seq<Op>) {
    ops != [] ==> Path(q, ops[..|ops| - 1]) && Enabled(After(q, ops[..|ops| - 1]), ops[|ops| - 1])
  }

  /** The live records that some write of the run has torn. */
  ghost function Torn(q: Quarantine, ops: seq<Op>): set<Id> {
    if ops == [] then {}
    else TornAfter(After(q, ops[..|ops| - 1]), ops[|ops| - 1], Torn(q, ops[..|ops| - 1]))
  }

  /** The files that were there before the run, and those left by a disposal. */
  ghost function Others(q: Quarantine, ops: seq<Op>): map<Path, seq<Byte>> {
    if ops == [] then q.files
    else OthersAfter(After(q, ops[..|ops| - 1]), ops[|ops| - 1], Others(q, ops[..|ops| - 1]))
  }

  /** In every run the files are those of the live records and the ones that are nobody's, which
      never change; each live file has the length its record says, unless a write was torn; and the
      index inverts the records. */
  lemma {:induction false} QuarantineAgrees(q: Quarantine, ops: seq<Op>)
    requires q.downloads == map[] && q.index == map[] && Path(q, ops)
    ensures Agrees(After(q, ops), Others(q, ops), Torn(q, ops))
  {
    if ops != [] {
      var front := ops[..|ops| - 1];
      QuarantineAgrees(q, front);
      StepKeeps(After(q, front), ops[|ops| - 1], Others(q, front), Torn(q, front));
    }
  }

  ghost predicate TearsOp(q: Quarantine, op: Op) {
    op.AppendOp? && Tears(q, op.id, op.data, op.declared, op.broken, op.stuck)
  }

  ghost predicate NothingTears(q: Quarantine, ops: seq<Op>) {
    ops != [] ==>
      NothingTears(q, ops[..|ops| - 1]) && !TearsOp(After(q, ops[..|ops| - 1]), ops[|ops| - 1])
  }

  /** While no append is torn, every live record, whatever its phase, has a file of its length. */
  lemma {:induction false} LengthsAgreeUntilTorn(q: Quarantine, ops: seq<Op>, id: Id)
    requires q.downloads == map[] && q.index == map[] && Path(q, ops) && NothingTears(q, ops)
    requires id in After(q, ops).downloads
    ensures var u := After(q, ops);
            u.downloads[id].File() in u.files && |u.files[u.downloads[id].File()]| == u.downloads[id].bytes
  {
    QuarantineAgrees(q, ops);
    NoneTorn(q, ops);
    assert RecordAgrees(After(q, ops), {}, id);
  }

  lemma {:induction false} NoneTorn(q: Quarantine, ops: seq<Op>)
    requires NothingTears(q, ops)
    ensures Torn(q, ops) == {}
  {
    if ops != [] { NoneTorn(q, ops[..|ops| - 1]); }
  }

  /** In no run is a file that an append tore ever handed out: exporting it is refused. */
  lemma {:induction false} TornFilesAreNotExported(q: Quarantine, ops: seq<Op>, id: Id, authorized: bool,
                                                   readable: bool)
    requires q.downloads == map[] && q.index == map[] && Path(q, ops) && id in Torn(q, ops)
    ensures var u := After(q, ops);
            id in u.downloads && u.downloads[id].File() in u.files
            && |u.files[u.downloads[id].File()]| > u.downloads[id].bytes
            && !Export(u, id, authorized, readable).1.Done? && Export(u, id, authorized, readable).0 == u
  {
    QuarantineAgrees(q, ops);
    assert RecordAgrees(After(q, ops), Torn(q, ops), id);
  }

  /** A started download gets a new empty file: a name no record and no file had, with every earlier
      numbered variant taken. */
  lemma StartNeverOverwrites(q: Quarantine, id: Id, profile: string, wanted: string, total: Option<nat>,
                             disk: Disk, now: int)
    requires Plain(wanted) && StartAs(q, id, profile, wanted, total, disk, now).1.Started?
    ensures var (u, outcome) := StartAs(q, id, profile, wanted, total, disk, now);
            var slot := Slot(profile, outcome.name);
            && !Taken(q, slot) && id in u.downloads && u.downloads[id].slot == slot
            && u.downloads[id].bytes == 0 && u.downloads[id].phase == Downloading
            && u.files == q.files[InQuarantine(slot) := []]
            && exists k: nat :: k <= LAST_SUFFIX && FirstAt(q, profile, wanted, 0, k, outcome.name)
  {
    FreeNameIsFirst(q, profile, wanted, 0);
  }

  // ---- limits ----

  lemma GrowAddsBytes(q: Quarantine, id: Id, n: nat)
    requires id in q.downloads && q.downloads[id].Counted()
    ensures var r := q.downloads[id];
            ProfileBytes(q.(downloads := q.downloads[id := r.(bytes := r.bytes + n)]), r.slot.profile)
            == ProfileBytes(q, r.slot.profile) + n
  {
    var r := q.downloads[id];
    var more := q.downloads[id := r.(bytes := r.bytes + n)];
    SumAdds(q.downloads, r.slot.profile, q.downloads.Keys, id);
    SumAdds(more, r.slot.profile, more.Keys, id);
    assert more.Keys == q.downloads.Keys;
    SumIgnores(q.downloads, more, r.slot.profile, q.downloads.Keys - {id});
  }

  /** An accepted append stores exactly its bytes and leaves the file and the profile within the
      limits in force; a refused one for size or quota would have broken a limit, and ends the
      download. */
  lemma AppendsRespectTheLimits(q: Quarantine, id: Id, data: seq<Byte>, declared: int, broken: Option<nat>,
                                stuck: set<Path>, others: map<Path, seq<Byte>>, torn: set<Id>)
    requires Agrees(q, others, torn)
    ensures var (u, outcome) := Append(q, id, data, declared, broken, stuck);
            && (outcome.Appended? ==>
                  id in q.downloads && id in u.downloads &&
                  var r, limits := q.downloads[id], LimitsFor(q, q.downloads[id].slot.profile);
                  && outcome.bytes == u.downloads[id].bytes == r.bytes + |data| <= limits.maxFile
                  && ProfileBytes(u, r.slot.profile) == ProfileBytes(q, r.slot.profile) + |data| <= limits.maxProfile
                  && u.files == q.files[r.File() := q.files[r.File()] + data])
            && (outcome.Oversized? || outcome.QuotaExceeded? ==>
                  id in q.downloads && id !in u.downloads && q.downloads[id].File() !in u.files &&
                  var r, limits := q.downloads[id], LimitsFor(q, q.downloads[id].slot.profile);
                  r.bytes + |data| > limits.maxFile || ProfileBytes(q, r.slot.profile) + |data| > limits.maxProfile)
  {
    if id in q.downloads && q.downloads[id].phase == Downloading {
      assert RecordAgrees(q, torn, id);
      GrowAddsBytes(q, id, |data|);
    }
  }

  predicate Bounded(limits: Limits) {
    MIN_LIMIT <= limits.maxFile <= MAX_FILE_CEILING && MIN_LIMIT <= limits.maxProfile <= MAX_PROFILE_CEILING
  }

  predicate SameLimits(q: Quarantine, u: Quarantine) {
    u.limits == q.limits && u.defaults == q.defaults
  }

  lemma {:induction false} ExpiryKeepsLimits(q: Quarantine, ids: seq<Id>, now: int, stuck: set<Path>)
    ensures SameLimits(q, ExpireEach(q, ids, now, stuck).0)
  {
    if ids != [] { ExpiryKeepsLimits(q, ids[..|ids| - 1], now, stuck); }
  }

  lemma {:induction false} PurgeKeepsLimits(q: Quarantine, ids: seq<Id>, profile: Option<string>, stuck: set<Path>)
    ensures SameLimits(q, PurgeEach(q, ids, profile, stuck).0)
  {
    if ids != [] { PurgeKeepsLimits(q, ids[..|ids| - 1], profile, stuck); }
  }

  lemma {:induction false} DisposalKeepsLimits(q: Quarantine, ids: seq<Id>, stuck: set<Path>)
    ensures SameLimits(q, DisposeEach(q, ids, stuck))
  {
    if ids != [] { DisposalKeepsLimits(q, ids[..|ids| - 1], stuck); }
  }

  lemma StartKeepsLimits(q: Quarantine, id: Id, profile: string, wanted: string, total: Option<nat>,
                         disk: Disk, now: int)
    ensures SameLimits(q, StartAs(q, id, profile, wanted, total, disk, now).0)
  {}

  lemma AppendKeepsLimits(q: Quarantine, id: Id, data: seq<Byte>, declared: int, broken: Option<nat>,
                          stuck: set<Path>)
    ensures SameLimits(q, Append(q, id, data, declared, broken, stuck).0)
  {
    if id in q.downloads { AppendShape(q, id, data, declared, broken, stuck); }
  }

  lemma OnlyConfigureChangesLimits(q: Quarantine, op: Op)
    requires !op.ConfigureOp?
    ensures SameLimits(q, Next(q, op))
  {
    match op
    case StartOp(id, profile, suggested, total, disk, now) =>
      StartKeepsLimits(q, id, profile, Normalize(suggested), total, disk, now);
    case AppendOp(id, data, declared, broken, stuck) => AppendKeepsLimits(q, id, data, declared, broken, stuck);
    case ExpireOp(ids, now, stuck) => ExpiryKeepsLimits(q, ids, now, stuck);
    case PurgeOp(ids, only, stuck) => PurgeKeepsLimits(q, ids, only, stuck);
    case DisposeOp(ids, stuck) => DisposalKeepsLimits(q.(disposed := true), ids, stuck);
    case _ =>
  }

  lemma ConfigureBounds(q: Quarantine, changed: string, maxFile: Option<int>, maxProfile: Option<int>,
                        expiry: Option<int>, profile: string)
    requires Bounded(LimitsFor(q, profile))
    ensures Bounded(LimitsFor(Configure(q, changed, maxFile, maxProfile, expiry), profile))
  {}

  lemma StepKeepsBounds(q: Quarantine, op: Op, profile: string)
    requires Bounded(LimitsFor(q, profile))
    ensures Bounded(LimitsFor(Next(q, op), profile))
  {
    match op
    case ConfigureOp(changed, maxFile, maxProfile, expiry) =>
      ConfigureBounds(q, changed, maxFile, maxProfile, expiry, profile);
    case _ => OnlyConfigureChangesLimits(q, op);
  }

  /** Whatever owners configure, in every run the limits in force for a profile stay between one byte
      and the ceilings. */
  lemma {:induction false} LimitsStayBounded(q: Quarantine, ops: seq<Op>, profile: string)
    requires Bounded(LimitsFor(q, profile))
    ensures Bounded(LimitsFor(After(q, ops), profile))
  {
    if ops != [] {
      var front, op := After(q, ops[..|ops| - 1]), ops[|ops| - 1];
      LimitsStayBounded(q, ops[..|ops| - 1], profile);
      StepKeepsBounds(front, op, profile);
    }
  }

  /** When nothing is stuck, expiry removes exactly the records that are due, except those whose own
      removal already failed. */
  lemma {:induction false} ExpiryRemovesTheDue(q: Quarantine, ids: seq<Id>, now: int)
    ensures var (u, ok) := ExpireEach(q, ids, now, {});
            && ok
            && forall id :: id in u.downloads <==>
                 id in q.downloads && (id !in ids || q.downloads[id].phase in {Cancelled, Failed}
                                       || q.downloads[id].expiresAt > now)
    ensures forall id | id in ExpireEach(q, ids, now, {}).0.downloads ::
              id in q.downloads && ExpireEach(q, ids, now, {}).0.downloads[id] == q.downloads[id]
    requires forall id | id in q.downloads :: q.downloads[id].id == id
  {
    if ids != [] {
      var front, last := ids[..|ids| - 1], ids[|ids| - 1];
      ExpiryRemovesTheDue(q, front, now);
      assert ids == front + [last];
    }
  }
}
