/** Whole histories of the mirror: any number of scans, each leaving a remembered directory and a sink. */
module MirrorHistory {
  import opened LiveTypes
  import opened Mirror

  datatype State = State(known: map<string, nat>, sink: Sink)

  /** The directory as it was: file names and bodies. */
  type Directory = map<string, Body>

  function SizesOf(d: Directory): map<string, nat> {
    map rel | rel in d :: |d[rel]|
  }

  /** A scan that meets a directory at rest and a sink that does what it is asked. */
  function Clean(d: Directory): Scan {
    Scan(SizesOf(d), d, {}, {})
  }

  ghost predicate Follows(prefix: string, s: State, sc: Scan, s': State) {
    s'.known == sc.sizes && Scanned(prefix, s.known, s.sink, sc, s'.sink)
  }

  /** The first scan finds an empty memory and any sink at all: the master manifest if it was written, and
      whatever an earlier session under the same prefix has left. */
  ghost predicate History(prefix: string, scans: seq<Scan>, states: seq<State>) {
    && |states| == |scans| + 1
    && states[0].known == map[]
    && forall k | 0 <= k < |scans| :: Follows(prefix, states[k], scans[k], states[k + 1])
  }

  /** The sink is a plain copy of the directory, plus the master manifest unless the directory has its own. */
  ghost predicate Agrees(prefix: string, master: Body, d: Directory, sink: Sink) {
    && (forall rel :: Lookup(sink, KeyFor(prefix, rel)) ==
          if rel in d then Some(d[rel]) else if rel == MASTER then Some(master) else None)
    && (forall key | Foreign(prefix, key) :: key !in sink)
  }

  /** Files that are not playlists and kept their size kept their contents. */
  ghost predicate SizeTells(d: Directory, d': Directory) {
    forall rel | rel in d && rel in d' && |d[rel]| == |d'[rel]| && !NamedPlaylist(rel) :: d[rel] == d'[rel]
  }

  /** The directory's own master manifest, if it has one, does not go away. */
  ghost predicate MasterStays(d: Directory, d': Directory) {
    MASTER in d ==> MASTER in d'
  }

  lemma CleanFate(d: Directory, d': Directory, rel: string)
    ensures var f := FateOf(SizesOf(d), Clean(d'), rel);
      if rel in d' then
        if rel in d && |d[rel]| == |d'[rel]| && !NamedPlaylist(rel) then f == Kept else f == Stored(d'[rel])
      else f == if rel in d then Removed else Kept
  {
    NamesTell(rel);
    hide IsPlaylist, NamedPlaylist;
  }

  /** One clean scan after another: a sink that agreed with the directory agrees again exactly when size
      told every change of a file that is not a playlist, and no local file of the manifest's name went. */
  lemma CleanScanAgrees(prefix: string, master: Body, d: Directory, d': Directory, sink: Sink, sink': Sink)
    requires Agrees(prefix, master, d, sink)
    requires Scanned(prefix, SizesOf(d), sink, Clean(d'), sink')
    ensures Agrees(prefix, master, d', sink') <==> SizeTells(d, d') && MasterStays(d, d')
  {
    MasterIsPlaylist();
    hide KeyFor, Foreign, FateOf, NamedPlaylist, Clean, SizesOf;
    forall rel ensures
      var right := if rel in d' then Some(d'[rel]) else if rel == MASTER then Some(master) else None;
      Lookup(sink', KeyFor(prefix, rel)) == right <==>
        && (rel in d && rel in d' && |d[rel]| == |d'[rel]| && !NamedPlaylist(rel) ==> d[rel] == d'[rel])
        && (rel == MASTER ==> MasterStays(d, d'))
    {
      CleanFate(d, d', rel);
    }
    assert forall key | Foreign(prefix, key) :: Lookup(sink', key) == Lookup(sink, key);
  }

  lemma MasterIsPlaylist()
    ensures NamedPlaylist(MASTER) && MASTER == "master.m3u8"
  {
  }

  ghost predicate CleanHistory(scans: seq<Scan>, ds: seq<Directory>) {
    && |scans| == |ds|
    && (forall k | 0 <= k < |ds| :: scans[k] == Clean(ds[k]))
    && (forall k | 0 < k < |ds| :: SizeTells(ds[k - 1], ds[k]))
  }

  /** One of the directories up to the `k`th had the file. */
  ghost predicate Occurred(ds: seq<Directory>, rel: string, k: nat)
    requires k < |ds|
  {
    exists j: nat :: j <= k && rel in ds[j]
  }

  /** Failure-free histories, over any initial sink: if size tells every change, then after every scan the
      sink holds of every name the directory's file; nothing if the directory once had the name; and
      otherwise what it held at first. Keys that are no file's stay as they were. */
  lemma {:induction false} CleanHistoryTells(prefix: string, ds: seq<Directory>, scans: seq<Scan>, states: seq<State>, rel: string, k: nat)
    requires History(prefix, scans, states) && CleanHistory(scans, ds) && k < |ds|
    ensures var key := KeyFor(prefix, rel);
      Lookup(states[k + 1].sink, key) ==
        if rel in ds[k] then Some(ds[k][rel]) else if Occurred(ds, rel, k) then None else Lookup(states[0].sink, key)
  {
    hide KeyFor, Scanned, Clean, SizesOf;
    var before: Directory := if k == 0 then map[] else ds[k - 1];
    NothingSeen();
    assert Follows(prefix, states[k], scans[k], states[k + 1]) && states[k].known == SizesOf(before) by {
      assert Follows(prefix, states[k], scans[k], states[k + 1]);
      if k > 0 {
        assert Follows(prefix, states[k - 1], scans[k - 1], states[k]);
        CleanSizes(ds[k - 1]);
      }
    }
    ScanAt(prefix, states[k], scans[k], states[k + 1], rel);
    CleanFate(before, ds[k], rel);
    if k > 0 {
      CleanHistoryTells(prefix, ds, scans, states, rel, k - 1);
      assert SizeTells(ds[k - 1], ds[k]);
      assert Occurred(ds, rel, k) <==> Occurred(ds, rel, k - 1) || rel in ds[k];
    }
  }

  lemma NothingSeen()
    ensures SizesOf(map[]) == map[]
  {
  }

  lemma CleanSizes(d: Directory)
    ensures Clean(d).sizes == SizesOf(d)
  {
  }

  lemma ScanAt(prefix: string, s: State, sc: Scan, s': State, rel: string)
    requires Follows(prefix, s, sc, s')
    ensures var key := KeyFor(prefix, rel); Lookup(s'.sink, key) == After(FateOf(s.known, sc, rel), Lookup(s.sink, key))
  {
  }

  lemma {:induction false} ForeignStays(prefix: string, scans: seq<Scan>, states: seq<State>, key: string, k: nat)
    requires History(prefix, scans, states) && k < |states| && Foreign(prefix, key)
    ensures Lookup(states[k].sink, key) == Lookup(states[0].sink, key)
  {
    if k > 0 {
      ForeignStays(prefix, scans, states, key, k - 1);
      assert Follows(prefix, states[k - 1], scans[k - 1], states[k]);
    }
  }

  /** Mirror agreement, exactly: in a failure-free history in which size tells every change, the sink is after
      a scan a plain copy of the directory plus the master manifest if and only if the manifest was there and
      no local file of its name has come and gone, and every other key there was at first is that of a file
      the directory has had. */
  lemma MirrorAgreement(prefix: string, master: Body, ds: seq<Directory>, scans: seq<Scan>, states: seq<State>, k: nat)
    requires History(prefix, scans, states) && CleanHistory(scans, ds) && k < |ds|
    ensures Agrees(prefix, master, ds[k], states[k + 1].sink) <==>
      && (MASTER in ds[k] || (!Occurred(ds, MASTER, k) && Lookup(states[0].sink, KeyFor(prefix, MASTER)) == Some(master)))
      && (forall rel | rel != MASTER && KeyFor(prefix, rel) in states[0].sink :: Occurred(ds, rel, k))
      && (forall key | Foreign(prefix, key) :: key !in states[0].sink)
  {
    hide KeyFor, Foreign, Follows, SizeTells, Clean, Occurred;
    var sink := states[k + 1].sink;
    forall rel ensures
      Lookup(sink, KeyFor(prefix, rel)) ==
        if rel in ds[k] then Some(ds[k][rel]) else if Occurred(ds, rel, k) then None else Lookup(states[0].sink, KeyFor(prefix, rel))
    {
      CleanHistoryTells(prefix, ds, scans, states, rel, k);
    }
    forall key | Foreign(prefix, key) ensures key in sink <==> key in states[0].sink {
      ForeignStays(prefix, scans, states, key, k + 1);
    }
    assert forall rel | rel in ds[k] :: Occurred(ds, rel, k) by { HasOccurred(ds, k); }
  }

  lemma HasOccurred(ds: seq<Directory>, k: nat)
    requires k < |ds|
    ensures forall rel | rel in ds[k] :: Occurred(ds, rel, k)
  {
  }

  // ---- What the sink holds, file by file ----

  /** What scan `j` of a history does to a file: the mirror remembers the sizes of the scan before. */
  function FateAt(scans: seq<Scan>, j: nat, rel: string): Fate
    requires j < |scans|
  {
    FateOf(if j == 0 then map[] else scans[j - 1].sizes, scans[j], rel)
  }

  /** Scan `j` is the last before `k` that stored or removed the file. */
  ghost predicate TouchedLast(scans: seq<Scan>, rel: string, j: nat, k: nat)
    requires k <= |scans|
  {
    j < k && !FateAt(scans, j, rel).Kept? && forall m | j < m < k :: FateAt(scans, m, rel).Kept?
  }

  /** One scan, one file, told from the scans alone. */
  lemma FateFollows(prefix: string, scans: seq<Scan>, states: seq<State>, rel: string, j: nat)
    requires History(prefix, scans, states) && j < |scans|
    ensures var key := KeyFor(prefix, rel);
      Lookup(states[j + 1].sink, key) == After(FateAt(scans, j, rel), Lookup(states[j].sink, key))
  {
    assert Follows(prefix, states[j], scans[j], states[j + 1]);
    if j > 0 { assert Follows(prefix, states[j - 1], scans[j - 1], states[j]); }
  }

  /** The whole truth about a file: the sink holds what the last scan that touched it did, and if no scan
      touched it, what it held at first. */
  lemma {:induction false} SinkTells(prefix: string, scans: seq<Scan>, states: seq<State>, rel: string, k: nat)
    requires History(prefix, scans, states) && k < |states|
    ensures var held := Lookup(states[k].sink, KeyFor(prefix, rel));
      && (forall j: nat | TouchedLast(scans, rel, j, k) :: held == After(FateAt(scans, j, rel), None))
      && ((forall m: nat | m < k :: FateAt(scans, m, rel).Kept?) ==> held == Lookup(states[0].sink, KeyFor(prefix, rel)))
  {
    hide FateAt, KeyFor;
    if k > 0 {
      SinkTells(prefix, scans, states, rel, k - 1);
      FateFollows(prefix, scans, states, rel, k - 1);
      forall j: nat | TouchedLast(scans, rel, j, k)
        ensures Lookup(states[k].sink, KeyFor(prefix, rel)) == After(FateAt(scans, j, rel), None)
      {
        if j < k - 1 {
          assert FateAt(scans, k - 1, rel).Kept? && TouchedLast(scans, rel, j, k - 1);
        }
      }
    }
  }

  /** The file is in the sink by the last scan that touched it, or was there at first and was not touched. */
  ghost predicate Arrived(there: bool, scans: seq<Scan>, rel: string, k: nat)
    requires k <= |scans|
  {
    || (exists j: nat :: TouchedLast(scans, rel, j, k) && FateAt(scans, j, rel).Stored?)
    || (there && forall m: nat | m < k :: FateAt(scans, m, rel).Kept?)
  }

  lemma {:induction false} SomeTouchedLast(scans: seq<Scan>, rel: string, k: nat)
    requires k <= |scans|
    ensures (forall m: nat | m < k :: FateAt(scans, m, rel).Kept?) || exists j: nat :: TouchedLast(scans, rel, j, k)
  {
    hide FateAt;
    if k > 0 {
      var last := k - 1;
      SomeTouchedLast(scans, rel, last);
      if !FateAt(scans, last, rel).Kept? {
        assert TouchedLast(scans, rel, last, k);
      } else if j: nat :| TouchedLast(scans, rel, j, last) {
        assert TouchedLast(scans, rel, j, k);
      }
    }
  }

  lemma InSinkWhen(prefix: string, scans: seq<Scan>, states: seq<State>, rel: string, k: nat)
    requires History(prefix, scans, states) && k < |states|
    ensures KeyFor(prefix, rel) in states[k].sink <==> Arrived(KeyFor(prefix, rel) in states[0].sink, scans, rel, k)
  {
    hide FateAt, KeyFor, TouchedLast, Follows;
    SinkTells(prefix, scans, states, rel, k);
    SomeTouchedLast(scans, rel, k);
  }

  /** The mirror's promise, first half, exactly: after scan `k - 1` every local file is in the sink if and
      only if for each of them the last scan that touched it stored it, or it was there at first and no scan
      touched it. An upload that failed does not touch the file, and is not tried again before its size moves. */
  lemma PromiseKept(prefix: string, scans: seq<Scan>, states: seq<State>, k: nat)
    requires History(prefix, scans, states) && 0 < k < |states|
    ensures (forall rel | rel in scans[k - 1].sizes :: KeyFor(prefix, rel) in states[k].sink) <==>
            (forall rel | rel in scans[k - 1].sizes :: Arrived(KeyFor(prefix, rel) in states[0].sink, scans, rel, k))
  {
    hide FateAt, KeyFor, TouchedLast, Follows, Arrived;
    forall rel ensures KeyFor(prefix, rel) in states[k].sink <==> Arrived(KeyFor(prefix, rel) in states[0].sink, scans, rel, k) {
      InSinkWhen(prefix, scans, states, rel, k);
    }
  }

  /** Second half, exactly: every file an earlier scan saw and the last one did not is gone from the sink if
      and only if for each of them the last scan that touched it removed it, or none touched it and it was
      not there. A deletion that was refused does not touch the file, and is never tried again. */
  lemma UnlinkedGone(prefix: string, scans: seq<Scan>, states: seq<State>, k: nat)
    requires History(prefix, scans, states) && 0 < k < |states|
    ensures (forall rel | Unlinked(scans, rel, k) :: KeyFor(prefix, rel) !in states[k].sink) <==>
            (forall rel | Unlinked(scans, rel, k) :: !Arrived(KeyFor(prefix, rel) in states[0].sink, scans, rel, k))
  {
    hide FateAt, KeyFor, TouchedLast, Follows, Arrived, Unlinked;
    forall rel ensures KeyFor(prefix, rel) in states[k].sink <==> Arrived(KeyFor(prefix, rel) in states[0].sink, scans, rel, k) {
      InSinkWhen(prefix, scans, states, rel, k);
    }
  }

  ghost predicate Unlinked(scans: seq<Scan>, rel: string, k: nat)
    requires 0 < k <= |scans|
  {
    rel !in scans[k - 1].sizes && exists j: nat :: j < k && rel in scans[j].sizes
  }

  /** No strays: whatever uploads fail and whatever the encoder does to its files, as long as no deletion is
      refused, a file of the mirror that is in the sink is one of the last scan's, or was there at first and
      no scan ever saw it. */
  lemma {:induction false} NoStrayKeys(prefix: string, scans: seq<Scan>, states: seq<State>, rel: string, k: nat)
    requires History(prefix, scans, states) && k < |states|
    requires forall j | 0 <= j < k :: rel !in scans[j].stuck
    requires KeyFor(prefix, rel) in states[k].sink
    ensures rel in states[k].known || (KeyFor(prefix, rel) in states[0].sink && forall j | 0 <= j < k :: rel !in scans[j].sizes)
  {
    if k > 0 {
      assert Follows(prefix, states[k - 1], scans[k - 1], states[k]);
      ScanAt(prefix, states[k - 1], scans[k - 1], states[k], rel);
      hide KeyFor;
      if rel !in states[k].known {
        NoStrayKeys(prefix, scans, states, rel, k - 1);
      }
    }
  }

  /** A refused deletion is not made up for: the scan forgets the file although the sink still holds it. As
      long as the file does not come back, the sink keeps what it had. */
  lemma {:induction false} RefusedDeletionStays(prefix: string, scans: seq<Scan>, states: seq<State>, rel: string, i: nat, k: nat)
    requires History(prefix, scans, states) && i < k < |states|
    requires rel in scans[i].stuck && forall j | i <= j < k :: rel !in scans[j].sizes
    ensures Lookup(states[k].sink, KeyFor(prefix, rel)) == Lookup(states[i].sink, KeyFor(prefix, rel))
  {
    FateFollows(prefix, scans, states, rel, k - 1);
    if i < k - 1 {
      RefusedDeletionStays(prefix, scans, states, rel, i, k - 1);
    }
  }

  /** Such a run: a file is uploaded, goes, and its deletion is refused once; it is still there after the next
      scan, and after any number of further ones like it. */
  lemma LeftBehind(prefix: string, rel: string, body: Body) returns (scans: seq<Scan>, states: seq<State>)
    ensures History(prefix, scans, states) && |scans| == 3 && states[0].sink == map[]
    ensures scans[0] == Clean(map[rel := body]) && scans[1] == Clean(map[]).(stuck := {rel}) && scans[2] == Clean(map[])
    ensures KeyFor(prefix, rel) in states[3].sink
  {
    var d: Directory := map[rel := body];
    var empty: Directory := map[];
    var sink: Sink := map[KeyFor(prefix, rel) := body];
    var s0, s1, s2 := State(map[], map[]), State(SizesOf(d), sink), State(map[], sink);
    scans := [Clean(d), Clean(empty).(stuck := {rel}), Clean(empty)];
    states := [s0, s1, s2, s2];
    OtherKeys(prefix, rel);
    NothingSeen();
    hide KeyFor, Foreign, IsPlaylist;
    assert Follows(prefix, s0, scans[0], s1);
    assert Follows(prefix, s1, scans[1], s2);
    assert Follows(prefix, s2, scans[2], s2);
  }

  /** A file the walk saw in every scan from `i` on is in the sink if and only if it was there before or
      one of these scans stored it. */
  lemma {:induction false} PresentWhen(prefix: string, scans: seq<Scan>, states: seq<State>, rel: string, i: nat, k: nat)
    requires History(prefix, scans, states) && i <= k < |states|
    requires forall j | i <= j < k :: rel in scans[j].sizes
    ensures KeyFor(prefix, rel) in states[k].sink <==>
            KeyFor(prefix, rel) in states[i].sink || exists j: nat :: i <= j < k && FateAt(scans, j, rel).Stored?
  {
    if i < k {
      PresentWhen(prefix, scans, states, rel, i, k - 1);
      FateFollows(prefix, scans, states, rel, k - 1);
      hide KeyFor, History;
      assert !FateAt(scans, k - 1, rel).Removed?;
    }
  }

  /** A failed upload is not made up for: the scan remembers the size although nothing was stored. As long
      as a file that is not a playlist keeps its size, the sink keeps what it had: nothing or an old body. */
  lemma {:induction false} FailedUploadStays(prefix: string, scans: seq<Scan>, states: seq<State>, rel: string, i: nat, k: nat)
    requires History(prefix, scans, states)
    requires i < k < |states| && !NamedPlaylist(rel)
    requires rel in scans[i].sizes && !Readable(scans[i], rel)
    requires forall j | i <= j < k :: rel in scans[j].sizes && scans[j].sizes[rel] == scans[i].sizes[rel]
    ensures Lookup(states[k].sink, KeyFor(prefix, rel)) == Lookup(states[i].sink, KeyFor(prefix, rel))
  {
    NamesTell(rel);
    FateFollows(prefix, scans, states, rel, k - 1);
    hide IsPlaylist, NamedPlaylist;
    if i < k - 1 {
      FailedUploadStays(prefix, scans, states, rel, i, k - 1);
    }
  }

  /** Playlists are always current: in every history, a scan that sees a file whose name ends in ".m3u8", can
      read it, and is not refused leaves its body in the sink, whatever size was remembered. */
  lemma PlaylistCurrent(prefix: string, scans: seq<Scan>, states: seq<State>, rel: string, j: nat)
    requires History(prefix, scans, states) && j < |scans|
    requires |rel| >= 5 && rel[|rel| - 5..] == ".m3u8"
    requires rel in scans[j].sizes && rel in scans[j].bodies && rel !in scans[j].refused
    ensures Lookup(states[j + 1].sink, KeyFor(prefix, rel)) == Some(scans[j].bodies[rel])
  {
    NamesTell(rel);
    FateFollows(prefix, scans, states, rel, j);
  }

  /** The scans saw these directories: their sizes, and the bodies of the files that could be read. */
  ghost predicate Saw(scans: seq<Scan>, ds: seq<Directory>) {
    && |scans| == |ds|
    && (forall j | 0 <= j < |ds| :: scans[j].sizes == SizesOf(ds[j]))
    && (forall j, rel | 0 <= j < |ds| && rel in scans[j].bodies && rel in ds[j] :: scans[j].bodies[rel] == ds[j][rel])
  }

  /** A file that arrived has the body it had at the last scan that stored it, so the copy is current if and
      only if the body is that one again. */
  lemma CurrentWhen(prefix: string, ds: seq<Directory>, scans: seq<Scan>, states: seq<State>, rel: string, j: nat, k: nat)
    requires History(prefix, scans, states) && Saw(scans, ds) && 0 < k < |states|
    requires rel in ds[k - 1] && TouchedLast(scans, rel, j, k) && FateAt(scans, j, rel).Stored?
    ensures rel in ds[j] && Lookup(states[k].sink, KeyFor(prefix, rel)) == Some(ds[j][rel])
    ensures Lookup(states[k].sink, KeyFor(prefix, rel)) == Some(ds[k - 1][rel]) <==> ds[k - 1][rel] == ds[j][rel]
  {
    SinkTells(prefix, scans, states, rel, k);
  }

  /** Where agreement ends: a file named like the master manifest that appears in the directory and goes
      again takes the manifest with it. */
  lemma MasterLost(prefix: string, d: Directory, d': Directory, sink: Sink, sink': Sink)
    requires Scanned(prefix, SizesOf(d), sink, Clean(d'), sink')
    ensures MASTER in d && MASTER !in d' ==> KeyFor(prefix, MASTER) !in sink'
    ensures MASTER !in d && MASTER !in d' ==> Lookup(sink', KeyFor(prefix, MASTER)) == Lookup(sink, KeyFor(prefix, MASTER))
  {
    CleanFate(d, d', MASTER);
    assert Lookup(sink', KeyFor(prefix, MASTER)) ==
      After(FateOf(SizesOf(d), Clean(d'), MASTER), Lookup(sink, KeyFor(prefix, MASTER)));
  }
}
