/** The live mirror: it copies the encoder's output directory to a storage sink, file by file, from one
    scan to the next, looking only at file names and sizes. */
module Mirror {
  import opened LiveTypes

  type Body = seq<bv8>
  type Sink = map<string, Body>

  const MASTER := "master.m3u8"

  function EndsWith(s: string, suffix: string): bool {
    |suffix| <= |s| && s[|s| - |suffix|..] == suffix
  }

  predicate IsSegment(rel: string) {
    EndsWith(rel, ".ts") || EndsWith(rel, ".m4s")
  }

  predicate IsPlaylist(rel: string) {
    EndsWith(rel, ".m3u8")
  }

  function KeyFor(prefix: string, rel: string): string {
    if prefix == "" then rel else prefix + "/" + rel
  }

  // ---- Names, by their letters ----

  ghost predicate NamedPlaylist(rel: string) {
    |rel| >= 5 && rel[|rel| - 5..] == ".m3u8"
  }

  ghost predicate NamedSegment(rel: string) {
    (|rel| >= 3 && rel[|rel| - 3..] == ".ts") || (|rel| >= 4 && rel[|rel| - 4..] == ".m4s")
  }

  lemma NamesTell(rel: string)
    ensures IsPlaylist(rel) <==> NamedPlaylist(rel)
    ensures IsSegment(rel) <==> NamedSegment(rel)
  {
  }

  lemma LastLetter(rel: string, suffix: string, c: char)
    requires 0 < |suffix| <= |rel| && rel[|rel| - |suffix|..] == suffix && suffix[|suffix| - 1] == c
    ensures rel[|rel| - 1] == c
  {
    assert rel[|rel| - |suffix|..][|suffix| - 1] == rel[|rel| - 1];
  }

  /** A segment is not a playlist. */
  lemma SegmentIsNoPlaylist(rel: string)
    requires NamedSegment(rel)
    ensures !NamedPlaylist(rel)
  {
    SegmentEndsInS(rel);
    if NamedPlaylist(rel) { LastLetter(rel, ".m3u8", '8'); }
  }

  lemma SegmentEndsInS(rel: string)
    requires NamedSegment(rel)
    ensures |rel| > 0 && rel[|rel| - 1] == 's'
  {
    if |rel| >= 3 && rel[|rel| - 3..] == ".ts" { LastLetter(rel, ".ts", 's'); } else { LastLetter(rel, ".m4s", 's'); }
  }

  /** Every key is the name below the prefix. */
  lemma KeysUnderPrefix(prefix: string, rel: string)
    ensures prefix == "" ==> KeyFor(prefix, rel) == rel
    ensures prefix != "" ==>
      && |KeyFor(prefix, rel)| == |prefix| + 1 + |rel|
      && KeyFor(prefix, rel)[..|prefix|] == prefix && KeyFor(prefix, rel)[|prefix|] == '/'
      && KeyFor(prefix, rel)[|prefix| + 1..] == rel
  {
  }

  /** Two files never share a key. */
  lemma KeysDiffer(prefix: string, a: string, b: string)
    requires KeyFor(prefix, a) == KeyFor(prefix, b)
    ensures a == b
  {
    if prefix != "" {
      assert a == KeyFor(prefix, a)[|prefix| + 1..];
      assert b == KeyFor(prefix, b)[|prefix| + 1..];
    }
  }

  function Lookup(s: Sink, key: string): Option<Body> {
    if key in s then Some(s[key]) else None
  }

  /** What one scan meets: the sizes the walk saw, the bodies that could be opened and read when their
      turn came, and the files whose upload or whose deletion the sink refused. */
  datatype Scan = Scan(sizes: map<string, nat>, bodies: map<string, Body>, refused: set<string>, stuck: set<string>)

  /** A file is uploaded when it is new, its size moved, or it is a playlist. */
  predicate Due(known: map<string, nat>, sc: Scan, rel: string) {
    rel in sc.sizes && !(rel in known && known[rel] == sc.sizes[rel] && !IsPlaylist(rel))
  }

  datatype Fate = Stored(body: Body) | Removed | Kept

  function FateOf(known: map<string, nat>, sc: Scan, rel: string): Fate {
    if Due(known, sc, rel) && rel in sc.bodies && rel !in sc.refused then Stored(sc.bodies[rel])
    else if rel in known && rel !in sc.sizes && rel !in sc.stuck then Removed
    else Kept
  }

  function After(f: Fate, before: Option<Body>): Option<Body> {
    match f
    case Stored(body) => Some(body)
    case Removed => None
    case Kept => before
  }

  /** The sink after a scan: the fate of every file, and nothing else touched. */
  ghost predicate Scanned(prefix: string, known: map<string, nat>, sink: Sink, sc: Scan, sink': Sink) {
    && (forall rel :: Lookup(sink', KeyFor(prefix, rel)) == After(FateOf(known, sc, rel), Lookup(sink, KeyFor(prefix, rel))))
    && (forall key | Foreign(prefix, key) :: Lookup(sink', key) == Lookup(sink, key))
  }

  /** A key no file of this mirror can have. */
  ghost predicate Foreign(prefix: string, key: string) {
    forall rel :: KeyFor(prefix, rel) != key
  }

  /** The result of a scan does not depend on the order in which files are taken. */
  lemma ScanDeterministic(prefix: string, known: map<string, nat>, sink: Sink, sc: Scan, a: Sink, b: Sink)
    requires Scanned(prefix, known, sink, sc, a) && Scanned(prefix, known, sink, sc, b)
    ensures a == b
  {
    forall key ensures Lookup(a, key) == Lookup(b, key) {
      if !Foreign(prefix, key) {
        var rel :| KeyFor(prefix, rel) == key;
      }
    }
    assert forall key :: key in a <==> Lookup(a, key).Some?;
    assert forall key :: key in b <==> Lookup(b, key).Some?;
    assert forall key | key in a :: Lookup(a, key) == Some(a[key]) && Lookup(b, key) == Some(b[key]);
  }

  /** The walk saw the file new, with another size, or as a playlist. */
  ghost predicate SeenAnew(known: map<string, nat>, sc: Scan, rel: string) {
    rel in sc.sizes && (rel !in known || known[rel] != sc.sizes[rel] || NamedPlaylist(rel))
  }

  ghost predicate Readable(sc: Scan, rel: string) {
    rel in sc.bodies && rel !in sc.refused
  }

  /** A file after a scan, from what the walk saw and what went wrong: seen anew it has its current body if it
      could be read and the sink took it; if it went it is gone, if the sink let it go; else it is as before. */
  ghost function Copy(known: map<string, nat>, sc: Scan, rel: string, before: Option<Body>): Option<Body> {
    if SeenAnew(known, sc, rel) && Readable(sc, rel) then Some(sc.bodies[rel])
    else if rel in known && rel !in sc.sizes && rel !in sc.stuck then None
    else before
  }

  /** The sink after a scan, file by file; keys that are no file's are untouched. */
  ghost predicate Copied(prefix: string, known: map<string, nat>, sink: Sink, sc: Scan, sink': Sink) {
    && (forall rel :: Lookup(sink', KeyFor(prefix, rel)) == Copy(known, sc, rel, Lookup(sink, KeyFor(prefix, rel))))
    && (forall key | Foreign(prefix, key) :: Lookup(sink', key) == Lookup(sink, key))
  }

  lemma FateTells(known: map<string, nat>, sc: Scan, rel: string)
    ensures FateOf(known, sc, rel).Stored? <==> SeenAnew(known, sc, rel) && Readable(sc, rel)
    ensures forall before :: After(FateOf(known, sc, rel), before) == Copy(known, sc, rel, before)
  {
    NamesTell(rel);
    hide IsPlaylist, NamedPlaylist;
  }

  lemma ScannedIsCopied(prefix: string, known: map<string, nat>, sink: Sink, sc: Scan, sink': Sink)
    ensures Scanned(prefix, known, sink, sc, sink') <==> Copied(prefix, known, sink, sc, sink')
  {
    hide FateOf, After, Copy, Foreign, KeyFor, Lookup;
    forall rel, before ensures After(FateOf(known, sc, rel), before) == Copy(known, sc, rel, before) {
      FateTells(known, sc, rel);
    }
  }

  /** `key` is that of a segment the scan saw new or with another size, read, and stored. */
  ghost predicate NewSegment(prefix: string, known: map<string, nat>, sc: Scan, key: string) {
    exists rel :: key == KeyFor(prefix, rel) && NamedSegment(rel) && Readable(sc, rel)
                  && rel in sc.sizes && (rel !in known || known[rel] != sc.sizes[rel])
  }

  lemma SegmentsTell(prefix: string, known: map<string, nat>, sc: Scan, key: string)
    ensures UploadedSegment(prefix, known, sc, key) <==> NewSegment(prefix, known, sc, key)
  {
    if rel :| key == KeyFor(prefix, rel) && IsSegment(rel) && FateOf(known, sc, rel).Stored? {
      NamesTell(rel);
      FateTells(known, sc, rel);
      SegmentIsNoPlaylist(rel);
      assert key == KeyFor(prefix, rel) && NamedSegment(rel) && Readable(sc, rel);
    }
    if rel :| key == KeyFor(prefix, rel) && NamedSegment(rel) && Readable(sc, rel)
              && rel in sc.sizes && (rel !in known || known[rel] != sc.sizes[rel]) {
      NamesTell(rel);
      FateTells(known, sc, rel);
      assert key == KeyFor(prefix, rel) && IsSegment(rel) && FateOf(known, sc, rel).Stored?;
    }
  }

  // ---- The mirror as it runs ----

  class LiveMirror {
    const prefix: string
    var known: map<string, nat>
    var sink: Sink
    var segments: seq<string>

    constructor (prefix: string, sink: Sink)
      ensures this.prefix == prefix && known == map[] && this.sink == sink && segments == []
    {
      this.prefix := prefix;
      known := map[];
      this.sink := sink;
      segments := [];
    }

    method UploadOne(sc: Scan, rel: string)
      modifies this`sink, this`segments
      ensures var landed := rel in sc.bodies && rel !in sc.refused;
        && sink == (if landed then old(sink)[KeyFor(prefix, rel) := sc.bodies[rel]] else old(sink))
        && segments == (if landed && IsSegment(rel) then old(segments) + [KeyFor(prefix, rel)] else old(segments))
    {
      if rel in sc.bodies && rel !in sc.refused {
        sink := sink[KeyFor(prefix, rel) := sc.bodies[rel]];
        if IsSegment(rel) {
          segments := segments + [KeyFor(prefix, rel)];
        }
      }
    }

    /** Upload what is due, taking the files in any order. */
    method Uploads(sc: Scan)
      modifies this`sink, this`segments
      ensures Uploaded(prefix, known, sc, sc.sizes.Keys, old(sink), sink)
      ensures Listed(prefix, known, sc, sc.sizes.Keys, old(segments), segments)
    {
      hide Uploaded, Listed, KeyFor, IsSegment, IsPlaylist;
      var todo := sc.sizes.Keys;
      ghost var done: set<string> := {};
      NothingUploaded(prefix, known, sc, sink, segments);
      while todo != {}
        invariant todo + done == sc.sizes.Keys && todo !! done
        invariant Uploaded(prefix, known, sc, done, old(sink), sink)
        invariant Listed(prefix, known, sc, done, old(segments), segments)
        decreases |todo|
      {
        var rel :| rel in todo;
        ghost var sink0, segments0 := sink, segments;
        if Due(known, sc, rel) {
          UploadOne(sc, rel);
        }
        UploadStep(prefix, known, sc, rel, done, old(sink), sink0, sink);
        ListStep(prefix, known, sc, rel, done, old(segments), segments0, segments);
        todo := todo - {rel};
        done := done + {rel};
      }
      assert done == sc.sizes.Keys;
    }

    /** Delete what the walk no longer saw, in any order. */
    method Deletions(sc: Scan)
      modifies this`sink
      ensures Deleted(prefix, known, sc, known.Keys, old(sink), sink)
    {
      hide Deleted, KeyFor;
      var todo := known.Keys;
      ghost var done: set<string> := {};
      NothingDeleted(prefix, known, sc, sink);
      while todo != {}
        invariant todo + done == known.Keys && todo !! done
        invariant Deleted(prefix, known, sc, done, old(sink), sink)
        decreases |todo|
      {
        var rel :| rel in todo;
        ghost var sink0 := sink;
        if rel !in sc.sizes && rel !in sc.stuck {
          sink := sink - {KeyFor(prefix, rel)};
        }
        DeleteStep(prefix, known, sc, rel, done, old(sink), sink0, sink);
        todo := todo - {rel};
        done := done + {rel};
      }
      assert done == known.Keys;
    }

    /** `scanOnce`. The new sizes are remembered whether or not the uploads went through. */
    method ScanOnce(sc: Scan)
      modifies this
      ensures known == sc.sizes
      ensures Scanned(prefix, old(known), old(sink), sc, sink) && Copied(prefix, old(known), old(sink), sc, sink)
      ensures forall key :: key in segments <==> key in old(segments) || NewSegment(prefix, old(known), sc, key)
    {
      hide Uploaded, Deleted, Scanned, Copied, Listed, UploadedSegment, NewSegment;
      ghost var known0, sink0 := known, sink;
      ghost var segments0 := segments;
      Uploads(sc);
      ghost var sink1 := sink;
      Deletions(sc);
      BothPasses(prefix, known0, sc, sink0, sink1, sink);
      ScannedIsCopied(prefix, known0, sink0, sc, sink);
      AllListed(prefix, known0, sc, segments0, segments);
      forall key ensures UploadedSegment(prefix, known0, sc, key) <==> NewSegment(prefix, known0, sc, key) {
        SegmentsTell(prefix, known0, sc, key);
      }
      known := sc.sizes;
    }

    /** The keys of all segments ever uploaded, once each, in the order of their first upload. */
    method Segments() returns (out: seq<string>)
      ensures out == FirstOccurrences(segments)
    {
      var seen: set<string> := {};
      out := [];
      for i := 0 to |segments|
        invariant out == FirstOccurrences(segments[..i])
        invariant forall k :: k in seen <==> k in out
      {
        assert segments[..i + 1][..i] == segments[..i];
        if segments[i] !in seen {
          seen := seen + {segments[i]};
          out := out + [segments[i]];
        }
      }
      assert segments[..|segments|] == segments;
    }
  }

  // ---- The two passes of a scan, file by file ----

  /** The files in `done` have been taken by the upload pass. */
  ghost predicate Uploaded(prefix: string, known: map<string, nat>, sc: Scan, done: set<string>, sink: Sink, sink': Sink) {
    && (forall rel ::
          Lookup(sink', KeyFor(prefix, rel)) ==
          var f := FateOf(known, sc, rel);
          if f.Stored? && rel in done then Some(f.body) else Lookup(sink, KeyFor(prefix, rel)))
    && (forall key | Foreign(prefix, key) :: Lookup(sink', key) == Lookup(sink, key))
  }

  /** The files in `done` have been taken by the deletion pass. */
  ghost predicate Deleted(prefix: string, known: map<string, nat>, sc: Scan, done: set<string>, sink: Sink, sink': Sink) {
    && (forall rel ::
          Lookup(sink', KeyFor(prefix, rel)) ==
          if FateOf(known, sc, rel).Removed? && rel in done then None else Lookup(sink, KeyFor(prefix, rel)))
    && (forall key | Foreign(prefix, key) :: Lookup(sink', key) == Lookup(sink, key))
  }

  ghost predicate SegmentAmong(prefix: string, known: map<string, nat>, sc: Scan, done: set<string>, key: string) {
    exists rel :: rel in done && key == KeyFor(prefix, rel) && IsSegment(rel) && FateOf(known, sc, rel).Stored?
  }

  /** `key` is that of a segment this scan uploads. */
  ghost predicate UploadedSegment(prefix: string, known: map<string, nat>, sc: Scan, key: string) {
    exists rel :: key == KeyFor(prefix, rel) && IsSegment(rel) && FateOf(known, sc, rel).Stored?
  }

  /** The segments among the files in `done` have been put on the list. */
  ghost predicate Listed(prefix: string, known: map<string, nat>, sc: Scan, done: set<string>, list: seq<string>, list': seq<string>) {
    forall key :: key in list' <==> key in list || SegmentAmong(prefix, known, sc, done, key)
  }

  lemma NothingUploaded(prefix: string, known: map<string, nat>, sc: Scan, sink: Sink, list: seq<string>)
    ensures Uploaded(prefix, known, sc, {}, sink, sink)
    ensures Listed(prefix, known, sc, {}, list, list)
  {
  }

  lemma NothingDeleted(prefix: string, known: map<string, nat>, sc: Scan, sink: Sink)
    ensures Deleted(prefix, known, sc, {}, sink, sink)
  {
  }

  lemma OtherKeys(prefix: string, rel: string)
    ensures forall r | r != rel :: KeyFor(prefix, r) != KeyFor(prefix, rel)
    ensures !Foreign(prefix, KeyFor(prefix, rel))
  {
    forall r | r != rel ensures KeyFor(prefix, r) != KeyFor(prefix, rel) {
      if KeyFor(prefix, r) == KeyFor(prefix, rel) { KeysDiffer(prefix, r, rel); }
    }
  }

  lemma UploadStep(prefix: string, known: map<string, nat>, sc: Scan, rel: string, done: set<string>, sink: Sink, sink0: Sink, sink1: Sink)
    requires rel !in done && Uploaded(prefix, known, sc, done, sink, sink0)
    requires sink1 == if Due(known, sc, rel) && rel in sc.bodies && rel !in sc.refused
                      then sink0[KeyFor(prefix, rel) := sc.bodies[rel]] else sink0
    ensures Uploaded(prefix, known, sc, done + {rel}, sink, sink1)
  {
    OtherKeys(prefix, rel);
    hide KeyFor, Foreign, Due;
  }

  lemma ListStep(prefix: string, known: map<string, nat>, sc: Scan, rel: string, done: set<string>,
                 list: seq<string>, list0: seq<string>, list1: seq<string>)
    requires Listed(prefix, known, sc, done, list, list0)
    requires list1 == if Due(known, sc, rel) && rel in sc.bodies && rel !in sc.refused && IsSegment(rel)
                      then list0 + [KeyFor(prefix, rel)] else list0
    ensures Listed(prefix, known, sc, done + {rel}, list, list1)
  {
    hide IsSegment, KeyFor, Due;
    forall key ensures key in list1 <==> key in list || SegmentAmong(prefix, known, sc, done + {rel}, key) {
      if SegmentAmong(prefix, known, sc, done, key) {
        var r :| r in done && key == KeyFor(prefix, r) && IsSegment(r) && FateOf(known, sc, r).Stored?;
        assert r in done + {rel};
      }
      if key == KeyFor(prefix, rel) && IsSegment(rel) && FateOf(known, sc, rel).Stored? {
        assert rel in done + {rel};
      }
    }
  }

  lemma AllListed(prefix: string, known: map<string, nat>, sc: Scan, list: seq<string>, list': seq<string>)
    requires Listed(prefix, known, sc, sc.sizes.Keys, list, list')
    ensures forall key :: key in list' <==> key in list || UploadedSegment(prefix, known, sc, key)
  {
    hide IsSegment, KeyFor;
    forall key | UploadedSegment(prefix, known, sc, key) ensures SegmentAmong(prefix, known, sc, sc.sizes.Keys, key) {
      var rel :| key == KeyFor(prefix, rel) && IsSegment(rel) && FateOf(known, sc, rel).Stored?;
      assert rel in sc.sizes.Keys;
    }
  }

  lemma DeleteStep(prefix: string, known: map<string, nat>, sc: Scan, rel: string, done: set<string>, sink: Sink, sink0: Sink, sink1: Sink)
    requires rel in known && rel !in done && Deleted(prefix, known, sc, done, sink, sink0)
    requires sink1 == if rel !in sc.sizes && rel !in sc.stuck then sink0 - {KeyFor(prefix, rel)} else sink0
    ensures Deleted(prefix, known, sc, done + {rel}, sink, sink1)
  {
    OtherKeys(prefix, rel);
    hide KeyFor, Foreign;
  }

  lemma BothPasses(prefix: string, known: map<string, nat>, sc: Scan, sink: Sink, sink1: Sink, sink2: Sink)
    requires Uploaded(prefix, known, sc, sc.sizes.Keys, sink, sink1)
    requires Deleted(prefix, known, sc, known.Keys, sink1, sink2)
    ensures Scanned(prefix, known, sink, sc, sink2)
  {
    hide KeyFor, Foreign, Lookup, Due;
    forall rel ensures Lookup(sink2, KeyFor(prefix, rel)) == After(FateOf(known, sc, rel), Lookup(sink, KeyFor(prefix, rel))) {
      match FateOf(known, sc, rel)
      case Stored(_) => FateStored(known, sc, rel);
      case Removed => assert rel in known.Keys;
      case Kept =>
    }
  }

  lemma FateStored(known: map<string, nat>, sc: Scan, rel: string)
    requires FateOf(known, sc, rel).Stored?
    ensures rel in sc.sizes
  {
  }

  // ---- The recording list ----

  function FirstOccurrences(s: seq<string>): seq<string> {
    if s == [] then []
    else
      var init := FirstOccurrences(s[..|s| - 1]);
      if s[|s| - 1] in init then init else init + [s[|s| - 1]]
  }

  /** `a` occurs in `s` before `b` does. */
  ghost predicate Before(s: seq<string>, a: string, b: string) {
    exists p :: 0 <= p < |s| && s[p] == a && b !in s[..p + 1]
  }

  /** `out` has the entries of `s`, each once, by first occurrence. */
  ghost predicate Condenses(s: seq<string>, out: seq<string>) {
    && (forall x :: x in out <==> x in s)
    && (forall i, j | 0 <= i < j < |out| :: out[i] != out[j])
    && (forall i, j | 0 <= i < j < |out| :: Before(s, out[i], out[j]))
  }

  /** The list handed to the recording bridge has every uploaded segment, each once, by first upload. */
  lemma {:induction false} FirstOccurrencesOnce(s: seq<string>)
    ensures Condenses(s, FirstOccurrences(s))
  {
    if s != [] {
      var init, last := s[..|s| - 1], s[|s| - 1];
      FirstOccurrencesOnce(init);
      assert s == init + [last];
      CondenseStep(init, last, FirstOccurrences(init));
    }
  }

  lemma CondenseStep(s: seq<string>, x: string, out: seq<string>)
    requires Condenses(s, out)
    ensures Condenses(s + [x], if x in out then out else out + [x])
  {
    var out' := if x in out then out else out + [x];
    forall i, j | 0 <= i < j < |out'| ensures Before(s + [x], out'[i], out'[j]) {
      if j < |out| {
        assert Before(s, out[i], out[j]);
        BeforeExtends(s, x, out[i], out[j]);
      } else {
        assert out[i] in s;
        var p :| 0 <= p < |s| && s[p] == out[i];
        assert (s + [x])[..p + 1] == s[..p + 1] && (s + [x])[p] == out[i];
      }
    }
  }

  lemma BeforeExtends(s: seq<string>, x: string, a: string, b: string)
    requires Before(s, a, b)
    ensures Before(s + [x], a, b)
  {
    var p :| 0 <= p < |s| && s[p] == a && b !in s[..p + 1];
    assert (s + [x])[..p + 1] == s[..p + 1] && (s + [x])[p] == a;
  }
}
