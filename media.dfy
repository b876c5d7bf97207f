/**
 * Media tracks and the two operations the controller applies to a stream's
 * track list: adding tracks one by one (`forEach(track => stream.addTrack(track))`)
 * and stopping them one by one (`forEach(track => track.stop())`).
 */
module Media {

  datatype Kind = Audio | Video

  /** A capture track. Stopping it ends it for good; a stopped track stays stopped. */
  class Track {
    const kind: Kind
    var stopped: bool

    constructor (kind: Kind)
      ensures this.kind == kind && !stopped
    {
      this.kind := kind;
      stopped := false;
    }
  }

  /** The tracks of one kind, in stream order (`getVideoTracks()`, `getAudioTracks()`). */
  function OfKind(ts: seq<Track>, k: Kind): seq<Track> {
    if ts == [] then []
    else (if ts[0].kind == k then [ts[0]] else []) + OfKind(ts[1..], k)
  }

  /** The filter keeps exactly the tracks of kind k: every one it returns, and none other. */
  lemma {:induction false} OfKindMembers(ts: seq<Track>, k: Kind)
    ensures forall i :: 0 <= i < |OfKind(ts, k)| ==> OfKind(ts, k)[i] in ts && OfKind(ts, k)[i].kind == k
    ensures forall i :: 0 <= i < |ts| && ts[i].kind == k ==> ts[i] in OfKind(ts, k)
    ensures |OfKind(ts, k)| <= |ts|
  {
    if ts != [] {
      OfKindMembers(ts[1..], k);
      var head := if ts[0].kind == k then [ts[0]] else [];
      forall i | 0 <= i < |ts| && ts[i].kind == k ensures ts[i] in OfKind(ts, k) {
        if i > 0 {
          assert ts[i] == ts[1..][i - 1];
        }
      }
      forall i | 0 <= i < |OfKind(ts, k)| ensures OfKind(ts, k)[i] in ts && OfKind(ts, k)[i].kind == k {
        if i >= |head| {
          assert OfKind(ts, k)[i] == OfKind(ts[1..], k)[i - |head|];
        }
      }
    }
  }

  /** A stream is active while at least one of its tracks has not ended. */
  predicate Active(ts: seq<Track>)
    reads set t | t in ts
  {
    exists i :: 0 <= i < |ts| && !ts[i].stopped
  }

  /** A live track of kind k keeps the tracks of kind k, and any list they begin, active. */
  lemma ActiveOfKind(ts: seq<Track>, k: Kind, i: nat, rest: seq<Track>)
    requires i < |ts| && ts[i].kind == k && !ts[i].stopped
    ensures Active(OfKind(ts, k) + rest)
  {
    OfKindMembers(ts, k);
    var j :| 0 <= j < |OfKind(ts, k)| && OfKind(ts, k)[j] == ts[i];
    assert (OfKind(ts, k) + rest)[j] == ts[i];
  }

  predicate NoDuplicates(ts: seq<Track>) {
    forall i, j :: 0 <= i < j < |ts| ==> ts[i] != ts[j]
  }

  /** `stream.addTrack(t)`: a track already in the stream is not added a second time. */
  function AddTrack(s: seq<Track>, t: Track): seq<Track> {
    if t in s then s else s + [t]
  }

  /** The track list after `ts.forEach(track => stream.addTrack(track))`. */
  function AddAll(s: seq<Track>, ts: seq<Track>): seq<Track> {
    if ts == [] then s else AddTrack(AddAll(s, ts[..|ts| - 1]), ts[|ts| - 1])
  }

  /** The forEach loop that adds each track of `ts` to a stream whose track list is `stream`. */
  method AddTracks(stream: seq<Track>, ts: seq<Track>) returns (r: seq<Track>)
    ensures r == AddAll(stream, ts)
  {
    r := stream;
    var i := 0;
    while i < |ts|
      invariant 0 <= i <= |ts|
      invariant r == AddAll(stream, ts[..i])
    {
      assert ts[..i + 1][..i] == ts[..i];
      r := AddTrack(r, ts[i]);
      i := i + 1;
    }
    assert ts[..i] == ts;
  }

  /** The forEach loop that stops every track of a stream. */
  method StopAll(ts: seq<Track>)
    modifies set t | t in ts
    ensures forall t :: t in ts ==> t.stopped
  {
    var i := 0;
    while i < |ts|
      invariant 0 <= i <= |ts|
      invariant forall j :: 0 <= j < i ==> ts[j].stopped
    {
      ts[i].stopped := true;
      i := i + 1;
    }
  }

  /** After the adds, the stream holds exactly its old tracks and the added ones. */
  lemma {:induction false} AddAllContents(s: seq<Track>, ts: seq<Track>)
    ensures forall t :: t in AddAll(s, ts) <==> t in s || t in ts
  {
    if ts != [] {
      var p := ts[..|ts| - 1];
      AddAllContents(s, p);
      assert ts == p + [ts[|ts| - 1]];
    }
  }

  /** Adding never reorders or drops the tracks the stream already had. */
  lemma {:induction false} AddAllKeepsPrefix(s: seq<Track>, ts: seq<Track>)
    ensures |AddAll(s, ts)| >= |s| && AddAll(s, ts)[..|s|] == s
  {
    if ts != [] {
      AddAllKeepsPrefix(s, ts[..|ts| - 1]);
    }
  }

  /** A stream never lists a track twice. */
  lemma {:induction false} AddAllNoDuplicates(s: seq<Track>, ts: seq<Track>)
    requires NoDuplicates(s)
    ensures NoDuplicates(AddAll(s, ts))
  {
    if ts != [] {
      AddAllNoDuplicates(s, ts[..|ts| - 1]);
    }
  }

  /** With distinct tracks, the adds append them in order. */
  lemma {:induction false} AddAllDistinct(s: seq<Track>, ts: seq<Track>)
    requires NoDuplicates(s + ts)
    ensures AddAll(s, ts) == s + ts
  {
    if ts != [] {
      var p := ts[..|ts| - 1];
      var last := ts[|ts| - 1];
      assert s + ts == (s + p) + [last];
      assert NoDuplicates(s + p) by {
        forall i, j | 0 <= i < j < |s + p| ensures (s + p)[i] != (s + p)[j] {
          assert (s + p)[i] == (s + ts)[i] && (s + p)[j] == (s + ts)[j];
        }
      }
      AddAllDistinct(s, p);
      assert last !in s + p by {
        forall i | 0 <= i < |s + p| ensures (s + p)[i] != last {
          assert (s + p)[i] == (s + ts)[i] && last == (s + ts)[|s + ts| - 1];
        }
      }
    }
  }

  /** Taking the tracks of one kind keeps distinct tracks distinct. */
  lemma {:induction false} OfKindNoDuplicates(ts: seq<Track>, k: Kind)
    requires NoDuplicates(ts)
    ensures NoDuplicates(OfKind(ts, k))
  {
    if ts != [] {
      var rest := OfKind(ts[1..], k);
      OfKindNoDuplicates(ts[1..], k);
      OfKindMembers(ts[1..], k);
      assert ts[0] !in ts[1..] by {
        forall i | 0 <= i < |ts[1..]| ensures ts[1..][i] != ts[0] {
          assert ts[1..][i] == ts[i + 1];
        }
      }
      assert ts[0] !in rest;
    }
  }

  /**
   * On share success the screen stream holds the screen's video tracks
   * followed by the microphone's audio tracks, each in its own order.
   */
  lemma ScreenThenMic(screen: seq<Track>, mic: seq<Track>)
    requires NoDuplicates(screen) && NoDuplicates(mic)
    ensures AddAll(AddAll([], OfKind(screen, Video)), OfKind(mic, Audio))
            == OfKind(screen, Video) + OfKind(mic, Audio)
  {
    var v, a := OfKind(screen, Video), OfKind(mic, Audio);
    OfKindNoDuplicates(screen, Video);
    OfKindNoDuplicates(mic, Audio);
    OfKindMembers(screen, Video);
    OfKindMembers(mic, Audio);
    assert NoDuplicates(v + a) by {
      forall i, j | 0 <= i < j < |v + a| ensures (v + a)[i] != (v + a)[j] {
        if j < |v| {
          assert (v + a)[i] == v[i] && (v + a)[j] == v[j];
        } else if i >= |v| {
          assert (v + a)[i] == a[i - |v|] && (v + a)[j] == a[j - |v|];
        } else {
          assert (v + a)[i].kind == Video && (v + a)[j].kind == Audio;
        }
      }
    }
    assert [] + v == v;
    AddAllDistinct([], v);
    AddAllDistinct(v, a);
  }
}
