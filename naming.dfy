/**
 * File names derived by the recorder hooks and the main process:
 * timestamped names built from an ISO-8601 timestamp, and the last
 * `/`-separated segment of a save path.
 */
module Naming {

  /** `iso.slice(0, 19)`: the first 19 characters, or all of a shorter string. */
  function Slice19(iso: string): (r: string)
    ensures |r| == if |iso| < 19 then |iso| else 19
    ensures r == iso[..|r|]
  {
    if |iso| < 19 then iso else iso[..19]
  }

  /** `s.replace(/:/g, '-')`. */
  function ReplaceColons(s: string): (r: string)
    ensures |r| == |s|
    ensures forall i :: 0 <= i < |r| ==> r[i] != ':'
    ensures forall i :: 0 <= i < |s| && s[i] != ':' ==> r[i] == s[i]
    ensures forall i :: 0 <= i < |s| && s[i] == ':' ==> r[i] == '-'
  {
    seq(|s|, i requires 0 <= i < |s| => if s[i] == ':' then '-' else s[i])
  }

  /** `` `${prefix}-${iso.slice(0, 19).replace(/:/g, '-')}.${ext}` `` */
  function TimestampedName(prefix: string, iso: string, ext: string): (r: string)
    ensures |r| == |prefix| + |Slice19(iso)| + |ext| + 2
    ensures r[..|prefix|] == prefix && r[|r| - |ext|..] == ext
    ensures forall i :: |prefix| < i <= |prefix| + |Slice19(iso)| ==> r[i] != ':'
  {
    prefix + "-" + ReplaceColons(Slice19(iso)) + "." + ext
  }

  /** The name of an emergency (autosave) download. */
  function EmergencyName(iso: string): string
  {
    TimestampedName("emergency-save", iso, "webm")
  }

  /** The name of a final download made without a save path. */
  function RecordingName(iso: string): string
  {
    TimestampedName("recording", iso, "webm")
  }

  /** The default name the main process offers in its save dialog. */
  function DialogDefaultName(iso: string): string
  {
    TimestampedName("recording", iso, "wav")
  }

  /** Shape of `Date.prototype.toISOString()` as far as colons go:
      `YYYY-MM-DDTHH:mm:ss...`, colons at positions 13 and 16 and nowhere
      else among the first 19 characters. */
  predicate IsoShaped(iso: string)
  {
    && |iso| >= 19
    && iso[13] == ':' && iso[16] == ':'
    && forall i :: 0 <= i < 19 && i != 13 && i != 16 ==> iso[i] != ':'
  }

  /** The 19-character timestamp field of a name made with `prefix`. */
  function StampField(name: string, prefix: string): string
    requires |name| >= |prefix| + 20
  {
    name[|prefix| + 1 .. |prefix| + 20]
  }

  /** Puts the two time colons back into a 19-character stamp. */
  function RestoreColons(stamp: string): string
    requires |stamp| == 19
  {
    stamp[..13] + ":" + stamp[14..16] + ":" + stamp[17..]
  }

  /** A timestamped name consists of the prefix, a hyphen, 19 colon-free
      characters, a dot and the extension; it contains no colon whenever
      the prefix and the extension contain none. */
  lemma TimestampedNameShape(prefix: string, iso: string, ext: string)
    requires |iso| >= 19
    ensures var name := TimestampedName(prefix, iso, ext);
      && |name| == |prefix| + 21 + |ext|
      && name[..|prefix|] == prefix
      && name[|prefix|] == '-'
      && name[|prefix| + 20] == '.'
      && name[|prefix| + 21..] == ext
      && (':' !in prefix && ':' !in ext ==> ':' !in name)
  {
    var name := TimestampedName(prefix, iso, ext);
    var stamp := ReplaceColons(Slice19(iso));
    assert name == prefix + "-" + stamp + "." + ext;
    if ':' !in prefix && ':' !in ext {
      forall i | 0 <= i < |name| ensures name[i] != ':' {
        if i < |prefix| {
          assert name[i] == prefix[i];
        } else if |prefix| < i < |prefix| + 20 {
          assert name[i] == stamp[i - |prefix| - 1];
        } else if i > |prefix| + 20 {
          assert name[i] == ext[i - |prefix| - 21];
        }
      }
    }
  }

  /** The timestamp in a name made from a well-formed ISO timestamp can be
      read back: restoring the two colons yields the first 19 characters of
      the timestamp. */
  lemma TimestampRoundTrip(prefix: string, iso: string, ext: string)
    requires IsoShaped(iso)
    ensures var name := TimestampedName(prefix, iso, ext);
      |name| >= |prefix| + 20 && RestoreColons(StampField(name, prefix)) == iso[..19]
  {
    TimestampedNameShape(prefix, iso, ext);
    var name := TimestampedName(prefix, iso, ext);
    var stamp := ReplaceColons(Slice19(iso));
    assert StampField(name, prefix) == stamp;
    var back := RestoreColons(stamp);
    assert |back| == 19;
    forall i | 0 <= i < 19 ensures back[i] == iso[i] {
      if i != 13 && i != 16 {
        assert back[i] == stamp[i];
      }
    }
  }

  /** The default save-dialog name is `recording-` followed by 19 colon-free
      timestamp characters and `.wav`: 33 characters, no colon. */
  lemma DialogDefaultNameShape(iso: string)
    requires |iso| >= 19
    ensures var name := DialogDefaultName(iso);
      |name| == 33 && ':' !in name
      && name[..10] == "recording-" && name[29..] == ".wav"
  {
    TimestampedNameShape("recording", iso, "wav");
    var name := DialogDefaultName(iso);
    assert name[..10] == name[..9] + [name[9]];
    assert name[29..] == [name[29]] + name[30..];
  }

  // ---------------------------------------------------------------------
  // `path.split('/')`, and the last segment that `.pop()` returns.

  /** `s.split('/')`: the maximal slash-free segments, in order. */
  function Split(s: string): (parts: seq<string>)
    ensures |parts| >= 1
    ensures forall i :: 0 <= i < |parts| ==> '/' !in parts[i]
  {
    if s == [] then [""]
    else
      var rest := Split(s[1..]);
      if s[0] == '/' then [""] + rest
      else [[s[0]] + rest[0]] + rest[1..]
  }

  /** `parts.join('/')`. */
  function Join(parts: seq<string>): string
    requires |parts| >= 1
  {
    if |parts| == 1 then parts[0] else parts[0] + "/" + Join(parts[1..])
  }

  /** Splitting loses nothing: joining the segments gives back the path. */
  lemma {:induction false} JoinSplit(s: string)
    ensures Join(Split(s)) == s
  {
    if s != [] {
      var rest := Split(s[1..]);
      JoinSplit(s[1..]);
      if s[0] == '/' {
        assert ([""] + rest)[1..] == rest;
      } else {
        var parts := Split(s);
        if |rest| > 1 {
          assert parts[1..] == rest[1..];
        }
      }
    }
  }

  /** A segment without slashes splits into itself. */
  lemma {:induction false} SplitSlashFree(a: string)
    requires '/' !in a
    ensures Split(a) == [a]
  {
    if a != [] {
      SplitSlashFree(a[1..]);
      assert [a[0]] + a[1..] == a;
    }
  }

  /** Splitting a slash-free segment followed by `/` peels off that segment. */
  lemma {:induction false} SplitCons(a: string, b: string)
    requires '/' !in a
    ensures Split(a + "/" + b) == [a] + Split(b)
  {
    if a == [] {
      assert a + "/" + b == "/" + b;
      assert ("/" + b)[1..] == b;
    } else {
      var s := a + "/" + b;
      assert s[1..] == a[1..] + "/" + b;
      SplitCons(a[1..], b);
      assert [a[0]] + a[1..] == a;
    }
  }

  /** Joining slash-free segments and splitting again gives the segments back. */
  lemma {:induction false} SplitJoin(parts: seq<string>)
    requires |parts| >= 1
    requires forall i :: 0 <= i < |parts| ==> '/' !in parts[i]
    ensures Split(Join(parts)) == parts
  {
    if |parts| == 1 {
      SplitSlashFree(parts[0]);
    } else {
      SplitJoin(parts[1..]);
      SplitCons(parts[0], Join(parts[1..]));
      assert [parts[0]] + parts[1..] == parts;
    }
  }

  /** `path.split('/').pop()`: the last segment. */
  function Basename(path: string): (b: string)
    ensures forall i :: 0 <= i < |b| ==> b[i] != '/'
  {
    var parts := Split(path);
    parts[|parts| - 1]
  }

  /** The basename is the suffix of the path after its last `/` (the whole
      path when it has no `/`). */
  lemma {:induction false} BasenameIsLastSegment(path: string)
    ensures var b := Basename(path);
      && '/' !in b
      && |b| <= |path|
      && path[|path| - |b|..] == b
      && (|b| < |path| <==> '/' in path)
      && (|b| < |path| ==> path[|path| - |b| - 1] == '/')
  {
    if path != [] {
      var tail := path[1..];
      var rest := Split(tail);
      BasenameIsLastSegment(tail);
      assert path == [path[0]] + tail;
      if path[0] != '/' && |rest| == 1 {
        JoinSplit(tail);
        assert Split(path) == [path];
      } else if path[0] == '/' {
        assert Split(path) == [""] + rest;
        assert Basename(path) == Basename(tail);
      } else {
        assert Split(path) == [[path[0]] + rest[0]] + rest[1..];
        assert Basename(path) == Basename(tail);
        if '/' !in tail {
          SplitSlashFree(tail);
        }
      }
    }
  }

  /** `currentFilePath.split('/').pop() || 'recording.webm'`. */
  function DownloadName(path: string): (r: string)
    ensures r != "" && '/' !in r
    ensures r == "recording.webm" || (|r| <= |path| && path[|path| - |r|..] == r)
  {
    BasenameIsLastSegment(path);
    var b := Basename(path);
    if b == "" then "recording.webm" else b
  }

  /** The fallback name is used exactly when the path is empty or ends in `/`. */
  lemma DownloadNameFallback(path: string)
    ensures Basename(path) == "" <==> (path == "" || path[|path| - 1] == '/')
  {
    BasenameIsLastSegment(path);
  }
}
