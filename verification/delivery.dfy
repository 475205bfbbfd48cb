/** The second half of `serveAudioHandler` (main.go:123-169): the on-disk,
    content-addressed audio cache and the decision between serving a cached
    file and synthesising. The file system is a map from path to bytes plus a
    set of directories; the speech synthesiser is a partial function of the
    text; the failures of `os.Mkdir`, `os.Create` and `os.Open` are given as
    a `Faults` value, since they depend on the machine. */
module Delivery {
  import opened Wrappers
  import opened GoText

  /** What the handler writes to the client: one of its plain-text messages,
      or audio bytes. */
  datatype Response = Message(text: string) | Audio(bytes: seq<byte>)

  /** Which file-system calls fail during one request. */
  datatype Faults = Faults(mkdirFails: bool, createFails: bool, openFails: bool)

  const NoFaults := Faults(false, false, false)

  datatype Store = Store(files: map<GoString, seq<byte>>, dirs: set<GoString>)

  /** A response, the file system after it, and whether the synthesiser was
      asked for audio. */
  datatype Outcome = Outcome(response: Response, store: Store, synthCalled: bool)

  const Slash: GoString := [47]
  /** ".mp3" */
  const Mp3Suffix: GoString := [46, 109, 112, 51]

  /** `path.Join(dir, name)` for a plain file name. */
  function JoinPath(dir: GoString, name: GoString): GoString {
    if dir == [] then name else dir + Slash + name
  }

  /** The cache file of a text (main.go:132): its md5 with the `.mp3`
      suffix, inside the cache directory. */
  function CachePath(dir: GoString, md5: GoString -> GoString, text: GoString): (p: GoString)
    ensures |p| >= |md5(text)| + |Mp3Suffix|
    ensures p[|p| - |Mp3Suffix|..] == Mp3Suffix
    ensures p[|p| - |Mp3Suffix| - |md5(text)|..|p| - |Mp3Suffix|] == md5(text)
    ensures dir != [] ==> |p| > |dir| && p[..|dir|] == dir && p[|dir|] == Slash[0]
  {
    var p := JoinPath(dir, md5(text) + Mp3Suffix);
    var n := if dir == [] then 0 else |dir| + 1;
    assert p[n..] == md5(text) + Mp3Suffix;
    p
  }

  /** Distinct digests give distinct cache files, so two texts share a file
      only when their digests collide. */
  lemma CachePathInjective(dir: GoString, d1: GoString, d2: GoString)
    requires JoinPath(dir, d1 + Mp3Suffix) == JoinPath(dir, d2 + Mp3Suffix)
    ensures d1 == d2
  {
    var p1, p2 := JoinPath(dir, d1 + Mp3Suffix), JoinPath(dir, d2 + Mp3Suffix);
    var n := if dir == [] then 0 else |dir| + 1;
    assert p1[n..] == d1 + Mp3Suffix;
    assert p2[n..] == d2 + Mp3Suffix;
    assert (d1 + Mp3Suffix)[..|d1|] == d1;
    assert (d2 + Mp3Suffix)[..|d2|] == d2;
  }

  /** Cache directory creation (main.go:123-129), then the cache file
      decision (main.go:131-169). On a miss the synthesiser is called; on
      success the file is created, the audio is sent, and the same bytes
      are written to the file. */
  function Deliver(st: Store, dir: GoString, md5: GoString -> GoString,
                   synth: GoString -> Option<seq<byte>>, text: GoString, faults: Faults): (o: Outcome)
    ensures o.synthCalled <==> (dir in st.dirs || !faults.mkdirFails) && CachePath(dir, md5, text) !in st.files
    ensures forall p | p in st.files :: p in o.store.files && o.store.files[p] == st.files[p]
    ensures o.store.files.Keys <= st.files.Keys + {CachePath(dir, md5, text)}
    ensures o.store.dirs == if dir in st.dirs || !faults.mkdirFails then st.dirs + {dir} else st.dirs
    ensures o.response.Audio? ==>
              CachePath(dir, md5, text) in o.store.files &&
              o.store.files[CachePath(dir, md5, text)] == o.response.bytes
    ensures o.response.Audio? ==>
              if CachePath(dir, md5, text) in st.files
              then o.response.bytes == st.files[CachePath(dir, md5, text)]
              else synth(text) == Some(o.response.bytes)
  {
    if dir !in st.dirs && faults.mkdirFails then
      Outcome(Message("Could not create cache directory"), st, false)
    else
      var st1 := st.(dirs := st.dirs + {dir});
      var cacheFilePath := CachePath(dir, md5, text);
      if cacheFilePath !in st.files then
        match synth(text)
        case None => Outcome(Message("Synthesize error"), st1, true)
        case Some(audio) =>
          if faults.createFails then Outcome(Message("Cannot open file (write)"), st1, true)
          else Outcome(Audio(audio), st1.(files := st.files[cacheFilePath := audio]), true)
      else if faults.openFails then
        Outcome(Message("Cannot open file (read)"), st1, false)
      else
        Outcome(Audio(st.files[cacheFilePath]), st1, false)
  }

  /** A hit: the file's bytes are served, nothing is synthesised and the
      file system is unchanged. */
  lemma CacheHit(st: Store, dir: GoString, md5: GoString -> GoString,
                 synth: GoString -> Option<seq<byte>>, text: GoString, faults: Faults)
    requires dir in st.dirs && !faults.openFails
    requires CachePath(dir, md5, text) in st.files
    ensures Deliver(st, dir, md5, synth, text, faults)
              == Outcome(Audio(st.files[CachePath(dir, md5, text)]), st, false)
  {
  }

  /** A miss whose synthesis fails answers "Synthesize error" and leaves
      every file as it was. */
  lemma SynthesisFailure(st: Store, dir: GoString, md5: GoString -> GoString,
                         synth: GoString -> Option<seq<byte>>, text: GoString, faults: Faults)
    requires dir in st.dirs || !faults.mkdirFails
    requires CachePath(dir, md5, text) !in st.files && synth(text).None?
    ensures Deliver(st, dir, md5, synth, text, faults).response == Message("Synthesize error")
    ensures Deliver(st, dir, md5, synth, text, faults).store.files == st.files
  {
  }

  /** A miss whose synthesis succeeds sends exactly the synthesised bytes
      and stores exactly those bytes under the text's cache path. */
  lemma MissStoresWhatItSends(st: Store, dir: GoString, md5: GoString -> GoString,
                              synth: GoString -> Option<seq<byte>>, text: GoString)
    requires CachePath(dir, md5, text) !in st.files && synth(text).Some?
    ensures Deliver(st, dir, md5, synth, text, NoFaults)
              == Outcome(Audio(synth(text).value),
                         Store(st.files[CachePath(dir, md5, text) := synth(text).value], st.dirs + {dir}),
                         true)
  {
  }

  /** Once a text has been answered with audio, asking for it again is a
      hit: the same bytes, no synthesis, no change to the file system. */
  lemma SecondRequestIsHit(st: Store, dir: GoString, md5: GoString -> GoString,
                           synth: GoString -> Option<seq<byte>>, text: GoString, f1: Faults, f2: Faults)
    requires Deliver(st, dir, md5, synth, text, f1).response.Audio?
    requires !f2.openFails
    ensures var o1 := Deliver(st, dir, md5, synth, text, f1);
            Deliver(o1.store, dir, md5, synth, text, f2) == Outcome(o1.response, o1.store, false)
  {
  }

  /** The delivery as written (main.go:144-159): the file is created empty,
      the audio is sent, and `go io.Copy(f, &buf)` then races the deferred
      `f.Close()` that runs as the handler returns; `kept` is how many bytes
      reach the file before it is closed. Everything else is as in
      `Deliver`. */
  function DeliverAsWritten(st: Store, dir: GoString, md5: GoString -> GoString,
                            synth: GoString -> Option<seq<byte>>, text: GoString, faults: Faults,
                            kept: nat): (o: Outcome)
    ensures var d := Deliver(st, dir, md5, synth, text, faults);
            o.response == d.response && o.synthCalled == d.synthCalled && o.store.dirs == d.store.dirs &&
            o.store.files.Keys == d.store.files.Keys
    ensures forall p | p in st.files :: o.store.files[p] == st.files[p]
    ensures CachePath(dir, md5, text) !in st.files && o.response.Audio? ==>
              o.store.files[CachePath(dir, md5, text)] <= o.response.bytes &&
              |o.store.files[CachePath(dir, md5, text)]| == if kept < |o.response.bytes| then kept else |o.response.bytes|
  {
    var d := Deliver(st, dir, md5, synth, text, faults);
    var path := CachePath(dir, md5, text);
    if path !in st.files && d.response.Audio? then
      var n := if kept < |d.response.bytes| then kept else |d.response.bytes|;
      d.(store := d.store.(files := d.store.files[path := d.response.bytes[..n]]))
    else
      d
  }

  /** When the close wins the race, the next request for the text is a hit
      on the truncated file: it is answered with fewer bytes than the first
      one, and with none at all when nothing was copied. */
  lemma TruncatedFileServedAsHit(st: Store, dir: GoString, md5: GoString -> GoString,
                                 synth: GoString -> Option<seq<byte>>, text: GoString, kept: nat)
    requires CachePath(dir, md5, text) !in st.files && synth(text).Some?
    requires kept < |synth(text).value|
    ensures var o1 := DeliverAsWritten(st, dir, md5, synth, text, NoFaults, kept);
            var o2 := DeliverAsWritten(o1.store, dir, md5, synth, text, NoFaults, kept);
            o1.response == Audio(synth(text).value) &&
            o2.response == Audio(synth(text).value[..kept]) && o2.response != o1.response &&
            !o2.synthCalled
  {
    var o1 := DeliverAsWritten(st, dir, md5, synth, text, NoFaults, kept);
    assert o1.store.files[CachePath(dir, md5, text)] == synth(text).value[..kept];
    assert |synth(text).value[..kept]| != |synth(text).value|;
  }

  /** The file system of the audio cache. */
  class FileStore {
    var files: map<GoString, seq<byte>>
    var dirs: set<GoString>

    constructor (files: map<GoString, seq<byte>>, dirs: set<GoString>)
      ensures this.files == files && this.dirs == dirs
    {
      this.files := files;
      this.dirs := dirs;
    }

    /** main.go:123-169, step by step: create the directory if missing,
        probe the cache file, and on a miss synthesise, create the file,
        send the audio, then fill the file from the buffered bytes. */
    method Serve(dir: GoString, md5: GoString -> GoString, synth: GoString -> Option<seq<byte>>,
                 text: GoString, faults: Faults)
      returns (response: Response, synthCalled: bool)
      modifies this
      ensures Outcome(response, Store(files, dirs), synthCalled)
              == Deliver(Store(old(files), old(dirs)), dir, md5, synth, text, faults)
    {
      synthCalled := false;
      if dir !in dirs {
        if faults.mkdirFails {
          response := Message("Could not create cache directory");
          return;
        }
        dirs := dirs + {dir};
      }
      var cacheFilePath := CachePath(dir, md5, text);
      if cacheFilePath !in files {
        synthCalled := true;
        var audio := synth(text);
        if audio.None? {
          response := Message("Synthesize error");
          return;
        }
        if faults.createFails {
          response := Message("Cannot open file (write)");
          return;
        }
        files := files[cacheFilePath := []];
        response := Audio(audio.value);
        files := files[cacheFilePath := audio.value];
        return;
      }
      if faults.openFails {
        response := Message("Cannot open file (read)");
        return;
      }
      response := Audio(files[cacheFilePath]);
    }
  }
}
