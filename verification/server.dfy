/** `serveAudioHandler` as a whole (main.go:89-169): resolution against the
    identifier index, then delivery through the audio cache. */
module Server {
  import opened Wrappers
  import opened GoText
  import opened IdentifierIndex
  import opened Resolver
  import opened Delivery

  /** What the handler takes from its surroundings: `MaxLength`, the cache
      directory, and the md5, base64 and speech-synthesis functions. */
  datatype Env = Env(maxLength: int, dir: GoString, md5: GoString -> GoString,
                     decode: GoString -> Option<GoString>, synth: GoString -> Option<seq<byte>>)

  /** One audio request. A rejection by the resolver is answered before any
      directory, file or synthesis step. */
  function Handle(req: Request, index: map<GoString, CacheEntry>, st: Store, env: Env, faults: Faults)
    : (o: Outcome)
    ensures Resolve(req, index, env.decode, env.maxLength).Rejected? ==>
              o == Outcome(Message(RejectionMessage(Resolve(req, index, env.decode, env.maxLength).reason)),
                           st, false)
    ensures o.synthCalled ==> Resolve(req, index, env.decode, env.maxLength).Resolved?
    ensures o.response.Audio? ==>
              var text := Resolve(req, index, env.decode, env.maxLength).text;
              |text| <= env.maxLength &&
              CachePath(env.dir, env.md5, text) in o.store.files &&
              o.store.files[CachePath(env.dir, env.md5, text)] == o.response.bytes
  {
    match Resolve(req, index, env.decode, env.maxLength)
    case Rejected(reason) => Outcome(Message(RejectionMessage(reason)), st, false)
    case Resolved(text) => Deliver(st, env.dir, env.md5, env.synth, text, faults)
  }

  /** Text longer than `MaxLength` bytes gets "Too long" and touches neither
      the file system nor the synthesiser. */
  lemma TooLongHasNoEffect(req: Request, index: map<GoString, CacheEntry>, st: Store, env: Env,
                           faults: Faults)
    requires Candidate(req, index, env.decode).Some?
    requires |Candidate(req, index, env.decode).value| > env.maxLength
    ensures Handle(req, index, st, env, faults) == Outcome(Message("Too long"), st, false)
  {
  }

  /** A literal text requested twice: the first request synthesises, answers
      with the synthesised bytes and caches them; the second is answered
      with byte-identical audio from the cache without synthesis. */
  lemma LiteralTextTwice(b64: GoString, text: GoString, index: map<GoString, CacheEntry>, st: Store,
                         env: Env, g1: GoString, g2: GoString)
    requires b64 != [] && env.decode(b64) == Some(text) && |text| <= env.maxLength
    requires CachePath(env.dir, env.md5, text) !in st.files && env.synth(text).Some?
    ensures var o1 := Handle(Request(b64, g1), index, st, env, NoFaults);
            var o2 := Handle(Request(b64, g2), index, o1.store, env, NoFaults);
            o1.synthCalled && o1.response == Audio(env.synth(text).value) &&
            o1.store.files == st.files[CachePath(env.dir, env.md5, text) := env.synth(text).value] &&
            !o2.synthCalled && o2.response == o1.response && o2.store == o1.store
  {
  }

  /** The handler step by step: resolve, then serve through the file store.
      The index is only read, so an identifier the query handler never
      issued is answered "Unknown md5" without touching the cache. */
  method ServeAudio(idx: Index, fs: FileStore, req: Request, env: Env, faults: Faults)
    returns (response: Response, synthCalled: bool)
    requires idx.Valid()
    modifies fs
    ensures Outcome(response, Store(fs.files, fs.dirs), synthCalled)
            == Handle(req, idx.entries, Store(old(fs.files), old(fs.dirs)), env, faults)
    ensures req.text == [] && req.telegram != [] && req.telegram !in idx.issued ==>
              response == Message("Unknown md5") && !synthCalled &&
              fs.files == old(fs.files) && fs.dirs == old(fs.dirs)
  {
    if req.text == [] && req.telegram != [] && req.telegram !in idx.issued {
      NeverIssuedIsUnknown(req.telegram, idx.entries, idx.issued, env.decode, env.maxLength);
    }
    var resolution := Resolve(req, idx.entries, env.decode, env.maxLength);
    if resolution.Rejected? {
      response := Message(RejectionMessage(resolution.reason));
      synthCalled := false;
      return;
    }
    response, synthCalled := fs.Serve(env.dir, env.md5, env.synth, resolution.text, faults);
  }
}
