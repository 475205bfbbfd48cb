/** The first half of `serveAudioHandler` (main.go:89-121): the `text` and
    `telegram` query parameters, the identifier index and `MaxLength` decide
    which text is spoken, or which plain-text error answers the request. The
    base64 decoder is a parameter: `None` is a decoding error. */
module Resolver {
  import opened Wrappers
  import opened GoText
  import opened IdentifierIndex

  /** The two query parameters; `Query().Get` yields "" for a missing one. */
  datatype Request = Request(text: GoString, telegram: GoString)

  datatype Rejection = Base64DecodeError | InvalidRequest | UnknownMd5 | TooLong

  datatype Resolution = Resolved(text: GoString) | Rejected(reason: Rejection)

  /** The body written for each rejection. */
  function RejectionMessage(rej: Rejection): (r: string)
    ensures r == "Base64 decode error" <==> rej == Base64DecodeError
    ensures r == "Invalid request" <==> rej == InvalidRequest
    ensures r == "Unknown md5" <==> rej == UnknownMd5
    ensures r == "Too long" <==> rej == TooLong
  {
    match rej
    case Base64DecodeError => "Base64 decode error"
    case InvalidRequest => "Invalid request"
    case UnknownMd5 => "Unknown md5"
    case TooLong => "Too long"
  }

  /** The resolution chain of `serveAudioHandler`. A non-empty `text`
      parameter is decoded and the `telegram` one ignored; otherwise the
      identifier is looked up without regard to expiry; the resolved text is
      then bounded by `maxLength` bytes. */
  function Resolve(req: Request, index: map<GoString, CacheEntry>,
                   decode: GoString -> Option<GoString>, maxLength: int): (r: Resolution)
    ensures r.Resolved? ==> |r.text| <= maxLength
    ensures r.Resolved? && req.text != [] ==> decode(req.text) == Some(r.text)
    ensures r.Resolved? && req.text == [] ==> req.telegram in index && index[req.telegram].content == r.text
  {
    if req.text != [] then
      match decode(req.text)
      case None => Rejected(Base64DecodeError)
      case Some(decoded) => CheckLength(decoded, maxLength)
    else if req.telegram == [] then
      Rejected(InvalidRequest)
    else if req.telegram !in index then
      Rejected(UnknownMd5)
    else
      CheckLength(index[req.telegram].content, maxLength)
  }

  /** The length check of main.go:117-121: strictly more than `maxLength`
      bytes is too long. */
  function CheckLength(text: GoString, maxLength: int): (r: Resolution)
    ensures r == Resolved(text) || r == Rejected(TooLong)
    ensures r.Resolved? <==> |text| <= maxLength
  {
    if |text| > maxLength then Rejected(TooLong) else Resolved(text)
  }

  /** The text the request names before the length check, if any. */
  function Candidate(req: Request, index: map<GoString, CacheEntry>,
                     decode: GoString -> Option<GoString>): Option<GoString>
  {
    if req.text != [] then decode(req.text)
    else if req.telegram != [] && req.telegram in index then Some(index[req.telegram].content)
    else None
  }

  /** A non-empty `text` parameter decides the outcome on its own: neither
      the `telegram` parameter nor the index is consulted. */
  lemma TextTakesPrecedence(t: GoString, g1: GoString, g2: GoString,
                            m1: map<GoString, CacheEntry>, m2: map<GoString, CacheEntry>,
                            decode: GoString -> Option<GoString>, maxLength: int)
    requires t != []
    ensures Resolve(Request(t, g1), m1, decode, maxLength) == Resolve(Request(t, g2), m2, decode, maxLength)
  {
  }

  /** Each rejection happens exactly in its own case, and a request that is
      not rejected resolves to the candidate text. */
  lemma OutcomesCharacterised(req: Request, m: map<GoString, CacheEntry>,
                              decode: GoString -> Option<GoString>, maxLength: int)
    ensures Resolve(req, m, decode, maxLength) == Rejected(Base64DecodeError)
            <==> req.text != [] && decode(req.text).None?
    ensures Resolve(req, m, decode, maxLength) == Rejected(InvalidRequest)
            <==> req.text == [] && req.telegram == []
    ensures Resolve(req, m, decode, maxLength) == Rejected(UnknownMd5)
            <==> req.text == [] && req.telegram != [] && req.telegram !in m
    ensures Resolve(req, m, decode, maxLength) == Rejected(TooLong)
            <==> Candidate(req, m, decode).Some? && |Candidate(req, m, decode).value| > maxLength
    ensures Resolve(req, m, decode, maxLength).Resolved?
            <==> Candidate(req, m, decode).Some? && |Candidate(req, m, decode).value| <= maxLength
    ensures Resolve(req, m, decode, maxLength).Resolved?
            ==> Some(Resolve(req, m, decode, maxLength).text) == Candidate(req, m, decode)
  {
  }

  /** Lookup does not check expiry: an indexed identifier resolves to the
      stored raw text whether or not its entry has expired. */
  lemma ExpiredEntryStillResolves(g: GoString, m: map<GoString, CacheEntry>,
                                  decode: GoString -> Option<GoString>, maxLength: int, now: int)
    requires g != [] && g in m && Expired(m[g], now)
    requires |m[g].content| <= maxLength
    ensures Resolve(Request([], g), m, decode, maxLength) == Resolved(m[g].content)
  {
  }

  /** An identifier the query handler never issued is unknown. */
  lemma NeverIssuedIsUnknown(g: GoString, m: map<GoString, CacheEntry>, issued: set<GoString>,
                             decode: GoString -> Option<GoString>, maxLength: int)
    requires m.Keys <= issued && g != [] && g !in issued
    ensures Resolve(Request([], g), m, decode, maxLength) == Rejected(UnknownMd5)
  {
  }

  /** An identifier handed out for query `q` resolves, until swept, to the
      raw text first indexed under it: `q` itself when the key was new. */
  lemma ObservedThenResolved(m: map<GoString, CacheEntry>, md5: GoString -> GoString, q: GoString,
                             now: int, decode: GoString -> Option<GoString>, maxLength: int)
    requires Key(md5, q) != []
    ensures var first := if Key(md5, q) in m then m[Key(md5, q)].content else q;
            Resolve(Request([], Key(md5, q)), Observed(m, md5, q, now), decode, maxLength)
              == CheckLength(first, maxLength)
  {
  }

  /** The query handler measures the normalised text with `>=`, the audio
      handler the stored raw text with `>`: a query with trailing spaces can
      be offered a card whose URL then answers "Too long". */
  lemma OfferedCardCanBeTooLong(md5: GoString -> GoString, decode: GoString -> Option<GoString>, now: int)
    requires Key(md5, [97, Space, Space]) != []
    ensures OfferedCard(md5, [97, Space, Space], 2) == Some(Key(md5, [97, Space, Space]))
    ensures Resolve(Request([], Key(md5, [97, Space, Space])), Observed(map[], md5, [97, Space, Space], now),
                    decode, 2) == Rejected(TooLong)
  {
    PaddedLetterNormalForm();
    ObservedThenResolved(map[], md5, [97, Space, Space], now, decode, 2);
  }

  lemma PaddedLetterNormalForm()
    ensures Normalize([97, Space, Space]) == [97]
  {
    var q: GoString := [97, Space, Space];
    LowerIsFixpoint(q);
    assert TrimLeft(q) == q;
    assert q[..2] == [97, Space] && q[..2][..1] == [97];
    assert TrimRight(q) == TrimRight([97, Space]) == TrimRight([97]) == [97];
  }
}
