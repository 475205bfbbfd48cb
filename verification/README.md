# pepega: identifier index, request resolution and audio cache

A Dafny model of the core of pepega, a Telegram inline bot that answers a
typed query with spoken audio. The bot's inline-query handler records each
query in an in-memory identifier index keyed by the md5 of the normalised
text, and offers a result card whose URL is `/audio?telegram=<md5>`. The
HTTP handler `serveAudioHandler` resolves either a base64 `text` parameter
or a `telegram` identifier to a text, bounds its length, and answers from
an on-disk cache of `.mp3` files named by the md5 of the text, calling the
speech synthesiser only on a miss and storing what it sends (in the
sequential order the model assumes; see Left out and Findings for the
background write that can leave the file short).

Modules, one per part of `main.go`:

- `GoText`: Go strings as byte sequences; ASCII `strings.ToLower`,
  `strings.Trim(_, " ")` and the normal form used for index keys.
- `IdentifierIndex`: `cacheEntry`, `newCachedEntry`, `expired()`, the
  pure effects of an inline query (`Observed`, `OfferedCard`) and of a sweep
  (`Swept`), and the class `Index` holding the `md5Cache` map, whose methods
  `Observe` and `Sweep` update it in place.
- `Resolver`: the resolution chain of `serveAudioHandler` as a pure
  function, with its rejections.
- `Delivery`: the file system as a map from path to bytes and a set of
  directories; the pure decision `Deliver` and the class `FileStore`, whose
  `Serve` method performs it step by step.
- `Server`: the whole handler, `Handle` and the method `ServeAudio`.

md5, the base64 decoder and the synthesiser are function-valued parameters;
time is an integer clock in nanoseconds passed by the caller; failures of
`os.Mkdir`, `os.Create` and `os.Open` are a `Faults` parameter.

The code has these quirks, which the model keeps:

- `expired()` is `issuedAt.Before(now.Add(ttl))`, that is
  `issuedAt < now + ttl`; an entry meant to expire `ttl` after its issue
  would need `now >= issuedAt + ttl`. Every entry issued at or before the
  sweep therefore counts as expired, and a sweep empties the index
  (`SweepEmptiesPastEntries`, `FreshEntryIsExpired`, `Index.Sweep`).
- The query handler inserts only when the key is absent, so an existing
  entry is never refreshed, and `newCachedEntry` ignores its `ttl` argument
  and always uses one minute.
- A non-empty `text` parameter takes precedence over `telegram`.
- The query handler refuses a card when the normalised text has at least
  `MaxLength` bytes, while the audio handler refuses when the stored raw text
  has more than `MaxLength` bytes, so a query with trailing spaces can be
  offered a card that then answers "Too long" (`OfferedCardCanBeTooLong`).
- The entry is inserted before the length check, so too-long queries are
  indexed too.

## Model

| member | source | states |
|---|---|---|
| `GoText.ToLower` | main.go:203 | the lower-cased text has the same length, each byte lower-cased on its own, ASCII letters only |
| `GoText.TrimLeft` | main.go:203 | the result is no longer than the input and does not start with a space |
| `GoText.TrimRight` | main.go:203 | the result is no longer than the input, does not end with a space, and starts where the input starts |
| `GoText.TrimSpaces` | main.go:203 | the trimmed text has no space at either end and is no longer than the input |
| `GoText.TrimLeftIsSuffix` | main.go:203 | trimming on the left keeps a suffix of the input and drops only spaces |
| `GoText.TrimRightIsPrefix` | main.go:203 | trimming on the right keeps a prefix of the input and drops only spaces |
| `GoText.TrimSpacesIsSlice` | main.go:203 | the trimmed text is a contiguous slice of the input, and every byte outside it is a space |
| `GoText.Normalize` | main.go:203 | the normal form has no space at either end and is no longer than the query |
| `GoText.NormalizeIsLower` | main.go:203 | the normal form contains no upper-case ASCII letter |
| `GoText.NormalizeIdempotent` | main.go:203 | normalising a normal form gives it back |
| `IdentifierIndex.KeyIgnoresPadding` | main.go:203-204 | any number of spaces before and any number after a query leave its identifier unchanged |
| `IdentifierIndex.NewCachedEntry` | main.go:45-51 | the entry holds the given text, is issued now and lives one minute |
| `IdentifierIndex.NewCachedEntryIgnoresTtl` | main.go:45-51 | the ttl argument has no effect on the entry |
| `IdentifierIndex.Expired` | main.go:54-56 | an entry issued at or before `now` with a positive ttl is expired; an entry issued at least `ttl` after `now` is not |
| `IdentifierIndex.Key` | main.go:203-204 | the identifier of a query is the md5 of its normal form, and is shared with its normal form and its lower-cased spelling |
| `IdentifierIndex.FreshEntryIsExpired` | main.go:54-56 | with `expired()` as written, a new entry is already expired at its issuing time |
| `IdentifierIndex.Observed` | main.go:203-208 | afterwards the query's identifier is present; an existing entry is kept as it was; a new one is `newCachedEntry` of the raw query at the current time, with a one-minute ttl; no other key is added, removed or changed |
| `IdentifierIndex.ObserveIdempotent` | main.go:203-208 | a second query with the same normal form leaves the index unchanged, so the first raw text and issuing time survive |
| `IdentifierIndex.OfferedCard` | main.go:209 | a card is offered exactly when the normalised text is shorter than `MaxLength`, and it carries the query's identifier |
| `IdentifierIndex.Swept` | main.go:249-253 | the index after a sweep holds exactly the prior entries that are not expired, with unchanged values |
| `IdentifierIndex.SweepEmptiesPastEntries` | main.go:54-56 | entries issued at or before the sweep with a positive ttl are all removed |
| `IdentifierIndex.Index.Observe` | main.go:202-214 | the map becomes `Observed` of the old map, the identifier is recorded as issued, the answer is `OfferedCard`, and the invariant (every entry lives one minute, every key was issued) is kept |
| `IdentifierIndex.Index.Sweep` | main.go:249-253 | the loop deleting expired entries leaves exactly `Swept` of the old map and keeps the invariant; since every entry lives one minute, a sweep after every entry's issue empties the index |
| `Resolver.RejectionMessage` | main.go:96-120 | each rejection has its own body, "Base64 decode error", "Invalid request", "Unknown md5" or "Too long", and no body belongs to two rejections |
| `Resolver.Resolve` | main.go:89-121 | a resolved text is at most `MaxLength` bytes and is the decoded `text` parameter when that is non-empty, else the stored content of the `telegram` identifier |
| `Resolver.CheckLength` | main.go:117-121 | the text passes exactly when it has at most `MaxLength` bytes, otherwise "Too long" |
| `Resolver.TextTakesPrecedence` | main.go:90-100 | with a non-empty `text` parameter, neither the `telegram` parameter nor the index affects the outcome |
| `Resolver.OutcomesCharacterised` | main.go:89-121 | decode error, invalid request, unknown md5, too long and success each hold exactly in their own case, and success yields the named text |
| `Resolver.ExpiredEntryStillResolves` | main.go:109-114 | an expired but unswept entry still resolves to its stored content |
| `Resolver.NeverIssuedIsUnknown` | main.go:109-113 | an identifier never issued by the query handler answers "Unknown md5" |
| `Resolver.ObservedThenResolved` | main.go:109-114 | after a query, its identifier resolves to the first raw text indexed under it, subject only to the length check |
| `Resolver.OfferedCardCanBeTooLong` | main.go:209 | the query "a" followed by two spaces with `MaxLength` 2 is offered a card, and that card's identifier answers "Too long" |
| `Delivery.CachePath` | main.go:132 | the cache file lies in the cache directory, ends in ".mp3", and its name before the suffix is the md5 of the text |
| `Delivery.CachePathInjective` | main.go:132 | distinct digests give distinct cache files in the same directory |
| `Delivery.Deliver` | main.go:123-169 | the synthesiser is called exactly on a miss past directory creation; existing files are never changed or removed and only the text's cache file can be added; audio sent is what the cache file holds afterwards, the old file on a hit, the synthesiser's output on a miss |
| `Delivery.CacheHit` | main.go:162-169 | an existing cache file is served verbatim, without synthesis and without any change to the file system |
| `Delivery.SynthesisFailure` | main.go:139-143 | a failed synthesis answers "Synthesize error" and leaves the files unchanged |
| `Delivery.MissStoresWhatItSends` | main.go:139-159 | a successful miss sends the synthesised bytes and stores the same bytes under the text's cache path |
| `Delivery.SecondRequestIsHit` | main.go:132-133 | after any audio answer, the same text again gets identical bytes, no synthesis and no file-system change |
| `Delivery.DeliverAsWritten` | main.go:144-159 | the response, synthesis and directories are those of `Deliver`, but a miss leaves in the cache file only the prefix of the sent audio that the background copy wrote before the deferred close |
| `Delivery.TruncatedFileServedAsHit` | main.go:149-169 | when the close cuts the copy short, the next request for the text is a hit that sends the shorter file instead of the audio sent first |
| `Delivery.FileStore.Serve` | main.go:123-169 | the step-by-step handler leaves the response, files, directories and synthesis flag that `Deliver` gives |
| `Server.Handle` | main.go:89-169 | a rejected request gets its message with no file-system or synthesis effect; audio is only ever sent for a resolved text of at most `MaxLength` bytes, and the cache then holds those bytes |
| `Server.TooLongHasNoEffect` | main.go:117-121 | a named text longer than `MaxLength` gets "Too long" with no file-system or synthesis effect |
| `Server.LiteralTextTwice` | main.go:89-169 | a literal text requested twice is synthesised once, cached, and answered with identical bytes the second time |
| `Server.ServeAudio` | main.go:89-169 | the handler method gives the outcome of `Handle` and only reads the index; an identifier the query handler never issued answers "Unknown md5" with no effect on the cache |

## Left out

- The Telegram bot (`tb.NewBot`, `b.Answer`, the result card's caption, title and URL formatting, `b.Start`): external library and network; the card is modelled only by the identifier it carries.
- AWS Polly (session, credentials, `SynthesizeSpeech` with "mp3" and "Brian"): the synthesiser is an arbitrary partial function of the text.
- The HTTP listener and `envconfig` loading are not modelled.
- `Resolver.Resolve`, `Server.Handle`: `main` declares a local `conf` (main.go:173) that shadows the package-level `conf *config` (main.go:87). The query handler is a closure inside `main` and reads the local configuration that `envconfig.Process` fills. `serveAudioHandler` is a top-level function and reads the package-level pointer, which stays nil, so `conf.MaxLength` at main.go:118 panics on every request that gets past resolution. The model takes `MaxLength` and the cache directory as parameters, as if the handler read the filled configuration.
- The goroutines: the ten-minute sleep of the sweep loop is left out and one sweep is an atomic step with a single clock reading; the interleaving of the background `io.Copy` into the cache file with the deferred close is the `kept` parameter of `Delivery.DeliverAsWritten`; races on the unsynchronised map and between concurrent requests for the same text, including a request seeing the still-empty file, are not modelled.
- md5 is an arbitrary function: no collision resistance is claimed.
- base64 decoding is an arbitrary partial function rather than the algorithm of section 4 of RFC 4648.
- `GoText.Normalize`: `strings.ToLower` is modelled for ASCII letters only; Unicode case mapping of non-ASCII bytes is not captured.
- `time.Time` arithmetic is unbounded integer arithmetic; int64 overflow of `Add` is not modelled.
- `Delivery.CachePath`: `path.Join` is modelled for a plain file name only; cleaning of `..`, `.` and repeated or trailing slashes in the directory is not.
- `Delivery.MissStoresWhatItSends`, `Delivery.SecondRequestIsHit`, `Server.LiteralTextTwice`, `Delivery.Deliver`, `Delivery.FileStore.Serve`, `Server.Handle`: the promise that the cache file afterwards holds the sent bytes holds for `Deliver`, where the whole sent audio reaches the cache file. As written, `defer f.Close()` (main.go:149) runs as soon as the handler returns, right after `go io.Copy(f, &buf)` (main.go:158) starts, so the file can be left empty or truncated and every later request serves it as a hit (see Findings). A client that disconnects also stops `io.Copy(w, tee)` (main.go:155) early, so `buf`, and hence the file, holds only a prefix of the audio; `DeliverAsWritten` covers this through the same `kept` parameter, but the response is always the whole audio.
- File-system error detail: `os.Stat` errors other than absence, a directory at the file's path, read errors part way through a response, and write errors of the background copy other than the close race are not modelled. Neither are descriptor leaks: the file opened by `os.Open` on a hit (main.go:164-169) and Polly's audio stream (main.go:139, 154) are never closed.
- `Delivery.Deliver`: `os.Mkdir(path, os.ModeDir)` (main.go:125) creates the cache directory with permission bits 0000. For a process that is not root, every later `os.Stat` or `os.Create` inside it then fails, so every request is a miss that calls the synthesiser and answers "Cannot open file (write)". The model's per-request `Faults` are independent of the directory's creation and do not capture this link.
- HTTP status codes and logging.

## Findings

| source | as written | input that shows it | evidently intended | confidence | as-written member | corrected member |
|---|---|---|---|---|---|---|
| main.go:149-158 | `defer f.Close()` closes the cache file when the handler returns, while `go io.Copy(f, &buf)` may not yet have written the buffered audio | a miss whose audio is non-empty, with the close running before the copy writes everything (`kept` < length of the audio) | the cache file holds the whole audio that was sent | not executed | `Delivery.TruncatedFileServedAsHit` | `Delivery.MissStoresWhatItSends` |
