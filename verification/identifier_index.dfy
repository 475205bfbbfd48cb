/** The in-memory identifier index (`md5Cache`, main.go:81): maps the md5 of
    a normalised inline query to the raw query text, so that a result card
    can carry a short `telegram=<md5>` URL. Time is an integer clock in
    nanoseconds, passed in by the caller; the md5 function is a parameter. */
module IdentifierIndex {
  import opened Wrappers
  import opened GoText

  /** One minute in nanoseconds (`time.Minute`). */
  const Minute: int := 60_000_000_000

  /** A `cacheEntry` (main.go:38-42). */
  datatype CacheEntry = CacheEntry(content: GoString, issuedAt: int, ttl: int)

  /** `newCachedEntry`: the `ttl` argument is ignored, every entry lives for
      one minute. */
  function NewCachedEntry(s: GoString, ttl: int, now: int): (e: CacheEntry)
    ensures e.content == s && e.issuedAt == now && e.ttl == Minute
  {
    CacheEntry(s, now, Minute)
  }

  /** Whatever ttl the caller asks for, the entry is the same. */
  lemma NewCachedEntryIgnoresTtl(s: GoString, ttl1: int, ttl2: int, now: int)
    ensures NewCachedEntry(s, ttl1, now) == NewCachedEntry(s, ttl2, now)
  {
  }

  /** `expired()` as written: `issuedAt.Before(now.Add(ttl))`. An entry
      issued at or before `now` with a positive ttl is already expired; an
      entry survives only when it was issued at least `ttl` after `now`. */
  predicate Expired(e: CacheEntry, now: int): (r: bool)
    ensures e.ttl > 0 && e.issuedAt <= now ==> r
    ensures e.issuedAt >= now + e.ttl ==> !r
  {
    e.issuedAt < now + e.ttl
  }

  /** The identifier under which a query is indexed (main.go:203-204): a
      query, its normal form and its lower-cased spelling share it. */
  function Key(md5: GoString -> GoString, q: GoString): (r: GoString)
    ensures r == md5(Normalize(Normalize(q)))
    ensures r == md5(Normalize(ToLower(q)))
  {
    NormalizeIdempotent(q);
    NormalizeIgnoresCase(q);
    md5(Normalize(q))
  }

  /** The index after one inline query `q` at time `now` (main.go:203-208):
      the entry is inserted only when its key is absent. */
  function Observed(m: map<GoString, CacheEntry>, md5: GoString -> GoString, q: GoString, now: int)
    : (r: map<GoString, CacheEntry>)
    ensures Key(md5, q) in r
    ensures Key(md5, q) in m ==> r[Key(md5, q)] == m[Key(md5, q)]
    ensures Key(md5, q) !in m ==> r[Key(md5, q)] == NewCachedEntry(q, Minute, now)
    ensures r.Keys == m.Keys + {Key(md5, q)}
    ensures forall k | k in m :: r[k] == m[k]
  {
    var key := Key(md5, q);
    if key in m then m else m[key := NewCachedEntry(q, Minute, now)]
  }

  /** The result card offered for a query (main.go:209-228): none when the
      normalised text is at least `maxLength` bytes, else the card whose URL
      carries the identifier. */
  function OfferedCard(md5: GoString -> GoString, q: GoString, maxLength: int): (card: Option<GoString>)
    ensures card.Some? <==> |Normalize(q)| < maxLength
    ensures card.Some? ==> card.value == Key(md5, q)
  {
    var uniText := Normalize(q);
    if |uniText| >= maxLength then None else Some(md5(uniText))
  }

  /** The index after one sweep at time `now` (main.go:249-253). */
  function Swept(m: map<GoString, CacheEntry>, now: int): (r: map<GoString, CacheEntry>)
    ensures forall k :: k in r <==> k in m && !Expired(m[k], now)
    ensures forall k | k in r :: r[k] == m[k]
  {
    map k | k in m && !Expired(m[k], now) :: m[k]
  }

  /** With `expired()` as written, an entry counts as expired from the
      moment it is created. */
  lemma FreshEntryIsExpired(s: GoString, ttl: int, now: int)
    ensures Expired(NewCachedEntry(s, ttl, now), now)
  {
  }

  /** Every entry issued at or before the sweep, with a positive ttl, is
      removed; in particular an index built by `newCachedEntry` up to time
      `now` is emptied by a sweep at `now`. */
  lemma SweepEmptiesPastEntries(m: map<GoString, CacheEntry>, now: int)
    requires forall k | k in m :: m[k].ttl > 0 && m[k].issuedAt <= now
    ensures Swept(m, now) == map[]
  {
    assert Swept(m, now).Keys == {};
  }

  /** Observing a query whose normal form is already indexed changes
      nothing: the first raw text and its issuing time are kept. */
  lemma ObserveIdempotent(m: map<GoString, CacheEntry>, md5: GoString -> GoString,
                          q1: GoString, q2: GoString, t1: int, t2: int)
    requires Normalize(q1) == Normalize(q2)
    ensures Observed(Observed(m, md5, q1, t1), md5, q2, t2) == Observed(m, md5, q1, t1)
  {
  }

  /** `n` spaces. */
  function Spaces(n: nat): GoString {
    seq(n, _ => Space)
  }

  /** Any number of spaces before and after a query do not create a second
      entry. */
  lemma {:induction false} KeyIgnoresPadding(md5: GoString -> GoString, n: nat, q: GoString, m: nat)
    ensures Key(md5, Spaces(n) + q + Spaces(m)) == Key(md5, q)
    decreases n + m
  {
    if n > 0 {
      assert Spaces(n) + q + Spaces(m) == [Space] + (Spaces(n - 1) + q + Spaces(m));
      NormalizeIgnoresLeadingSpace(Spaces(n - 1) + q + Spaces(m));
      KeyIgnoresPadding(md5, n - 1, q, m);
    } else if m > 0 {
      assert Spaces(n) + q + Spaces(m) == (q + Spaces(m - 1)) + [Space];
      NormalizeIgnoresTrailingSpace(q + Spaces(m - 1));
      assert Spaces(n) + q + Spaces(m - 1) == q + Spaces(m - 1);
      KeyIgnoresPadding(md5, 0, q, m - 1);
    } else {
      assert Spaces(n) + q + Spaces(m) == q;
    }
  }

  /** The package-level `md5Cache` map together with the ghost set of every
      identifier the query handler ever computed. */
  class Index {
    var entries: map<GoString, CacheEntry>
    ghost var issued: set<GoString>

    ghost predicate Valid()
      reads this
    {
      entries.Keys <= issued &&
      forall k | k in entries :: entries[k].ttl == Minute
    }

    constructor ()
      ensures Valid()
      ensures entries == map[] && issued == {}
    {
      entries := map[];
      issued := {};
    }

    /** The inline-query handler (main.go:202-214): index the query, then
        decide whether to offer a result card. The entry is inserted even
        when the card is refused for length. */
    method Observe(q: GoString, now: int, maxLength: int, md5: GoString -> GoString)
      returns (card: Option<GoString>)
      requires Valid()
      modifies this
      ensures Valid()
      ensures entries == Observed(old(entries), md5, q, now)
      ensures issued == old(issued) + {Key(md5, q)}
      ensures card == OfferedCard(md5, q, maxLength)
    {
      var uniText := Normalize(q);
      var uniTextMd5 := md5(uniText);
      assert uniTextMd5 == Key(md5, q);
      if uniTextMd5 !in entries {
        entries := entries[uniTextMd5 := NewCachedEntry(q, Minute, now)];
      }
      issued := issued + {uniTextMd5};
      if |uniText| >= maxLength {
        card := None;
      } else {
        card := Some(uniTextMd5);
      }
    }

    /** One pass of the clean-up goroutine (main.go:249-253): every entry
        that is `expired()` at `now` is deleted while ranging over the map. */
    method Sweep(now: int)
      requires Valid()
      modifies this
      ensures Valid()
      ensures entries == Swept(old(entries), now)
      ensures issued == old(issued)
      ensures (forall k | k in old(entries) :: old(entries)[k].issuedAt <= now) ==> entries == map[]
    {
      var pending := entries.Keys;
      while pending != {}
        invariant pending <= old(entries).Keys
        invariant entries.Keys <= old(entries).Keys
        invariant forall k | k in old(entries) :: k in entries <==> k in pending || !Expired(old(entries)[k], now)
        invariant forall k | k in entries :: entries[k] == old(entries)[k]
        invariant issued == old(issued)
        decreases pending
      {
        var k :| k in pending;
        if Expired(entries[k], now) {
          entries := entries - {k};
        }
        pending := pending - {k};
      }
      assert entries.Keys == Swept(old(entries), now).Keys;
      if forall k | k in old(entries) :: old(entries)[k].issuedAt <= now {
        SweepEmptiesPastEntries(old(entries), now);
      }
    }
  }
}
