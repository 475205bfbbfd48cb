/** Go strings as the bot sees them: sequences of bytes, so that `len` counts
    bytes. The query handler normalises a query with `strings.ToLower`
    followed by `strings.Trim(_, " ")`; both are modelled here on bytes. */
module GoText {

  newtype byte = x: int | 0 <= x < 256

  type GoString = seq<byte>

  /** The only byte `strings.Trim(_, " ")` removes. */
  const Space: byte := 32

  predicate IsUpperAscii(b: byte) {
    65 <= b <= 90
  }

  /** Case folding of one byte; bytes outside 'A'..'Z' are left alone. */
  function LowerByte(b: byte): (r: byte)
    ensures !IsUpperAscii(r)
    ensures r == b <==> !IsUpperAscii(b)
    ensures r == Space <==> b == Space
  {
    if IsUpperAscii(b) then b + 32 else b
  }

  /** `strings.ToLower` restricted to ASCII case mapping. */
  function ToLower(s: GoString): (r: GoString)
    ensures |r| == |s|
    ensures forall i :: 0 <= i < |s| ==> r[i] == LowerByte(s[i])
  {
    seq(|s|, i requires 0 <= i < |s| => LowerByte(s[i]))
  }

  /** No space at either end: what trimming leaves. */
  predicate Trimmed(s: GoString) {
    s == [] || (s[0] != Space && s[|s| - 1] != Space)
  }

  /** `strings.TrimLeft(s, " ")`: drops the leading spaces. */
  function TrimLeft(s: GoString): (r: GoString)
    ensures |r| <= |s|
    ensures r == [] || r[0] != Space
    decreases |s|
  {
    if s != [] && s[0] == Space then TrimLeft(s[1..]) else s
  }

  /** `strings.TrimRight(s, " ")`: drops the trailing spaces. */
  function TrimRight(s: GoString): (r: GoString)
    ensures |r| <= |s|
    ensures r == [] || r[|r| - 1] != Space
    ensures r != [] ==> r[0] == s[0]
    decreases |s|
  {
    if s != [] && s[|s| - 1] == Space then TrimRight(s[..|s| - 1]) else s
  }

  /** `strings.Trim(s, " ")`: what is left of `s` after removing every
      leading and trailing space. */
  function TrimSpaces(s: GoString): (r: GoString)
    ensures Trimmed(r) && |r| <= |s|
  {
    TrimRight(TrimLeft(s))
  }

  /** TrimLeft keeps a suffix of `s` and drops nothing but spaces. */
  lemma {:induction false} TrimLeftIsSuffix(s: GoString)
    ensures TrimLeft(s) == s[|s| - |TrimLeft(s)|..]
    ensures forall k :: 0 <= k < |s| - |TrimLeft(s)| ==> s[k] == Space
    decreases |s|
  {
    if s != [] && s[0] == Space {
      TrimLeftIsSuffix(s[1..]);
    }
  }

  /** TrimRight keeps a prefix of `s` and drops nothing but spaces. */
  lemma {:induction false} TrimRightIsPrefix(s: GoString)
    ensures TrimRight(s) == s[..|TrimRight(s)|]
    ensures forall k :: |TrimRight(s)| <= k < |s| ==> s[k] == Space
    decreases |s|
  {
    if s != [] && s[|s| - 1] == Space {
      TrimRightIsPrefix(s[..|s| - 1]);
    }
  }

  /** `strings.Trim(s, " ")` is the middle of `s` between its leading and
      trailing runs of spaces. */
  lemma TrimSpacesIsSlice(s: GoString) returns (i: int, j: int)
    ensures 0 <= i <= j <= |s| && TrimSpaces(s) == s[i..j]
    ensures forall k :: 0 <= k < i ==> s[k] == Space
    ensures forall k :: j <= k < |s| ==> s[k] == Space
  {
    var l := TrimLeft(s);
    TrimLeftIsSuffix(s);
    TrimRightIsPrefix(l);
    i := |s| - |l|;
    j := i + |TrimRight(l)|;
    forall k | j <= k < |s|
      ensures s[k] == Space
    {
      assert s[k] == l[k - i];
    }
  }

  /** The text whose digest keys the identifier index (main.go:203). */
  function Normalize(q: GoString): (r: GoString)
    ensures Trimmed(r) && |r| <= |q|
  {
    TrimSpaces(ToLower(q))
  }

  /** Every byte of the normal form comes from the lower-cased query, so
      none is an upper-case letter. */
  lemma NormalizeIsLower(q: GoString)
    ensures forall i :: 0 <= i < |Normalize(q)| ==> !IsUpperAscii(Normalize(q)[i])
  {
    var t := ToLower(q);
    var l := TrimLeft(t);
    TrimLeftIsSuffix(t);
    TrimRightIsPrefix(l);
    var n := Normalize(q);
    forall i | 0 <= i < |n|
      ensures !IsUpperAscii(n[i])
    {
      assert n[i] == l[i] == t[|t| - |l| + i];
    }
  }

  lemma TrimmedIsFixpoint(s: GoString)
    requires Trimmed(s)
    ensures TrimSpaces(s) == s
  {
  }

  lemma LowerIsFixpoint(s: GoString)
    requires forall i :: 0 <= i < |s| ==> !IsUpperAscii(s[i])
    ensures ToLower(s) == s
  {
  }

  /** Normalising twice is normalising once. */
  lemma NormalizeIdempotent(q: GoString)
    ensures Normalize(Normalize(q)) == Normalize(q)
  {
    var n := Normalize(q);
    NormalizeIsLower(q);
    LowerIsFixpoint(n);
    TrimmedIsFixpoint(n);
  }

  /** A space added in front of a query does not change its normal form. */
  lemma NormalizeIgnoresLeadingSpace(q: GoString)
    ensures Normalize([Space] + q) == Normalize(q)
  {
    var t := ToLower(q);
    assert ToLower([Space] + q) == [Space] + t;
    assert ([Space] + t)[1..] == t;
    assert TrimLeft([Space] + t) == TrimLeft(t);
  }

  /** A space added after a query does not change its normal form. */
  lemma NormalizeIgnoresTrailingSpace(q: GoString)
    ensures Normalize(q + [Space]) == Normalize(q)
  {
    assert ToLower(q + [Space]) == ToLower(q) + [Space];
    TrimSpacesSnoc(ToLower(q));
  }

  lemma TrimSpacesSnoc(t: GoString)
    ensures TrimSpaces(t + [Space]) == TrimSpaces(t)
  {
    TrimLeftSnoc(t);
    var l := TrimLeft(t);
    if l != [] {
      assert (l + [Space])[..|l|] == l;
      assert TrimRight(l + [Space]) == TrimRight(l);
    }
  }

  /** A trailing space survives TrimLeft unless everything was spaces. */
  lemma {:induction false} TrimLeftSnoc(t: GoString)
    ensures TrimLeft(t + [Space]) == if TrimLeft(t) == [] then [] else TrimLeft(t) + [Space]
    decreases |t|
  {
    if t == [] {
      assert TrimLeft([Space]) == TrimLeft([]);
    } else if t[0] == Space {
      assert (t + [Space])[1..] == t[1..] + [Space];
      TrimLeftSnoc(t[1..]);
    }
  }

  /** Upper and lower case spellings of a query share one normal form. */
  lemma NormalizeIgnoresCase(q: GoString)
    ensures Normalize(ToLower(q)) == Normalize(q)
  {
    LowerIsFixpoint(ToLower(q));
  }
}
