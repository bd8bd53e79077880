/**
 The percent-encoder of examples/xfyun_tts.c (sections 2.1 and 2.3 of RFC 3986)
 and the decoder that undoes it.
 */
module UrlEncode {
  import opened Common

  const PERCENT: Byte := 37

  predicate Unreserved(c: Byte) {
    || 65 <= c <= 90 || 97 <= c <= 122 || 48 <= c <= 57
    || c == 45 || c == 95 || c == 46 || c == 126
  }

  /** The entry of the source's digit table, "0123456789ABCDEF". */
  function HexDigit(v: nat): Byte
    requires v < 16
  {
    if v < 10 then 48 + v else 55 + v
  }

  function HexValue(c: Byte): Option<nat> {
    if 48 <= c <= 57 then Some(c - 48)
    else if 65 <= c <= 70 then Some(c - 55)
    else None
  }

  function EncodeByte(c: Byte): seq<Byte> {
    if Unreserved(c) then [c] else [PERCENT, HexDigit(c / 16), HexDigit(c % 16)]
  }

  /** Letters, digits and four marks stay as they are, and nothing else does; the digits of a triplet are upper case. */
  lemma EncodeByteIs(c: Byte)
    ensures EncodeByte(c) == [c] <==>
              var ch := c as char;
              || 'A' <= ch <= 'Z' || 'a' <= ch <= 'z' || '0' <= ch <= '9'
              || ch == '-' || ch == '_' || ch == '.' || ch == '~'
    ensures EncodeByte(c) != [c] ==> EncodeByte(c) == ['%' as int, Digit(c / 16) as int, Digit(c % 16) as int]
  {
  }

  function Digit(v: nat): char
    requires v < 16
  {
    if v < 10 then '0' + v as char else 'A' + (v - 10) as char
  }

  function Encode(s: seq<Byte>): seq<Byte> {
    if s == [] then [] else EncodeByte(s[0]) + Encode(s[1..])
  }

  /**
   Percent-decoding as section 2.1 of RFC 3986 has it, and nothing but
   unreserved characters and whole triplets.
   */
  function Decode(t: seq<Byte>): Option<seq<Byte>> {
    if t == [] then Some([])
    else if Unreserved(t[0]) then Prepend(t[0], Decode(t[1..]))
    else if t[0] != PERCENT || |t| < 3 then None
    else
      match (HexValue(t[1]), HexValue(t[2]))
      case (Some(hi), Some(lo)) => Prepend(16 * hi + lo, Decode(t[3..]))
      case _ => None
  }

  function Prepend(c: nat, r: Option<seq<Byte>>): Option<seq<Byte>>
    requires c < 256
  {
    match r
    case None => None
    case Some(s) => Some([c] + s)
  }

  lemma {:induction false} DecodeByteThen(c: Byte, t: seq<Byte>)
    ensures Decode(EncodeByte(c) + t) == Prepend(c, Decode(t))
  {
    var u := EncodeByte(c) + t;
    assert u[|EncodeByte(c)|..] == t;
    if !Unreserved(c) {
      assert HexValue(u[1]) == Some(c / 16) && HexValue(u[2]) == Some(c % 16);
    }
  }

  /** Decoding undoes encoding, on every byte string. */
  lemma {:induction false} RoundTrip(s: seq<Byte>)
    ensures Decode(Encode(s)) == Some(s)
  {
    if s == [] {
    } else {
      RoundTrip(s[1..]);
      DecodeByteThen(s[0], Encode(s[1..]));
      assert [s[0]] + s[1..] == s;
    }
  }

  lemma {:induction false} EncodeSnoc(s: seq<Byte>, c: Byte)
    ensures Encode(s + [c]) == Encode(s) + EncodeByte(c)
  {
    if s == [] {
      assert s + [c] == [c];
    } else {
      assert (s + [c])[1..] == s[1..] + [c];
      EncodeSnoc(s[1..], c);
    }
  }

  lemma {:induction false} EncodeLength(s: seq<Byte>)
    ensures |s| <= |Encode(s)| <= 3 * |s|
  {
    if s != [] {
      EncodeLength(s[1..]);
    }
  }

  lemma EncodeNext(s: seq<Byte>, k: nat)
    requires k < |s|
    ensures Encode(s[..k + 1]) == Encode(s[..k]) + EncodeByte(s[k])
  {
    assert s[..k + 1] == s[..k] + [s[k]];
    EncodeSnoc(s[..k], s[k]);
  }

  lemma {:induction false} EncodePrefix(s: seq<Byte>, j: nat, k: nat)
    requires j <= k <= |s|
    ensures |Encode(s[..j])| <= |Encode(s[..k])|
  {
    if j < k {
      EncodePrefix(s, j, k - 1);
      EncodeNext(s, k - 1);
    }
  }

  /** The k first bytes of s are what the encoder gets through with a buffer of outlen bytes. */
  ghost predicate Reaches(s: seq<Byte>, outlen: nat, k: nat) {
    && k <= |s|
    && (k > 0 ==> |Encode(s[..k - 1])| + 4 < outlen)
    && (k < |s| ==> |Encode(s[..k])| + 4 >= outlen)
  }

  lemma ReachesIsUnique(s: seq<Byte>, outlen: nat, j: nat, k: nat)
    requires Reaches(s, outlen, j) && Reaches(s, outlen, k)
    ensures j == k
  {
    if j < k {
      EncodePrefix(s, j, k - 1);
    } else if k < j {
      EncodePrefix(s, k, j - 1);
    }
  }

  /** Nothing is cut off exactly when the room left before the last byte is enough; more than 3n+1 always is. */
  lemma ReachesAllIff(s: seq<Byte>, outlen: nat, k: nat)
    requires Reaches(s, outlen, k)
    ensures k == |s| <==> s == [] || |Encode(s[..|s| - 1])| + 4 < outlen
    ensures outlen > 3 * |s| + 1 ==> k == |s|
  {
    assert s[..|s|] == s;
    if s != [] {
      EncodeLength(s[..|s| - 1]);
      if k < |s| {
        EncodePrefix(s, k, |s| - 1);
      }
    }
  }

  /** A C string of n characters. */
  ghost predicate IsCString(input: array<Byte>, n: nat)
    reads input
  {
    n < input.Length && input[n] == 0 && forall i :: 0 <= i < n ==> input[i] != 0
  }

  lemma EncodeNothing()
    ensures Encode([]) == []
  {
  }

  /**
   url_encode. The loop stops at the terminator or when fewer than five bytes are left,
   writes the terminator and touches nothing behind it.
   */
  method UrlEncode(input: array<Byte>, out: array<Byte>, outlen: nat, ghost n: nat) returns (ghost k: nat)
    requires IsCString(input, n)
    requires 1 <= outlen <= out.Length && input != out
    modifies out
    ensures Reaches(input[..n], outlen, k)
    ensures |Encode(input[..k])| < outlen
    ensures out[..|Encode(input[..k])|] == Encode(input[..k])
    ensures out[|Encode(input[..k])|] == 0
    ensures Decode(out[..|Encode(input[..k])|]) == Some(input[..k])
    ensures forall i :: |Encode(input[..k])| < i < out.Length ==> out[i] == old(out[i])
  {
    hide Decode, Encode, HexDigit, Unreserved;
    assert Encode([]) == [] by {
      EncodeNothing();
    }
    var i, j := 0, 0;
    while input[i] != 0 && j + 4 < outlen
      invariant 0 <= i <= n && 0 <= j < outlen
      invariant j == |Encode(input[..i])| && out[..j] == Encode(input[..i])
      invariant i > 0 ==> |Encode(input[..i - 1])| + 4 < outlen
      invariant forall p :: j <= p < out.Length ==> out[p] == old(out[p])
      decreases n - i
    {
      var c := input[i];
      ghost var before := out[..j];
      EncodeNext(input[..n], i);
      assert input[..n][..i + 1] == input[..i + 1] && input[..n][..i] == input[..i];
      if Unreserved(c) {
        out[j] := c;
        j := j + 1;
      } else {
        out[j] := PERCENT;
        out[j + 1] := HexDigit(c / 16);
        out[j + 2] := HexDigit(c % 16);
        j := j + 3;
      }
      assert out[..j] == before + EncodeByte(c);
      i := i + 1;
    }
    out[j] := 0;
    k := i;
    assert input[..n][..k] == input[..k];
    assert k > 0 ==> input[..n][..k - 1] == input[..k - 1];
    RoundTrip(input[..k]);
    assert out[..j] == Encode(input[..k]);
  }
}
