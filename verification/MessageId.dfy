/**
 Message ids: deriveMsgID in internal/service/chat/hybrid_router.go, resolveMessageUUID in
 message_processor.go and the random strings of pkg/util/random/random_int.go.

 SHA-256 is any function to 32 bytes; the date of the day and the random draw are inputs.
*/
module MessageIds {
  import opened Decimals
  import opened Deduplication

  type Byte = n: nat | n < 256
  type Digest = s: seq<Byte> | |s| == 32 witness seq(32, _ => 0)

  const HEX := "0123456789abcdef"

  /** hex.EncodeToString. */
  function Hex(bs: seq<Byte>): (h: string)
    ensures |h| == 2 * |bs|
    ensures forall i :: 0 <= i < |bs| ==> h[2 * i] == HEX[bs[i] / 16] && h[2 * i + 1] == HEX[bs[i] % 16]
  {
    if bs == [] then "" else Hex(bs[..|bs| - 1]) + [HEX[bs[|bs| - 1] / 16], HEX[bs[|bs| - 1] % 16]]
  }

  /** GetRandomInt; `draw` is what rand.Intn returns. */
  function GetRandomInt(len: nat, draw: nat): nat
    requires len >= 1 && draw < 9 * Power10(len - 1)
  {
    draw + Power10(len - 1)
  }

  function GetNowAndLenRandomString(date: string, len: nat, draw: nat): string
    requires len >= 1 && draw < 9 * Power10(len - 1)
  {
    date + Itoa(GetRandomInt(len, draw))
  }

  /** Always as many digits as asked for. */
  lemma RandomStringLength(date: string, len: nat, draw: nat)
    requires len >= 1 && draw < 9 * Power10(len - 1)
    ensures |GetNowAndLenRandomString(date, len, draw)| == |date| + len
  {
    ItoaLength(GetRandomInt(len, draw), len - 1);
  }

  function DeriveMsgID(sendID: string, clientMsgID: string, sha256: string -> Digest, date: string, draw: nat): string
    requires draw < 9 * Power10(10)
  {
    if clientMsgID == "" then "M" + GetNowAndLenRandomString(date, 11, draw)
    else "M" + Hex(sha256(sendID + "|" + clientMsgID))[..16]
  }

  function ResolveMessageUUID(msgID: string, date: string, draw: nat): string
    requires draw < 9 * Power10(10)
  {
    if msgID != "" then msgID else "M" + GetNowAndLenRandomString(date, 11, draw)
  }

  predicate HexDigit(c: char) {
    '0' <= c <= '9' || 'a' <= c <= 'f'
  }

  lemma IsHexDigit(d: nat)
    requires d < 16
    ensures HexDigit(HEX[d])
  {
  }

  lemma HexDigits(bs: seq<Byte>, i: nat)
    requires i < 2 * |bs|
    ensures HexDigit(Hex(bs)[i])
  {
    var k := i / 2;
    IsHexDigit(bs[k] / 16);
    IsHexDigit(bs[k] % 16);
    assert i == 2 * k || i == 2 * k + 1;
  }

  lemma RandomIdFits(date: string, draw: nat)
    requires draw < 9 * Power10(10) && |date| == 8 && Digits(date)
    ensures var id := "M" + GetNowAndLenRandomString(date, 11, draw); |id| == 20 && '|' !in id
  {
    RandomStringLength(date, 11, draw);
  }

  lemma HashIdFits(sum: Digest)
    ensures var id := "M" + Hex(sum)[..16]; |id| == 17 && '|' !in id
  {
    forall i: nat | i < 16 ensures Hex(sum)[i] != '|' { HexDigits(sum, i); }
  }

  /** Whatever the client sends, the id fits its char(20) column and holds no separator of
      the deduplication key. */
  lemma IdsFitAndHoldNoSeparator(sendID: string, clientMsgID: string, sha256: string -> Digest, date: string, draw: nat)
    requires draw < 9 * Power10(10) && |date| == 8 && Digits(date)
    ensures var id := DeriveMsgID(sendID, clientMsgID, sha256, date, draw);
      && |id| == (if clientMsgID == "" then 20 else 17) && '|' !in id
      && ResolveMessageUUID(id, date, draw) == id
      && |ResolveMessageUUID("", date, draw)| == 20 && '|' !in ResolveMessageUUID("", date, draw)
  {
    RandomIdFits(date, draw);
    if clientMsgID != "" { HashIdFits(sha256(sendID + "|" + clientMsgID)); }
  }

  lemma HexTellsDigitsApart(d: nat, e: nat)
    requires d < 16 && e < 16 && HEX[d] == HEX[e]
    ensures d == e
  {
  }

  lemma {:induction false} HexTellsBytesApart(a: seq<Byte>, b: seq<Byte>)
    requires Hex(a) == Hex(b)
    ensures a == b
  {
    if a != [] {
      var n := |a| - 1;
      assert Hex(a)[..2 * n] == Hex(a[..n]) && Hex(b)[..2 * n] == Hex(b[..n]);
      HexTellsBytesApart(a[..n], b[..n]);
      assert Hex(a)[2 * n] == HEX[a[n] / 16] && Hex(b)[2 * n] == HEX[b[n] / 16];
      HexTellsDigitsApart(a[n] / 16, b[n] / 16);
      HexTellsDigitsApart(a[n] % 16, b[n] % 16);
    }
  }

  lemma {:induction false} HexPrefix(bs: seq<Byte>, n: nat)
    requires n <= |bs|
    ensures Hex(bs)[..2 * n] == Hex(bs[..n])
  {
    var m := |bs| - 1;
    if n > m {
      assert bs[..n] == bs;
    } else {
      HexPrefix(bs[..m], n);
      assert bs[..m][..n] == bs[..n] && Hex(bs)[..2 * n] == Hex(bs[..m])[..2 * n];
    }
  }

  /** With a client id, the time and the draw do not matter: two messages get one id if and only
      if the first eight bytes of their hashes agree, which a client's retry meets; and if those
      bytes tell apart what is hashed, exactly the same pair of sender and client id gets it, as
      long as sender ids hold no separator. */
  lemma SameIdIff(s1: string, c1: string, s2: string, c2: string, sha256: string -> Digest,
                  date1: string, date2: string, draw1: nat, draw2: nat)
    requires draw1 < 9 * Power10(10) && draw2 < 9 * Power10(10)
    requires c1 != "" && c2 != "" && '|' !in s1 && '|' !in s2
    ensures var same := DeriveMsgID(s1, c1, sha256, date1, draw1) == DeriveMsgID(s2, c2, sha256, date2, draw2);
      var x, y := s1 + "|" + c1, s2 + "|" + c2;
      && (same <==> sha256(x)[..8] == sha256(y)[..8])
      && ((x != y ==> sha256(x)[..8] != sha256(y)[..8]) ==> (same <==> s1 == s2 && c1 == c2))
  {
    var x, y := s1 + "|" + c1, s2 + "|" + c2;
    var a, b := sha256(x), sha256(y);
    KeysTellPairsApart(s1, c1, s2, c2);
    HexPrefix(a, 8);
    HexPrefix(b, 8);
    if Hex(a)[..16] == Hex(b)[..16] { HexTellsBytesApart(a[..8], b[..8]); }
    assert DeriveMsgID(s1, c1, sha256, date1, draw1)[1..] == Hex(a)[..16];
    assert DeriveMsgID(s2, c2, sha256, date2, draw2)[1..] == Hex(b)[..16];
  }

  /** Without a client id two messages of one day get one id if and only if the draws agree. */
  lemma RandomIdsTellDrawsApart(s1: string, s2: string, sha256: string -> Digest, date: string, draw1: nat, draw2: nat)
    requires draw1 < 9 * Power10(10) && draw2 < 9 * Power10(10)
    ensures DeriveMsgID(s1, "", sha256, date, draw1) == DeriveMsgID(s2, "", sha256, date, draw2) <==> draw1 == draw2
  {
    var x, y := Itoa(GetRandomInt(11, draw1)), Itoa(GetRandomInt(11, draw2));
    if DeriveMsgID(s1, "", sha256, date, draw1) == DeriveMsgID(s2, "", sha256, date, draw2) {
      SameTail("M", date + x, date + y);
      SameTail(date, x, y);
      ItoaTellsApart(GetRandomInt(11, draw1), GetRandomInt(11, draw2));
    }
  }

  lemma SameTail(head: string, x: string, y: string)
    requires head + x == head + y
    ensures x == y
  {
    assert (head + x)[|head|..] == x && (head + y)[|head|..] == y;
  }
}
