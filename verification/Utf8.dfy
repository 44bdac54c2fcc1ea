/** Keys as the bytes the program sees: the UTF-8 encoding of section 3 of RFC 3629. */
module Utf8 {
  import opened ShardService

  /** The byte with the lowest six bits of a code, after the first byte. */
  function Low(code: nat): nat {
    0x80 + code % 0x40
  }

  /** The code without its lowest six bits. */
  function High(code: nat): nat {
    code / 0x40
  }

  function Encode(c: char): (b: seq<nat>)
    ensures 1 <= |b| <= 4
  {
    var code := c as int;
    if code < 0x80 then [code]
    else if code < 0x800 then [0xC0 + High(code), Low(code)]
    else if code < 0x1_0000 then [0xE0 + High(High(code)), Low(High(code)), Low(code)]
    else [0xF0 + High(High(High(code))), Low(High(High(code))), Low(High(code)), Low(code)]
  }

  function Bytes(key: string): seq<nat> {
    if key == "" then [] else Encode(key[0]) + Bytes(key[1..])
  }

  // ----- Reading the bytes back -----

  /** How many bytes a character takes, by the first of them. */
  function Length(lead: nat): nat {
    if lead < 0xC0 then 1 else if lead < 0xE0 then 2 else if lead < 0xF0 then 3 else 4
  }

  /** Six bits from each of the following bytes. */
  function Rest(high: nat, b: seq<nat>): nat
    decreases |b|
  {
    if b == [] then high else Rest(high * 0x40 + b[0] % 0x40, b[1..])
  }

  function Code(b: seq<nat>): nat
    requires b != []
  {
    var mark := if |b| == 1 then 0 else if |b| == 2 then 0xC0 else if |b| == 3 then 0xE0 else 0xF0;
    Rest(if b[0] < mark then 0 else b[0] - mark, b[1..])
  }

  function Decode(b: seq<nat>): seq<nat>
    decreases |b|
  {
    if b == [] || Length(b[0]) > |b| then [] else [Code(b[..Length(b[0])])] + Decode(b[Length(b[0])..])
  }

  lemma RestOne(code: nat)
    ensures Rest(code, []) == Rest(High(code), [Low(code)]) == code
  {
    var rest: seq<nat> := [Low(code)][1..];
    assert rest == [];
  }

  lemma RestOneMore(code: nat, b: seq<nat>)
    ensures Rest(High(code), [Low(code)] + b) == Rest(code, b)
  {
    assert ([Low(code)] + b)[1..] == b;
  }

  /** Each character takes as many bytes as its first one says, and they hold its code. */
  lemma EncodeOne(c: char)
    ensures Length(Encode(c)[0]) == |Encode(c)| && Code(Encode(c)) == c as int
    ensures forall k {:trigger Encode(c)[k]} :: 0 <= k < |Encode(c)| ==> Encode(c)[k] < 0x100
    ensures forall k {:trigger Encode(c)[k]} :: 1 <= k < |Encode(c)| ==> 0x80 <= Encode(c)[k] < 0xC0
  {
    hide Rest;
    var b, code := Encode(c), c as int;
    RestOne(code);
    RestOneMore(High(code), [Low(code)]);
    RestOneMore(High(High(code)), [Low(High(code)), Low(code)]);
    if |b| == 1 {
      assert b[1..] == [];
    } else if |b| == 2 {
      assert b[1..] == [Low(code)];
    } else if |b| == 3 {
      assert b[1..] == [Low(High(code))] + [Low(code)];
    } else if |b| == 4 {
      assert b[1..] == [Low(High(High(code)))] + [Low(High(code)), Low(code)];
      assert [Low(High(code)), Low(code)] == [Low(High(code))] + [Low(code)];
    }
  }

  /** The bytes of a key determine the key. */
  lemma {:induction false} RoundTrip(key: string)
    ensures Decode(Bytes(key)) == seq(|key|, i requires 0 <= i < |key| => key[i] as int)
  {
    if key != "" {
      RoundTrip(key[1..]);
      EncodeOne(key[0]);
      var b, rest := Encode(key[0]), Bytes(key[1..]);
      assert (b + rest)[..|b|] == b && (b + rest)[|b|..] == rest;
    }
  }

  // ----- The shard of a key -----

  /** The shard of a key is its first byte modulo their number, 0 for the empty key; for ASCII, the character's code. */
  lemma ShardOfKey(n: nat, key: string)
    requires n > 0
    ensures KeyShard(n, key) == if Bytes(key) == [] then 0 else Bytes(key)[0] % n
    ensures key != "" && key[0] as int < 0x80 ==> KeyShard(n, key) == key[0] as int % n
  {
    if key != "" { FirstOfEncoding(key[0]); }
  }

  lemma FirstOfEncoding(c: char)
    ensures FirstByte(c) == Encode(c)[0]
  {
  }

  /** Keys with the same first character are in the same shard. */
  lemma SameFirst(n: nat, key: string, key2: string)
    requires n > 0 && key != "" && key2 != "" && key[0] == key2[0]
    ensures KeyShard(n, key) == KeyShard(n, key2)
  {
    ShardOfKey(n, key);
    ShardOfKey(n, key2);
  }
}
