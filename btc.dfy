/** hdwrap/btc.go: the Bitcoin engine. `BtcKey` holds an optional BIP32
    extended key and a testnet flag; its getters are proved against the
    value-level functions below, which also describe the Base58Check framing
    and the pay-to-pubkey-hash address layout. */
module Btc {
  import opened Common
  import opened Foreign
  import KeyTypes

  /** The chaincfg parameter set the testnet flag selects. */
  function Params(testnet: bool): (p: BtcParams)
    ensures p == BtcTestNet3 <==> testnet
  {
    if testnet then BtcTestNet3 else BtcMainNet
  }

  /** Go's `uint32(index)`: the low 32 bits of the two's-complement index. */
  function ChildNumber(index: int): (n: uint32)
    ensures 0 <= index < 0x1_0000_0000 ==> n == index
  {
    index % 0x1_0000_0000
  }

  /** Indices that agree modulo 2^32 name the same child; the negative
      indices from -2^31 up land in the hardened range. */
  lemma ChildNumberWraps(index: int)
    ensures ChildNumber(index + 0x1_0000_0000) == ChildNumber(index)
    ensures -0x8000_0000 <= index < 0 ==>
      ChildNumber(index) == index + 0x1_0000_0000 && ChildNumber(index) >= 0x8000_0000
  {
  }

  /** What `FromString` installs: the parsed key, unless parsing failed (its
      error is returned unchanged) or a private key was demanded and the
      parsed key is public only. */
  function Import(parsed: Res<ExtendedKey>, priv: bool): (r: Res<ExtendedKey>)
    ensures r.Ok? <==> parsed.Ok? && (!priv || parsed.value.isPrivate)
    ensures r.Ok? ==> r.value == parsed.value
    ensures parsed.Fail? ==> r == parsed
    ensures parsed.Ok? && r.Fail? ==> r.error == NotAPrivateKey
  {
    match parsed
    case Fail(_) => parsed
    case Ok(key) => if priv && !key.isPrivate then Fail(NotAPrivateKey) else parsed
  }

  // ---------------------------------------------------------------- Base58Check

  /** The first four bytes of the double SHA-256 of `data`. */
  function Checksum(lib: Libraries, data: seq<byte>): (c: seq<byte>)
    ensures |c| == 4
  {
    lib.sha256(lib.sha256(data))[..4]
  }

  /** The bytes `base58Check` hands to the Base58 encoder: the prefix, the
      value, then the checksum of the two. */
  function CheckPayload(lib: Libraries, val: seq<byte>, prefix: seq<byte>): (p: seq<byte>)
    ensures |p| == |prefix| + |val| + 4
    ensures p[..|prefix|] == prefix
    ensures p[|prefix|..|prefix| + |val|] == val
    ensures p[|prefix| + |val|..] == Checksum(lib, p[..|prefix| + |val|])
  {
    var body := prefix + val;
    assert body[..|prefix|] == prefix && body[|prefix|..] == val;
    body + Checksum(lib, body)
  }

  /** `base58Check` */
  function Base58Check(lib: Libraries, val: seq<byte>, prefix: seq<byte>): string {
    lib.base58Encode(CheckPayload(lib, val, prefix))
  }

  /** The reading side of the framing: split a payload into a prefix of
      `prefixLen` bytes and the value, provided its last four bytes are the
      checksum of the rest. */
  function SplitCheckPayload(lib: Libraries, p: seq<byte>, prefixLen: nat): Option<(seq<byte>, seq<byte>)> {
    if |p| < prefixLen + 4 then None
    else
      var body := p[..|p| - 4];
      if p[|p| - 4..] != Checksum(lib, body) then None
      else Some((body[..prefixLen], body[prefixLen..]))
  }

  /** Every framed payload reads back as its prefix and value. */
  lemma CheckPayloadRoundTrip(lib: Libraries, val: seq<byte>, prefix: seq<byte>)
    ensures SplitCheckPayload(lib, CheckPayload(lib, val, prefix), |prefix|) == Some((prefix, val))
  {
    var p := CheckPayload(lib, val, prefix);
    assert p[..|p| - 4] == prefix + val;
  }

  /** Every payload that reads back is the framing of what it reads back as. */
  lemma SplitCheckPayloadSound(lib: Libraries, p: seq<byte>, prefixLen: nat)
    requires SplitCheckPayload(lib, p, prefixLen).Some?
    ensures var (prefix, val) := SplitCheckPayload(lib, p, prefixLen).value;
      |prefix| == prefixLen && CheckPayload(lib, val, prefix) == p
  {
    var (prefix, val) := SplitCheckPayload(lib, p, prefixLen).value;
    assert prefix + val == p[..|p| - 4];
    assert p == p[..|p| - 4] + p[|p| - 4..];
  }

  // ---------------------------------------------------------------- addresses

  /** RIPEMD-160 of SHA-256. */
  function Hash160(lib: Libraries, data: seq<byte>): Ripemd160Digest {
    lib.ripemd160(lib.sha256(data))
  }

  /** `encodeBitcoinPubkey`: Base58Check of the HASH160 of the compressed point. */
  function EncodeBitcoinPubkey(lib: Libraries, k: PubKey, prefix: seq<byte>): string {
    Base58Check(lib, Hash160(lib, k.compressed), prefix)
  }

  /** The payload of an encoded public key is |prefix| + 24 bytes and reads
      back as the prefix and RIPEMD160(SHA256(33-byte compressed point)). */
  lemma PubkeyPayload(lib: Libraries, k: PubKey, prefix: seq<byte>)
    ensures var p := CheckPayload(lib, Hash160(lib, k.compressed), prefix);
      && EncodeBitcoinPubkey(lib, k, prefix) == lib.base58Encode(p)
      && |p| == |prefix| + 24
      && SplitCheckPayload(lib, p, |prefix|) == Some((prefix, lib.ripemd160(lib.sha256(k.compressed))))
  {
    CheckPayloadRoundTrip(lib, Hash160(lib, k.compressed), prefix);
  }

  // ---------------------------------------------------------------- BtcKey outputs

  /** `GetMasterPub` on a stored key: neuter, then serialize. */
  function MasterPub(lib: Libraries, key: ExtendedKey): Out {
    match lib.btcNeuter(key)
    case Fail(e) => Failed(e)
    case Ok(pub) => Out(lib.btcString(pub), None)
  }

  /** `GetMasterPriv` on a stored key: serialize it; never fails. */
  function MasterPriv(lib: Libraries, key: ExtendedKey): Out {
    Out(lib.btcString(key), None)
  }

  /** The child both child getters derive: `key.Child(uint32(index))`. */
  function Child(lib: Libraries, key: ExtendedKey, index: int): Res<ExtendedKey> {
    lib.btcChild(key, ChildNumber(index))
  }

  /** `GetChildPrivKeyBtc` on a stored key. */
  function ChildPrivKey(lib: Libraries, key: ExtendedKey, index: int): Res<PrivKey> {
    match Child(lib, key, index)
    case Fail(e) => Fail(e)
    case Ok(c) => lib.btcECPrivKey(c)
  }

  /** `GetChildPubKeyBtc` on a stored key. */
  function ChildPubKey(lib: Libraries, key: ExtendedKey, index: int): Res<PubKey> {
    match Child(lib, key, index)
    case Fail(e) => Fail(e)
    case Ok(c) => lib.btcECPubKey(c)
  }

  /** `GetChildPrivKey` on a stored key: compressed WIF for the network the
      flag selects. */
  function ChildWif(lib: Libraries, key: ExtendedKey, testnet: bool, index: int): Out {
    match ChildPrivKey(lib, key, index)
    case Fail(e) => Failed(e)
    case Ok(priv) =>
      match lib.btcNewWIF(priv, Params(testnet), true)
      case Fail(e) => Failed(e)
      case Ok(wif) => Out(wif, None)
  }

  /** The address prefix `GetChildPubKey` uses. */
  function AddressPrefix(testnet: bool): seq<byte> {
    [PubKeyHashAddrID(Params(testnet))]
  }

  /** `GetChildPubKey` on a stored key. */
  function ChildAddress(lib: Libraries, key: ExtendedKey, testnet: bool, index: int): Out {
    match ChildPubKey(lib, key, index)
    case Fail(e) => Failed(e)
    case Ok(pub) => Out(EncodeBitcoinPubkey(lib, pub, AddressPrefix(testnet)), None)
  }

  /** Every failure comes back as `"", err`, and the master private key never fails. */
  lemma ErrorsComeWithEmptyString(lib: Libraries, key: ExtendedKey, testnet: bool, index: int)
    ensures MasterPub(lib, key).err.Some? ==> MasterPub(lib, key).str == ""
    ensures MasterPriv(lib, key).err.None?
    ensures ChildWif(lib, key, testnet, index).err.Some? ==> ChildWif(lib, key, testnet, index).str == ""
    ensures ChildAddress(lib, key, testnet, index).err.Some? ==> ChildAddress(lib, key, testnet, index).str == ""
  {
  }

  /** The private and the public child output come from the same child of the
      same stored key, and indices equal modulo 2^32 give the same outputs,
      whether the derivation succeeds or fails. */
  lemma ChildOutputsShareChild(lib: Libraries, key: ExtendedKey, testnet: bool, index: int)
    ensures Child(lib, key, index).Ok? ==>
      var c := Child(lib, key, index).value;
      ChildPrivKey(lib, key, index) == lib.btcECPrivKey(c) && ChildPubKey(lib, key, index) == lib.btcECPubKey(c)
    ensures ChildWif(lib, key, testnet, index) == ChildWif(lib, key, testnet, index + 0x1_0000_0000)
    ensures ChildAddress(lib, key, testnet, index) == ChildAddress(lib, key, testnet, index + 0x1_0000_0000)
  {
    ChildNumberWraps(index);
  }

  /** A child address is the Base58 text of a 25-byte payload: the version
      byte 0x6f on TestNet3 and 0x00 on MainNet, the HASH160 of the child's
      compressed point, and the checksum. Switching network changes the
      version byte (and so the checksum) but not the hash. */
  lemma ChildAddressLayout(lib: Libraries, key: ExtendedKey, testnet: bool, index: int)
    requires ChildPubKey(lib, key, index).Ok?
    ensures var pub := ChildPubKey(lib, key, index).value;
      var p := CheckPayload(lib, Hash160(lib, pub.compressed), AddressPrefix(testnet));
      && ChildAddress(lib, key, testnet, index) == Out(lib.base58Encode(p), None)
      && |p| == 25
      && p[0] == (if testnet then 0x6f else 0x00)
      && SplitCheckPayload(lib, p, 1) == Some(([p[0]], Hash160(lib, pub.compressed)))
  {
    var pub := ChildPubKey(lib, key, index).value;
    PubkeyPayload(lib, pub, AddressPrefix(testnet));
  }

  // ---------------------------------------------------------------- the engine

  /** `BtcKey`: a Bitcoin HD wallet. `key` is nil until `FromSeed` or
      `FromString` succeeds. */
  class BtcKey {
    var key: Option<ExtendedKey>
    var testnet: bool

    /** `&BtcKey{}` */
    constructor ()
      ensures key.None? && !testnet
    {
      key := None;
      testnet := false;
    }

    function Type(): KeyTypes.KeyType {
      KeyTypes.Btc
    }

    /** `SetTestNet`: selects TestNet3 for later outputs; only the flag changes. */
    method SetTestNet(b: bool)
      modifies this`testnet
      ensures testnet == b
      ensures key == old(key)
    {
      testnet := b;
    }

    /** `FromString`: import an extended key string. On failure the stored
        key is untouched. */
    method FromString(lib: Libraries, data: string, priv: bool) returns (err: Option<Error>)
      modifies this`key
      ensures var r := Import(lib.btcNewKeyFromString(data), priv);
        err == r.Err() && key == (if r.Ok? then Some(r.value) else old(key))
    {
      var parsed := lib.btcNewKeyFromString(data);
      if parsed.Fail? {
        return Some(parsed.error);
      }
      if priv && !parsed.value.isPrivate {
        return Some(NotAPrivateKey);
      }
      key := Some(parsed.value);
      return None;
    }

    /** `FromSeed`: the master key is built with TestNet3 parameters exactly
        when the flag is set at this call. On failure the stored key is
        untouched. */
    method FromSeed(lib: Libraries, s: seq<byte>) returns (err: Option<Error>)
      modifies this`key
      ensures var m := lib.btcNewMaster(s, Params(testnet));
        err == m.Err() && key == (if m.Ok? then Some(m.value) else old(key))
    {
      var params := BtcMainNet;
      if testnet {
        params := BtcTestNet3;
      }
      var masterk := lib.btcNewMaster(s, params);
      if masterk.Fail? {
        return Some(masterk.error);
      }
      key := Some(masterk.value);
      return None;
    }

    /** `GetMasterPub`: depends on the stored key only, not on the flag. */
    method GetMasterPub(lib: Libraries) returns (r: Out)
      requires key.Some?
      ensures r == MasterPub(lib, key.value)
    {
      var pubk := lib.btcNeuter(key.value);
      if pubk.Fail? {
        return Failed(pubk.error);
      }
      return Out(lib.btcString(pubk.value), None);
    }

    /** `GetMasterPriv`: depends on the stored key only, not on the flag. */
    method GetMasterPriv(lib: Libraries) returns (r: Out)
      requires key.Some?
      ensures r == MasterPriv(lib, key.value)
    {
      return Out(lib.btcString(key.value), None);
    }

    /** `GetChildPrivKey`: WIF with the parameters of the current flag. */
    method GetChildPrivKey(lib: Libraries, index: int) returns (r: Out)
      requires key.Some?
      ensures r == ChildWif(lib, key.value, testnet, index)
    {
      var privk := GetChildPrivKeyBtc(lib, index);
      if privk.Fail? {
        return Failed(privk.error);
      }
      var params := BtcMainNet;
      if testnet {
        params := BtcTestNet3;
      }
      var wif := lib.btcNewWIF(privk.value, params, true);
      if wif.Fail? {
        return Failed(wif.error);
      }
      return Out(wif.value, None);
    }

    /** `GetChildPubKey`: address with the version byte of the current flag. */
    method GetChildPubKey(lib: Libraries, index: int) returns (r: Out)
      requires key.Some?
      ensures r == ChildAddress(lib, key.value, testnet, index)
    {
      var ecpub := GetChildPubKeyBtc(lib, index);
      if ecpub.Fail? {
        return Failed(ecpub.error);
      }
      if testnet {
        return Out(EncodeBitcoinPubkey(lib, ecpub.value, [PubKeyHashAddrID(BtcTestNet3)]), None);
      }
      return Out(EncodeBitcoinPubkey(lib, ecpub.value, [PubKeyHashAddrID(BtcMainNet)]), None);
    }

    /** `GetChildPrivKeyBtc` */
    method GetChildPrivKeyBtc(lib: Libraries, index: int) returns (r: Res<PrivKey>)
      requires key.Some?
      ensures r == ChildPrivKey(lib, key.value, index)
    {
      var childpriv := lib.btcChild(key.value, index % 0x1_0000_0000);
      if childpriv.Fail? {
        return Fail(childpriv.error);
      }
      return lib.btcECPrivKey(childpriv.value);
    }

    /** `GetChildPubKeyBtc` */
    method GetChildPubKeyBtc(lib: Libraries, index: int) returns (r: Res<PubKey>)
      requires key.Some?
      ensures r == ChildPubKey(lib, key.value, index)
    {
      var childpub := lib.btcChild(key.value, index % 0x1_0000_0000);
      if childpub.Fail? {
        return Fail(childpub.error);
      }
      return lib.btcECPubKey(childpub.value);
    }
  }

  /** The order `makeKeyFromSeed` uses: seed first, flag after. The master key
      keeps MainNet parameters, while child addresses switch to TestNet3. */
  method SeedThenTestNet(lib: Libraries, s: seq<byte>) returns (k: BtcKey)
    ensures fresh(k) && k.testnet
    ensures var m := lib.btcNewMaster(s, BtcMainNet);
      k.key == (if m.Ok? then Some(m.value) else None)
  {
    k := new BtcKey();
    var _ := k.FromSeed(lib, s);
    k.SetTestNet(true);
  }
}
