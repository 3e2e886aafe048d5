/** hdwrap/eth.go: the Ethereum engine. It keeps an inner `BtcKey` for the
    BIP32 part; child private keys are exported as raw lowercase hex and
    child addresses by go-ethereum's encoder, the same on every network. */
module Eth {
  import opened Common
  import opened Foreign
  import KeyTypes
  import Btc
  import Seed

  /** `fmt.Sprintf("%x", b)`: two lowercase hex digits per byte, as text. */
  function HexText(b: seq<byte>): string {
    var e := Seed.EncodeHex(b);
    seq(|e|, i requires 0 <= i < |e| => e[i] as char)
  }

  /** The codes of the characters of a text all of whose characters fit a byte. */
  function TextBytes(s: string): seq<byte>
    requires forall i :: 0 <= i < |s| ==> s[i] as int < 0x100
  {
    seq(|s|, i requires 0 <= i < |s| => s[i] as int)
  }

  /** `encodeEthereumPubkey` */
  function EncodeEthereumPubkey(lib: Libraries, k: PubKey): string {
    lib.ethPubkeyToAddressHex(k)
  }

  /** `EthKey.GetChildPrivKey` on the inner key: the serialized child scalar in hex. */
  function ChildPrivHex(lib: Libraries, key: ExtendedKey, index: int): Out {
    match Btc.ChildPrivKey(lib, key, index)
    case Fail(e) => Failed(e)
    case Ok(priv) => Out(HexText(priv.serialized), None)
  }

  /** `EthKey.GetChildPubKey` on the inner key; there is no network argument. */
  function ChildAddress(lib: Libraries, key: ExtendedKey, index: int): Out {
    match Btc.ChildPubKey(lib, key, index)
    case Fail(e) => Failed(e)
    case Ok(pub) => Out(EncodeEthereumPubkey(lib, pub), None)
  }

  /** The exported child private key is 64 lowercase hex digits with no
      prefix and no WIF framing, and hex-decoding it gives back the 32-byte
      scalar. Failures come back as `"", err`. */
  lemma {:induction false} ChildPrivHexRoundTrip(lib: Libraries, key: ExtendedKey, index: int)
    ensures ChildPrivHex(lib, key, index).err.Some? ==> ChildPrivHex(lib, key, index).str == ""
    ensures Btc.ChildPrivKey(lib, key, index).Ok? ==>
      var s := ChildPrivHex(lib, key, index).str;
      && ChildPrivHex(lib, key, index).err.None?
      && |s| == 64
      && (forall i :: 0 <= i < |s| ==> s[i] in "0123456789abcdef")
      && Seed.NewSeedFromHex(TextBytes(s)).Ok?
      && Seed.NewSeedFromHex(TextBytes(s)).value == Btc.ChildPrivKey(lib, key, index).value.serialized
  {
    if Btc.ChildPrivKey(lib, key, index).Ok? {
      var scalar := Btc.ChildPrivKey(lib, key, index).value.serialized;
      var e := Seed.EncodeHex(scalar);
      var s := HexText(scalar);
      forall i | 0 <= i < |s|
        ensures s[i] in "0123456789abcdef" && s[i] as int == e[i]
      {
        assert Seed.IsLowerHexDigit(e[i]);
      }
      assert TextBytes(s) == e;
      Seed.HexRoundTrip(scalar);
    }
  }

  /** The child address is go-ethereum's encoding of the child point, with
      no network argument; a failure to derive the point comes back as
      `"", err`. */
  lemma ChildAddressOutcome(lib: Libraries, key: ExtendedKey, index: int)
    ensures ChildAddress(lib, key, index).err.Some? ==> ChildAddress(lib, key, index).str == ""
    ensures ChildAddress(lib, key, index).err.Some? <==> Btc.ChildPubKey(lib, key, index).Fail?
    ensures Btc.ChildPubKey(lib, key, index).Ok? ==>
      ChildAddress(lib, key, index).str == lib.ethPubkeyToAddressHex(Btc.ChildPubKey(lib, key, index).value)
  {
  }

  /** `EthKey`: works like a BtcKey except for the exported child key and
      address. `key` is nil until `FromSeed` or `FromString` has run. */
  class EthKey {
    var key: Btc.BtcKey?
    var testnet: bool

    /** `&EthKey{}` */
    constructor ()
      ensures key == null && !testnet
    {
      key := null;
      testnet := false;
    }

    function Type(): KeyTypes.KeyType {
      KeyTypes.Eth
    }

    /** `SetTestNet`: keeps the outer and inner flags equal; Go dereferences
        the inner key, so it must exist. */
    method SetTestNet(b: bool)
      requires key != null
      modifies this`testnet, key`testnet
      ensures testnet == b && key == old(key) && key.testnet == b
      ensures key.key == old(key.key)
    {
      testnet := b;
      key.SetTestNet(b);
    }

    /** `FromString`: a fresh inner BtcKey (flag false) imports the string;
        its error comes back unchanged. */
    method FromString(lib: Libraries, data: string, priv: bool) returns (err: Option<Error>)
      modifies this`key
      ensures fresh(key) && !key.testnet
      ensures var r := Btc.Import(lib.btcNewKeyFromString(data), priv);
        err == r.Err() && key.key == (if r.Ok? then Some(r.value) else None)
    {
      key := new Btc.BtcKey();
      err := key.FromString(lib, data, priv);
    }

    /** `FromSeed`: a fresh inner BtcKey (flag false) builds a MainNet master key. */
    method FromSeed(lib: Libraries, s: seq<byte>) returns (err: Option<Error>)
      modifies this`key
      ensures fresh(key) && !key.testnet
      ensures var m := lib.btcNewMaster(s, BtcMainNet);
        err == m.Err() && key.key == (if m.Ok? then Some(m.value) else None)
    {
      key := new Btc.BtcKey();
      err := key.FromSeed(lib, s);
    }

    /** `GetMasterPub`: the inner key's Bitcoin-formatted extended public key. */
    method GetMasterPub(lib: Libraries) returns (r: Out)
      requires key != null && key.key.Some?
      ensures r == Btc.MasterPub(lib, key.key.value)
    {
      r := key.GetMasterPub(lib);
    }

    /** `GetMasterPriv`: the inner key's Bitcoin-formatted extended private key. */
    method GetMasterPriv(lib: Libraries) returns (r: Out)
      requires key != null && key.key.Some?
      ensures r == Btc.MasterPriv(lib, key.key.value)
    {
      r := key.GetMasterPriv(lib);
    }

    /** `GetChildPrivKey`: the child scalar in hex. */
    method GetChildPrivKey(lib: Libraries, index: int) returns (r: Out)
      requires key != null && key.key.Some?
      ensures r == ChildPrivHex(lib, key.key.value, index)
    {
      var privk := key.GetChildPrivKeyBtc(lib, index);
      if privk.Fail? {
        return Failed(privk.error);
      }
      return Out(HexText(privk.value.serialized), None);
    }

    /** `GetChildPubKey`: both branches of the flag call the same encoder, so
        the result does not depend on `testnet`. */
    method GetChildPubKey(lib: Libraries, index: int) returns (r: Out)
      requires key != null && key.key.Some?
      ensures r == ChildAddress(lib, key.key.value, index)
    {
      var ecpub := key.GetChildPubKeyBtc(lib, index);
      if ecpub.Fail? {
        return Failed(ecpub.error);
      }
      if testnet {
        return Out(EncodeEthereumPubkey(lib, ecpub.value), None);
      }
      return Out(EncodeEthereumPubkey(lib, ecpub.value), None);
    }
  }
}
