/** hdwrap/zec.go: the Zcash engine. It keeps an inner `BtcKey` for everything
    but the transparent address, which reuses the Bitcoin pipeline with
    Zcash's two-byte prefixes. */
module Zec {
  import opened Common
  import opened Foreign
  import KeyTypes
  import Btc

  const ZcashPrefix: seq<byte> := [0x1c, 0xb8]
  const ZcashP2SHPrefix: seq<byte> := [0x1c, 0xbd]
  const ZcashTestnetPrefix: seq<byte> := [0x1d, 0x25]
  const ZcashTestnetP2SHPrefix: seq<byte> := [0x1c, 0xba]

  /** The prefix `GetChildPubKey` picks: never one of the P2SH prefixes. */
  function AddressPrefix(testnet: bool): (p: seq<byte>)
    ensures p == ZcashTestnetPrefix <==> testnet
    ensures p == ZcashPrefix <==> !testnet
    ensures p != ZcashP2SHPrefix && p != ZcashTestnetP2SHPrefix
  {
    if testnet then ZcashTestnetPrefix else ZcashPrefix
  }

  /** `encodeZcashPubkey`: the Bitcoin encoder with the given prefix. */
  function EncodeZcashPubkey(lib: Libraries, k: PubKey, prefix: seq<byte>): string {
    Btc.EncodeBitcoinPubkey(lib, k, prefix)
  }

  /** `ZecKey.GetChildPubKey` on the inner key, with the outer flag. */
  function ChildAddress(lib: Libraries, key: ExtendedKey, testnet: bool, index: int): Out {
    match Btc.ChildPubKey(lib, key, index)
    case Fail(e) => Failed(e)
    case Ok(pub) => Out(EncodeZcashPubkey(lib, pub, AddressPrefix(testnet)), None)
  }

  /** A Zcash transparent address is the Base58 text of a 26-byte payload:
      the two prefix bytes of the network, the HASH160 of the child's
      compressed point and the checksum; the hash is the one the Bitcoin
      address of the same child carries. Failures come back as `"", err`. */
  lemma ChildAddressLayout(lib: Libraries, key: ExtendedKey, testnet: bool, index: int)
    ensures ChildAddress(lib, key, testnet, index).err.Some? ==> ChildAddress(lib, key, testnet, index).str == ""
    ensures Btc.ChildPubKey(lib, key, index).Ok? ==>
      var pub := Btc.ChildPubKey(lib, key, index).value;
      var p := Btc.CheckPayload(lib, Btc.Hash160(lib, pub.compressed), AddressPrefix(testnet));
      && ChildAddress(lib, key, testnet, index) == Out(lib.base58Encode(p), None)
      && |p| == 26
      && p[..2] == (if testnet then [0x1d, 0x25] else [0x1c, 0xb8])
      && Btc.SplitCheckPayload(lib, p, 2) == Some((p[..2], Btc.Hash160(lib, pub.compressed)))
  {
    if Btc.ChildPubKey(lib, key, index).Ok? {
      var pub := Btc.ChildPubKey(lib, key, index).value;
      Btc.PubkeyPayload(lib, pub, AddressPrefix(testnet));
    }
  }

  /** `ZecKey`: works like a BtcKey except for public address generation.
      `key` is nil until `FromSeed` or `FromString` has run. */
  class ZecKey {
    var key: Btc.BtcKey?
    var testnet: bool

    /** `&ZecKey{}` */
    constructor ()
      ensures key == null && !testnet
    {
      key := null;
      testnet := false;
    }

    function Type(): KeyTypes.KeyType {
      KeyTypes.Zec
    }

    /** `SetTestNet`: sets the outer flag and the inner key's flag; Go
        dereferences the inner key, so it must exist. */
    method SetTestNet(b: bool)
      requires key != null
      modifies this`testnet, key`testnet
      ensures testnet == b && key == old(key) && key.testnet == b
      ensures key.key == old(key.key)
    {
      testnet := b;
      key.SetTestNet(b);
    }

    /** `FromString`: installs a fresh inner BtcKey (flag false) and imports
        into it. The previous inner key is dropped even when the import fails. */
    method FromString(lib: Libraries, data: string, priv: bool) returns (err: Option<Error>)
      modifies this`key
      ensures fresh(key) && !key.testnet
      ensures var r := Btc.Import(lib.btcNewKeyFromString(data), priv);
        err == r.Err() && key.key == (if r.Ok? then Some(r.value) else None)
    {
      key := new Btc.BtcKey();
      err := key.FromString(lib, data, priv);
    }

    /** `FromSeed`: installs a fresh inner BtcKey (flag false) and seeds it,
        so the master key always has MainNet parameters, whatever the outer
        flag says. The previous inner key is dropped even on failure. */
    method FromSeed(lib: Libraries, s: seq<byte>) returns (err: Option<Error>)
      modifies this`key
      ensures fresh(key) && !key.testnet
      ensures var m := lib.btcNewMaster(s, BtcMainNet);
        err == m.Err() && key.key == (if m.Ok? then Some(m.value) else None)
    {
      key := new Btc.BtcKey();
      err := key.FromSeed(lib, s);
    }

    /** `GetMasterPub`: the inner key's result. */
    method GetMasterPub(lib: Libraries) returns (r: Out)
      requires key != null && key.key.Some?
      ensures r == Btc.MasterPub(lib, key.key.value)
    {
      r := key.GetMasterPub(lib);
    }

    /** `GetMasterPriv`: the inner key's result. */
    method GetMasterPriv(lib: Libraries) returns (r: Out)
      requires key != null && key.key.Some?
      ensures r == Btc.MasterPriv(lib, key.key.value)
    {
      r := key.GetMasterPriv(lib);
    }

    /** `GetChildPrivKey`: the inner key's Bitcoin WIF, chosen by the INNER flag. */
    method GetChildPrivKey(lib: Libraries, index: int) returns (r: Out)
      requires key != null && key.key.Some?
      ensures r == Btc.ChildWif(lib, key.key.value, key.testnet, index)
    {
      r := key.GetChildPrivKey(lib, index);
    }

    /** `GetChildPubKey`: the inner key's child point, framed with the prefix
        of the OUTER flag. */
    method GetChildPubKey(lib: Libraries, index: int) returns (r: Out)
      requires key != null && key.key.Some?
      ensures r == ChildAddress(lib, key.key.value, testnet, index)
    {
      var ecpub := key.GetChildPubKeyBtc(lib, index);
      if ecpub.Fail? {
        return Failed(ecpub.error);
      }
      if testnet {
        return Out(EncodeZcashPubkey(lib, ecpub.value, ZcashTestnetPrefix), None);
      }
      return Out(EncodeZcashPubkey(lib, ecpub.value, ZcashPrefix), None);
    }
  }
}
