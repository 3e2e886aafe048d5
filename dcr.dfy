/** hdwrap/dcr.go: the Decred engine, on Decred's own hdkeychain, WIF and
    address code. Parameters are chosen from the testnet flag at the time of
    each call: at `FromSeed` for the master key, at the getter for child keys
    and addresses. */
module Dcr {
  import opened Common
  import opened Foreign
  import KeyTypes
  import Btc

  /** The chaincfg parameter set the testnet flag selects. */
  function Params(testnet: bool): (p: DcrParams)
    ensures p == DcrTestNet2 <==> testnet
  {
    if testnet then DcrTestNet2 else DcrMainNet
  }

  /** `GetMasterPub` on a stored key: neuter, then the serializer's own
      `(string, error)`. */
  function MasterPub(lib: Libraries, key: ExtendedKey): Out {
    match lib.dcrNeuter(key)
    case Fail(e) => Failed(e)
    case Ok(pub) => lib.dcrString(pub)
  }

  /** `GetMasterPriv` on a stored key: the serializer's own `(string, error)`. */
  function MasterPriv(lib: Libraries, key: ExtendedKey): Out {
    lib.dcrString(key)
  }

  /** `key.Child(uint32(index))` */
  function Child(lib: Libraries, key: ExtendedKey, index: int): Res<ExtendedKey> {
    lib.dcrChild(key, Btc.ChildNumber(index))
  }

  /** `GetChildPrivKey` on a stored key: a secp256k1 WIF for the network the
      flag selects. */
  function ChildWif(lib: Libraries, key: ExtendedKey, testnet: bool, index: int): Out {
    match Child(lib, key, index)
    case Fail(e) => Failed(e)
    case Ok(c) =>
      match lib.dcrECPrivKey(c)
      case Fail(e) => Failed(e)
      case Ok(priv) =>
        match lib.dcrNewWIF(priv, Params(testnet), ECTypeSecp256k1)
        case Fail(e) => Failed(e)
        case Ok(wif) => Out(wif, None)
  }

  /** `GetChildPubKey` on a stored key: the child's address for the network
      the flag selects. */
  function ChildAddress(lib: Libraries, key: ExtendedKey, testnet: bool, index: int): Out {
    match Child(lib, key, index)
    case Fail(e) => Failed(e)
    case Ok(c) =>
      match lib.dcrAddress(c, Params(testnet))
      case Fail(e) => Failed(e)
      case Ok(addr) => Out(addr, None)
  }

  /** Every child failure comes back as `"", err`; the master outputs pass on
      exactly what the serializer returns; a child WIF or address is the
      encoder's result for TestNet2 when the flag is set and for MainNet
      otherwise; indices equal modulo 2^32 give the same outputs. */
  lemma ChildOutputs(lib: Libraries, key: ExtendedKey, testnet: bool, index: int)
    ensures ChildWif(lib, key, testnet, index).err.Some? ==> ChildWif(lib, key, testnet, index).str == ""
    ensures ChildAddress(lib, key, testnet, index).err.Some? ==> ChildAddress(lib, key, testnet, index).str == ""
    ensures lib.dcrNeuter(key).Ok? ==> MasterPub(lib, key) == lib.dcrString(lib.dcrNeuter(key).value)
    ensures Child(lib, key, index).Ok? ==>
      var c := Child(lib, key, index).value;
      var net := if testnet then DcrTestNet2 else DcrMainNet;
      && (lib.dcrAddress(c, net).Ok? ==>
            ChildAddress(lib, key, testnet, index) == Out(lib.dcrAddress(c, net).value, None))
      && (lib.dcrECPrivKey(c).Ok? && lib.dcrNewWIF(lib.dcrECPrivKey(c).value, net, ECTypeSecp256k1).Ok? ==>
            ChildWif(lib, key, testnet, index)
              == Out(lib.dcrNewWIF(lib.dcrECPrivKey(c).value, net, ECTypeSecp256k1).value, None))
    ensures ChildWif(lib, key, testnet, index) == ChildWif(lib, key, testnet, index + 0x1_0000_0000)
    ensures ChildAddress(lib, key, testnet, index) == ChildAddress(lib, key, testnet, index + 0x1_0000_0000)
  {
    Btc.ChildNumberWraps(index);
  }

  /** `DcrKey`: a Decred HD wallet. `key` is nil until `FromSeed` or
      `FromString` succeeds. */
  class DcrKey {
    var key: Option<ExtendedKey>
    var testnet: bool

    /** `&DcrKey{}` */
    constructor ()
      ensures key.None? && !testnet
    {
      key := None;
      testnet := false;
    }

    function Type(): KeyTypes.KeyType {
      KeyTypes.Dcr
    }

    /** `SetTestNet`: only the flag changes. */
    method SetTestNet(b: bool)
      modifies this`testnet
      ensures testnet == b
      ensures key == old(key)
    {
      testnet := b;
    }

    /** `FromString`: the key is assigned only on success; a public key is
        refused when a private one is demanded. */
    method FromString(lib: Libraries, data: string, priv: bool) returns (err: Option<Error>)
      modifies this`key
      ensures var r := Btc.Import(lib.dcrNewKeyFromString(data), priv);
        err == r.Err() && key == (if r.Ok? then Some(r.value) else old(key))
    {
      var parsed := lib.dcrNewKeyFromString(data);
      if parsed.Fail? {
        return Some(parsed.error);
      }
      if priv && !parsed.value.isPrivate {
        return Some(NotAPrivateKey);
      }
      key := Some(parsed.value);
      return None;
    }

    /** `FromSeed`: TestNet2 parameters exactly when the flag is set at this
        call; the key is untouched on failure. */
    method FromSeed(lib: Libraries, s: seq<byte>) returns (err: Option<Error>)
      modifies this`key
      ensures var m := lib.dcrNewMaster(s, Params(testnet));
        err == m.Err() && key == (if m.Ok? then Some(m.value) else old(key))
    {
      var params := DcrMainNet;
      if testnet {
        params := DcrTestNet2;
      }
      var masterk := lib.dcrNewMaster(s, params);
      if masterk.Fail? {
        return Some(masterk.error);
      }
      key := Some(masterk.value);
      return None;
    }

    /** `GetMasterPub` */
    method GetMasterPub(lib: Libraries) returns (r: Out)
      requires key.Some?
      ensures r == MasterPub(lib, key.value)
    {
      var pubk := lib.dcrNeuter(key.value);
      if pubk.Fail? {
        return Failed(pubk.error);
      }
      return lib.dcrString(pubk.value);
    }

    /** `GetMasterPriv` */
    method GetMasterPriv(lib: Libraries) returns (r: Out)
      requires key.Some?
      ensures r == MasterPriv(lib, key.value)
    {
      return lib.dcrString(key.value);
    }

    /** `GetChildPrivKey` */
    method GetChildPrivKey(lib: Libraries, index: int) returns (r: Out)
      requires key.Some?
      ensures r == ChildWif(lib, key.value, testnet, index)
    {
      var childpriv := lib.dcrChild(key.value, index % 0x1_0000_0000);
      if childpriv.Fail? {
        return Failed(childpriv.error);
      }
      var privk := lib.dcrECPrivKey(childpriv.value);
      if privk.Fail? {
        return Failed(privk.error);
      }
      var params := DcrMainNet;
      if testnet {
        params := DcrTestNet2;
      }
      var wif := lib.dcrNewWIF(privk.value, params, ECTypeSecp256k1);
      if wif.Fail? {
        return Failed(wif.error);
      }
      return Out(wif.value, None);
    }

    /** `GetChildPubKey` */
    method GetChildPubKey(lib: Libraries, index: int) returns (r: Out)
      requires key.Some?
      ensures r == ChildAddress(lib, key.value, testnet, index)
    {
      var childpub := lib.dcrChild(key.value, index % 0x1_0000_0000);
      if childpub.Fail? {
        return Failed(childpub.error);
      }
      var params := DcrMainNet;
      if testnet {
        params := DcrTestNet2;
      }
      var addr := lib.dcrAddress(childpub.value, params);
      if addr.Fail? {
        return Failed(addr.error);
      }
      return Out(addr.value, None);
    }
  }
}
