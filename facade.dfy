/** hdwrap/key.go, second half: the `Key` interface as one sum type over the
    four engines, and the constructors `EmptyKey` / `EmptyKeyStr`. */
module Facade {
  import opened KeyTypes
  import Btc
  import Zec
  import Eth
  import Dcr

  /** A value of the `Key` interface: a pointer to one of the four engines. */
  datatype Key =
    | Bitcoin(btc: Btc.BtcKey)
    | Zcash(zec: Zec.ZecKey)
    | Ethereum(eth: Eth.EthKey)
    | Decred(dcr: Dcr.DcrKey)
  {
    /** `Key.Type()`, answered by the engine itself. */
    function Type(): KeyType {
      match this
      case Bitcoin(k) => k.Type()
      case Zcash(k) => k.Type()
      case Ethereum(k) => k.Type()
      case Decred(k) => k.Type()
    }

    /** The engine object behind the interface value. */
    function Repr(): set<object> {
      match this
      case Bitcoin(k) => {k}
      case Zcash(k) => {k}
      case Ethereum(k) => {k}
      case Decred(k) => {k}
    }

    /** Uninitialised: no extended key (nor inner engine) yet, flag off. */
    predicate Empty()
      reads Repr()
    {
      match this
      case Bitcoin(k) => k.key.None? && !k.testnet
      case Zcash(k) => k.key == null && !k.testnet
      case Ethereum(k) => k.key == null && !k.testnet
      case Decred(k) => k.key.None? && !k.testnet
    }
  }

  /** `EmptyKey`: an uninitialised engine of the requested type. Go panics
      with "bad key type" for any other value, `Bad` included. */
  method EmptyKey(t: KeyType) returns (k: Key)
    requires Supported(t)
    ensures k.Type() == t && k.Empty() && fresh(k.Repr())
  {
    KeyTypeTable();
    if t == KeyTypes.Btc {
      var b := new Btc.BtcKey();
      k := Bitcoin(b);
    } else if t == KeyTypes.Zec {
      var z := new Zec.ZecKey();
      k := Zcash(z);
    } else if t == KeyTypes.Eth {
      var e := new Eth.EthKey();
      k := Ethereum(e);
    } else if t == KeyTypes.Dcr {
      var d := new Dcr.DcrKey();
      k := Decred(d);
    } else {
      assert false;
    }
  }

  /** `EmptyKeyStr`: `EmptyKey` of the table entry for the lower-cased name;
      an unknown name looks up to `Bad`, which `EmptyKey` rejects. */
  method EmptyKeyStr(s: string) returns (k: Key)
    requires Supported(Lookup(s))
    ensures k.Type() == Lookup(s) && k.Empty() && fresh(k.Repr())
  {
    k := EmptyKey(Lookup(s));
  }
}
