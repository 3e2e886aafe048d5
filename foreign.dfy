/** The code hdwrap calls but does not contain: hash functions, Base58, the
    btcutil and dcrutil hdkeychain packages (BIP32 extended keys), WIF
    encoders, network parameters and Ethereum's address encoder. Each library
    call is a field of `Libraries`, a total function whose behaviour the model
    does not fix beyond the output lengths carried by the result types. */
module Foreign {
  import opened Common

  type Sha256Digest = s: seq<byte> | |s| == 32 witness seq(32, _ => 0)
  type Sha512Digest = s: seq<byte> | |s| == 64 witness seq(64, _ => 0)
  type Ripemd160Digest = s: seq<byte> | |s| == 20 witness seq(20, _ => 0)

  /** A secp256k1 point in SEC1 compressed form: 0x02 or 0x03, then X. */
  type CompressedPoint = s: seq<byte> | |s| == 33 && (s[0] == 2 || s[0] == 3)
    witness [2] + seq(32, _ => 0)

  /** A 32-byte secp256k1 scalar as `PrivateKey.Serialize` pads it. */
  type Scalar = s: seq<byte> | |s| == 32 witness seq(32, _ => 0)

  datatype PubKey = PubKey(compressed: CompressedPoint)
  datatype PrivKey = PrivKey(serialized: Scalar)

  /** One node of a BIP32 tree as the hdkeychain library holds it. Its
      contents are the library's business: `id` only tells keys apart. The
      package itself reads nothing of a key but `IsPrivate`. */
  datatype ExtendedKey = ExtendedKey(id: seq<byte>, isPrivate: bool)

  /** Bitcoin's chaincfg parameter sets used by the package. */
  datatype BtcParams = BtcMainNet | BtcTestNet3

  /** Decred's chaincfg parameter sets used by the package. */
  datatype DcrParams = DcrMainNet | DcrTestNet2

  /** Decred's chainec signature types. */
  datatype ECType = ECTypeSecp256k1 | ECTypeEdwards | ECTypeSecSchnorr

  /** `PubKeyHashAddrID` of Bitcoin's chaincfg parameter sets. */
  function PubKeyHashAddrID(p: BtcParams): byte {
    match p
    case BtcMainNet => 0x00
    case BtcTestNet3 => 0x6f
  }

  datatype Libraries = Libraries(
    // crypto/sha256, crypto/sha512, x/crypto/ripemd160, btcutil/base58
    sha256: seq<byte> -> Sha256Digest,
    sha512: seq<byte> -> Sha512Digest,
    ripemd160: seq<byte> -> Ripemd160Digest,
    base58Encode: seq<byte> -> string,
    // btcutil/hdkeychain and btcutil.NewWIF (followed by WIF.String)
    btcNewMaster: (seq<byte>, BtcParams) -> Res<ExtendedKey>,
    btcNewKeyFromString: string -> Res<ExtendedKey>,
    btcNeuter: ExtendedKey -> Res<ExtendedKey>,
    btcString: ExtendedKey -> string,
    btcChild: (ExtendedKey, uint32) -> Res<ExtendedKey>,
    btcECPrivKey: ExtendedKey -> Res<PrivKey>,
    btcECPubKey: ExtendedKey -> Res<PubKey>,
    btcNewWIF: (PrivKey, BtcParams, bool) -> Res<string>,
    // go-ethereum: PubkeyToAddress followed by Address.Hex
    ethPubkeyToAddressHex: PubKey -> string,
    // dcrutil/hdkeychain, dcrutil.NewWIF (followed by WIF.String),
    // ExtendedKey.Address (followed by EncodeAddress)
    dcrNewMaster: (seq<byte>, DcrParams) -> Res<ExtendedKey>,
    dcrNewKeyFromString: string -> Res<ExtendedKey>,
    dcrNeuter: ExtendedKey -> Res<ExtendedKey>,
    dcrString: ExtendedKey -> Out,
    dcrChild: (ExtendedKey, uint32) -> Res<ExtendedKey>,
    dcrECPrivKey: ExtendedKey -> Res<PrivKey>,
    dcrNewWIF: (PrivKey, DcrParams, ECType) -> Res<string>,
    dcrAddress: (ExtendedKey, DcrParams) -> Res<string>)
}
