# hdwrap in Dafny

A model of the `hdwrap` package of hdkeyutils: one HD-wallet seed, four chain
engines (Bitcoin, Zcash, Ethereum, Decred) behind a common `Key` interface,
and the byte layouts the package builds itself.

- `common.dfy` (`Common`): bytes, Go's `uint32`, `MaxInt64` and `Wrap64` (Go's
  64-bit `int` arithmetic, used by `PrintMnemonic`), `Option`, the error values,
  and `Out`, Go's `(string, error)` pair.
- `foreign.dfy` (`Foreign`): everything the package calls but does not contain.
  SHA-256, SHA-512, RIPEMD-160, Base58, the btcutil and dcrutil `hdkeychain`
  packages, the WIF encoders, Decred addresses and go-ethereum's address encoder
  are fields of one datatype, `Libraries`. Each field is a total function. Every
  operation takes it as the parameter `lib`. The model fixes nothing about these
  functions except what their result types carry: digests of 32, 64 and 20
  bytes, 33-byte compressed points and 32-byte scalars. Network parameter sets
  are enumerations. `PubKeyHashAddrID` holds Bitcoin's two address version bytes
  (0x00 on MainNet, 0x6f on TestNet3).
- `seed.dfy` (`Seed`): the seed buffer, the hex codec (with Go's encoding/hex
  rules), the in-place `Zero`, `GenerateCustom` over a byte source, and the text
  `PrintMnemonic` writes.
- `keytypes.dfy` (`KeyTypes`): the `KeyType` constants, `keyTypeMap`,
  `KeyType.String` and the case-insensitive lookup behind `EmptyKeyStr`.
- `btc.dfy` (`Btc`): `base58Check`, `encodeBitcoinPubkey` and the `BtcKey` class.
- `zec.dfy` (`Zec`), `eth.dfy` (`Eth`), `dcr.dfy` (`Dcr`): the other engines.
- `facade.dfy` (`Facade`): the `Key` interface as a sum type over the four engine
  classes, with `EmptyKey` and `EmptyKeyStr`.

Each engine is a class with the Go fields `key` and `testnet`. A nil
`*hdkeychain.ExtendedKey` is `None`. A nil inner `*BtcKey` (Zcash, Ethereum) is
`null`. Methods that change state carry `modifies` clauses naming exactly the
fields they assign. The getters read the state and are proved equal to
module-level functions of the stored key, the flag and the index. The lemmas
state the properties of those functions. A Go panic is a precondition: a getter
on a nil key, `SetTestNet` on a Zcash or Ethereum key with no inner key, `String`
or `EmptyKey` of an unsupported type, and `PrintMnemonic` with fewer than one
word per line.

Behaviour of the Go code that a reader might not expect:
- The package never rejects child indices of 2^31 and above. It passes
  `uint32(index)` to the library's `Child` (hdwrap/btc.go:118), which decides by
  itself. An `int` index in [-2^31, 0) wraps into the hardened range
  (`Btc.ChildNumberWraps`); other negative indices wrap modulo 2^32.
- The master key's parameters are fixed when `FromSeed` runs
  (hdwrap/btc.go:51-55). `makeKeyFromSeed` sets the testnet flag afterwards
  (main.go:449-453), so the master key keeps MainNet parameters while child
  outputs switch (`Btc.SeedThenTestNet`).
- `PrintMnemonic` computes `i+wordsPerLine+1` in Go's 64-bit `int`
  (hdwrap/seed.go:126). For a `wordsPerLine` near 2^63 the sum wraps and a
  newline can come early: with 2^63-1 words per line, one follows the second
  word (`Seed.SeparatorWrapsAtMaxInt`). Below that the test is
  `(i+1)%wordsPerLine == 0` (`Seed.SeparatorWithoutOverflow`).
- A seed shares its buffer with the slice it was made from and with the slice
  `Bytes` returns, so `Zero` clears all of them (`Seed.ZeroSharedSeed`).
- Zcash and Ethereum always seed or import through a fresh inner `BtcKey` whose
  flag is off. A Zcash key that is re-seeded after `SetTestNet(true)` therefore
  exports MainNet WIF child keys, which use the inner flag, next to TestNet
  addresses, which use the outer flag.
- On Zcash and Ethereum a failed `FromString` or `FromSeed` still replaces the
  inner key, so the previous key is lost. On Bitcoin and Decred a failure
  leaves the stored key untouched.

## Model

| member | source | states |
|---|---|---|
| `KeyTypes.KeyTypeTable` | hdwrap/key.go:8-24 | Bad, Btc, Zec, Eth, Dcr are five distinct values; the table names exactly Btc, Zec, Eth, Dcr; Bad is not supported |
| `KeyTypes.KeyTypeMapInjective` | hdwrap/key.go:19-24 | no two names map to the same key type |
| `KeyTypes.String` | hdwrap/key.go:27-34 | for a supported type, returns a name the table maps back to that type; the "bad key type" panic is the precondition |
| `KeyTypes.ToLower` | hdwrap/key.go:68 | same length, each character lower-cased |
| `KeyTypes.Lookup` | hdwrap/key.go:68 | the table entry of the lower-cased name when there is one, otherwise the zero value Bad |
| `KeyTypes.LookupIgnoresCase` | hdwrap/key.go:67-69 | any spelling of a table name, in any case, looks up to that name's type |
| `KeyTypes.NameLookupRoundTrip` | hdwrap/key.go:19-31 | the name of a supported type looks up to the type |
| `Facade.EmptyKey` | hdwrap/key.go:51-64 | for each supported type, a fresh engine of that type with no key and the flag off; other types panic (precondition) |
| `Facade.EmptyKeyStr` | hdwrap/key.go:67-69 | EmptyKey of the case-insensitive lookup; an unknown name gives Bad and panics (precondition) |
| `Seed.EncodeHex` | hdwrap/seed.go:90-94 | 2·len bytes, all lowercase hex digits, high nibble then low nibble of each byte |
| `Seed.NewSeedFromHex` | hdwrap/seed.go:69-76 | succeeds iff the length is even and every character is a hex digit; the seed is len/2 bytes, each the value of its digit pair; failures are ErrLength or an offending byte |
| `Seed.HexRoundTrip` | hdwrap/seed.go:69-94 | decoding the hex encoding of any seed gives the seed back |
| `Seed.HexDecodeEncode` | hdwrap/seed.go:69-94 | encoding a decoded seed gives back its input, lower-cased |
| `Seed.NewSeedFromBytes` | hdwrap/seed.go:80-82 | the seed is the caller's buffer itself, not a copy |
| `Seed.Bytes` | hdwrap/seed.go:103-105 | the returned slice is the seed's own buffer, not a copy |
| `Seed.Zero` | hdwrap/seed.go:108-114 | in place; same length, every byte 0 |
| `Seed.ZeroSharedSeed` | hdwrap/seed.go:103-114 | a seed made from a buffer and the slice `Bytes` returns are that buffer, so zeroing the seed clears both |
| `Seed.GenerateCustom` | hdwrap/seed.go:39-49 | fails (EOF or UnexpectedEOF) iff the source has fewer than randLen bytes; otherwise the 64-byte SHA-512 of the first randLen bytes followed by extraRand |
| `Seed.GenerateCustomReadsOnlyRandLen` | hdwrap/seed.go:41-42 | sources that agree on their first randLen bytes give the same seed |
| `Seed.LayoutAt` | hdwrap/seed.go:124-131 | word i appears unchanged at its offset, in order, followed by its separator (Go's wrapped test); the text is exactly words plus separators |
| `Seed.SeparatorWithoutOverflow` | hdwrap/seed.go:126-130 | when i+wordsPerLine+1 fits Go's `int`, a newline follows word i iff (i+1) mod wordsPerLine is 0, a space otherwise |
| `Seed.SeparatorWrapsAtMaxInt` | hdwrap/seed.go:126-130 | with wordsPerLine = 2^63-1 the sum wraps and a newline follows the second word |
| `Seed.PrintMnemonic` | hdwrap/seed.go:119-132 | the loop, with Go's 64-bit wrap of i+wordsPerLine+1, writes exactly that layout; panics when wordsPerLine is not positive (precondition); wordsPerLine is a Go `int` |
| `Btc.Params` | hdwrap/btc.go:51-54 | TestNet3 parameters iff the flag is set |
| `Btc.ChildNumber` | hdwrap/btc.go:118 | uint32(index) is the index itself on [0, 2^32) |
| `Btc.ChildNumberWraps` | hdwrap/btc.go:118 | indices equal modulo 2^32 give the same child number; an index in [-2^31, 0) becomes index + 2^32, a hardened number |
| `Btc.Import` | hdwrap/btc.go:34-46 | succeeds iff parsing succeeds and the key is private when a private key is demanded; parse errors pass unchanged, otherwise the error is NotAPrivateKey |
| `Btc.Checksum` | hdwrap/btc.go:156-158 | 4 bytes of the double SHA-256 |
| `Btc.CheckPayload` | hdwrap/btc.go:154-159 | prefix ‖ val ‖ checksum(prefix ‖ val), len(prefix)+len(val)+4 bytes |
| `Btc.CheckPayloadRoundTrip` | hdwrap/btc.go:154-159 | every framed payload splits back into its prefix and value with a valid checksum |
| `Btc.SplitCheckPayloadSound` | hdwrap/btc.go:154-159 | every payload whose checksum is valid is the framing of its parts |
| `Btc.PubkeyPayload` | hdwrap/btc.go:146-152 | encodeBitcoinPubkey is Base58 of a len(prefix)+24 byte payload carrying the prefix and RIPEMD160(SHA256(compressed point)) |
| `Btc.ErrorsComeWithEmptyString` | hdwrap/btc.go:65-113 | every failing output is "" with the error; the master private key never fails |
| `Btc.ChildOutputsShareChild` | hdwrap/btc.go:117-144 | private and public child outputs come from the same child of the same stored key; indices equal modulo 2^32 give equal outputs, including equal `"", err` when the derivation fails |
| `Btc.ChildAddressLayout` | hdwrap/btc.go:102-113 | a child address is Base58 of 25 bytes: 0x6f iff testnet (else 0x00), HASH160 of the child point, checksum |
| `Btc.BtcKey.constructor` | hdwrap/btc.go:18-21 | no key, flag off |
| `Btc.BtcKey.SetTestNet` | hdwrap/btc.go:28-30 | sets the flag; the key is unchanged |
| `Btc.BtcKey.FromString` | hdwrap/btc.go:34-46 | returns Import's error; the key is replaced only on success |
| `Btc.BtcKey.FromSeed` | hdwrap/btc.go:50-61 | master key built with the parameters of the flag at this call; key untouched on error |
| `Btc.BtcKey.GetMasterPub` | hdwrap/btc.go:65-72 | the neutered stored key, serialized; depends on the stored key only |
| `Btc.BtcKey.GetMasterPriv` | hdwrap/btc.go:76-78 | the stored key, serialized; depends on the stored key only |
| `Btc.BtcKey.GetChildPrivKey` | hdwrap/btc.go:82-98 | compressed WIF of the child with the current flag's parameters |
| `Btc.BtcKey.GetChildPubKey` | hdwrap/btc.go:102-113 | address of the child with the current flag's version byte |
| `Btc.BtcKey.GetChildPrivKeyBtc` | hdwrap/btc.go:117-128 | private key of Child(uint32(index)) |
| `Btc.BtcKey.GetChildPubKeyBtc` | hdwrap/btc.go:132-144 | public key of Child(uint32(index)) |
| `Btc.SeedThenTestNet` | main.go:449-453 | seeding and then setting the flag leaves a MainNet master key with the flag on |
| `Zec.AddressPrefix` | hdwrap/zec.go:5-8 | {0x1d,0x25} iff testnet, {0x1c,0xb8} otherwise; never a P2SH prefix |
| `Zec.ChildAddressLayout` | hdwrap/zec.go:47-62 | a Zcash address is Base58 of 26 bytes: the network's two prefix bytes, the Bitcoin HASH160 of the child point, checksum; failures are "" |
| `Zec.ZecKey.constructor` | hdwrap/zec.go:11-14 | no inner key, flag off |
| `Zec.ZecKey.SetTestNet` | hdwrap/zec.go:20-23 | sets outer and inner flag; needs the inner key |
| `Zec.ZecKey.FromString` | hdwrap/zec.go:25-28 | fresh inner BtcKey with flag off, importing the string |
| `Zec.ZecKey.FromSeed` | hdwrap/zec.go:30-33 | fresh inner BtcKey with flag off: the master key always has MainNet parameters |
| `Zec.ZecKey.GetMasterPub` | hdwrap/zec.go:35-37 | the inner key's result |
| `Zec.ZecKey.GetMasterPriv` | hdwrap/zec.go:39-41 | the inner key's result |
| `Zec.ZecKey.GetChildPrivKey` | hdwrap/zec.go:43-45 | the inner key's Bitcoin WIF, with the inner flag |
| `Zec.ZecKey.GetChildPubKey` | hdwrap/zec.go:47-58 | the inner child point with the outer flag's Zcash prefix |
| `Eth.ChildPrivHexRoundTrip` | hdwrap/eth.go:43-49 | the child private key is 64 lowercase hex digits that decode to the 32-byte scalar; failures are "" |
| `Eth.ChildAddressOutcome` | hdwrap/eth.go:51-62 | the child address is go-ethereum's encoding of the child point; it fails exactly when the point cannot be derived, and then it is "" with the error |
| `Eth.EthKey.constructor` | hdwrap/eth.go:11-14 | no inner key, flag off |
| `Eth.EthKey.SetTestNet` | hdwrap/eth.go:20-23 | outer and inner flags equal afterwards; needs the inner key |
| `Eth.EthKey.FromString` | hdwrap/eth.go:25-28 | fresh inner BtcKey with flag off; its error unchanged |
| `Eth.EthKey.FromSeed` | hdwrap/eth.go:30-33 | fresh inner BtcKey with flag off: MainNet master key |
| `Eth.EthKey.GetMasterPub` | hdwrap/eth.go:35-37 | the inner key's Bitcoin-formatted extended public key |
| `Eth.EthKey.GetMasterPriv` | hdwrap/eth.go:39-41 | the inner key's Bitcoin-formatted extended private key |
| `Eth.EthKey.GetChildPrivKey` | hdwrap/eth.go:43-49 | hex of the serialized child scalar |
| `Eth.EthKey.GetChildPubKey` | hdwrap/eth.go:51-62 | go-ethereum's address of the child point, the same for either flag value |
| `Dcr.Params` | hdwrap/dcr.go:41-44 | TestNet2 parameters iff the flag is set |
| `Dcr.ChildOutputs` | hdwrap/dcr.go:53-105 | child failures are ""; the master public key is the serializer's result on the neutered key; a child WIF or address is the encoder's result for TestNet2 when the flag is set and for MainNet otherwise; indices equal modulo 2^32 give equal outputs |
| `Dcr.DcrKey.constructor` | hdwrap/dcr.go:12-15 | no key, flag off |
| `Dcr.DcrKey.SetTestNet` | hdwrap/dcr.go:21-23 | sets the flag; the key is unchanged |
| `Dcr.DcrKey.FromString` | hdwrap/dcr.go:25-38 | public key refused when a private one is demanded; the key is assigned only on success |
| `Dcr.DcrKey.FromSeed` | hdwrap/dcr.go:40-51 | TestNet2 parameters iff the flag is set at this call; key untouched on error |
| `Dcr.DcrKey.GetMasterPub` | hdwrap/dcr.go:53-60 | neuter, then the serializer's (string, error) |
| `Dcr.DcrKey.GetMasterPriv` | hdwrap/dcr.go:62-64 | the serializer's (string, error) |
| `Dcr.DcrKey.GetChildPrivKey` | hdwrap/dcr.go:66-87 | secp256k1 WIF of the child with the current flag's parameters |
| `Dcr.DcrKey.GetChildPubKey` | hdwrap/dcr.go:89-105 | address of the child with the current flag's parameters |

## Left out

- Cryptography and library encodings: SHA-256, SHA-512, RIPEMD-160, Base58,
  BIP32 master-key generation, child derivation, neutering and serialization,
  WIF, Decred addresses and go-ethereum's address encoding are parameters. They
  are foreign code, and the model states only output lengths for them.
- `Generate`, `NewSeedFromFile` and `WriteToFile`: random-source and file I/O.
  `Generate` is `GenerateCustom` over crypto/rand with no extra bytes.
- `NewSeedFromWords`, `EncodeWords` and `Seed.String`: the walletseed mnemonic
  codec is foreign. `PrintMnemonic` takes its word list as input and returns the
  text it would print.
- The debug print in `DcrKey.FromString` and every other write to standard output.
- The `Type` methods of the engines are constants. `Facade.EmptyKey` states them.
  The interface's other seven operations are called on the engine objects
  themselves. `Facade.Key` does not dispatch them.
- `KeyTypes.ToLower`: lower-cases ASCII letters only. No other character
  lower-cases into a letter of "btc", "zec", "eth" or "dcr", so the lookup
  result is the same as with Unicode case mapping.
- `Seed.GenerateCustom`: takes `randLen` as a natural number, because Go's
  `make` panics on a negative length. The source is modelled as the bytes it
  yields before end of file. Read errors other than end of file are not modelled.
- Child indices are unbounded integers, not Go's 64-bit `int`. Only their low
  32 bits reach the library, so the result is the same.
- `ExtendedKey`: the library's key is opaque. The model keeps only whether it
  is private, which is all the package reads, and an identity that tells keys
  apart.
- The hex codec, `GenerateCustom` and the engines' `FromSeed` take a seed's
  contents as a value. Only `NewSeedFromBytes`, `Bytes` and `Zero` work on the
  shared buffer, because nothing else in the package writes to a seed.
